/**
  The pending-request counter of each session state (server/lib/cdpmonitor: handlers.go,
  network_capture.go, monitor.go), as atomic steps: one per critical section. The event
  handler is one goroutine, so at most one handler is part-way through; the TTL sweeper,
  finishers, capture preparation, telemetry changes and timers interleave freely with it.
*/
module RequestAccounting {
  import opened Collections
  import CS = ComputedStates

  /** CDP identities are opaque: only equality and being empty matter. */
  type Id = nat
  const EMPTY: Id := 0

  type StateId = nat

  datatype Key = Key(session: Id, request: Id)

  /** addedAt is None for the zero time, which every sweep finds expired. */
  datatype Request = Request(
    sessionID: Id,
    loaderID: Id,
    countedNavSeq: int,
    countedState: Option<StateId>,
    addedAt: Option<int>,
    hop: Option<nat>)

  /** What a Go map lookup yields for an absent key. */
  const ZERO_REQUEST := Request(EMPTY, EMPTY, 0, None, None, None)

  /** pendingRequestTTL, in seconds. */
  const TTL := 300

  type Registry = map<Key, Request>

  /** How far the event handler has got with its current event. */
  datatype Handler =
    | Idle
    | ReadRequest(key: Key, loader: Id, cs: Option<StateId>, nav: int)
    | Registered(key: Key, isNew: bool, cs: Option<StateId>, since: int)
    | Queued(key: Key, isNew: bool, cs: Option<StateId>, since: int)
    | ReadNavigation(session: Id, cs: Option<StateId>)
    | Detached(session: Id)

  /** states is every computedState ever allocated and owner the session each was made for;
      computed is the live table by session; taken holds requests removed from the registry whose accounting has not
      run yet. */
  datatype World = World(
    sessions: set<Id>,
    computed: map<Id, StateId>,
    states: map<StateId, CS.Machine>,
    owner: map<StateId, Id>,
    nextState: StateId,
    requests: Registry,
    taken: map<nat, Request>,
    nextTicket: nat,
    handler: Handler,
    clearing: bool,
    clock: int)

  // ---- What each critical section does to the registry ----

  function Lookup(computed: map<Id, StateId>, session: Id): Option<StateId> {
    if session in computed then Some(computed[session]) else None
  }

  /** currentNavSeq of the state, or -1 without one. */
  function NavOf(states: map<StateId, CS.Machine>, cs: Option<StateId>): int {
    if cs.Some? && cs.value in states then states[cs.value].navSeq else -1
  }

  /** A redirect reuses its request id: it keeps the accounting owner, the counted
      navigation and the age of the hop it replaces. */
  function RegisteredEntry(requests: Registry, key: Key, loader: Id, cs: Option<StateId>, nav: int, now: int): Request {
    if key in requests then
      var existing := requests[key];
      Request(key.session, loader, existing.countedNavSeq, existing.countedState, existing.addedAt, None)
    else
      Request(key.session, loader, nav, cs, Some(now), None)
  }

  function WithHop(requests: Registry, key: Key, hop: nat): Registry {
    var state := if key in requests then requests[key] else ZERO_REQUEST;
    requests[key := state.(hop := Some(hop))]
  }

  function Restamped(r: Request, session: Id, loader: Id, cs: Option<StateId>, nextSeq: int): Request {
    if r.sessionID != session then r
    else if cs.Some? && r.loaderID == loader then r.(countedNavSeq := nextSeq, countedState := cs)
    else r.(countedNavSeq := -1)
  }

  function Renavigated(requests: Registry, session: Id, loader: Id, cs: Option<StateId>, nextSeq: int): Registry {
    map k | k in requests :: Restamped(requests[k], session, loader, cs, nextSeq)
  }

  /** The requests of the new document that were already in flight. */
  function Inflight(requests: Registry, session: Id, loader: Id): set<Key> {
    set k | k in requests && requests[k].sessionID == session && requests[k].loaderID == loader
  }

  function OfSession(requests: Registry, session: Id): set<Key> {
    set k | k in requests && requests[k].sessionID == session
  }

  predicate IsExpired(r: Request, now: int) {
    r.addedAt.None? || now - r.addedAt.value > TTL
  }

  function ExpiredKeys(requests: Registry, now: int): set<Key> {
    set k | k in requests && IsExpired(requests[k], now)
  }

  /** finishNetworkRequest: only a request of the state's current navigation is accounted. */
  function Accounted(states: map<StateId, CS.Machine>, r: Request): map<StateId, CS.Machine> {
    if r.countedState.Some? && r.countedState.value in states
       && states[r.countedState.value].navSeq == r.countedNavSeq
    then states[r.countedState.value := CS.OnLoadingFinished(states[r.countedState.value])]
    else states
  }

  // ---- The interleaving ----

  /** The state is the one its session currently uses. */
  predicate InTable(w: World, c: StateId) {
    c in w.owner && w.owner[c] in w.computed && w.computed[w.owner[c]] == c
  }

  /** Page events that do not go through the request registry. */
  predicate IsPageEvent(e: CS.Event) {
    e.PageLoaded? || e.Shifted? || e.DomContentLoaded? || e.NetTimer? || e.LayoutTimer?
  }

  /** The key of a new request that is registered but not yet counted by onRequest. */
  function Uncounted(h: Handler): set<Key> {
    if (h.Registered? || h.Queued?) && h.isNew then {h.key} else {}
  }

  function Take(w: World, key: Key): World
    requires key in w.requests
  {
    w.(requests := w.requests - {key},
       taken := w.taken[w.nextTicket := w.requests[key]],
       nextTicket := w.nextTicket + 1)
  }

  // Each step changes nothing when it is not enabled.

  function Attach(w: World, session: Id): World {
    if w.handler.Idle? && session != EMPTY then w.(sessions := w.sessions + {session}) else w
  }

  function PrepareCapture(w: World, session: Id): World {
    if session in w.sessions && session !in w.computed && !w.clearing then
      w.(computed := w.computed[session := w.nextState],
         states := w.states[w.nextState := CS.NewMachine()],
         owner := w.owner[w.nextState := session],
         nextState := w.nextState + 1)
    else w
  }

  function BeginRequest(w: World, key: Key, loader: Id): World {
    if w.handler.Idle? then
      var cs := Lookup(w.computed, key.session);
      w.(handler := ReadRequest(key, loader, cs, NavOf(w.states, cs)))
    else w
  }

  function Register(w: World): World {
    if w.handler.ReadRequest? then
      var h := w.handler;
      var entry := RegisteredEntry(w.requests, h.key, h.loader, h.cs, h.nav, w.clock);
      w.(requests := w.requests[h.key := entry],
         handler := Registered(h.key, h.key !in w.requests, entry.countedState, w.clock))
    else w
  }

  function QueueHop(w: World, hop: nat): World {
    if w.handler.Registered? then
      w.(requests := WithHop(w.requests, w.handler.key, hop),
         handler := Queued(w.handler.key, w.handler.isNew, w.handler.cs, w.handler.since))
    else w
  }

  function CountRequest(w: World): World {
    if w.handler.Queued? then
      var h := w.handler;
      if h.isNew && h.cs.Some? && h.cs.value in w.states then
        w.(handler := Idle, states := w.states[h.cs.value := CS.OnRequest(w.states[h.cs.value])])
      else w.(handler := Idle)
    else w
  }

  function TakeFinished(w: World, key: Key): World {
    if w.handler.Idle? && key in w.requests then Take(w, key) else w
  }

  function TakeExpired(w: World, key: Key): World {
    if key in w.requests && IsExpired(w.requests[key], w.clock) then Take(w, key) else w
  }

  function Account(w: World, ticket: nat): World {
    if ticket in w.taken then
      w.(taken := w.taken - {ticket}, states := Accounted(w.states, w.taken[ticket]))
    else w
  }

  /** Only a tracked page target owns top-level navigation state. */
  function BeginNavigation(w: World, session: Id): World {
    if w.handler.Idle? && session in w.sessions then
      w.(handler := ReadNavigation(session, Lookup(w.computed, session)))
    else w
  }

  function CommitNavigation(w: World, loader: Id): World {
    if w.handler.ReadNavigation? then
      var h := w.handler;
      var requests := Renavigated(w.requests, h.session, loader, h.cs, NavOf(w.states, h.cs) + 1);
      if h.cs.Some? && h.cs.value in w.states then
        var inflight := |Inflight(w.requests, h.session, loader)|;
        w.(handler := Idle, requests := requests,
           states := w.states[h.cs.value := CS.ResetOnNavigation(w.states[h.cs.value], inflight)])
      else w.(handler := Idle, requests := requests)
    else w
  }

  function DetachSession(w: World, session: Id): World {
    if w.handler.Idle? then
      w.(sessions := w.sessions - {session}, computed := w.computed - {session}, handler := Detached(session))
    else w
  }

  function DetachRequests(w: World): World {
    if w.handler.Detached? then
      w.(requests := w.requests - OfSession(w.requests, w.handler.session), handler := Idle)
    else w
  }

  function BeginClear(w: World, dropSessions: bool): World {
    w.(sessions := if dropSessions then {} else w.sessions, computed := map[], clearing := true)
  }

  function CommitClear(w: World): World {
    if w.clearing then w.(requests := map[], clearing := false) else w
  }

  /** Only a state already removed from the table is ever stopped. */
  function StopState(w: World, id: StateId): World {
    if id in w.states && !InTable(w, id) then
      w.(states := w.states[id := CS.Stop(w.states[id])])
    else w
  }

  function PageStep(w: World, id: StateId, event: CS.Event): World {
    if id in w.states && IsPageEvent(event) then
      w.(states := w.states[id := CS.Step(w.states[id], event).machine])
    else w
  }

  /** A handler needs at most limit seconds from registering a request to counting it. */
  function Tick(w: World, seconds: nat, limit: nat): World {
    if Uncounted(w.handler) != {} && w.clock + seconds - w.handler.since > limit then w
    else w.(clock := w.clock + seconds)
  }

  datatype Event =
    | EvAttach(session: Id)
    | EvPrepareCapture(session: Id)
    | EvBeginRequest(key: Key, loader: Id)
    | EvRegister
    | EvQueueHop(hop: nat)
    | EvCountRequest
    | EvTakeFinished(key: Key)
    | EvTakeExpired(key: Key)
    | EvAccount(ticket: nat)
    | EvBeginNavigation(session: Id)
    | EvCommitNavigation(loader: Id)
    | EvDetachSession(session: Id)
    | EvDetachRequests
    | EvBeginClear(dropSessions: bool)
    | EvCommitClear
    | EvStopState(id: StateId)
    | EvPage(id: StateId, event: CS.Event)
    | EvTick(seconds: nat)

  function Step(w: World, e: Event, limit: nat): World {
    match e
    case EvAttach(session) => Attach(w, session)
    case EvPrepareCapture(session) => PrepareCapture(w, session)
    case EvBeginRequest(key, loader) => BeginRequest(w, key, loader)
    case EvRegister => Register(w)
    case EvQueueHop(hop) => QueueHop(w, hop)
    case EvCountRequest => CountRequest(w)
    case EvTakeFinished(key) => TakeFinished(w, key)
    case EvTakeExpired(key) => TakeExpired(w, key)
    case EvAccount(ticket) => Account(w, ticket)
    case EvBeginNavigation(session) => BeginNavigation(w, session)
    case EvCommitNavigation(loader) => CommitNavigation(w, loader)
    case EvDetachSession(session) => DetachSession(w, session)
    case EvDetachRequests => DetachRequests(w)
    case EvBeginClear(dropSessions) => BeginClear(w, dropSessions)
    case EvCommitClear => CommitClear(w)
    case EvStopState(id) => StopState(w, id)
    case EvPage(id, event) => PageStep(w, id, event)
    case EvTick(seconds) => Tick(w, seconds, limit)
  }

  const INITIAL := World({}, map[], map[], map[], 0, map[], map[], 0, Idle, false, 0)

  // ---- The invariant ----

  predicate IsCounted(r: Request, c: StateId, nav: int) {
    r.countedState == Some(c) && r.countedNavSeq == nav
  }

  function Owned<K>(m: map<K, Request>, c: StateId, nav: int): set<K> {
    set k | k in m && IsCounted(m[k], c, nav)
  }

  /** Requests owed to state c at navigation nav: registered ones already counted, and taken
      ones whose accounting has not run. */
  function OwedIn(requests: Registry, taken: map<nat, Request>, uncounted: set<Key>, c: StateId, nav: int): nat {
    |Owned(requests, c, nav) - uncounted| + |Owned(taken, c, nav)|
  }

  function Owed(w: World, c: StateId): nat
    requires c in w.states
  {
    OwedIn(w.requests, w.taken, Uncounted(w.handler), c, w.states[c].navSeq)
  }

  /** Inside the table the counter is exact; a state that has left the table and is about to
      be stopped may only be too high, never too low. */
  predicate CounterRight(w: World, c: StateId)
    requires c in w.states
  {
    && (!w.states[c].dead ==> w.states[c].netPending >= Owed(w, c))
    && (InTable(w, c) ==> w.states[c].netPending == Owed(w, c))
  }

  predicate CountersRight(w: World) {
    forall c :: c in w.states ==> CounterRight(w, c)
  }

  predicate TableOk(w: World) {
    && w.computed.Keys <= w.sessions
    && EMPTY !in w.sessions
    && (w.clearing ==> w.computed == map[])
    && w.owner.Keys == w.states.Keys
    && (forall s :: s in w.computed ==>
          && w.computed[s] in w.states && w.owner[w.computed[s]] == s
          && !w.states[w.computed[s]].dead)
    && (forall c :: c in w.states ==> c < w.nextState)
    && (forall t :: t in w.taken ==> t < w.nextTicket)
  }

  /** A request names a state of its own session, and no navigation that state has not reached. */
  predicate EntryOk(w: World, r: Request) {
    r.countedState.Some? ==>
      && r.countedState.value in w.states
      && r.countedState.value in w.owner
      && w.owner[r.countedState.value] == r.sessionID
      && r.countedNavSeq <= w.states[r.countedState.value].navSeq
  }

  predicate RequestsOk(w: World) {
    && (forall k :: k in w.requests ==> EntryOk(w, w.requests[k]))
    && (forall k :: k in w.requests ==>
          w.requests[k].sessionID == k.session || w.requests[k] == ZERO_REQUEST.(hop := w.requests[k].hop))
    && (forall t :: t in w.taken ==> EntryOk(w, w.taken[t]))
  }

  /** The state a handler read for a session, whatever has happened since. */
  predicate ReadOk(w: World, session: Id, cs: Option<StateId>) {
    cs.Some? ==> cs.value in w.states && cs.value in w.owner && w.owner[cs.value] == session
  }

  /** What the event handler still knows after any interleaving with the others. */
  predicate HandlerOk(w: World) {
    match w.handler
    case Idle => true
    case ReadRequest(key, _, cs, nav) =>
      && ReadOk(w, key.session, cs)
      && (cs.Some? ==> nav == w.states[cs.value].navSeq)
    case ReadNavigation(session, cs) =>
      && session != EMPTY
      && ReadOk(w, session, cs)
      && (forall k :: k in w.requests ==> HeldByReader(w, w.requests[k], session, cs))
    case Detached(session) => session !in w.sessions
    case Registered(key, isNew, cs, since) => isNew ==> FreshOk(w, key, cs, since)
    case Queued(key, isNew, cs, since) => isNew ==> FreshOk(w, key, cs, since)
  }

  /** A request of the navigating session that counts towards a table state counts towards
      the state the handler read. */
  predicate HeldByReader(w: World, r: Request, session: Id, cs: Option<StateId>) {
    r.sessionID == session && r.countedState.Some? && InTable(w, r.countedState.value) ==> r.countedState == cs
  }

  predicate FreshOk(w: World, key: Key, cs: Option<StateId>, since: int) {
    && ReadOk(w, key.session, cs)
    && since <= w.clock <= since + TTL
    && (key in w.requests && w.requests[key].countedState.Some? ==>
          w.requests[key].countedState == cs && w.requests[key].addedAt == Some(since))
    && (cs.Some? && InTable(w, cs.value) ==>
          key in w.requests && IsCounted(w.requests[key], cs.value, w.states[cs.value].navSeq))
  }

  predicate Shape(w: World) {
    TableOk(w) && RequestsOk(w) && HandlerOk(w)
  }

  predicate Inv(w: World) {
    Shape(w) && CountersRight(w)
  }

  // ---- Set bookkeeping ----

  /** Replacing or adding an entry that counts exactly when the old one did. */
  lemma OwedReplace(requests: Registry, taken: map<nat, Request>, un: set<Key>, key: Key, r: Request, c: StateId,
      nav: int)
    requires IsCounted(r, c, nav) <==> key in requests && IsCounted(requests[key], c, nav)
    ensures OwedIn(requests[key := r], taken, un, c, nav) == OwedIn(requests, taken, un, c, nav)
  {
    assert Owned(requests[key := r], c, nav) == Owned(requests, c, nav);
  }

  lemma OwedNew(requests: Registry, taken: map<nat, Request>, key: Key, r: Request, c: StateId, nav: int)
    requires key !in requests
    ensures OwedIn(requests[key := r], taken, {key}, c, nav) == OwedIn(requests, taken, {}, c, nav)
  {
    assert Owned(requests[key := r], c, nav) - {key} == Owned(requests, c, nav) - {};
  }

  lemma OwedCounted(requests: Registry, taken: map<nat, Request>, key: Key, c: StateId, nav: int)
    ensures OwedIn(requests, taken, {}, c, nav) ==
      OwedIn(requests, taken, {key}, c, nav) + (if key in requests && IsCounted(requests[key], c, nav) then 1 else 0)
  {
    RemoveSize(Owned(requests, c, nav), key);
    assert Owned(requests, c, nav) - {} == Owned(requests, c, nav);
  }

  lemma OwnedLess(requests: Registry, un: set<Key>, key: Key, c: StateId, nav: int)
    requires key in requests
    requires IsCounted(requests[key], c, nav) ==> key !in un
    ensures |Owned(requests - {key}, c, nav) - un| ==
      |Owned(requests, c, nav) - un| - (if IsCounted(requests[key], c, nav) then 1 else 0)
  {
    RemoveSize(Owned(requests, c, nav) - un, key);
    assert Owned(requests - {key}, c, nav) - un == (Owned(requests, c, nav) - un) - {key};
  }

  lemma OwnedMore(taken: map<nat, Request>, ticket: nat, r: Request, c: StateId, nav: int)
    requires ticket !in taken
    ensures |Owned(taken[ticket := r], c, nav)| == |Owned(taken, c, nav)| + (if IsCounted(r, c, nav) then 1 else 0)
  {
    assert Owned(taken[ticket := r], c, nav) == Owned(taken, c, nav) + (if IsCounted(r, c, nav) then {ticket} else {});
  }

  lemma OwedTake(requests: Registry, taken: map<nat, Request>, un: set<Key>, key: Key, ticket: nat, c: StateId,
      nav: int)
    requires key in requests && ticket !in taken
    requires IsCounted(requests[key], c, nav) ==> key !in un
    ensures OwedIn(requests - {key}, taken[ticket := requests[key]], un, c, nav) == OwedIn(requests, taken, un, c, nav)
  {
    hide Owned;
    OwnedLess(requests, un, key, c, nav);
    OwnedMore(taken, ticket, requests[key], c, nav);
  }

  lemma OwedAccount(requests: Registry, taken: map<nat, Request>, un: set<Key>, ticket: nat, c: StateId, nav: int)
    requires ticket in taken
    ensures OwedIn(requests, taken - {ticket}, un, c, nav) ==
      OwedIn(requests, taken, un, c, nav) - (if IsCounted(taken[ticket], c, nav) then 1 else 0)
  {
    RemoveSize(Owned(taken, c, nav), ticket);
    assert Owned(taken - {ticket}, c, nav) == Owned(taken, c, nav) - {ticket};
  }

  lemma OwedShrinks(before: Registry, after: Registry, taken: map<nat, Request>, un: set<Key>, c: StateId, nav: int)
    requires Owned(after, c, nav) <= Owned(before, c, nav)
    ensures OwedIn(after, taken, un, c, nav) <= OwedIn(before, taken, un, c, nav)
  {
    SubsetSize(Owned(after, c, nav) - un, Owned(before, c, nav) - un);
  }

  // ---- Shape, one event at a time ----

  /** States only come to exist and navigations only advance. */
  predicate Advanced(w: World, v: World) {
    && w.states.Keys <= v.states.Keys
    && (forall c :: c in w.owner ==> c in v.owner && v.owner[c] == w.owner[c])
    && (forall c :: c in w.states && c in v.states ==> w.states[c].navSeq <= v.states[c].navSeq)
  }

  lemma EntryFrame(w: World, v: World, r: Request)
    requires Advanced(w, v) && EntryOk(w, r)
    ensures EntryOk(v, r)
  {
  }

  lemma PrepareCaptureShape(w: World, session: Id)
    requires Shape(w)
    ensures Shape(PrepareCapture(w, session))
  {
    var v := PrepareCapture(w, session);
    if v != w {
      assert w.nextState !in w.states;
      assert TableOk(v);
      forall k | k in v.requests ensures EntryOk(v, v.requests[k]) {
        EntryFrame(w, v, w.requests[k]);
      }
      forall t | t in v.taken ensures EntryOk(v, v.taken[t]) {
        EntryFrame(w, v, w.taken[t]);
      }
      PrepareCaptureHandler(w, session);
    }
  }

  lemma PrepareCaptureHandler(w: World, session: Id)
    requires Shape(w)
    ensures HandlerOk(PrepareCapture(w, session))
  {
    var v := PrepareCapture(w, session);
    if v != w {
      assert w.nextState !in w.owner;
      forall c | c != w.nextState ensures InTable(v, c) ==> InTable(w, c) {
      }
    }
  }

  lemma AttachShape(w: World, session: Id)
    requires Shape(w)
    ensures Shape(Attach(w, session))
  {
  }

  lemma DetachShape(w: World, session: Id)
    requires Shape(w)
    ensures Shape(DetachSession(w, session))
    ensures Shape(DetachRequests(w))
  {
  }

  lemma BeginRequestShape(w: World, key: Key, loader: Id)
    requires Shape(w)
    ensures Shape(BeginRequest(w, key, loader))
  {
    assert ReadOk(w, key.session, Lookup(w.computed, key.session));
  }

  lemma BeginNavigationShape(w: World, session: Id)
    requires Shape(w)
    ensures Shape(BeginNavigation(w, session))
  {
    assert ReadOk(w, session, Lookup(w.computed, session));
  }

  lemma TickShape(w: World, seconds: nat, limit: nat)
    requires Shape(w) && limit <= TTL
    ensures Shape(Tick(w, seconds, limit))
  {
  }

  lemma RegisterShape(w: World)
    requires Shape(w)
    ensures Shape(Register(w))
  {
    if w.handler.ReadRequest? {
      var h := w.handler;
      assert EntryOk(w, Register(w).requests[h.key]);
    }
  }

  lemma QueueHopShape(w: World, hop: nat)
    requires Shape(w)
    ensures Shape(QueueHop(w, hop))
  {
    if w.handler.Registered? {
      assert EntryOk(w, QueueHop(w, hop).requests[w.handler.key]);
    }
  }

  lemma TakeShape(w: World, key: Key)
    requires Shape(w) && key in w.requests && (w.handler.Idle? || IsExpired(w.requests[key], w.clock))
    ensures Shape(Take(w, key))
  {
  }

  lemma BeginClearShape(w: World, dropSessions: bool)
    requires Shape(w)
    ensures Shape(BeginClear(w, dropSessions))
  {
  }

  lemma CommitClearShape(w: World)
    requires Shape(w)
    ensures Shape(CommitClear(w))
  {
  }

  predicate SameCounter(m: CS.Machine, n: CS.Machine) {
    n.navSeq == m.navSeq && n.netPending == m.netPending && n.dead == m.dead
  }

  lemma CallbackFrame(m: CS.Machine, nav: nat)
    ensures SameCounter(m, CS.NetIdleCallback(m, nav).machine)
    ensures SameCounter(m, CS.LayoutCallback(m, nav).machine)
    ensures SameCounter(m, CS.OnDomContentLoaded(m).machine)
  {
  }

  lemma PageEventFrame(m: CS.Machine, e: CS.Event)
    requires IsPageEvent(e)
    ensures SameCounter(m, CS.Step(m, e).machine)
  {
    hide CS.NetIdleCallback, CS.LayoutCallback, CS.OnDomContentLoaded;
    match e {
      case NetTimer(nav, current) => CallbackFrame(m, nav); CallbackFrame(m.(netTimer := None), nav);
      case LayoutTimer(nav, current) => CallbackFrame(m, nav); CallbackFrame(m.(layoutTimer := None), nav);
      case DomContentLoaded => CallbackFrame(m, 0);
      case PageLoaded =>
      case Shifted =>
    }
  }

  /** onRequest and onLoadingFinished touch the counter only, and only of a running state. */
  lemma CountFacts(m: CS.Machine)
    ensures var n := CS.OnRequest(m);
      n.navSeq == m.navSeq && n.dead == m.dead && n.netPending == if m.dead then m.netPending else m.netPending + 1
    ensures var n := CS.OnLoadingFinished(m);
      n.navSeq == m.navSeq && n.dead == m.dead
      && (m.netPending >= 1 ==> n.netPending == if m.dead then m.netPending else m.netPending - 1)
  {
  }

  /** Replacing one machine by another on the same navigation. */
  lemma MachineShape(w: World, id: StateId, m: CS.Machine)
    requires Shape(w) && id in w.states && m.navSeq == w.states[id].navSeq
    requires m.dead ==> w.states[id].dead || !InTable(w, id)
    ensures Shape(w.(states := w.states[id := m]))
  {
  }

  lemma CountShape(w: World)
    requires Shape(w)
    ensures Shape(CountRequest(w))
  {
    hide CS.OnRequest;
    if w.handler.Queued? && w.handler.isNew && w.handler.cs.Some? {
      var c := w.handler.cs.value;
      CountFacts(w.states[c]);
      MachineShape(w, c, CS.OnRequest(w.states[c]));
    }
  }

  lemma AccountShape(w: World, ticket: nat)
    requires Shape(w) && ticket in w.taken
    ensures Shape(Account(w, ticket))
  {
    hide CS.OnLoadingFinished;
    var r := w.taken[ticket];
    var mid := w.(taken := w.taken - {ticket});
    assert Shape(mid);
    if r.countedState.Some? && w.states[r.countedState.value].navSeq == r.countedNavSeq {
      CountFacts(w.states[r.countedState.value]);
      MachineShape(mid, r.countedState.value, CS.OnLoadingFinished(w.states[r.countedState.value]));
    }
  }

  lemma RestampedOk(w: World, v: World, k: Key, loader: Id)
    requires Advanced(w, v) && w.handler.ReadNavigation? && k in w.requests && EntryOk(w, w.requests[k])
    requires ReadOk(w, w.handler.session, w.handler.cs)
    requires w.handler.cs.Some? ==> v.states[w.handler.cs.value].navSeq == NavOf(w.states, w.handler.cs) + 1
    ensures var h := w.handler;
      EntryOk(v, Restamped(w.requests[k], h.session, loader, h.cs, NavOf(w.states, h.cs) + 1))
  {
  }

  lemma ResetFacts(m: CS.Machine, inflight: nat)
    ensures var n := CS.ResetOnNavigation(m, inflight);
      n.navSeq == m.navSeq + 1 && n.netPending == inflight && n.dead == m.dead
  {
  }

  /** The state read by the handler moves to its next navigation. */
  function Navigated(w: World, requests: Registry, c: StateId, m: CS.Machine): World {
    w.(handler := Idle, requests := requests, states := w.states[c := m])
  }

  lemma NavigationAdvances(w: World, requests: Registry, c: StateId, m: CS.Machine)
    requires Shape(w) && c in w.states
    requires m.navSeq == w.states[c].navSeq + 1 && m.dead == w.states[c].dead
    ensures TableOk(Navigated(w, requests, c, m)) && Advanced(w, Navigated(w, requests, c, m))
  {
  }

  lemma IdleNavigation(w: World, requests: Registry)
    requires Shape(w)
    ensures var v := w.(handler := Idle, requests := requests); TableOk(v) && Advanced(w, v)
  {
  }

  lemma NavigatorKnows(w: World)
    requires Shape(w) && w.handler.ReadNavigation?
    ensures RequestsOk(w) && w.handler.session != EMPTY
    ensures ReadOk(w, w.handler.session, w.handler.cs)
    ensures w.handler.cs.Some? ==> w.handler.cs.value in w.states
  {
  }

  lemma NavigationShape(w: World, loader: Id)
    requires Shape(w)
    ensures Shape(CommitNavigation(w, loader))
  {
    hide TableOk, RequestsOk, Advanced, ReadOk, Renavigated, Inflight, CS.ResetOnNavigation;
    var v := CommitNavigation(w, loader);
    if w.handler.ReadNavigation? {
      NavigatorKnows(w);
      if w.handler.cs.Some? {
        var c := w.handler.cs.value;
        ResetFacts(w.states[c], |Inflight(w.requests, w.handler.session, loader)|);
        NavigationAdvances(w, v.requests, c, v.states[c]);
        assert v == Navigated(w, v.requests, c, v.states[c]);
      } else {
        IdleNavigation(w, v.requests);
      }
      NavigationEntries(w, v, loader);
    }
  }

  lemma NavigationEntries(w: World, v: World, loader: Id)
    requires RequestsOk(w) && Advanced(w, v) && w.handler.ReadNavigation? && w.handler.session != EMPTY
    requires ReadOk(w, w.handler.session, w.handler.cs)
    requires w.handler.cs.Some? ==> v.states[w.handler.cs.value].navSeq == NavOf(w.states, w.handler.cs) + 1
    requires v.taken == w.taken
    requires v.requests ==
      Renavigated(w.requests, w.handler.session, loader, w.handler.cs, NavOf(w.states, w.handler.cs) + 1)
    ensures RequestsOk(v)
  {
    forall k | k in v.requests ensures EntryOk(v, v.requests[k]) {
      RestampedOk(w, v, k, loader);
    }
    forall t | t in v.taken ensures EntryOk(v, v.taken[t]) {
      EntryFrame(w, v, w.taken[t]);
    }
  }

  // ---- Counters, one event at a time ----

  lemma PrepareCaptureCounters(w: World, session: Id)
    requires Inv(w)
    ensures CountersRight(PrepareCapture(w, session))
  {
    hide OwedIn;
    var v := PrepareCapture(w, session);
    if v != w {
      var n := w.nextState;
      assert n !in w.states;
      forall c | c in v.states ensures CounterRight(v, c) {
        if c == n {
          UnusedState(w, n);
        } else {
          assert CounterRight(w, c) && Owed(v, c) == Owed(w, c);
        }
      }
    }
  }

  lemma UnusedState(w: World, n: StateId)
    requires RequestsOk(w) && n !in w.states
    ensures OwedIn(w.requests, w.taken, Uncounted(w.handler), n, 0) == 0
  {
    assert Owned(w.requests, n, 0) == {} && Owned(w.taken, n, 0) == {};
  }

  /** A step that changes no request and no machine, and takes no state into the table. */
  lemma QuietCounters(w: World, v: World)
    requires CountersRight(w)
    requires v.states == w.states && v.requests == w.requests && v.taken == w.taken && v.owner == w.owner
    requires Uncounted(v.handler) == Uncounted(w.handler)
    requires forall s :: s in v.computed ==> s in w.computed && v.computed[s] == w.computed[s]
    ensures CountersRight(v)
  {
    hide OwedIn;
    forall c | c in w.states ensures CounterRight(v, c) {
      assert CounterRight(w, c);
    }
  }

  lemma AttachCounters(w: World, session: Id)
    requires CountersRight(w)
    ensures CountersRight(Attach(w, session))
  {
    hide CountersRight;
    QuietCounters(w, Attach(w, session));
  }

  lemma DetachCounters(w: World, session: Id)
    requires CountersRight(w)
    ensures CountersRight(DetachSession(w, session))
  {
    hide CountersRight;
    QuietCounters(w, DetachSession(w, session));
  }

  lemma BeginRequestCounters(w: World, key: Key, loader: Id)
    requires CountersRight(w)
    ensures CountersRight(BeginRequest(w, key, loader))
  {
    hide CountersRight, Lookup, NavOf;
    QuietCounters(w, BeginRequest(w, key, loader));
  }

  lemma BeginNavigationCounters(w: World, session: Id)
    requires CountersRight(w)
    ensures CountersRight(BeginNavigation(w, session))
  {
    hide CountersRight, Lookup;
    QuietCounters(w, BeginNavigation(w, session));
  }

  lemma TickCounters(w: World, seconds: nat, limit: nat)
    requires CountersRight(w)
    ensures CountersRight(Tick(w, seconds, limit))
  {
    hide CountersRight;
    QuietCounters(w, Tick(w, seconds, limit));
  }

  lemma RegisterCounters(w: World)
    requires CountersRight(w)
    ensures CountersRight(Register(w))
  {
    hide OwedIn;
    var v := Register(w);
    if w.handler.ReadRequest? {
      var key := w.handler.key;
      forall c | c in w.states ensures CounterRight(v, c) {
        var nav := w.states[c].navSeq;
        assert CounterRight(w, c);
        if key in w.requests {
          OwedReplace(w.requests, w.taken, {}, key, v.requests[key], c, nav);
        } else {
          OwedNew(w.requests, w.taken, key, v.requests[key], c, nav);
        }
      }
    }
  }

  lemma QueueHopCounters(w: World, hop: nat)
    requires CountersRight(w)
    ensures CountersRight(QueueHop(w, hop))
  {
    hide OwedIn;
    var v := QueueHop(w, hop);
    if w.handler.Registered? {
      var key := w.handler.key;
      forall c | c in w.states ensures CounterRight(v, c) {
        assert CounterRight(w, c);
        OwedReplace(w.requests, w.taken, Uncounted(w.handler), key, v.requests[key], c, w.states[c].navSeq);
      }
    }
  }

  /** What the handler knows when it counts the new request it registered. */
  lemma FreshKnows(w: World, c: StateId)
    requires HandlerOk(w) && TableOk(w) && w.handler.Queued? && w.handler.isNew && c in w.states
    ensures var r := w.handler;
      var counted := r.key in w.requests && IsCounted(w.requests[r.key], c, w.states[c].navSeq);
      && (counted ==> r.cs == Some(c))
      && (InTable(w, c) ==> !w.states[c].dead && (r.cs == Some(c) ==> counted))
  {
  }

  /** The request that is counted now is owed from now on, by the state the handler knows. */
  lemma CountedIsOwed(w: World, c: StateId)
    requires HandlerOk(w) && TableOk(w) && w.handler.Queued? && w.handler.isNew && c in w.states
    ensures var counted := w.handler.key in w.requests && IsCounted(w.requests[w.handler.key], c, w.states[c].navSeq);
      && OwedIn(w.requests, w.taken, {}, c, w.states[c].navSeq) == Owed(w, c) + (if counted then 1 else 0)
      && (counted ==> w.handler.cs == Some(c))
      && (InTable(w, c) ==> !w.states[c].dead && (w.handler.cs == Some(c) ==> counted))
  {
    hide OwedIn, HandlerOk, TableOk, InTable, FreshOk;
    OwedCounted(w.requests, w.taken, w.handler.key, c, w.states[c].navSeq);
    FreshKnows(w, c);
  }

  /** A redirect is not counted again. */
  lemma RedirectCounter(w: World, c: StateId)
    requires w.handler.Queued? && !w.handler.isNew && c in w.states && CounterRight(w, c)
    ensures c in CountRequest(w).states && CounterRight(CountRequest(w), c)
  {
    hide OwedIn;
    assert Owed(CountRequest(w), c) == Owed(w, c);
  }

  /** What counting does to one state and to what it owes. */
  lemma CountFor(w: World, c: StateId)
    requires w.handler.Queued? && w.handler.isNew && c in w.states
    ensures var v := CountRequest(w);
      && c in v.states && v.states[c].navSeq == w.states[c].navSeq && v.states[c].dead == w.states[c].dead
      && v.states[c].netPending ==
           w.states[c].netPending + (if w.handler.cs == Some(c) && !w.states[c].dead then 1 else 0)
      && Owed(v, c) == OwedIn(w.requests, w.taken, {}, c, w.states[c].navSeq)
  {
    hide OwedIn, CS.OnRequest;
    CountFacts(w.states[c]);
  }

  lemma CountRequestCounter(w: World, c: StateId)
    requires HandlerOk(w) && TableOk(w) && w.handler.Queued? && w.handler.isNew && c in w.states && CounterRight(w, c)
    ensures c in CountRequest(w).states && CounterRight(CountRequest(w), c)
  {
    hide OwedIn, Owed, HandlerOk, TableOk, InTable, FreshOk, IsCounted;
    CountFor(w, c);
    CountedIsOwed(w, c);
    TableUnchanged(w, CountRequest(w), c);
    hide CountRequest;
  }

  lemma CountRequestCounters(w: World)
    requires CountersRight(w) && HandlerOk(w) && TableOk(w)
    ensures CountersRight(CountRequest(w))
  {
    hide HandlerOk, TableOk, CounterRight, CS.OnRequest;
    if w.handler.Queued? {
      forall c | c in CountRequest(w).states ensures CounterRight(CountRequest(w), c) {
        assert c in w.states;
        if w.handler.isNew { CountRequestCounter(w, c); } else { RedirectCounter(w, c); }
      }
    }
  }

  lemma TableUnchanged(w: World, v: World, c: StateId)
    requires v.computed == w.computed && v.owner == w.owner
    ensures InTable(v, c) <==> InTable(w, c)
  {
  }

  lemma TakeCounters(w: World, key: Key)
    requires CountersRight(w) && HandlerOk(w) && w.nextTicket !in w.taken
    requires key in w.requests && (w.handler.Idle? || IsExpired(w.requests[key], w.clock))
    ensures CountersRight(Take(w, key))
  {
    hide OwedIn;
    var v := Take(w, key);
    forall c | c in w.states ensures CounterRight(v, c) {
      assert CounterRight(w, c);
      OwedTake(w.requests, w.taken, Uncounted(w.handler), key, w.nextTicket, c, w.states[c].navSeq);
    }
  }

  lemma AccountCounters(w: World, ticket: nat)
    requires CountersRight(w) && TableOk(w) && ticket in w.taken
    ensures CountersRight(Account(w, ticket))
  {
    hide OwedIn;
    var v := Account(w, ticket);
    forall c | c in w.states ensures CounterRight(v, c) {
      assert CounterRight(w, c);
      OwedAccount(w.requests, w.taken, Uncounted(w.handler), ticket, c, w.states[c].navSeq);
    }
  }

  lemma NavigationCounter(w: World, loader: Id, c: StateId)
    requires RequestsOk(w) && HandlerOk(w) && w.handler.ReadNavigation? && c in w.states && CounterRight(w, c)
    ensures c in CommitNavigation(w, loader).states && CounterRight(CommitNavigation(w, loader), c)
  {
    hide OwedIn, Renavigated, Inflight, CS.ResetOnNavigation, InTable, RequestsOk, HandlerOk;
    var v := CommitNavigation(w, loader);
    TableUnchanged(w, v, c);
    if w.handler.cs == Some(c) {
      NavigatedOwed(w, w.handler.session, loader, c);
      ResetFacts(w.states[c], |Inflight(w.requests, w.handler.session, loader)|);
    } else {
      OtherCounter(w, v.requests, loader, c, w.states[c].navSeq);
    }
  }

  lemma NavigationCounters(w: World, loader: Id)
    requires Inv(w)
    ensures CountersRight(CommitNavigation(w, loader))
  {
    hide RequestsOk, HandlerOk, TableOk, CounterRight, CS.ResetOnNavigation, Renavigated;
    if w.handler.ReadNavigation? {
      forall c | c in CommitNavigation(w, loader).states ensures CounterRight(CommitNavigation(w, loader), c) {
        assert c in w.states;
        NavigationCounter(w, loader, c);
      }
    }
  }

  /** The navigated state: exactly the restamped requests are owed, none of the taken ones. */
  lemma NavigatedOwed(w: World, session: Id, loader: Id, c: StateId)
    requires RequestsOk(w) && c in w.states
    ensures var nav := w.states[c].navSeq + 1;
      OwedIn(Renavigated(w.requests, session, loader, Some(c), nav), w.taken, {}, c, nav)
      == |Inflight(w.requests, session, loader)|
  {
    var nav := w.states[c].navSeq + 1;
    var requests := Renavigated(w.requests, session, loader, Some(c), nav);
    assert forall k :: k in w.requests ==> EntryOk(w, w.requests[k]);
    assert Owned(requests, c, nav) - {} == Inflight(w.requests, session, loader);
    assert Owned(w.taken, c, nav) == {};
  }

  /** Any other state: it can only lose requests, and a table state loses none. */
  lemma OtherCounter(w: World, requests: Registry, loader: Id, c: StateId, nav: int)
    requires HandlerOk(w) && w.handler.ReadNavigation? && w.handler.cs != Some(c) && nav >= 0
    requires requests ==
      Renavigated(w.requests, w.handler.session, loader, w.handler.cs, NavOf(w.states, w.handler.cs) + 1)
    ensures OwedIn(requests, w.taken, {}, c, nav) <= OwedIn(w.requests, w.taken, {}, c, nav)
    ensures InTable(w, c) ==> OwedIn(requests, w.taken, {}, c, nav) == OwedIn(w.requests, w.taken, {}, c, nav)
  {
    forall k | k in Owned(requests, c, nav) ensures k in Owned(w.requests, c, nav) {
    }
    OwedShrinks(w.requests, requests, w.taken, {}, c, nav);
    if InTable(w, c) {
      forall k | k in Owned(w.requests, c, nav) ensures k in Owned(requests, c, nav) {
        assert HeldByReader(w, w.requests[k], w.handler.session, w.handler.cs);
      }
      OwedShrinks(requests, w.requests, w.taken, {}, c, nav);
    }
  }

  lemma DetachRequestsCounters(w: World)
    requires Inv(w)
    ensures CountersRight(DetachRequests(w))
  {
    hide OwedIn, EntryOk;
    var v := DetachRequests(w);
    if w.handler.Detached? {
      forall c | c in w.states ensures CounterRight(v, c) {
        assert CounterRight(w, c);
        OwedShrinks(w.requests, v.requests, w.taken, {}, c, w.states[c].navSeq);
        if InTable(w, c) {
          DetachedElsewhere(w, c, w.states[c].navSeq);
        }
      }
    }
  }

  lemma DetachedElsewhere(w: World, c: StateId, nav: int)
    requires RequestsOk(w) && w.computed.Keys <= w.sessions && InTable(w, c)
    requires w.handler.Detached? && w.handler.session !in w.sessions
    ensures OwedIn(w.requests - OfSession(w.requests, w.handler.session), w.taken, {}, c, nav) ==
      OwedIn(w.requests, w.taken, {}, c, nav)
  {
    forall k | k in Owned(w.requests, c, nav) ensures k !in OfSession(w.requests, w.handler.session) {
      assert EntryOk(w, w.requests[k]);
    }
    assert Owned(w.requests - OfSession(w.requests, w.handler.session), c, nav) == Owned(w.requests, c, nav);
  }

  lemma ClearCounters(w: World, dropSessions: bool)
    requires CountersRight(w) && (w.clearing ==> w.computed == map[])
    ensures CountersRight(BeginClear(w, dropSessions))
    ensures CountersRight(CommitClear(w))
  {
    hide OwedIn;
    var v, u := BeginClear(w, dropSessions), CommitClear(w);
    forall c | c in w.states ensures CounterRight(v, c) && CounterRight(u, c) {
      assert CounterRight(w, c) && Owed(v, c) == Owed(w, c);
      if w.clearing {
        OwedShrinks(w.requests, map[], w.taken, Uncounted(w.handler), c, w.states[c].navSeq);
      }
    }
  }

  lemma MachineCounters(w: World, id: StateId, m: CS.Machine)
    requires CountersRight(w) && id in w.states
    requires m.navSeq == w.states[id].navSeq && m.netPending == w.states[id].netPending
    requires w.states[id].dead ==> m.dead
    ensures CountersRight(w.(states := w.states[id := m]))
  {
    hide OwedIn;
    var v := w.(states := w.states[id := m]);
    forall c | c in w.states ensures CounterRight(v, c) {
      assert CounterRight(w, c) && Owed(v, c) == Owed(w, c);
    }
  }

  // ---- Whole runs ----

  lemma HandlerStepKeeps(w: World, e: Event, limit: nat)
    requires Inv(w)
    requires e.EvRegister? || e.EvQueueHop? || e.EvCountRequest? || e.EvCommitNavigation? || e.EvDetachRequests?
    ensures Inv(Step(w, e, limit))
  {
    hide TableOk, RequestsOk, CountersRight, Register, QueueHop, CountRequest, CommitNavigation, DetachRequests;
    match e {
      case EvRegister => RegisterShape(w); RegisterCounters(w);
      case EvQueueHop(hop) => QueueHopShape(w, hop); QueueHopCounters(w, hop);
      case EvCountRequest => CountShape(w); CountRequestCounters(w);
      case EvCommitNavigation(loader) => NavigationShape(w, loader); NavigationCounters(w, loader);
      case EvDetachRequests => DetachShape(w, EMPTY); DetachRequestsCounters(w);
    }
  }

  lemma BeginStepKeeps(w: World, e: Event, limit: nat)
    requires Inv(w) && limit <= TTL
    requires e.EvAttach? || e.EvPrepareCapture? || e.EvBeginRequest? || e.EvBeginNavigation? || e.EvDetachSession?
      || e.EvTick?
    ensures Inv(Step(w, e, limit))
  {
    hide TableOk, RequestsOk, HandlerOk, CountersRight, Attach, PrepareCapture, BeginRequest, BeginNavigation,
      DetachSession, Tick;
    match e {
      case EvAttach(session) => AttachShape(w, session); AttachCounters(w, session);
      case EvPrepareCapture(session) => PrepareCaptureShape(w, session); PrepareCaptureCounters(w, session);
      case EvBeginRequest(key, loader) => BeginRequestShape(w, key, loader); BeginRequestCounters(w, key, loader);
      case EvBeginNavigation(session) => BeginNavigationShape(w, session); BeginNavigationCounters(w, session);
      case EvDetachSession(session) => DetachShape(w, session); DetachCounters(w, session);
      case EvTick(seconds) => TickShape(w, seconds, limit); TickCounters(w, seconds, limit);
    }
  }

  /** The nextTicket is unused and a cleared table stays empty until the clear commits. */
  lemma TableFacts(w: World)
    requires TableOk(w)
    ensures w.nextTicket !in w.taken && (w.clearing ==> w.computed == map[])
    ensures forall c :: c in w.states && InTable(w, c) ==> !w.states[c].dead
  {
  }

  lemma OtherStepKeeps(w: World, e: Event, limit: nat)
    requires Inv(w)
    requires e.EvTakeFinished? || e.EvTakeExpired? || e.EvAccount? || e.EvBeginClear? || e.EvCommitClear?
      || e.EvStopState? || e.EvPage?
    ensures Inv(Step(w, e, limit))
  {
    hide TableOk, RequestsOk, HandlerOk, CountersRight, Take, Account, BeginClear, CommitClear, CS.Step, IsPageEvent,
      InTable;
    TableFacts(w);
    match e {
      case EvTakeFinished(key) =>
        if w.handler.Idle? && key in w.requests { TakeShape(w, key); TakeCounters(w, key); }
      case EvTakeExpired(key) =>
        if key in w.requests && IsExpired(w.requests[key], w.clock) { TakeShape(w, key); TakeCounters(w, key); }
      case EvAccount(ticket) =>
        AccountAny(w, ticket);
      case EvBeginClear(dropSessions) => BeginClearShape(w, dropSessions); ClearCounters(w, dropSessions);
      case EvCommitClear => CommitClearShape(w); ClearCounters(w, false);
      case EvStopState(id) =>
        if id in w.states && !InTable(w, id) {
          MachineShape(w, id, CS.Stop(w.states[id]));
          MachineCounters(w, id, CS.Stop(w.states[id]));
        }
      case EvPage(id, event) =>
        if id in w.states && IsPageEvent(event) {
          PageEventFrame(w.states[id], event);
          MachineShape(w, id, CS.Step(w.states[id], event).machine);
          MachineCounters(w, id, CS.Step(w.states[id], event).machine);
        }
    }
  }

  lemma AccountAny(w: World, ticket: nat)
    requires Inv(w)
    ensures Inv(Account(w, ticket))
  {
    hide TableOk, RequestsOk, HandlerOk, CountersRight, Accounted;
    if ticket in w.taken {
      AccountShape(w, ticket);
      AccountCounters(w, ticket);
    }
  }

  ghost predicate Next(w: World, v: World, limit: nat) {
    exists e :: v == Step(w, e, limit)
  }

  /** A run: any interleaving of handler steps, sweeps, finishes, clears, stops and timers, in
      which no request waits for more than limit seconds to be counted. */
  ghost predicate IsRun(trace: seq<World>, limit: nat) {
    && |trace| > 0
    && trace[0] == INITIAL
    && forall i :: 0 <= i < |trace| - 1 ==> Next(trace[i], trace[i + 1], limit)
  }

  lemma NextKeeps(w: World, v: World, limit: nat)
    requires Inv(w) && Next(w, v, limit) && limit <= TTL
    ensures Inv(v)
  {
    hide Inv;
    var e :| v == Step(w, e, limit);
    hide Step;
    if e.EvRegister? || e.EvQueueHop? || e.EvCountRequest? || e.EvCommitNavigation? || e.EvDetachRequests? {
      HandlerStepKeeps(w, e, limit);
    } else if e.EvTakeFinished? || e.EvTakeExpired? || e.EvAccount? || e.EvBeginClear? || e.EvCommitClear?
      || e.EvStopState? || e.EvPage? {
      OtherStepKeeps(w, e, limit);
    } else {
      BeginStepKeeps(w, e, limit);
    }
  }

  lemma {:induction false} RunInv(trace: seq<World>, limit: nat)
    requires IsRun(trace, limit) && limit <= TTL
    ensures Inv(trace[|trace| - 1])
  {
    hide Next;
    if |trace| == 1 {
      assert Inv(INITIAL);
    } else {
      hide Inv;
      var n := |trace| - 1;
      var before := trace[..n];
      RunInv(before, limit);
      assert before[n - 1] == trace[n - 1] && Next(trace[n - 1], trace[n - 1 + 1], limit);
      NextKeeps(trace[n - 1], trace[n], limit);
    }
  }

  /** The session's state counts exactly the requests of its navigation that are registered, or
      taken and not accounted. */
  predicate IsExact(w: World, session: Id) {
    session in w.computed ==>
      var c := w.computed[session];
      && c in w.states
      && w.states[c].netPending == |Owned(w.requests, c, w.states[c].navSeq)| + |Owned(w.taken, c, w.states[c].navSeq)|
  }

  lemma InvIsExact(w: World, session: Id)
    requires TableOk(w) && CountersRight(w) && w.handler.Idle?
    ensures IsExact(w, session)
  {
    hide Owned;
    if session in w.computed {
      var c := w.computed[session];
      assert CounterRight(w, c) && InTable(w, c);
      assert Owned(w.requests, c, w.states[c].navSeq) - {} == Owned(w.requests, c, w.states[c].navSeq);
    }
  }

  /** Between handler steps every counter is exact, in every run whose handler keeps up with
      the sweeper. */
  lemma CountersExact(trace: seq<World>, limit: nat, session: Id)
    requires IsRun(trace, limit) && limit <= TTL && trace[|trace| - 1].handler.Idle?
    ensures IsExact(trace[|trace| - 1], session)
  {
    hide Next, TableOk, RequestsOk, HandlerOk, CountersRight, IsExact;
    RunInv(trace, limit);
    InvIsExact(trace[|trace| - 1], session);
  }

  /** Whenever accounting lowers the counter of a running state, it lowers it from at least
      one: the clamp at zero is never used. */
  lemma ClampUnreachable(trace: seq<World>, limit: nat, ticket: nat)
    requires IsRun(trace, limit) && limit <= TTL
    requires var w := trace[|trace| - 1]; ticket in w.taken && w.taken[ticket].countedState.Some?
    ensures var w := trace[|trace| - 1]; var r := w.taken[ticket]; var c := r.countedState.value;
      && c in w.states
      && (!w.states[c].dead && w.states[c].navSeq == r.countedNavSeq ==> w.states[c].netPending >= 1)
  {
    RunInv(trace, limit);
    hide IsRun;
    var w := trace[|trace| - 1];
    var r := w.taken[ticket];
    var c := r.countedState.value;
    assert EntryOk(w, r);
    assert CounterRight(w, c);
    if w.states[c].navSeq == r.countedNavSeq {
      OwedAccount(w.requests, w.taken, Uncounted(w.handler), ticket, c, w.states[c].navSeq);
    }
  }

  /** When network_idle is decided between handler steps, no request of that session's
      current navigation is outstanding anywhere. */
  lemma IdleMeansNothingOutstanding(trace: seq<World>, limit: nat, session: Id, nav: nat)
    requires IsRun(trace, limit) && limit <= TTL
    requires var w := trace[|trace| - 1];
      && w.handler.Idle? && session in w.computed && w.computed[session] in w.states
      && CS.NetIdleCallback(w.states[w.computed[session]], nav).seen != []
    ensures var w := trace[|trace| - 1]; var c := w.computed[session];
      Owned(w.requests, c, nav) == {} && Owned(w.taken, c, nav) == {}
  {
    CountersExact(trace, limit, session);
    hide IsRun;
  }

  /** The four critical sections of one requestWillBeSent, nothing in between. */
  function WholeRequest(w: World, key: Key, loader: Id, hop: nat): World {
    CountRequest(QueueHop(Register(BeginRequest(w, key, loader)), hop))
  }

  /** The entry one requestWillBeSent leaves behind. */
  function FinalEntry(w: World, key: Key, loader: Id, hop: nat): Request {
    var cs := Lookup(w.computed, key.session);
    RegisteredEntry(w.requests, key, loader, cs, NavOf(w.states, cs), w.clock).(hop := Some(hop))
  }

  lemma WholeRequestResult(w: World, key: Key, loader: Id, hop: nat)
    requires w.handler.Idle?
    ensures var v := WholeRequest(w, key, loader, hop); var cs := Lookup(w.computed, key.session);
      && v.requests == w.requests[key := FinalEntry(w, key, loader, hop)]
      && v.taken == w.taken && v.computed == w.computed && v.owner == w.owner && v.handler.Idle?
      && v.states == if key !in w.requests && cs.Some? && cs.value in w.states
                     then w.states[cs.value := CS.OnRequest(w.states[cs.value])] else w.states
  {
    var u := Register(BeginRequest(w, key, loader));
    var entry := u.requests[key];
    assert WithHop(u.requests, key, hop) == w.requests[key := entry.(hop := Some(hop))];
  }

  lemma OwedGained(requests: Registry, taken: map<nat, Request>, key: Key, r: Request, c: StateId, nav: int)
    requires key !in requests
    ensures OwedIn(requests[key := r], taken, {}, c, nav) ==
      OwedIn(requests, taken, {}, c, nav) + (if IsCounted(r, c, nav) then 1 else 0)
  {
    OwedNew(requests, taken, key, r, c, nav);
    OwedCounted(requests[key := r], taken, key, c, nav);
  }

  /** A redirect moves no counter and no debt; a new request raises both by one for the
      state its session uses, and only for that one. */
  lemma RequestCountsOnce(w: World, key: Key, loader: Id, hop: nat, session: Id)
    requires Inv(w) && w.handler.Idle? && session in w.computed
    ensures var v := WholeRequest(w, key, loader, hop); var c := w.computed[session];
      && c in w.states && c in v.states && v.handler.Idle?
      && v.states[c].netPending == w.states[c].netPending
        + (if key !in w.requests && key.session == session then 1 else 0)
      && Owed(v, c) == Owed(w, c) + (if key !in w.requests && key.session == session then 1 else 0)
  {
    hide WholeRequest, OwedIn, RequestsOk, CountersRight;
    WholeRequestResult(w, key, loader, hop);
    var c := w.computed[session];
    var entry := FinalEntry(w, key, loader, hop);
    if key in w.requests {
      OwedReplace(w.requests, w.taken, {}, key, entry, c, w.states[c].navSeq);
    } else {
      OwedGained(w.requests, w.taken, key, entry, c, w.states[c].navSeq);
    }
  }

  // ---- When the handler is slower than the sweeper ----

  ghost predicate Reachable(w: World, limit: nat) {
    exists trace :: IsRun(trace, limit) && trace[|trace| - 1] == w
  }

  lemma Extend(w: World, e: Event, limit: nat) returns (v: World)
    requires Reachable(w, limit)
    ensures v == Step(w, e, limit) && Reachable(v, limit)
  {
    var trace :| IsRun(trace, limit) && trace[|trace| - 1] == w;
    hide Step;
    v := Step(w, e, limit);
    var longer := trace + [v];
    assert Next(w, v, limit);
    forall i | 0 <= i < |longer| - 1 ensures Next(longer[i], longer[i + 1], limit) {
      if i < |trace| - 1 { assert Next(trace[i], trace[i + 1], limit); }
    }
    assert IsRun(longer, limit);
  }

  /** Session 1 with its first state and the given registry, handler and clock. */
  function OneSession(requests: Registry, handler: Handler, clock: int): World {
    INITIAL.(sessions := {1}, computed := map[1 := 0], states := map[0 := CS.NewMachine()], owner := map[0 := 1],
             nextState := 1, requests := requests, handler := handler, clock := clock)
  }

  const LATE_KEY := Key(1, 7)
  const LATE_REQUEST := Request(1, 3, 0, Some(0), Some(0), None)

  lemma HandlerRegisters(limit: nat)
    ensures Reachable(OneSession(map[LATE_KEY := LATE_REQUEST], Registered(LATE_KEY, true, Some(0), 0), 0), limit)
  {
    assert IsRun([INITIAL], limit);
    assert [INITIAL][|[INITIAL]| - 1] == INITIAL;
    var w := Extend(INITIAL, EvAttach(1), limit);
    w := Extend(w, EvPrepareCapture(1), limit);
    assert w == OneSession(map[], Idle, 0);
    w := Extend(w, EvBeginRequest(LATE_KEY, 3), limit);
    w := Extend(w, EvRegister, limit);
    assert w.requests == map[LATE_KEY := LATE_REQUEST];
  }

  /** The request is swept and accounted before it is counted: the clamp hides that, and the
      counter stays at one with nothing outstanding. */
  lemma LateHandlerMiscounts(limit: nat)
    requires limit > TTL
    ensures exists w :: Reachable(w, limit) && w.handler.Idle? && !IsExact(w, 1)
  {
    HandlerRegisters(limit);
    var w := OneSession(map[LATE_KEY := LATE_REQUEST], Registered(LATE_KEY, true, Some(0), 0), 0);
    w := Extend(w, EvQueueHop(0), limit);
    w := Extend(w, EvTick(TTL + 1), limit);
    w := Extend(w, EvTakeExpired(LATE_KEY), limit);
    assert w.requests == map[];
    w := Extend(w, EvAccount(0), limit);
    assert w.taken == map[] && w.states[0].netPending == 0;
    w := Extend(w, EvCountRequest, limit);
    assert w.states[0].netPending == 1 && w.computed[1] == 0;
    assert Owned(w.requests, 0, w.states[0].navSeq) == {} && Owned(w.taken, 0, w.states[0].navSeq) == {};
  }

  /** Every counter is exact between handler steps, in every run, exactly when a handler
      counts its request before the sweeper may take it. */
  lemma ExactIffInTime(limit: nat)
    ensures (forall w, session :: Reachable(w, limit) && w.handler.Idle? ==> IsExact(w, session)) <==> limit <= TTL
  {
    if limit <= TTL {
      forall w, session | Reachable(w, limit) && w.handler.Idle? ensures IsExact(w, session) {
        var trace :| IsRun(trace, limit) && trace[|trace| - 1] == w;
        CountersExact(trace, limit, session);
      }
    } else {
      LateHandlerMiscounts(limit);
    }
  }

  // ---- What becomes of one request ----

  /** The handler registers an event of the request, with this loader, in the step from w to v. */
  predicate RegistersNow(w: World, v: World, key: Key, loader: Id) {
    w.handler.ReadRequest? && w.handler.key == key && w.handler.loader == loader && v.handler.Registered?
  }

  /** The handler commits a navigation of the session in the step from w to v. */
  predicate NavigatesNow(w: World, v: World, session: Id) {
    w.handler.ReadNavigation? && w.handler.session == session && v.handler.Idle?
  }

  /** What one step may do to a request that stays registered. */
  predicate Continues(w: World, v: World, key: Key)
    requires key in w.requests && key in v.requests
  {
    var a, b := w.requests[key], v.requests[key];
    && b.addedAt == a.addedAt
    && (!NavigatesNow(w, v, a.sessionID) ==> b.countedState == a.countedState && b.countedNavSeq == a.countedNavSeq)
    && (if w.handler.ReadRequest? && RegistersNow(w, v, key, w.handler.loader)
        then b.loaderID == w.handler.loader && b.sessionID == key.session
        else b.loaderID == a.loaderID && b.sessionID == a.sessionID)
  }

  predicate TouchesRegistry(e: Event) {
    e.EvRegister? || e.EvQueueHop? || e.EvTakeFinished? || e.EvTakeExpired? || e.EvCommitNavigation?
    || e.EvDetachRequests? || e.EvCommitClear?
  }

  lemma RegistryUntouched(w: World, e: Event, limit: nat)
    requires !TouchesRegistry(e)
    ensures var v := Step(w, e, limit);
      v.requests == w.requests && (v.handler == w.handler || w.handler.Idle? || w.handler.Queued?)
  {
    hide CS.Step, CS.OnRequest, CS.Stop, CS.NewMachine, Accounted, Uncounted, InTable, IsPageEvent;
  }

  lemma NavigationContinues(w: World, loader: Id, key: Key)
    requires key in w.requests
    ensures key in CommitNavigation(w, loader).requests && Continues(w, CommitNavigation(w, loader), key)
  {
    hide CS.ResetOnNavigation, Inflight;
  }

  /** Removing other requests, or putting the hop into this one. */
  lemma RemovalContinues(w: World, e: Event, limit: nat, key: Key)
    requires e.EvQueueHop? || e.EvTakeFinished? || e.EvTakeExpired? || e.EvDetachRequests? || e.EvCommitClear?
    requires key in w.requests && key in Step(w, e, limit).requests
    ensures Continues(w, Step(w, e, limit), key)
  {
    var v := Step(w, e, limit);
    hide IsExpired, OfSession;
    assert v.requests[key] == w.requests[key].(hop := v.requests[key].hop);
    assert v.handler == w.handler || w.handler.Registered? || w.handler.Detached?;
    hide Step;
  }

  lemma RegisterContinues(w: World, key: Key)
    requires key in w.requests
    ensures key in Register(w).requests && Continues(w, Register(w), key)
  {}

  lemma StepContinues(w: World, v: World, limit: nat, key: Key)
    requires Next(w, v, limit) && key in w.requests && key in v.requests
    ensures Continues(w, v, key)
  {
    var e :| v == Step(w, e, limit);
    if e.EvCommitNavigation? {
      NavigationContinues(w, e.loader, key);
    } else if TouchesRegistry(e) {
      hide Continues;
      if e.EvRegister? {
        RegisterContinues(w, key);
      } else {
        hide Step;
        RemovalContinues(w, e, limit, key);
      }
    } else {
      hide Step;
      RegistryUntouched(w, e, limit);
    }
  }

  /** The request is registered in every state from i to j. */
  ghost predicate StaysRegistered(trace: seq<World>, i: nat, j: nat, key: Key)
    requires j < |trace|
  {
    forall k :: i <= k <= j ==> key in trace[k].requests
  }

  /** Some step from i on, before j, commits a navigation that re-stamps the request. */
  ghost predicate IsRestamped(trace: seq<World>, i: nat, j: nat, key: Key)
    requires j < |trace| && StaysRegistered(trace, i, j, key)
  {
    exists k: nat :: i <= k < j && NavigatesNow(trace[k], trace[k + 1], trace[k].requests[key].sessionID)
  }

  lemma StepOfRun(trace: seq<World>, limit: nat, k: nat, key: Key)
    requires IsRun(trace, limit) && k + 1 < |trace| && key in trace[k].requests && key in trace[k + 1].requests
    ensures Continues(trace[k], trace[k + 1], key)
  {
    hide Next, Continues;
    assert Next(trace[k], trace[k + 1], limit);
    StepContinues(trace[k], trace[k + 1], limit, key);
  }

  /** While a request stays registered, redirects and everything else leave its age alone, and
      only a navigation changes which state it counts for, and in which navigation. */
  lemma {:induction false} RequestKeepsAge(trace: seq<World>, limit: nat, i: nat, j: nat, key: Key)
    requires IsRun(trace, limit) && i <= j < |trace| && StaysRegistered(trace, i, j, key)
    ensures var a, b := trace[i].requests[key], trace[j].requests[key];
      && b.addedAt == a.addedAt
      && (!IsRestamped(trace, i, j, key) ==> b.countedState == a.countedState && b.countedNavSeq == a.countedNavSeq)
    decreases j - i
  {
    hide IsRun, NavigatesNow;
    assert key in trace[i].requests && key in trace[j].requests;
    if i < j {
      assert key in trace[j - 1].requests;
      RequestKeepsAge(trace, limit, i, j - 1, key);
      StepOfRun(trace, limit, j - 1, key);
      if !IsRestamped(trace, i, j, key) {
        var k: nat := j - 1;
        assert !NavigatesNow(trace[k], trace[k + 1], trace[k].requests[key].sessionID);
        assert !IsRestamped(trace, i, j - 1, key);
      }
    }
  }

  lemma OnlyRegisterRegisters(w: World, e: Event, limit: nat)
    requires w.handler.ReadRequest? && Step(w, e, limit).handler.Registered?
    ensures e.EvRegister?
  {
    hide CS.Step, CS.OnRequest, CS.Stop, CS.NewMachine, CS.OnLoadingFinished, CS.ResetOnNavigation, Accounted, InTable,
      IsPageEvent, Uncounted, IsExpired;
  }

  /** What a registered event leaves in the registry; a first event starts the age. */
  lemma RegistersFresh(trace: seq<World>, limit: nat, i: nat, key: Key, loader: Id)
    requires IsRun(trace, limit) && i + 1 < |trace| && RegistersNow(trace[i], trace[i + 1], key, loader)
    ensures key in trace[i + 1].requests
    ensures var r := trace[i + 1].requests[key];
      && r.loaderID == loader && r.sessionID == key.session && r.hop.None?
      && (key !in trace[i].requests ==> r.addedAt == Some(trace[i].clock))
    ensures forall k :: k != key ==>
      (k in trace[i + 1].requests <==> k in trace[i].requests)
      && (k in trace[i].requests ==> trace[i + 1].requests[k] == trace[i].requests[k])
  {
    var w, v := trace[i], trace[i + 1];
    assert Next(w, v, limit);
    hide IsRun;
    var e :| v == Step(w, e, limit);
    hide Step;
    OnlyRegisterRegisters(w, e, limit);
    assert v == Register(w) by { RegisterIs(w, limit); }
  }

  lemma RegisterIs(w: World, limit: nat)
    ensures Step(w, EvRegister, limit) == Register(w)
  {}

  /** A request first registered at some time is expired as soon as five minutes have passed
      since then, and no sooner, whatever redirects came between; the sweeper may then take it. */
  lemma ExpiresOnTime(trace: seq<World>, limit: nat, i: nat, j: nat, key: Key, loader: Id)
    requires IsRun(trace, limit) && i < j < |trace|
    requires RegistersNow(trace[i], trace[i + 1], key, loader) && key !in trace[i].requests
    requires StaysRegistered(trace, i + 1, j, key)
    ensures var w := trace[j];
      && (key in ExpiredKeys(w.requests, w.clock) <==> w.clock - trace[i].clock > 300)
      && (key in Step(w, EvTakeExpired(key), limit).requests <==> w.clock - trace[i].clock <= 300)
  {
    RegistersFresh(trace, limit, i, key, loader);
    RequestKeepsAge(trace, limit, i + 1, j, key);
    hide IsRun, RegistersNow;
    assert key in trace[j].requests;
  }

  ghost predicate RegistersAt(trace: seq<World>, k: nat, key: Key) {
    && k + 1 < |trace| && trace[k].handler.ReadRequest? && trace[k].handler.key == key
    && trace[k + 1].handler.Registered?
  }

  /** A registered request carries the loader of its latest event. */
  lemma {:induction false} CarriesLatestLoader(trace: seq<World>, limit: nat, i: nat, j: nat, key: Key, loader: Id)
    requires IsRun(trace, limit) && i < j < |trace|
    requires RegistersNow(trace[i], trace[i + 1], key, loader) && StaysRegistered(trace, i + 1, j, key)
    requires forall k: nat :: i < k < j ==> !RegistersAt(trace, k, key)
    ensures key in trace[j].requests
    ensures trace[j].requests[key].loaderID == loader && trace[j].requests[key].sessionID == key.session
    decreases j
  {
    hide IsRun, RegistersNow, RegistersAt;
    if j == i + 1 {
      RegistersFresh(trace, limit, i, key, loader);
    } else {
      var k: nat := j - 1;
      assert key in trace[k].requests && key in trace[k + 1].requests;
      assert StaysRegistered(trace, i + 1, k, key);
      hide StaysRegistered;
      CarriesLatestLoader(trace, limit, i, k, key, loader);
      KeepsLoader(trace, limit, k, key);
    }
  }

  lemma KeepsLoader(trace: seq<World>, limit: nat, k: nat, key: Key)
    requires IsRun(trace, limit) && k + 1 < |trace| && key in trace[k].requests && key in trace[k + 1].requests
    requires !RegistersAt(trace, k, key)
    ensures trace[k + 1].requests[key].loaderID == trace[k].requests[key].loaderID
    ensures trace[k + 1].requests[key].sessionID == trace[k].requests[key].sessionID
  {
    StepOfRun(trace, limit, k, key);
    hide IsRun;
  }

  /** Queueing puts its hop into the entry of the request being handled, and nothing else. */
  lemma HopIsRecorded(w: World, hop: nat, limit: nat)
    requires w.handler.Registered?
    ensures var v, key := Step(w, EvQueueHop(hop), limit), w.handler.key;
      && key in v.requests && v.requests[key].hop == Some(hop) && v.requests.Keys == w.requests.Keys + {key}
      && (key in w.requests ==> v.requests[key] == w.requests[key].(hop := Some(hop)))
      && (key !in w.requests ==> v.requests[key].countedState.None? && v.requests[key].addedAt.None?)
      && forall k :: k in w.requests && k != key ==> v.requests[k] == w.requests[k]
  {}

  /** A detach leaves exactly the entries of other sessions, a clear none at all. */
  lemma DetachAndClear(w: World, k: Key, limit: nat)
    ensures w.handler.Detached? ==>
      (k in Step(w, EvDetachRequests, limit).requests <==>
         k in w.requests && w.requests[k].sessionID != w.handler.session)
    ensures w.clearing ==> k !in Step(w, EvCommitClear, limit).requests
    ensures forall session :: w.handler.Idle? ==> session !in Step(w, EvDetachSession(session), limit).computed
    ensures forall drop, session :: session !in Step(w, EvBeginClear(drop), limit).computed
  {}

  // ---- What whole handlers do ----

  /** A finished request leaves the registry for its accounting, which lowers the state that
      counted it if that is still in the same navigation; nothing else moves. */
  lemma FinishRuns(w: World, key: Key, limit: nat)
    requires Inv(w) && w.handler.Idle? && key in w.requests
    ensures var u := Step(w, EvTakeFinished(key), limit); var v := Step(u, EvAccount(w.nextTicket), limit);
      && u == w.(requests := w.requests - {key}, taken := w.taken[w.nextTicket := w.requests[key]],
                 nextTicket := w.nextTicket + 1)
      && v == u.(taken := w.taken, states := v.states) && v.states.Keys == w.states.Keys
      && forall c :: c in w.states ==>
           var counts := w.requests[key].countedState == Some(c) && w.requests[key].countedNavSeq == w.states[c].navSeq;
           v.states[c] == if counts then CS.OnLoadingFinished(w.states[c]) else w.states[c]
  {
    assert w.nextTicket !in w.taken;
    assert w.taken[w.nextTicket := w.requests[key]] - {w.nextTicket} == w.taken;
    hide Inv, CS.OnLoadingFinished;
  }

  /** What a navigation of the session to the loader makes of an entry whose state it resets. */
  predicate IsNavigated(a: Request, b: Request, session: Id, loader: Id, c: StateId, nav: nat) {
    && b == a.(countedNavSeq := b.countedNavSeq, countedState := b.countedState)
    && if a.sessionID != session then b == a
       else if a.loaderID == loader then b.countedState == Some(c) && b.countedNavSeq == nav
       else b.countedState == a.countedState && b.countedNavSeq == -1
  }

  function Navigates(w: World, session: Id, loader: Id, limit: nat): World {
    Step(Step(w, EvBeginNavigation(session), limit), EvCommitNavigation(loader), limit)
  }

  lemma NavigatesBy(w: World, session: Id, loader: Id, limit: nat)
    requires w.handler.Idle? && session in w.sessions && session in w.computed
    ensures Navigates(w, session, loader, limit) ==
      CommitNavigation(w.(handler := ReadNavigation(session, Some(w.computed[session]))), loader)
  {
    hide CommitNavigation;
  }

  /** A navigation starts the next navigation of its session's state, with exactly the requests
      of the new loader in flight, which count for it from now on; older ones count no more. */
  lemma NavigationRuns(w: World, session: Id, loader: Id, limit: nat)
    requires TableOk(w) && w.handler.Idle? && session in w.sessions && session in w.computed
    ensures w.computed[session] in w.states
    ensures var v, c := Navigates(w, session, loader, limit), w.computed[session];
      && v == w.(requests := v.requests, states := v.states)
      && c in v.states && v.states == w.states[c := v.states[c]]
      && v.states[c].navSeq == w.states[c].navSeq + 1
      && v.states[c].netPending
           == |set k | k in w.requests && w.requests[k].sessionID == session && w.requests[k].loaderID == loader|
  {
    assert w.computed[session] in w.states;
    NavigatesBy(w, session, loader, limit);
    hide TableOk, Renavigated, Navigates, Step;
  }

  lemma NavigationRestamps(w: World, session: Id, loader: Id, limit: nat, k: Key)
    requires TableOk(w) && w.handler.Idle? && session in w.sessions && session in w.computed
    ensures w.computed[session] in w.states
    ensures var v, c := Navigates(w, session, loader, limit), w.computed[session];
      && (k in v.requests <==> k in w.requests)
      && (k in w.requests ==>
            IsNavigated(w.requests[k], v.requests[k], session, loader, c, w.states[c].navSeq + 1))
  {
    assert w.computed[session] in w.states;
    NavigatesBy(w, session, loader, limit);
    hide TableOk, CS.ResetOnNavigation, Inflight, Navigates, Step;
  }

  /** A detach ends the session and its requests, a clear every request and every state in use,
      and the sessions too if asked to; in between no state is made. */
  lemma DetachRuns(w: World, session: Id, limit: nat)
    requires w.handler.Idle?
    ensures var v := Step(Step(w, EvDetachSession(session), limit), EvDetachRequests, limit);
      && v == w.(sessions := w.sessions - {session}, computed := w.computed - {session}, requests := v.requests)
      && forall k :: (k in v.requests <==> k in w.requests && w.requests[k].sessionID != session)
                     && (k in v.requests ==> v.requests[k] == w.requests[k])
  {}

  lemma ClearRuns(w: World, drop: bool, session: Id, limit: nat)
    ensures var u := Step(w, EvBeginClear(drop), limit);
      && Step(u, EvPrepareCapture(session), limit) == u
      && Step(u, EvCommitClear, limit)
           == w.(sessions := if drop then {} else w.sessions, computed := map[], requests := map[], clearing := false)
  {}

  /** A capture makes a fresh state for a session that has none. */
  lemma CaptureRuns(w: World, session: Id, limit: nat)
    requires TableOk(w) && session in w.sessions && session !in w.computed && !w.clearing
    ensures var v := Step(w, EvPrepareCapture(session), limit);
      && w.nextState !in w.states && v.computed == w.computed[session := w.nextState]
      && v.states == w.states[w.nextState := CS.NewMachine()] && v.owner == w.owner[w.nextState := session]
  {}

  /** Only a state out of use is stopped, and a page event reaches the state it is for. */
  lemma StatesRun(w: World, id: StateId, event: CS.Event, limit: nat)
    requires id in w.states
    ensures Step(w, EvStopState(id), limit) ==
      if InTable(w, id) then w else w.(states := w.states[id := CS.Stop(w.states[id])])
    ensures IsPageEvent(event) ==>
      Step(w, EvPage(id, event), limit) == w.(states := w.states[id := CS.Step(w.states[id], event).machine])
  {
    hide CS.Step, CS.Stop, InTable;
  }

  /** Time passes, but not past the limit while a new request waits to be counted. */
  lemma TimeRuns(w: World, seconds: nat, limit: nat)
    ensures Step(w, EvTick(seconds), limit) ==
      if (w.handler.Registered? || w.handler.Queued?) && w.handler.isNew && w.clock + seconds > w.handler.since + limit
      then w else w.(clock := w.clock + seconds)
  {}

  // ---- The critical sections as the source runs them ----

  /** The registry part-way through a navigation's loop, with todo still to visit. */
  function PartlyRestamped(requests: Registry, todo: set<Key>, session: Id, loader: Id, cs: Option<StateId>,
      nextSeq: int): Registry
  {
    map k | k in requests :: if k in todo then requests[k] else Restamped(requests[k], session, loader, cs, nextSeq)
  }

  lemma PartlyEnds(requests: Registry, session: Id, loader: Id, cs: Option<StateId>, nextSeq: int)
    ensures PartlyRestamped(requests, requests.Keys, session, loader, cs, nextSeq) == requests
    ensures PartlyRestamped(requests, {}, session, loader, cs, nextSeq) ==
      Renavigated(requests, session, loader, cs, nextSeq)
    ensures Inflight(requests, session, loader) - requests.Keys == {}
    ensures Inflight(requests, session, loader) - {} == Inflight(requests, session, loader)
  {
  }

  lemma PartlyOne(requests: Registry, todo: set<Key>, key: Key, session: Id, loader: Id, cs: Option<StateId>,
      nextSeq: int)
    requires key in todo && todo <= requests.Keys
    ensures var before := PartlyRestamped(requests, todo, session, loader, cs, nextSeq);
      && key in before && before[key] == requests[key]
      && PartlyRestamped(requests, todo - {key}, session, loader, cs, nextSeq)
         == before[key := Restamped(requests[key], session, loader, cs, nextSeq)]
    ensures |Inflight(requests, session, loader) - (todo - {key})| == |Inflight(requests, session, loader) - todo|
      + (if requests[key].sessionID == session && requests[key].loaderID == loader then 1 else 0)
  {
    var all := Inflight(requests, session, loader);
    assert all - (todo - {key}) == (all - todo) + (if key in all then {key} else {});
  }

  /** The part of the monitor guarded by pendReqMu. Loops over the registry visit it in an
      arbitrary order, as ranging over a Go map does. */
  class Monitor {
    var requests: Registry
    var states: map<StateId, CS.Machine>

    constructor (states: map<StateId, CS.Machine>)
      ensures this.requests == map[] && this.states == states
    {
      this.requests := map[];
      this.states := states;
    }

    method RegisterRequest(key: Key, loader: Id, cs: Option<StateId>, nav: int, now: int)
      returns (isRedirect: bool, countedState: Option<StateId>)
      modifies this`requests
      ensures isRedirect <==> key in old(requests)
      ensures requests == old(requests)[key := RegisteredEntry(old(requests), key, loader, cs, nav, now)]
      ensures countedState == requests[key].countedState
    {
      isRedirect := key in requests;
      countedState := cs;
      var countedNavSeq, addedAt := nav, Some(now);
      if isRedirect {
        var existing := requests[key];
        addedAt := existing.addedAt;
        countedNavSeq := existing.countedNavSeq;
        countedState := existing.countedState;
      }
      requests := requests[key := Request(key.session, loader, countedNavSeq, countedState, addedAt, None)];
    }

    method SetHop(key: Key, hop: nat)
      modifies this`requests
      ensures requests == WithHop(old(requests), key, hop)
    {
      var state := ZERO_REQUEST;
      if key in requests {
        state := requests[key];
      }
      state := state.(hop := Some(hop));
      requests := requests[key := state];
    }

    method TakeRequest(key: Key) returns (state: Request, ok: bool)
      modifies this`requests
      ensures ok <==> key in old(requests)
      ensures ok ==> state == old(requests)[key]
      ensures requests == old(requests) - {key}
    {
      ok := key in requests;
      state := ZERO_REQUEST;
      if ok {
        state := requests[key];
        requests := requests - {key};
      }
    }

    /** Hands every expired request to the sweeper: each exactly once, and nothing else. */
    method TakeExpiredRequests(now: int) returns (expired: seq<Request>, ghost order: seq<Key>)
      modifies this`requests
      ensures requests == old(requests) - ExpiredKeys(old(requests), now)
      ensures |order| == |expired| && (forall i, j :: 0 <= i < j < |order| ==> order[i] != order[j])
      ensures (set k | k in order) == ExpiredKeys(old(requests), now)
      ensures forall i :: 0 <= i < |order| ==> order[i] in old(requests) && expired[i] == old(requests)[order[i]]
    {
      expired, order := [], [];
      var todo := requests.Keys;
      while todo != {}
        invariant todo <= old(requests).Keys
        invariant requests == old(requests) - (ExpiredKeys(old(requests), now) - todo)
        invariant |order| == |expired| && (forall i, j :: 0 <= i < j < |order| ==> order[i] != order[j])
        invariant (set k | k in order) == ExpiredKeys(old(requests), now) - todo
        invariant forall i :: 0 <= i < |order| ==> order[i] in old(requests) && expired[i] == old(requests)[order[i]]
        decreases todo
      {
        var key :| key in todo;
        todo := todo - {key};
        var state := requests[key];
        if IsExpired(state, now) {
          assert key in ExpiredKeys(old(requests), now);
          requests := requests - {key};
          assert key !in (set k | k in order);
          assert (set k | k in order + [key]) == (set k | k in order) + {key};
          expired, order := expired + [state], order + [key];
        }
      }
    }

    /** The loop of a top-level navigation: restamps the session's requests and counts those
        already in flight for the new document. */
    method RestampRequests(session: Id, loader: Id, cs: Option<StateId>, nextSeq: int) returns (inflight: nat)
      modifies this`requests
      ensures requests == Renavigated(old(requests), session, loader, cs, nextSeq)
      ensures inflight == if cs.Some? then |Inflight(old(requests), session, loader)| else 0
    {
      hide PartlyRestamped, Inflight;
      inflight := 0;
      var todo := requests.Keys;
      PartlyEnds(requests, session, loader, cs, nextSeq);
      while todo != {}
        invariant todo <= old(requests).Keys
        invariant requests == PartlyRestamped(old(requests), todo, session, loader, cs, nextSeq)
        invariant inflight == if cs.Some? then |Inflight(old(requests), session, loader) - todo| else 0
        decreases todo
      {
        var key :| key in todo;
        PartlyOne(old(requests), todo, key, session, loader, cs, nextSeq);
        todo := todo - {key};
        var req := requests[key];
        if req.sessionID == session {
          req := req.(countedNavSeq := -1);
          if cs.Some? && req.loaderID == loader {
            req := req.(countedNavSeq := nextSeq, countedState := cs);
            inflight := inflight + 1;
          }
          requests := requests[key := req];
        }
      }
    }

    /** A top-level navigation, under one lock with the state's reset. */
    method Navigate(session: Id, loader: Id, cs: Option<StateId>)
      requires cs.Some? ==> cs.value in states
      modifies this
      ensures requests == Renavigated(old(requests), session, loader, cs, NavOf(old(states), cs) + 1)
      ensures states == if cs.None? then old(states) else old(states)[cs.value :=
        CS.ResetOnNavigation(old(states)[cs.value], |Inflight(old(requests), session, loader)|)]
    {
      hide Renavigated, Inflight, CS.ResetOnNavigation;
      var nextSeq := 0;
      if cs.Some? {
        nextSeq := states[cs.value].navSeq + 1;
      }
      var inflight := RestampRequests(session, loader, cs, nextSeq);
      if cs.Some? {
        states := states[cs.value := CS.ResetOnNavigation(states[cs.value], inflight)];
      }
    }

    method DetachSession(session: Id)
      modifies this`requests
      ensures requests == old(requests) - OfSession(old(requests), session)
    {
      var todo := requests.Keys;
      while todo != {}
        invariant todo <= old(requests).Keys
        invariant requests == old(requests) - (OfSession(old(requests), session) - todo)
        decreases todo
      {
        var key :| key in todo;
        todo := todo - {key};
        if requests[key].sessionID == session {
          requests := requests - {key};
        }
      }
    }

    method FinishRequest(state: Request)
      requires state.countedState.Some? ==> state.countedState.value in states
      modifies this`states
      ensures states == Accounted(old(states), state)
    {
      if state.countedState.Some? {
        var c := state.countedState.value;
        var sameNavigation := state.countedNavSeq == states[c].navSeq;
        if sameNavigation {
          states := states[c := CS.OnLoadingFinished(states[c])];
        }
      }
    }
  }
}
