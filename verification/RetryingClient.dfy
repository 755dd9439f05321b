/**
  The REPL's own DevTools client (server/runtime/browser-cdp-client.ts): promises that settle
  once, and the single replay of commands that may be repeated.

  Promise callbacks run one at a time. What a socket, a clock or an attach does is arbitrary.
*/
module RetryingClient {
  import opened Collections

  type Id = nat
  type Socket = nat

  const SAFE_RETRY_METHODS := {
    "Accessibility.getFullAXTree", "Browser.getVersion", "DOM.enable", "DOM.getBoxModel", "DOM.getContentQuads",
    "DOM.getDocument", "DOM.querySelector", "DOM.querySelectorAll", "DOM.resolveNode", "Network.enable",
    "Page.captureScreenshot", "Page.enable", "Page.getFrameTree", "Page.getLayoutMetrics", "Runtime.enable",
    "SystemInfo.getInfo", "Target.getTargets"
  }

  /** How one attempt at a command ends. */
  datatype Outcome =
    | Result(id: Id)
    | CommandFailed(id: Id)
    | TimedOut
    | ClosedBeforeResponse
    | OtherFailure
    | OutcomeUnknown

  /** settled lists every call of a promise's resolve or reject. */
  datatype Promise = Promise(name: string, settled: seq<Outcome>)

  /** The promises of the commands sent so far, and which of them are pending. */
  datatype Client = Client(socket: Option<Socket>, nextId: Id, pending: set<Id>, promises: map<Id, Promise>,
      wire: seq<(Id, string)>)

  const START := Client(None, 0, {}, map[], [])

  function Settle(c: Client, id: Id, o: Outcome): Client
    requires id in c.promises
  {
    var p := c.promises[id];
    c.(pending := c.pending - {id}, promises := c.promises[id := p.(settled := p.settled + [o])])
  }

  function Connect(c: Client, s: Socket): Client {
    c.(socket := Some(s))
  }

  /** The executor of sendOnce: the promise is pending, then the payload is written or not. */
  function Issue(c: Client, name: string, written: bool): Client {
    var id := c.nextId;
    var begun := c.(nextId := id + 1, pending := c.pending + {id}, promises := c.promises[id := Promise(name, [])]);
    if written then begun.(wire := c.wire + [(id, name)]) else Settle(begun, id, ClosedBeforeResponse)
  }

  function OnMessage(c: Client, id: Id, failed: bool): Client {
    if id in c.pending && id in c.promises then Settle(c, id, if failed then CommandFailed(id) else Result(id)) else c
  }

  function OnTimeout(c: Client, id: Id): Client {
    if id in c.pending && id in c.promises then Settle(c, id, TimedOut) else c
  }

  /** The close of a socket that has been replaced is ignored. */
  function OnClose(c: Client, s: Socket): Client {
    if c.socket != Some(s) then c
    else
      c.(socket := None, pending := {},
         promises := map id | id in c.promises ::
           if id in c.pending then c.promises[id].(settled := c.promises[id].settled + [ClosedBeforeResponse])
             else c.promises[id])
  }

  datatype Event =
    | EvConnect(socket: Socket)
    | EvIssue(name: string, written: bool)
    | EvMessage(id: Id, failed: bool)
    | EvTimeout(id: Id)
    | EvClose(socket: Socket)

  function Step(c: Client, e: Event): Client {
    match e
    case EvConnect(s) => Connect(c, s)
    case EvIssue(name, written) => Issue(c, name, written)
    case EvMessage(id, failed) => OnMessage(c, id, failed)
    case EvTimeout(id) => OnTimeout(c, id)
    case EvClose(s) => OnClose(c, s)
  }

  ghost predicate Follows(c: Client, d: Client) {
    exists e :: d == Step(c, e)
  }

  ghost predicate IsRun(run: seq<Client>) {
    run != [] && run[0] == START && forall i :: 0 < i < |run| ==> Follows(run[i - 1], run[i])
  }

  predicate OwnId(o: Outcome, id: Id) {
    !o.OutcomeUnknown? && (o.Result? || o.CommandFailed? ==> o.id == id)
  }

  /** A promise is pending until it settles, which it does once, with its own response. */
  predicate Inv(c: Client) {
    && (forall id :: id in c.promises ==>
          && id < c.nextId && |c.promises[id].settled| == (if id in c.pending then 0 else 1)
          && (id !in c.pending ==> OwnId(c.promises[id].settled[0], id)))
    && (forall id :: id in c.pending ==> id in c.promises)
    && (forall i :: 0 <= i < |c.wire| ==> c.wire[i].0 < c.nextId)
    && (forall i, j :: 0 <= i < j < |c.wire| ==> c.wire[i].0 != c.wire[j].0)
  }

  lemma StepKeeps(c: Client, e: Event)
    requires Inv(c)
    ensures Inv(Step(c, e))
  {}

  lemma {:induction false} RunKeeps(run: seq<Client>, n: nat)
    requires IsRun(run) && n < |run|
    ensures Inv(run[n])
  {
    if n > 0 {
      RunKeeps(run, n - 1);
      assert Follows(run[n - 1], run[n]);
      var e :| run[n] == Step(run[n - 1], e);
      hide Step, Inv;
      StepKeeps(run[n - 1], e);
    }
  }

  /** At any point of any run a promise has settled at most once, with the response to its own
      command if with any, and is out of the pending table exactly when it has settled; every
      id is written at most once. */
  lemma PromisesSettleOnce(run: seq<Client>, n: nat)
    requires IsRun(run) && n < |run|
    ensures var c := run[n];
      && (forall id :: id in c.promises ==>
            && |c.promises[id].settled| <= 1 && (id in c.pending <==> c.promises[id].settled == [])
            && (c.promises[id].settled != [] ==> OwnId(c.promises[id].settled[0], id)))
      && (forall id :: id in c.pending ==> id in c.promises)
      && (forall i, j :: 0 <= i < j < |c.wire| ==> c.wire[i].0 != c.wire[j].0)
  {
    RunKeeps(run, n);
  }

  /** What a promise has settled with never changes. */
  lemma {:induction false} SettledForGood(run: seq<Client>, m: nat, n: nat, id: Id)
    requires IsRun(run) && m <= n < |run| && id in run[m].promises && run[m].promises[id].settled != []
    ensures id in run[n].promises && run[n].promises[id] == run[m].promises[id]
    decreases n - m
  {
    if m < n {
      SettledForGood(run, m, n - 1, id);
      RunKeeps(run, n - 1);
      assert Follows(run[n - 1], run[n]);
      var e :| run[n] == Step(run[n - 1], e);
      StepSettles(run[n - 1], e, id);
    }
  }

  lemma StepSettles(c: Client, e: Event, id: Id)
    requires Inv(c) && id in c.promises && c.promises[id].settled != []
    ensures id in Step(c, e).promises && Step(c, e).promises[id] == c.promises[id]
  {}

  /** What a pending promise settles with: the result or the error its response carries, a
      timeout when its time is up, the closing of the current socket; nothing else settles it. */
  lemma WhatSettles(c: Client, e: Event, id: Id)
    requires Inv(c) && id in c.pending
    ensures var d := Step(c, e);
      && id in d.promises && d.promises[id].name == c.promises[id].name
      && d.promises[id].settled ==
           (match e
            case EvMessage(i, failed) => if i == id then [if failed then CommandFailed(id) else Result(id)] else []
            case EvTimeout(i) => if i == id then [TimedOut] else []
            case EvClose(s) => if c.socket == Some(s) then [ClosedBeforeResponse] else []
            case _ => [])
  {}

  /** Issuing takes the next id; a payload that cannot be written fails its promise at once. */
  lemma WhatIsIssued(c: Client, name: string, written: bool)
    requires Inv(c)
    ensures var d, id := Step(c, EvIssue(name, written)), c.nextId;
      && id !in c.promises && id in d.promises && d.promises[id].name == name && d.nextId == id + 1
      && d.promises[id].settled == (if written then [] else [ClosedBeforeResponse])
      && d.wire == (if written then c.wire + [(id, name)] else c.wire)
      && d.pending == (if written then c.pending + {id} else c.pending)
  {}

  /** Whatever was pending when the current socket closes fails at once. */
  lemma CloseFailsPending(c: Client, s: Socket)
    requires Inv(c) && c.socket == Some(s)
    ensures var d := OnClose(c, s);
      d.pending == {} && forall id :: id in c.pending ==> d.promises[id].settled == [ClosedBeforeResponse]
  {}

  // ---- Which socket is current ----

  ghost predicate IsTrace(run: seq<Client>, events: seq<Event>) {
    && |run| == |events| + 1 && run[0] == START
    && forall i :: 0 <= i < |events| ==> run[i + 1] == Step(run[i], events[i])
  }

  /** Socket s was connected and has neither been replaced nor closed since. */
  ghost predicate IsUp(events: seq<Event>, s: Socket) {
    exists i :: 0 <= i < |events| && events[i] == EvConnect(s) &&
      forall j :: i < j < |events| ==> !events[j].EvConnect? && events[j] != EvClose(s)
  }

  lemma UpAfter(events: seq<Event>, e: Event, s: Socket)
    ensures IsUp(events + [e], s) <==> e == EvConnect(s) || (IsUp(events, s) && !e.EvConnect? && e != EvClose(s))
  {
    var more := events + [e];
    if e == EvConnect(s) { assert more[|events|] == EvConnect(s); }
    if IsUp(events, s) && !e.EvConnect? && e != EvClose(s) {
      var i :| 0 <= i < |events| && events[i] == EvConnect(s) &&
        forall j :: i < j < |events| ==> !events[j].EvConnect? && events[j] != EvClose(s);
      assert more[i] == EvConnect(s);
    }
    if IsUp(more, s) && e != EvConnect(s) {
      var i :| 0 <= i < |more| && more[i] == EvConnect(s) &&
        forall j :: i < j < |more| ==> !more[j].EvConnect? && more[j] != EvClose(s);
      assert i < |events| && more[|events|] == e;
      forall j | i < j < |events| ensures !events[j].EvConnect? && events[j] != EvClose(s) {
        assert more[j] == events[j];
      }
    }
  }

  /** In every run the client uses the socket it connected last, until that one closes. */
  lemma {:induction false} CurrentIsUp(run: seq<Client>, events: seq<Event>, s: Socket)
    requires IsTrace(run, events)
    ensures run[|events|].socket == Some(s) <==> IsUp(events, s)
  {
    if events == [] {
    } else {
      var last := |events| - 1;
      assert events[..last] + [events[last]] == events;
      CurrentIsUp(run[..last + 1], events[..last], s);
      UpAfter(events[..last], events[last], s);
      assert run[last + 1] == Step(run[last], events[last]);
      hide IsUp;
    }
  }

  // ---- Replaying a command ----

  class BrowserCdpClient {
    var state: Client

    constructor ()
      ensures state == START
    {
      state := START;
    }

    /** One try. The environment decides whether it can connect, whether the deadline allows
        it, whether the write succeeds, and what then settles the promise. */
    method SendOnce(name: string) returns (outcome: Outcome, ghost written: bool)
      requires Inv(state)
      modifies this
      ensures Inv(state)
      ensures !outcome.OutcomeUnknown?
      ensures state.wire == if written then old(state.wire) + [(old(state.nextId), name)] else old(state.wire)
    {
      written := false;
      var connects: bool := *;
      if !connects {
        var cutOff: bool := *;
        return if cutOff then ClosedBeforeResponse else OtherFailure, false;
      }
      var inTime: bool := *;
      if !inTime { return TimedOut, false; }
      var sent: bool := *;
      var id := state.nextId;
      StepKeeps(state, EvIssue(name, sent));
      state := Issue(state, name, sent);
      written := sent;
      if sent {
        var arrives: bool := *;
        var failed: bool := *;
        var socket: Socket := *;
        StepKeeps(state, EvMessage(id, failed));
        StepKeeps(state, EvTimeout(id));
        StepKeeps(state, EvClose(socket));
        if arrives {
          state := OnMessage(state, id, failed);
        } else if state.socket == Some(socket) {
          state := OnClose(state, socket);
        } else {
          state := OnTimeout(state, id);
        }
      }
      outcome := state.promises[id].settled[0];
    }

    /** browserCommand: commands without a session are replayed here. */
    method Send(name: string, hasSession: bool) returns (outcome: Outcome)
      requires Inv(state)
      modifies this
      ensures Inv(state)
      ensures old(state.wire) <= state.wire
      ensures |state.wire| - |old(state.wire)| <= if !hasSession && name in SAFE_RETRY_METHODS then 2 else 1
      ensures outcome.OutcomeUnknown? ==> !hasSession && name !in SAFE_RETRY_METHODS
      ensures outcome.ClosedBeforeResponse? ==> hasSession || name in SAFE_RETRY_METHODS
      ensures forall i :: |old(state.wire)| <= i < |state.wire| ==> state.wire[i].1 == name
    {
      ghost var written;
      outcome, written := SendOnce(name);
      if hasSession || !outcome.ClosedBeforeResponse? { return; }
      if name !in SAFE_RETRY_METHODS { return OutcomeUnknown; }
      outcome, written := SendOnce(name);
    }

    /** sessionCommand: attaching may fail, and the replay attaches again. */
    method SessionCommand(name: string) returns (outcome: Outcome)
      requires Inv(state)
      modifies this
      ensures Inv(state)
      ensures old(state.wire) <= state.wire
      ensures |state.wire| - |old(state.wire)| <= if name in SAFE_RETRY_METHODS then 2 else 1
      ensures outcome.OutcomeUnknown? ==> name !in SAFE_RETRY_METHODS
      ensures outcome.ClosedBeforeResponse? ==> name in SAFE_RETRY_METHODS
      ensures forall i :: |old(state.wire)| <= i < |state.wire| ==> state.wire[i].1 == name
    {
      outcome := SessionCommandOnce(name);
      if !outcome.ClosedBeforeResponse? { return; }
      if name !in SAFE_RETRY_METHODS { return OutcomeUnknown; }
      outcome := SessionCommandOnce(name);
    }

    method SessionCommandOnce(name: string) returns (outcome: Outcome)
      requires Inv(state)
      modifies this
      ensures Inv(state)
      ensures old(state.wire) <= state.wire && |state.wire| <= |old(state.wire)| + 1
      ensures !outcome.OutcomeUnknown?
      ensures forall i :: |old(state.wire)| <= i < |state.wire| ==> state.wire[i].1 == name
    {
      var attaches: bool := *;
      if !attaches {
        var cutOff: bool := *;
        return if cutOff then ClosedBeforeResponse else OtherFailure;
      }
      outcome := Send(name, true);
    }
  }
}
