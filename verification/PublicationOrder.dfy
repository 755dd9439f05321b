/**
  The publishers of one request chain (server/lib/cdpmonitor/network_capture.go and the
  places in handlers.go that start them). Every publisher is its own goroutine: it waits for
  headers, which may time out at any moment, then for at most one other publisher, and only
  then publishes. Every order in which the goroutines run is a run here.
*/
module PublicationOrder {
  import opened Collections

  datatype Kind = Request | RedirectResponse | FinalResponse | Failure

  /** Waiting; published; then, for a request, its channel is closed before the exchange is
      released, and for a response the other way round; a failure is done once published. */
  datatype Phase = Waiting | Published | Between | Done

  datatype Publisher = Publisher(kind: Kind, hop: nat, waitsFor: Option<int>, phase: Phase)

  /** The exchange fields that decide when it may leave the table. */
  datatype Ledger = Ledger(publications: int, terminal: bool, registered: bool)

  /** hops counts the request hops so far; log lists published publishers in order. */
  datatype Chain = Chain(publishers: seq<Publisher>, hops: nat, ended: bool, ledger: Ledger, log: seq<nat>)

  const NEW_CHAIN := Chain([], 0, false, Ledger(0, false, true), [])

  /** A request event (for a later hop, whether the redirect it reports carries a decodable
      response), the end of loading, a failure, one step of a publisher, or the exchange
      leaving the table for another reason. */
  datatype Event =
    | SpawnRequest(decodable: bool)
    | SpawnFinal
    | SpawnFailure
    | Run(publisher: nat)
    | Evicted

  function CleanedUp(l: Ledger): Ledger {
    if l.terminal && l.publications == 0 then l.(registered := false) else l
  }

  function Released(l: Ledger): Ledger {
    CleanedUp(l.(publications := l.publications - 1))
  }

  predicate Signalled(p: Publisher) {
    match p.kind
    case Request => p.phase.Between? || p.phase.Done?
    case _ => p.phase.Done?
  }

  predicate CanPublish(c: Chain, i: nat)
    requires i < |c.publishers|
  {
    var w := c.publishers[i].waitsFor;
    c.publishers[i].phase.Waiting? && (w.Some? ==> 0 <= w.value < |c.publishers| && Signalled(c.publishers[w.value]))
  }

  function SetPhase(c: Chain, i: nat, phase: Phase): Chain
    requires i < |c.publishers|
  {
    c.(publishers := c.publishers[i := c.publishers[i].(phase := phase)])
  }

  function RunPublisher(c: Chain, i: nat): Chain
    requires i < |c.publishers|
  {
    var p := c.publishers[i];
    match p.phase
    case Waiting =>
      if !CanPublish(c, i) then c
      else SetPhase(c, i, if p.kind.Failure? then Done else Published).(log := c.log + [i])
    case Published =>
      if p.kind.Request? then SetPhase(c, i, Between)
      else SetPhase(c, i, Between).(ledger := Released(c.ledger))
    case Between =>
      if p.kind.Request? then SetPhase(c, i, Done).(ledger := Released(c.ledger))
      else SetPhase(c, i, Done)
    case Done => c
  }

  function Step(c: Chain, e: Event): Chain {
    match e
    case SpawnRequest(decodable) =>
      if c.ended then c
      else if c.hops == 0 || !decodable then
        c.(publishers := c.publishers + [Publisher(Request, c.hops, None, Waiting)],
           hops := c.hops + 1, ledger := c.ledger.(publications := c.ledger.publications + 1))
      else
        var n := |c.publishers|;
        c.(publishers := c.publishers + [Publisher(RedirectResponse, c.hops - 1, Some(n - 1), Waiting),
                                         Publisher(Request, c.hops, Some(n), Waiting)],
           hops := c.hops + 1, ledger := c.ledger.(publications := c.ledger.publications + 2))
    case SpawnFinal =>
      if c.ended || c.hops == 0 then c
      else
        c.(publishers := c.publishers + [Publisher(FinalResponse, c.hops - 1, Some(|c.publishers| - 1), Waiting)],
           ended := true,
           ledger := c.ledger.(publications := c.ledger.publications + 1, terminal := true))
    case SpawnFailure =>
      if c.ended || c.hops == 0 then c
      else
        c.(publishers := c.publishers + [Publisher(Failure, c.hops - 1, Some(|c.publishers| - 1), Waiting)],
           ended := true,
           ledger := CleanedUp(c.ledger.(terminal := true)))
    case Run(i) => if i < |c.publishers| then RunPublisher(c, i) else c
    case Evicted => c.(ledger := c.ledger.(registered := false))
  }

  function After(events: seq<Event>): Chain {
    if events == [] then NEW_CHAIN else Step(After(events[..|events| - 1]), events[|events| - 1])
  }

  // ---- The wait relation and the ledger ----

  function Unreleased(ps: seq<Publisher>): nat {
    if ps == [] then 0
    else Unreleased(ps[..|ps| - 1]) + (if Holding(ps[|ps| - 1]) then 1 else 0)
  }

  /** The publisher still keeps the exchange alive. */
  predicate Holding(p: Publisher) {
    match p.kind
    case Request => !p.phase.Done?
    case Failure => false
    case _ => p.phase.Waiting? || p.phase.Published?
  }

  /** Steps every publisher has left. */
  function StepsLeft(p: Publisher): nat {
    match p.phase
    case Waiting => if p.kind.Failure? then 1 else 3
    case Published => 2
    case Between => 1
    case Done => 0
  }

  function Remaining(ps: seq<Publisher>): nat {
    if ps == [] then 0 else Remaining(ps[..|ps| - 1]) + StepsLeft(ps[|ps| - 1])
  }

  /** Each publisher waits for the one just before it, or for none: the relation is acyclic. */
  predicate WaitsBack(c: Chain) {
    forall i :: 0 <= i < |c.publishers| ==>
      c.publishers[i].waitsFor.None? || (i > 0 && c.publishers[i].waitsFor == Some(i - 1))
  }

  predicate ShapeOk(c: Chain) {
    && WaitsBack(c)
    && (c.hops == 0 <==> c.publishers == [])
    && (c.publishers != [] && !c.ended ==> c.publishers[|c.publishers| - 1].kind.Request?)
    && (forall i :: 0 <= i < |c.publishers| && c.publishers[i].kind.Failure? ==>
          c.publishers[i].phase.Waiting? || c.publishers[i].phase.Done?)
  }

  predicate LedgerOk(c: Chain) {
    && c.ledger.publications == Unreleased(c.publishers)
    && (c.ledger.terminal <==> c.ended)
    && (c.ended && c.ledger.publications == 0 ==> !c.ledger.registered)
  }

  lemma {:induction false} SumsUpdate(ps: seq<Publisher>, i: nat, p: Publisher)
    requires i < |ps|
    ensures Unreleased(ps[i := p]) == Unreleased(ps) - (if Holding(ps[i]) then 1 else 0) + (if Holding(p) then 1 else 0)
    ensures Remaining(ps[i := p]) == Remaining(ps) - StepsLeft(ps[i]) + StepsLeft(p)
  {
    var n := |ps| - 1;
    if i < n {
      SumsUpdate(ps[..n], i, p);
      assert ps[i := p][..n] == ps[..n][i := p];
    } else {
      assert ps[i := p][..n] == ps[..n];
    }
  }

  lemma SumsAppend(ps: seq<Publisher>, p: Publisher)
    ensures Unreleased(ps + [p]) == Unreleased(ps) + (if Holding(p) then 1 else 0)
    ensures Remaining(ps + [p]) == Remaining(ps) + StepsLeft(p)
  {
    assert (ps + [p])[..|ps|] == ps;
  }

  lemma SumsAppendTwo(ps: seq<Publisher>, p: Publisher, q: Publisher)
    ensures Unreleased(ps + [p, q]) == Unreleased(ps) + (if Holding(p) then 1 else 0) + (if Holding(q) then 1 else 0)
  {
    SumsAppend(ps, p);
    SumsAppend(ps + [p], q);
    assert ps + [p, q] == (ps + [p]) + [q];
  }

  lemma RunShape(c: Chain, i: nat)
    requires ShapeOk(c) && i < |c.publishers|
    ensures ShapeOk(RunPublisher(c, i))
  {
    hide Released, CanPublish;
  }

  lemma RunLedger(c: Chain, i: nat)
    requires ShapeOk(c) && LedgerOk(c) && i < |c.publishers|
    ensures LedgerOk(RunPublisher(c, i))
    ensures RunPublisher(c, i) != c ==> Remaining(RunPublisher(c, i).publishers) == Remaining(c.publishers) - 1
  {
    hide CanPublish, WaitsBack;
    var d := RunPublisher(c, i);
    SumsUpdate(c.publishers, i, d.publishers[i]);
    assert d.publishers == c.publishers[i := d.publishers[i]];
  }

  lemma RunKeeps(c: Chain, i: nat)
    requires ShapeOk(c) && LedgerOk(c) && i < |c.publishers|
    ensures ShapeOk(RunPublisher(c, i)) && LedgerOk(RunPublisher(c, i))
    ensures RunPublisher(c, i) != c ==> Remaining(RunPublisher(c, i).publishers) == Remaining(c.publishers) - 1
  {
    hide ShapeOk, LedgerOk;
    RunShape(c, i);
    RunLedger(c, i);
  }

  lemma SpawnKeeps(c: Chain, e: Event)
    requires ShapeOk(c) && LedgerOk(c) && !e.Run?
    ensures ShapeOk(Step(c, e)) && LedgerOk(Step(c, e))
  {
    var d := Step(c, e);
    var n := |c.publishers|;
    if |d.publishers| == n + 1 {
      SumsAppend(c.publishers, d.publishers[n]);
    } else if |d.publishers| == n + 2 {
      SumsAppendTwo(c.publishers, d.publishers[n], d.publishers[n + 1]);
    }
  }

  lemma {:induction false} ChainOk(events: seq<Event>)
    ensures ShapeOk(After(events)) && LedgerOk(After(events))
  {
    if events != [] {
      ChainOk(events[..|events| - 1]);
      var c, e := After(events[..|events| - 1]), events[|events| - 1];
      if e.Run? {
        if e.publisher < |c.publishers| {
          RunKeeps(c, e.publisher);
        }
      } else {
        SpawnKeeps(c, e);
      }
    }
  }

  // ---- Every publisher finishes ----

  lemma {:induction false} SomeUnfinished(ps: seq<Publisher>) returns (i: nat)
    requires Remaining(ps) > 0
    ensures i < |ps| && !ps[i].phase.Done? && forall j :: 0 <= j < i ==> ps[j].phase.Done?
  {
    var n := |ps| - 1;
    if Remaining(ps[..n]) > 0 {
      i := SomeUnfinished(ps[..n]);
    } else {
      AllFinished(ps[..n]);
      i := n;
      assert forall j :: 0 <= j < n ==> ps[..n][j] == ps[j];
    }
  }

  lemma {:induction false} AllFinished(ps: seq<Publisher>)
    requires Remaining(ps) == 0
    ensures forall j :: 0 <= j < |ps| ==> ps[j].phase.Done?
    ensures Unreleased(ps) == 0
  {
    if ps != [] {
      var n := |ps| - 1;
      AllFinished(ps[..n]);
      assert forall j :: 0 <= j < n ==> ps[..n][j] == ps[j];
    }
  }

  /** No deadlock: while any publisher is unfinished, some publisher can take a step. */
  lemma SomeoneCanRun(events: seq<Event>) returns (i: nat)
    requires Remaining(After(events).publishers) > 0
    ensures var c := After(events); i < |c.publishers| && RunPublisher(c, i) != c
  {
    ChainOk(events);
    var c := After(events);
    i := SomeUnfinished(c.publishers);
    assert RunPublisher(c, i).publishers[i].phase != c.publishers[i].phase;
  }

  /** A run of publisher steps in which each step does something. */
  predicate Busy(c: Chain, schedule: seq<nat>)
    decreases |schedule|
  {
    schedule == [] || (schedule[0] < |c.publishers| && RunPublisher(c, schedule[0]) != c
                       && Busy(RunPublisher(c, schedule[0]), schedule[1..]))
  }

  function RunAll(c: Chain, schedule: seq<nat>): Chain
    decreases |schedule|
  {
    if schedule == [] || schedule[0] >= |c.publishers| then c
    else RunAll(RunPublisher(c, schedule[0]), schedule[1..])
  }

  lemma {:induction false} BusyDrains(c: Chain, schedule: seq<nat>)
    requires ShapeOk(c) && LedgerOk(c) && Busy(c, schedule)
    ensures var d := RunAll(c, schedule);
      ShapeOk(d) && LedgerOk(d) && d.ended == c.ended && Remaining(d.publishers) == Remaining(c.publishers) - |schedule|
    decreases |schedule|
  {
    if schedule != [] {
      RunKeeps(c, schedule[0]);
      BusyDrains(RunPublisher(c, schedule[0]), schedule[1..]);
    }
  }

  /** From any point of any run, in whatever order the goroutines are scheduled: publishers can
      be run for exactly the number of steps they have left, no more; and then every
      one is finished, publications is zero, and a terminal exchange has left the table. */
  lemma EveryPublisherFinishes(events: seq<Event>, schedule: seq<nat>)
    requires Busy(After(events), schedule)
    ensures |schedule| <= Remaining(After(events).publishers)
    ensures var d := RunAll(After(events), schedule);
      |schedule| == Remaining(After(events).publishers) ==>
        && (forall i :: 0 <= i < |d.publishers| ==> d.publishers[i].phase.Done?)
        && d.ledger.publications == 0
        && (d.ended ==> !d.ledger.registered)
  {
    ChainOk(events);
    BusyDrains(After(events), schedule);
    var d := RunAll(After(events), schedule);
    if |schedule| == Remaining(After(events).publishers) {
      AllFinished(d.publishers);
    }
  }

  // ---- Order ----

  /** Every request event after the first, so every redirect, carries a decodable response. */
  predicate RedirectsDecodable(events: seq<Event>) {
    forall i, j :: 0 <= i < j < |events| && events[i].SpawnRequest? && events[j].SpawnRequest? ==> events[j].decodable
  }

  /** The log is request 0, redirect response 0, request 1, ...: publisher k is k-th. */
  predicate InOrder(log: seq<nat>) {
    forall k :: 0 <= k < |log| ==> log[k] == k
  }

  /** What publisher number i of a chain must be. */
  predicate RightPlace(p: Publisher, i: nat) {
    if i % 2 == 0 then p.kind.Request? && p.hop == i / 2
    else !p.kind.Request? && p.hop == i / 2
  }

  /** With every redirect decodable, publishers stand in the order of the chain, each waiting
      for the previous one, and a publisher has published exactly when it is in the log. */
  predicate Wired(c: Chain) {
    && (forall i :: 0 <= i < |c.publishers| ==> RightPlace(c.publishers[i], i))
    && (forall i :: 0 < i < |c.publishers| ==> c.publishers[i].waitsFor == Some(i - 1))
    && (!c.ended ==> |c.publishers| == if c.hops == 0 then 0 else 2 * c.hops - 1)
    && InOrder(c.log) && |c.log| <= |c.publishers|
    && (forall i :: 0 <= i < |c.publishers| ==> (c.publishers[i].phase.Waiting? <==> i >= |c.log|))
  }

  lemma RunWired(c: Chain, i: nat)
    requires Wired(c) && i < |c.publishers|
    ensures Wired(RunPublisher(c, i))
  {
    hide Released, RightPlace;
    if c.publishers[i].phase.Waiting? && CanPublish(c, i) {
      assert i == |c.log|;
    }
    var d := RunPublisher(c, i);
    assert forall j :: 0 <= j < |c.publishers| ==> d.publishers[j] == c.publishers[j].(phase := d.publishers[j].phase);
    forall j | 0 <= j < |c.publishers| ensures RightPlace(d.publishers[j], j) {
      PlaceKept(c.publishers[j], d.publishers[j].phase, j);
    }
  }

  lemma PlaceKept(p: Publisher, phase: Phase, i: nat)
    requires RightPlace(p, i)
    ensures RightPlace(p.(phase := phase), i)
  {
  }

  lemma SpawnWired(c: Chain, e: Event)
    requires ShapeOk(c) && Wired(c) && !e.Run? && (e.SpawnRequest? && c.hops > 0 ==> e.decodable)
    ensures Wired(Step(c, e))
  {
    hide CleanedUp;
  }

  lemma {:induction false} HopsNeedRequests(events: seq<Event>)
    requires After(events).hops > 0
    ensures exists i :: 0 <= i < |events| && events[i].SpawnRequest?
  {
    var n := |events| - 1;
    if !events[n].SpawnRequest? {
      hide RunPublisher, CleanedUp;
      RunKeepsHops(After(events[..n]), events[n]);
      HopsNeedRequests(events[..n]);
      var i :| 0 <= i < n && events[..n][i].SpawnRequest?;
      assert events[i].SpawnRequest?;
    }
  }

  lemma RunKeepsHops(c: Chain, e: Event)
    requires !e.SpawnRequest?
    ensures Step(c, e).hops == c.hops
  {
  }

  lemma {:induction false} RunsAreWired(events: seq<Event>)
    requires RedirectsDecodable(events)
    ensures Wired(After(events))
  {
    if events != [] {
      var before, e := events[..|events| - 1], events[|events| - 1];
      RunsAreWired(before);
      ChainOk(before);
      if e.Run? {
        if e.publisher < |After(before).publishers| {
          RunWired(After(before), e.publisher);
        }
      } else {
        if After(before).hops > 0 {
          HopsNeedRequests(before);
        }
        SpawnWired(After(before), e);
      }
    }
  }

  /** The events that start publishers, in order. */
  function Spawns(events: seq<Event>): seq<Event> {
    if events == [] then []
    else
      var last := events[|events| - 1];
      Spawns(events[..|events| - 1]) + (if last.Run? || last.Evicted? then [] else [last])
  }

  /** One request chain: request events, then possibly its end. */
  predicate IsChain(spawns: seq<Event>) {
    && |spawns| > 0 && spawns[0].SpawnRequest?
    && (forall i :: 0 <= i < |spawns| ==> !spawns[i].Run? && !spawns[i].Evicted?)
    && (forall i :: 0 <= i < |spawns| - 1 ==> spawns[i].SpawnRequest?)
  }

  lemma {:induction false} SpawnsContain(events: seq<Event>, i: nat)
    requires i < |events| && events[i].SpawnRequest?
    ensures exists j :: 0 <= j < |Spawns(events)| && Spawns(events)[j] == events[i]
  {
    var n := |events| - 1;
    if i < n {
      SpawnsContain(events[..n], i);
      var j :| 0 <= j < |Spawns(events[..n])| && Spawns(events[..n])[j] == events[i];
      assert Spawns(events)[j] == events[i];
    } else {
      assert Spawns(events)[|Spawns(events)| - 1] == events[i];
    }
  }

  /** Publisher steps do not change which redirects a run sees. */
  lemma {:induction false} SpawnsReflect(events: seq<Event>)
    requires RedirectsDecodable(Spawns(events))
    ensures RedirectsDecodable(events)
  {
    if events != [] {
      var n := |events| - 1;
      var before := Spawns(events[..n]);
      assert before <= Spawns(events);
      assert RedirectsDecodable(before) by {
        assert forall i :: 0 <= i < |before| ==> before[i] == Spawns(events)[i];
      }
      SpawnsReflect(events[..n]);
      forall i, j | 0 <= i < j < |events| && events[i].SpawnRequest? && events[j].SpawnRequest?
        ensures events[j].decodable
      {
        if j < n {
          assert events[..n][i] == events[i] && events[..n][j] == events[j];
        } else {
          assert events[..n][i] == events[i];
          SpawnsContain(events[..n], i);
          var k :| 0 <= k < |before| && before[k] == events[i];
          assert Spawns(events)[k] == events[i] && Spawns(events)[|before|] == events[n];
        }
      }
    }
  }

  /** Before any goroutine has run: nothing published, and publishers are only added. */
  lemma {:induction false} NothingRun(spawns: seq<Event>, k: nat)
    requires IsChain(spawns) && k <= |spawns|
    ensures var c := After(spawns[..k]);
      && c.log == [] && (forall i :: 0 <= i < |c.publishers| ==> c.publishers[i].phase.Waiting?)
      && (k < |spawns| ==> !c.ended) && (k > 0 ==> c.hops > 0 && c.publishers != [])
    ensures k > 0 ==> After(spawns[..k - 1]).publishers <= After(spawns[..k]).publishers
  {
    if k > 0 {
      NothingRun(spawns, k - 1);
      hide CleanedUp;
      assert spawns[..k][..k - 1] == spawns[..k - 1];
      assert k - 1 == 0 ==> spawns[k - 1].SpawnRequest?;
    }
  }

  lemma {:induction false} PublishersGrow(spawns: seq<Event>, k: nat, m: nat)
    requires IsChain(spawns) && k <= m <= |spawns|
    ensures After(spawns[..k]).publishers <= After(spawns[..m]).publishers
    decreases m - k
  {
    if k < m {
      NothingRun(spawns, m);
      PublishersGrow(spawns, k, m - 1);
    }
  }

  /** An undecodable redirect leaves its request waiting for nobody: it may run first. */
  lemma UndecodableCanOvertake(spawns: seq<Event>, k: nat) returns (p: nat)
    requires IsChain(spawns) && 0 < k < |spawns| && spawns[k].SpawnRequest? && !spawns[k].decodable
    ensures p > 0 && After(spawns + [Run(p)]).log == [p]
  {
    NothingRun(spawns, k);
    NothingRun(spawns, k + 1);
    NothingRun(spawns, |spawns|);
    PublishersGrow(spawns, k + 1, |spawns|);
    p := |After(spawns[..k]).publishers|;
    assert spawns[..k + 1][..k] == spawns[..k];
    assert After(spawns[..k + 1]).publishers[p].waitsFor.None?;
    assert spawns[..|spawns|] == spawns;
    assert After(spawns).publishers[p] == After(spawns[..k + 1]).publishers[p];
    assert (spawns + [Run(p)])[..|spawns|] == spawns;
  }

  lemma {:induction false} SpawnsOfChain(spawns: seq<Event>, k: nat)
    requires IsChain(spawns) && k <= |spawns|
    ensures Spawns(spawns[..k]) == spawns[..k]
  {
    if k > 0 {
      SpawnsOfChain(spawns, k - 1);
      assert spawns[..k][..k - 1] == spawns[..k - 1];
    }
  }

  /** The events of a chain are published in order under every interleaving if and only if
      each of its redirects carries a response that decodes. */
  lemma PublishedInOrderIff(spawns: seq<Event>)
    requires IsChain(spawns)
    ensures (forall events :: Spawns(events) == spawns ==> InOrder(After(events).log)) <==> RedirectsDecodable(spawns)
  {
    if RedirectsDecodable(spawns) {
      forall events | Spawns(events) == spawns ensures InOrder(After(events).log) {
        SpawnsReflect(events);
        RunsAreWired(events);
      }
    } else {
      var i, k :| 0 <= i < k < |spawns| && spawns[i].SpawnRequest? && spawns[k].SpawnRequest? && !spawns[k].decodable;
      var p := UndecodableCanOvertake(spawns, k);
      var events := spawns + [Run(p)];
      SpawnsOfChain(spawns, |spawns|);
      assert spawns[..|spawns|] == spawns && events[..|spawns|] == spawns;
      assert Spawns(events) == spawns;
      assert After(events).log[0] == p;
    }
  }

  /** What the order is: in a chain whose redirects decode, the k-th published event is
      request k / 2 for even k, and for odd k what ended that hop: its redirect response, its
      final response or its failure. */
  lemma PublishedPlaces(events: seq<Event>, k: nat)
    requires RedirectsDecodable(events) && k < |After(events).log|
    ensures var c := After(events); c.log[k] == k && k < |c.publishers| && RightPlace(c.publishers[k], k)
  {
    RunsAreWired(events);
  }

  /** How many request events have joined the chain, and what has ended it. */
  function Requests(events: seq<Event>): nat {
    if events == [] then 0
    else
      var before, last := events[..|events| - 1], events[|events| - 1];
      Requests(before) + (if last.SpawnRequest? && Ending(before).None? then 1 else 0)
  }

  function Ending(events: seq<Event>): Option<Kind> {
    if events == [] then None
    else
      var before, last := events[..|events| - 1], events[|events| - 1];
      if Ending(before).Some? || Requests(before) == 0 then Ending(before)
      else if last.SpawnFinal? then Some(FinalResponse)
      else if last.SpawnFailure? then Some(Failure)
      else None
  }

  /** Redirect responses end hops that have a next one; the last hop ends as the chain does. */
  predicate Ends(c: Chain, ending: Option<Kind>) {
    forall i :: 0 <= i < |c.publishers| ==>
      match c.publishers[i].kind
      case Request => true
      case RedirectResponse => c.publishers[i].hop < c.hops - 1
      case kind => ending == Some(kind) && c.publishers[i].hop == c.hops - 1
  }

  lemma StepEnds(c: Chain, e: Event, ending: Option<Kind>)
    requires Ends(c, ending) && c.ended == ending.Some? && (c.ended ==> c.hops > 0)
    ensures var d := Step(c, e);
      var after := if c.ended || c.hops == 0 then ending
                   else if e.SpawnFinal? then Some(FinalResponse) else if e.SpawnFailure? then Some(Failure) else None;
      && Ends(d, after) && d.ended == after.Some? && (d.ended ==> d.hops > 0)
      && d.hops == c.hops + (if e.SpawnRequest? && !c.ended then 1 else 0)
  {
    hide CleanedUp, CanPublish;
  }

  lemma {:induction false} RunEnds(events: seq<Event>)
    ensures var c := After(events);
      && c.hops == Requests(events) && c.ended == Ending(events).Some? && Ends(c, Ending(events))
      && (c.ended ==> c.hops > 0)
  {
    if events != [] {
      var before, e := events[..|events| - 1], events[|events| - 1];
      RunEnds(before);
      hide Step, Ends;
      StepEnds(After(before), e, Ending(before));
    }
  }

  /** Which event is published where: request k / 2 for even k; for odd k the redirect response
      of hop k / 2, or, when that hop is the last, what ended the chain. */
  lemma PublishedKinds(events: seq<Event>, k: nat)
    requires RedirectsDecodable(events) && k < |After(events).log|
    ensures var c := After(events);
      && c.log[k] == k && k < |c.publishers| && c.publishers[k].hop == k / 2 && k / 2 < Requests(events)
      && if k % 2 == 0 then c.publishers[k].kind == Request
         else if k / 2 + 1 < Requests(events) then c.publishers[k].kind == RedirectResponse
         else Ending(events) == Some(c.publishers[k].kind)
  {
    RunsAreWired(events);
    RunEnds(events);
    ChainOk(events);
    HopsInRange(events);
    hide After, Requests, Ending;
  }

  lemma HopsInRange(events: seq<Event>)
    requires RedirectsDecodable(events)
    ensures forall k :: 0 <= k < |After(events).publishers| ==> k / 2 < Requests(events)
  {
    RunsAreWired(events);
    RunEnds(events);
    hide After;
    var c := After(events);
    forall k | 0 <= k < |c.publishers| ensures k / 2 < c.hops {
      assert RightPlace(c.publishers[k], k);
      if !c.publishers[k].kind.Request? { assert c.publishers[k].hop <= c.hops - 1; }
    }
  }

  // ---- Nothing is left out ----

  ghost predicate WasEvicted(events: seq<Event>) {
    exists i :: 0 <= i < |events| && events[i].Evicted?
  }

  /** The exchange leaves the table when it is evicted, or ended with nobody publishing. */
  predicate IsRegistered(c: Chain, evicted: bool) {
    c.ledger.registered <==> !evicted && !(c.ended && c.ledger.publications == 0)
  }

  lemma RunRegisters(c: Chain, i: nat, evicted: bool)
    requires IsRegistered(c, evicted) && i < |c.publishers| && LedgerOk(c) && ShapeOk(c)
    ensures IsRegistered(RunPublisher(c, i), evicted)
  {
    var p := c.publishers[i];
    if Holding(p) { HeldIsCounted(c.publishers, i); }
    hide CanPublish, Unreleased, WaitsBack;
  }

  lemma {:induction false} HeldIsCounted(ps: seq<Publisher>, i: nat)
    requires i < |ps| && Holding(ps[i])
    ensures Unreleased(ps) > 0
  {
    if i < |ps| - 1 { HeldIsCounted(ps[..|ps| - 1], i); }
  }

  lemma StepRegisters(c: Chain, e: Event, evicted: bool)
    requires IsRegistered(c, evicted) && LedgerOk(c) && ShapeOk(c)
    ensures IsRegistered(Step(c, e), evicted || e.Evicted?)
  {
    if e.Run? && e.publisher < |c.publishers| { RunRegisters(c, e.publisher, evicted); }
    hide RunPublisher, Unreleased, ShapeOk;
  }

  /** After any events the exchange is in the table exactly if it has not been evicted, and its
      chain goes on or somebody still publishes for it. */
  lemma {:induction false} RegisteredIff(events: seq<Event>)
    ensures var c := After(events);
      c.ledger.registered <==> !WasEvicted(events) && (Ending(events).None? || Unreleased(c.publishers) > 0)
  {
    RunEnds(events);
    ChainOk(events);
    if events == [] {
    } else {
      var before, e := events[..|events| - 1], events[|events| - 1];
      RegisteredIff(before);
      ChainOk(before);
      RunEnds(before);
      EvictedBy(before, e);
      assert before + [e] == events;
      StepRegisters(After(before), e, WasEvicted(before));
      hide Step, Unreleased, Requests, Ending, WasEvicted;
    }
  }

  lemma EvictedBy(events: seq<Event>, e: Event)
    ensures WasEvicted(events + [e]) <==> WasEvicted(events) || e.Evicted?
  {
    var more := events + [e];
    if WasEvicted(events) {
      var i :| 0 <= i < |events| && events[i].Evicted?;
      assert more[i].Evicted?;
    }
    if e.Evicted? { assert more[|events|].Evicted?; }
  }

  /** A publisher for every request and for whatever ended every hop. */
  predicate AllJoined(c: Chain) {
    |c.publishers| == if c.hops == 0 then 0 else 2 * c.hops - (if c.ended then 0 else 1)
  }

  lemma {:induction false} EveryoneJoins(events: seq<Event>)
    requires RedirectsDecodable(events)
    ensures AllJoined(After(events))
  {
    if events != [] {
      var before, e := events[..|events| - 1], events[|events| - 1];
      EveryoneJoins(before);
      RunEnds(before);
      if e.SpawnRequest? && Requests(before) > 0 { FirstRequest(before); }
      hide RunPublisher, CleanedUp, Requests, Ending, Ends;
      if e.Run? { KeepsPublishers(After(before), e); }
    }
  }

  lemma {:induction false} FirstRequest(events: seq<Event>)
    requires Requests(events) > 0
    ensures exists i :: 0 <= i < |events| && events[i].SpawnRequest?
  {
    var last := |events| - 1;
    if events[last].SpawnRequest? {
    } else {
      FirstRequest(events[..last]);
      var i :| 0 <= i < |events[..last]| && events[..last][i].SpawnRequest?;
      assert events[i].SpawnRequest?;
    }
  }

  lemma KeepsPublishers(c: Chain, e: Event)
    requires e.Run?
    ensures var d := Step(c, e); |d.publishers| == |c.publishers| && d.hops == c.hops && d.ended == c.ended
  {
    hide CanPublish, CleanedUp;
  }

  lemma AllDoneIsAllLogged(c: Chain)
    requires Wired(c)
    ensures (forall i :: 0 <= i < |c.publishers| ==> c.publishers[i].phase.Done?) ==> |c.log| == |c.publishers|
  {
    if |c.log| < |c.publishers| { assert c.publishers[|c.log|].phase.Waiting?; }
  }

  /** When every publisher has finished, every request has been published, and so has what ended
      every hop; with PublishedKinds, this says what the whole stream of events is. */
  lemma AllArePublished(events: seq<Event>)
    requires RedirectsDecodable(events) && Requests(events) > 0
    requires forall i :: 0 <= i < |After(events).publishers| ==> After(events).publishers[i].phase.Done?
    ensures |After(events).log| == 2 * Requests(events) - (if Ending(events).Some? then 0 else 1)
  {
    RunsAreWired(events);
    RunEnds(events);
    EveryoneJoins(events);
    AllDoneIsAllLogged(After(events));
    hide After, Requests, Ending;
  }

  // ---- The exchange's counters as the source updates them ----

  /** publications, terminal and membership of the table, under pendReqMu. */
  class ExchangeLedger {
    var publications: int
    var terminal: bool
    var registered: bool

    function View(): Ledger
      reads this
    {
      Ledger(publications, terminal, registered)
    }

    constructor ()
      ensures View() == NEW_CHAIN.ledger
    {
      publications, terminal, registered := 0, false, true;
    }

    method Cleanup()
      modifies this
      ensures View() == CleanedUp(old(View()))
    {
      if terminal && publications == 0 && registered {
        registered := false;
      }
    }

    method FinishPublication()
      modifies this
      ensures View() == Released(old(View()))
    {
      publications := publications - 1;
      Cleanup();
    }

    /** queueNetworkRequestLocked and a redirect's emitNetworkResponse raise the count; the
        final response also makes the exchange terminal. */
    method BeginPublication(isFinal: bool)
      modifies this
      ensures View() == old(View()).(publications := old(publications) + 1, terminal := old(terminal) || isFinal)
    {
      publications := publications + 1;
      if isFinal {
        terminal := true;
      }
    }

    method ResolveFailed()
      modifies this
      ensures View() == CleanedUp(old(View()).(terminal := true))
    {
      terminal := true;
      Cleanup();
    }
  }
}
