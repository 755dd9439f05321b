/**
  Calls of the REPL's DevTools client that overlap (server/runtime/browser-cdp-client.ts):
  each makes a try, and perhaps a second one, while the other calls, the socket, the clock and
  the browser do what they like.
*/
module RetriedCalls {
  import opened Collections
  import opened RetryingClient

  /** A try that failed before anything was sent, or one that got a promise. */
  datatype Try = NotSent(outcome: Outcome) | Sent(id: Id)

  datatype Phase = Ready | Awaiting | Done(outcome: Outcome)

  /** A call of send without a session or of sessionCommand replays; a call of send for a
      session does not. */
  datatype Call = Call(name: string, replays: bool, tries: seq<Try>, phase: Phase)

  /** writers names, for every payload on the wire, the call that wrote it. */
  datatype World = World(client: Client, calls: seq<Call>, writers: seq<nat>)

  const INITIAL := World(START, [], [])

  predicate MayRepeat(c: Call) {
    c.replays && c.name in SAFE_RETRY_METHODS
  }

  function Limit(c: Call): nat {
    if MayRepeat(c) then 2 else 1
  }

  /** What a call does with the outcome of its latest try. */
  function Reacted(c: Call, o: Outcome): Call {
    if !c.replays || |c.tries| != 1 || o != ClosedBeforeResponse then c.(phase := Done(o))
    else if c.name !in SAFE_RETRY_METHODS then c.(phase := Done(OutcomeUnknown))
    else c.(phase := Ready)
  }

  function PutCall(w: World, k: nat, c: Call): World
    requires k < |w.calls|
  {
    w.(calls := w.calls[k := c])
  }

  datatype Event =
    | EvCall(name: string, replays: bool)
    | EvFail(call: nat, outcome: Outcome)
    | EvSend(call: nat, written: bool)
    | EvReturn(call: nat)
    | EvClient(event: RetryingClient.Event)

  /** Connecting or attaching fails, or the deadline has passed. */
  function Fail(w: World, k: nat, o: Outcome): World {
    if k >= |w.calls| || !w.calls[k].phase.Ready? || !(o.TimedOut? || o.ClosedBeforeResponse? || o.OtherFailure?) then w
    else
      var c := w.calls[k];
      PutCall(w, k, Reacted(c.(tries := c.tries + [NotSent(o)]), o))
  }

  function Send(w: World, k: nat, written: bool): World {
    if k >= |w.calls| || !w.calls[k].phase.Ready? then w
    else
      var c := w.calls[k];
      PutCall(w, k, c.(tries := c.tries + [Sent(w.client.nextId)], phase := Awaiting)).(
        client := Issue(w.client, c.name, written),
        writers := if written then w.writers + [k] else w.writers)
  }

  /** The promise awaited has settled. */
  function Return(w: World, k: nat): World {
    if k >= |w.calls| || !w.calls[k].phase.Awaiting? || w.calls[k].tries == [] then w
    else
      var last := w.calls[k].tries[|w.calls[k].tries| - 1];
      if !last.Sent? || last.id !in w.client.promises || w.client.promises[last.id].settled == [] then w
      else PutCall(w, k, Reacted(w.calls[k], w.client.promises[last.id].settled[0]))
  }

  /** Sockets, messages and timers; only calls issue commands. */
  function ClientEvent(w: World, e: RetryingClient.Event): World {
    if e.EvIssue? then w else w.(client := RetryingClient.Step(w.client, e))
  }

  function Step(w: World, e: Event): World {
    match e
    case EvCall(name, replays) => w.(calls := w.calls + [Call(name, replays, [], Ready)])
    case EvFail(k, o) => Fail(w, k, o)
    case EvSend(k, written) => Send(w, k, written)
    case EvReturn(k) => Return(w, k)
    case EvClient(event) => ClientEvent(w, event)
  }

  ghost predicate Follows(w: World, v: World) {
    exists e :: v == Step(w, e)
  }

  ghost predicate IsRun(run: seq<World>) {
    run != [] && run[0] == INITIAL && forall i :: 0 < i < |run| ==> Follows(run[i - 1], run[i])
  }

  // ---- What holds in every run ----

  /** The payloads a call has put on the wire. */
  function Writes(writers: seq<nat>, k: nat): set<int> {
    set i | 0 <= i < |writers| && writers[i] == k
  }

  /** The try is over, and the connection closed before its response. */
  predicate CutOff(c: Client, t: Try) {
    match t
    case NotSent(o) => o.ClosedBeforeResponse?
    case Sent(id) => id in c.promises && c.promises[id].settled == [ClosedBeforeResponse]
  }

  predicate CallOk(w: World, k: nat)
    requires k < |w.calls|
  {
    var c := w.calls[k];
    && |Writes(w.writers, k)| <= |c.tries| <= Limit(c)
    && (c.phase.Ready? ==> |c.tries| < Limit(c))
    && (forall i :: 0 <= i < |c.tries| && c.tries[i].Sent? ==> c.tries[i].id in w.client.promises)
    && (|c.tries| == 2 || (|c.tries| == 1 && c.phase.Ready?) ==> CutOff(w.client, c.tries[0]))
    && (c.phase == Done(OutcomeUnknown) ==>
          c.replays && c.name !in SAFE_RETRY_METHODS && |c.tries| == 1 && CutOff(w.client, c.tries[0]))
  }

  predicate WireOk(w: World) {
    && |w.writers| == |w.client.wire|
    && forall i :: 0 <= i < |w.writers| ==> w.writers[i] < |w.calls| && w.calls[w.writers[i]].name == w.client.wire[i].1
  }

  predicate Sound(w: World) {
    && RetryingClient.Inv(w.client) && WireOk(w)
    && forall k :: 0 <= k < |w.calls| ==> CallOk(w, k)
  }

  /** What a promise has settled with is not forgotten. */
  predicate Remembers(c: Client, d: Client) {
    forall id :: id in c.promises ==>
      id in d.promises && (c.promises[id].settled != [] ==> d.promises[id] == c.promises[id])
  }

  lemma ClientRemembers(c: Client, e: RetryingClient.Event)
    requires RetryingClient.Inv(c)
    ensures RetryingClient.Inv(RetryingClient.Step(c, e)) && Remembers(c, RetryingClient.Step(c, e))
    ensures !e.EvIssue? ==> RetryingClient.Step(c, e).wire == c.wire
  {
    RetryingClient.StepKeeps(c, e);
    forall id | id in c.promises && c.promises[id].settled != []
      ensures id in RetryingClient.Step(c, e).promises && RetryingClient.Step(c, e).promises[id] == c.promises[id]
    {
      StepSettles(c, e, id);
    }
  }

  /** A call that did nothing itself. */
  lemma OthersKeep(w: World, v: World, k: nat)
    requires k < |w.calls| && k < |v.calls| && v.calls[k] == w.calls[k] && CallOk(w, k)
    requires Remembers(w.client, v.client) && Writes(v.writers, k) == Writes(w.writers, k)
    ensures CallOk(v, k)
  {}

  lemma CallKeeps(w: World, name: string, replays: bool)
    requires Sound(w)
    ensures Sound(Step(w, EvCall(name, replays)))
  {
    var v := Step(w, EvCall(name, replays));
    forall k | 0 <= k < |v.calls| ensures CallOk(v, k) {
      if k < |w.calls| {
        OthersKeep(w, v, k);
      } else {
        assert v.calls[k] == Call(name, replays, [], Ready);
        assert Writes(v.writers, k) == {};
      }
    }
  }

  lemma FailKeeps(w: World, k: nat, o: Outcome)
    requires Sound(w)
    ensures Sound(Fail(w, k, o))
  {
    var v := Fail(w, k, o);
    if v != w {
      hide RetryingClient.Inv;
      forall j | 0 <= j < |v.calls| ensures CallOk(v, j) {
        assert CallOk(w, j);
        if j != k { OthersKeep(w, v, j); }
      }
    }
  }

  lemma ReturnKeeps(w: World, k: nat)
    requires Sound(w)
    ensures Sound(Return(w, k))
  {
    var v := Return(w, k);
    if v != w {
      var last := w.calls[k].tries[|w.calls[k].tries| - 1];
      assert |w.client.promises[last.id].settled| == 1;
      assert OwnId(w.client.promises[last.id].settled[0], last.id);
      hide RetryingClient.Inv;
      forall j | 0 <= j < |v.calls| ensures CallOk(v, j) {
        assert CallOk(w, j);
        if j != k { OthersKeep(w, v, j); }
      }
    }
  }

  lemma WritesOne(writers: seq<nat>, k: nat, j: nat)
    ensures Writes(writers + [k], j) == if j == k then Writes(writers, j) + {|writers|} else Writes(writers, j)
  {}

  lemma SendKeeps(w: World, k: nat, written: bool)
    requires Sound(w)
    ensures Sound(Send(w, k, written))
  {
    var v := Send(w, k, written);
    if k < |w.calls| && w.calls[k].phase.Ready? {
      ClientRemembers(w.client, RetryingClient.EvIssue(w.calls[k].name, written));
      assert w.client.nextId in v.client.promises;
      assert v.client.wire == if written then w.client.wire + [(w.client.nextId, w.calls[k].name)] else w.client.wire;
      hide RetryingClient.Inv, Issue, Writes;
      forall j | 0 <= j < |v.calls| ensures CallOk(v, j) {
        assert CallOk(w, j);
        WritesOne(w.writers, k, j);
        if j != k {
          OthersKeep(w, v, j);
        } else {
          SenderKeeps(w, k, written);
        }
      }
    }
  }

  lemma SenderKeeps(w: World, k: nat, written: bool)
    requires k < |w.calls| && w.calls[k].phase.Ready? && CallOk(w, k)
    requires var d := Issue(w.client, w.calls[k].name, written); Remembers(w.client, d) && w.client.nextId in d.promises
    ensures CallOk(Send(w, k, written), k)
  {
    hide Issue, Writes;
    WritesOne(w.writers, k, k);
  }

  lemma ClientKeeps(w: World, e: RetryingClient.Event)
    requires Sound(w)
    ensures Sound(ClientEvent(w, e))
  {
    var v := ClientEvent(w, e);
    if !e.EvIssue? {
      ClientRemembers(w.client, e);
      hide RetryingClient.Inv, RetryingClient.Step;
      forall k | 0 <= k < |v.calls| ensures CallOk(v, k) { OthersKeep(w, v, k); }
    }
  }

  lemma StepSound(w: World, e: Event)
    requires Sound(w)
    ensures Sound(Step(w, e))
  {
    hide Sound;
    match e
    case EvCall(name, replays) => CallKeeps(w, name, replays);
    case EvFail(k, o) => FailKeeps(w, k, o);
    case EvSend(k, written) => SendKeeps(w, k, written);
    case EvReturn(k) => ReturnKeeps(w, k);
    case EvClient(event) => ClientKeeps(w, event);
  }

  lemma {:induction false} RunSound(run: seq<World>, n: nat)
    requires IsRun(run) && n < |run|
    ensures Sound(run[n])
  {
    if n > 0 {
      hide Step, Sound;
      RunSound(run, n - 1);
      assert Follows(run[n - 1], run[n]);
      var e :| run[n] == Step(run[n - 1], e);
      StepSound(run[n - 1], e);
    }
  }

  /** Under any interleaving of calls, messages, timeouts and closes: every payload on the
      wire carries the method of one call; a call writes at most one payload, or at most two
      if it replays and its method is safe to repeat; and it tries again, or reports that the
      outcome is unknown, only after the connection closed on its first try. */
  lemma WritesAreBounded(run: seq<World>, n: nat, k: nat)
    requires IsRun(run) && n < |run| && k < |run[n].calls|
    ensures var w := run[n]; var c := w.calls[k];
      && |w.writers| == |w.client.wire|
      && (forall i :: i in Writes(w.writers, k) ==> w.client.wire[i].1 == c.name)
      && |Writes(w.writers, k)| <= (if MayRepeat(c) then 2 else 1)
      && (|c.tries| > 1 ==> CutOff(w.client, c.tries[0]))
      && (c.phase == Done(OutcomeUnknown) ==>
            c.name !in SAFE_RETRY_METHODS && |c.tries| == 1 && CutOff(w.client, c.tries[0]))
  {
    RunSound(run, n);
    hide IsRun, RetryingClient.Inv;
    assert CallOk(run[n], k);
  }

  // ---- What a call reports ----

  /** How a try has ended, if it has. */
  function EndOf(c: Client, t: Try): Option<Outcome> {
    match t
    case NotSent(o) => Some(o)
    case Sent(id) =>
      if id in c.promises && c.promises[id].settled != [] then Some(c.promises[id].settled[0]) else None
  }

  /** The connection closed on the only try of a call that replays. */
  predicate FirstCutOff(c: Call, o: Outcome) {
    c.replays && |c.tries| == 1 && o == ClosedBeforeResponse
  }

  /** A call reports how its last try ended, unless the connection closed on its first: then it
      tries once more if its method is safe to repeat, or reports that it does not know. */
  predicate Reports(w: World, k: nat)
    requires k < |w.calls|
  {
    var c := w.calls[k];
    match c.phase
    case Ready =>
      c.tries == [] || (FirstCutOff(c, ClosedBeforeResponse) && MayRepeat(c) && CutOff(w.client, c.tries[0]))
    case Awaiting => c.tries != [] && c.tries[|c.tries| - 1].Sent?
    case Done(o) =>
      c.tries != [] &&
      match EndOf(w.client, c.tries[|c.tries| - 1])
      case None => false
      case Some(end) => if FirstCutOff(c, end) then o == OutcomeUnknown && !MayRepeat(c) else o == end
  }

  lemma EndIsRemembered(c: Client, d: Client, t: Try)
    requires Remembers(c, d) && EndOf(c, t).Some?
    ensures EndOf(d, t) == EndOf(c, t)
  {}

  lemma OthersReport(w: World, v: World, k: nat)
    requires k < |w.calls| && k < |v.calls| && v.calls[k] == w.calls[k] && Reports(w, k)
      && Remembers(w.client, v.client)
    ensures Reports(v, k)
  {
    var c := w.calls[k];
    if c.phase.Done? { EndIsRemembered(w.client, v.client, c.tries[|c.tries| - 1]); }
    if c.phase.Ready? && c.tries != [] { hide Remembers; CutOffLasts(w.client, v.client, c.tries[0]); }
  }

  lemma CutOffLasts(c: Client, d: Client, t: Try)
    requires Remembers(c, d) && CutOff(c, t)
    ensures CutOff(d, t)
  {}

  lemma FailReports(w: World, k: nat, o: Outcome)
    requires k < |w.calls| && Reports(w, k)
    ensures Reports(Fail(w, k, o), k)
  {}

  lemma SendReports(w: World, k: nat, written: bool)
    requires k < |w.calls| && Reports(w, k)
    ensures Reports(Send(w, k, written), k)
  {}

  lemma ReturnReports(w: World, k: nat)
    requires Sound(w) && k < |w.calls| && Reports(w, k)
    ensures Reports(Return(w, k), k)
  {
    if w.calls[k].phase.Awaiting? {
      var last := w.calls[k].tries[|w.calls[k].tries| - 1];
      if last.id in w.client.promises && w.client.promises[last.id].settled != [] {
        assert |w.client.promises[last.id].settled| == 1;
      }
    }
  }

  lemma StepRemembers(w: World, e: Event)
    requires Sound(w)
    ensures Remembers(w.client, Step(w, e).client)
    ensures |w.calls| <= |Step(w, e).calls|
    ensures forall k :: 0 <= k < |w.calls| && !(e.EvFail? || e.EvSend? || e.EvReturn?) ==>
      Step(w, e).calls[k] == w.calls[k]
    ensures forall k :: 0 <= k < |w.calls| && (e.EvFail? || e.EvSend? || e.EvReturn?) && e.call != k ==>
      Step(w, e).calls[k] == w.calls[k]
  {
    if e.EvSend? && e.call < |w.calls| { ClientRemembers(w.client, EvIssue(w.calls[e.call].name, e.written)); }
    if e.EvClient? { ClientRemembers(w.client, e.event); }
    hide Sound, RetryingClient.Inv;
  }

  lemma StepReports(w: World, e: Event, k: nat)
    requires Sound(w) && k < |Step(w, e).calls| && (k < |w.calls| ==> Reports(w, k))
    ensures Reports(Step(w, e), k)
  {
    StepRemembers(w, e);
    hide Sound, Reports, Remembers;
    if k < |w.calls| {
      if e.EvFail? && e.call == k {
        FailReports(w, k, e.outcome);
      } else if e.EvSend? && e.call == k {
        SendReports(w, k, e.written);
      } else if e.EvReturn? && e.call == k {
        ReturnReports(w, k);
      } else {
        hide Step;
        OthersReport(w, Step(w, e), k);
      }
    } else {
      NewReports(w, e, k);
    }
  }

  lemma NewReports(w: World, e: Event, k: nat)
    requires |w.calls| <= k < |Step(w, e).calls|
    ensures e.EvCall? && k == |w.calls| && Step(w, e).calls[k] == Call(e.name, e.replays, [], Ready)
      && Reports(Step(w, e), k)
  {}

  /** In every run every call reports what became of its tries. */
  lemma {:induction false} CallsReport(run: seq<World>, n: nat, k: nat)
    requires IsRun(run) && n < |run| && k < |run[n].calls|
    ensures Reports(run[n], k)
  {
    if n > 0 {
      hide Step, Sound, Reports;
      assert Follows(run[n - 1], run[n]);
      var e :| run[n] == Step(run[n - 1], e);
      RunSound(run, n - 1);
      if k < |run[n - 1].calls| { CallsReport(run, n - 1, k); }
      StepReports(run[n - 1], e, k);
    }
  }

  /** A call that is ready can try or fail to; one whose promise has settled moves on; a new call
      can be made at any time; and sockets, messages and timers reach the client. */
  lemma CallsGoOn(w: World, k: nat)
    requires Sound(w) && k < |w.calls| && Reports(w, k)
    ensures w.calls[k].phase.Ready? ==>
      && Step(w, EvFail(k, TimedOut)).calls[k].phase == Done(TimedOut)
      && forall written :: var v := Step(w, EvSend(k, written));
           && v.calls[k].phase.Awaiting? && |v.calls[k].tries| == |w.calls[k].tries| + 1
           && v.client == RetryingClient.Step(w.client, EvIssue(w.calls[k].name, written))
           && v.calls[k].tries[|w.calls[k].tries|] == Sent(w.client.nextId)
    ensures w.calls[k].phase.Awaiting? && EndOf(w.client, w.calls[k].tries[|w.calls[k].tries| - 1]).Some? ==>
      !Step(w, EvReturn(k)).calls[k].phase.Awaiting?
    ensures forall name, replays :: Step(w, EvCall(name, replays)).calls == w.calls + [Call(name, replays, [], Ready)]
    ensures forall e: RetryingClient.Event :: !e.EvIssue? ==>
      Step(w, EvClient(e)).client == RetryingClient.Step(w.client, e)
  {
    hide Sound, RetryingClient.Step;
    forall e: RetryingClient.Event | !e.EvIssue?
      ensures Step(w, EvClient(e)).client == RetryingClient.Step(w.client, e) {}
    forall written ensures Send(w, k, written).client ==
      if w.calls[k].phase.Ready? then RetryingClient.Step(w.client, EvIssue(w.calls[k].name, written)) else w.client
    {
      IssueIsStep(w.client, w.calls[k].name, written);
    }
  }

  lemma IssueIsStep(c: Client, name: string, written: bool)
    ensures RetryingClient.Step(c, EvIssue(name, written)) == Issue(c, name, written)
  {}
}
