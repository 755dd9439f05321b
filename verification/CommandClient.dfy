/**
  The command protocol of the shared DevTools client (server/lib/cdpclient/cdpclient.go).

  One step per critical section: a caller's own steps, the read loop's, and the two halves of
  shutdown. The browser's messages are arbitrary; a reply that matches no waiting command is
  dropped, and events are not modelled.
*/
module CommandClient {
  import opened Collections

  type Id = nat

  datatype Message = Message(id: Id, body: nat)

  /** What a response channel can carry. */
  datatype Response = Reply(message: Message) | Unknown

  /** How Send returns: with a response, or with an error of its own. */
  datatype Outcome = Answered(response: Response) | WriteFailed | Cancelled | Closed | Unsent

  datatype Phase =
    | Encoded
    | Registered
    | Failing
    | Waiting
    | Leaving
    | Done(outcome: Outcome)

  /** A channel holds at most one response; pushes counts all it was ever sent. */
  datatype Call = Call(phase: Phase, channel: Option<Response>, pushes: nat)

  datatype Shutdown = Open | Closing | Failed

  datatype Client = Client(nextId: Id, pending: set<Id>, calls: map<Id, Call>, shutdown: Shutdown)

  const START := Client(0, {}, map[], Open)

  function SetPhase(c: Client, id: Id, p: Phase): Client
    requires id in c.calls
  {
    c.(calls := c.calls[id := c.calls[id].(phase := p)])
  }

  /** A new command; encoding it may fail. */
  function Begin(c: Client, encodes: bool): Client {
    var id := c.nextId + 1;
    c.(nextId := id, calls := c.calls[id := Call(if encodes then Encoded else Done(Unsent), None, 0)])
  }

  function Register(c: Client, id: Id): Client
    requires id in c.calls
  {
    if !c.calls[id].phase.Encoded? then c
    else if !c.shutdown.Open? then SetPhase(c, id, Done(Closed))
    else SetPhase(c, id, Registered).(pending := c.pending + {id})
  }

  function Write(c: Client, id: Id, ok: bool): Client
    requires id in c.calls
  {
    if !c.calls[id].phase.Registered? then c
    else SetPhase(c, id, if ok then Waiting else Failing)
  }

  /** The caller of a failed write forgets its command. */
  function GiveUp(c: Client, id: Id): Client
    requires id in c.calls
  {
    if !c.calls[id].phase.Failing? then c
    else SetPhase(c, id, Done(WriteFailed)).(pending := c.pending - {id})
  }

  function TakeResponse(c: Client, id: Id): Client
    requires id in c.calls
  {
    if c.calls[id].phase.Waiting? && c.calls[id].channel.Some? then
      SetPhase(c, id, Done(Answered(c.calls[id].channel.value)))
    else c
  }

  /** The caller's own context has ended: forget the command, then look once more. */
  function Cancel(c: Client, id: Id): Client
    requires id in c.calls
  {
    if !c.calls[id].phase.Waiting? then c
    else SetPhase(c, id, Leaving).(pending := c.pending - {id})
  }

  function Leave(c: Client, id: Id): Client
    requires id in c.calls
  {
    if !c.calls[id].phase.Leaving? then c
    else SetPhase(c, id, Done(if c.calls[id].channel.Some? then Answered(c.calls[id].channel.value) else Cancelled))
  }

  /** The caller sees the connection closed, and looks once more. */
  function SeeClosed(c: Client, id: Id): Client
    requires id in c.calls
  {
    if !c.calls[id].phase.Waiting? || c.shutdown.Open? then c
    else SetPhase(c, id, Done(if c.calls[id].channel.Some? then Answered(c.calls[id].channel.value) else Closed))
  }

  function Pushed(call: Call, r: Response): Call {
    call.(channel := Some(r), pushes := call.pushes + 1)
  }

  /** The read loop hands a reply to the command that waits for it. */
  function Deliver(c: Client, m: Message): Client {
    if m.id in c.pending && m.id in c.calls then
      c.(calls := c.calls[m.id := Pushed(c.calls[m.id], Reply(m))], pending := c.pending - {m.id})
    else c
  }

  function Shut(c: Client): Client {
    if c.shutdown.Open? then c.(shutdown := Closing) else c
  }

  function FailPending(c: Client): Client {
    if !c.shutdown.Closing? then c
    else
      c.(shutdown := Failed, pending := {},
         calls := map id | id in c.calls :: if id in c.pending then Pushed(c.calls[id], Unknown) else c.calls[id])
  }

  datatype Event =
    | EvBegin(encodes: bool)
    | EvRegister(id: Id)
    | EvWrite(id: Id, ok: bool)
    | EvGiveUp(id: Id)
    | EvTakeResponse(id: Id)
    | EvCancel(id: Id)
    | EvLeave(id: Id)
    | EvSeeClosed(id: Id)
    | EvDeliver(message: Message)
    | EvShut
    | EvFailPending

  function CallStep(c: Client, e: Event, id: Id): Client
    requires id in c.calls
  {
    match e
    case EvRegister(_) => Register(c, id)
    case EvWrite(_, ok) => Write(c, id, ok)
    case EvGiveUp(_) => GiveUp(c, id)
    case EvTakeResponse(_) => TakeResponse(c, id)
    case EvCancel(_) => Cancel(c, id)
    case EvLeave(_) => Leave(c, id)
    case EvSeeClosed(_) => SeeClosed(c, id)
    case _ => c
  }

  function Step(c: Client, e: Event): Client {
    match e
    case EvBegin(encodes) => Begin(c, encodes)
    case EvDeliver(m) => Deliver(c, m)
    case EvShut => Shut(c)
    case EvFailPending => FailPending(c)
    case _ => if e.id in c.calls then CallStep(c, e, e.id) else c
  }

  ghost predicate Follows(c: Client, d: Client) {
    exists e :: d == Step(c, e)
  }

  ghost predicate IsRun(run: seq<Client>) {
    run != [] && run[0] == START && forall i :: 0 < i < |run| ==> Follows(run[i - 1], run[i])
  }

  // ---- What every run keeps ----

  /** A command that waits, or will, and has no response yet is still known to the read loop,
      unless the connection is down. */
  predicate CallOk(c: Client, id: Id, x: Call) {
    && x.pushes == (if x.channel.Some? then 1 else 0)
    && (id in c.pending ==> x.channel.None?)
    && (x.phase.Encoded? ==> id !in c.pending && x.channel.None?)
    && (x.phase.Registered? || x.phase.Waiting? || x.phase.Failing? ==> id in c.pending || x.channel.Some?)
    && (x.phase.Leaving? ==> id !in c.pending)
    && (x.channel.Some? && x.channel.value.Reply? ==> x.channel.value.message.id == id)
    && (x.channel.Some? && x.channel.value.Unknown? ==> c.shutdown.Failed?)
    && (x.phase.Done? && x.phase.outcome.Answered? ==> x.channel == Some(x.phase.outcome.response))
    && (x.phase.Done? && id in c.pending ==> x.phase.outcome.Closed? && !c.shutdown.Open?)
  }

  predicate Inv(c: Client) {
    && (forall id :: id in c.calls ==> id <= c.nextId && CallOk(c, id, c.calls[id]))
    && (forall id :: id in c.pending ==> id in c.calls)
    && (c.shutdown.Failed? ==> c.pending == {})
  }

  /** What has settled stays as it is, a response once sent stays, and ids are not given twice. */
  predicate Settled(c: Client, d: Client) {
    forall id :: id in c.calls ==>
      && id in d.calls
      && (c.calls[id].phase.Done? ==> d.calls[id].phase == c.calls[id].phase)
      && (c.calls[id].channel.Some? ==> d.calls[id].channel == c.calls[id].channel)
  }

  lemma CallStepKeeps(c: Client, e: Event, id: Id)
    requires Inv(c) && id in c.calls
    ensures Inv(CallStep(c, e, id)) && Settled(c, CallStep(c, e, id))
    ensures CallStep(c, e, id).shutdown == c.shutdown
  {}

  lemma StepKeeps(c: Client, e: Event)
    requires Inv(c)
    ensures Inv(Step(c, e)) && Settled(c, Step(c, e))
    ensures c.shutdown.Failed? ==> Step(c, e).shutdown.Failed?
  {
    match e
    case EvBegin(_) => assert c.nextId + 1 !in c.calls;
    case EvDeliver(_) =>
    case EvShut =>
    case EvFailPending =>
    case _ => if e.id in c.calls { CallStepKeeps(c, e, e.id); }
  }

  lemma {:induction false} RunKeeps(run: seq<Client>)
    requires IsRun(run)
    ensures Inv(run[|run| - 1])
  {
    var last := |run| - 1;
    if last == 0 {
    } else {
      assert IsRun(run[..last]) by {
        forall i | 0 < i < last ensures Follows(run[..last][i - 1], run[..last][i]) {
          assert Follows(run[i - 1], run[i]);
        }
      }
      RunKeeps(run[..last]);
      assert Follows(run[last - 1], run[last]);
      var e :| run[last] == Step(run[last - 1], e);
      hide Step, Inv;
      StepKeeps(run[last - 1], e);
    }
  }

  predicate HasReply(x: Call) {
    x.phase.Done? && x.phase.outcome.Answered? && x.phase.outcome.response.Reply?
  }

  /** At any point of any run: a send on a response channel finds it empty, no channel has had
      two values, an answer bears its own id, and after shutdown nothing is pending. */
  lemma CommandsAreMatched(run: seq<Client>)
    requires IsRun(run)
    ensures var c := run[|run| - 1];
      && (forall id :: id in c.pending ==> id in c.calls && c.calls[id].channel.None?)
      && (forall id :: id in c.calls ==> c.calls[id].pushes <= 1)
      && (forall id :: id in c.calls && HasReply(c.calls[id]) ==> c.calls[id].phase.outcome.response.message.id == id)
      && (c.shutdown.Failed? ==> c.pending == {})
  {
    RunKeeps(run);
  }

  /** An outcome, once reached, is final; shutdown is for good. */
  lemma {:induction false} OutcomesAreFinal(run: seq<Client>, i: nat, j: nat)
    requires IsRun(run) && i <= j < |run|
    ensures Settled(run[i], run[j]) && (run[i].shutdown.Failed? ==> run[j].shutdown.Failed? && run[j].pending == {})
    decreases j - i
  {
    hide Step, CallOk, Settled;
    PrefixIsRun(run, j + 1);
    RunKeeps(run[..j + 1]);
    if i == j {
      SettledReflexive(run[i]);
    } else {
      OutcomesAreFinal(run, i, j - 1);
      PrefixIsRun(run, j);
      RunKeeps(run[..j]);
      assert Follows(run[j - 1], run[j]);
      var e :| run[j] == Step(run[j - 1], e);
      StepKeeps(run[j - 1], e);
      SettledTransitive(run[i], run[j - 1], run[j]);
    }
  }

  lemma PrefixIsRun(run: seq<Client>, n: nat)
    requires IsRun(run) && 0 < n <= |run|
    ensures IsRun(run[..n]) && run[..n][n - 1] == run[n - 1]
  {
    forall k | 0 < k < n ensures Follows(run[..n][k - 1], run[..n][k]) { assert Follows(run[k - 1], run[k]); }
  }

  lemma SettledReflexive(c: Client)
    ensures Settled(c, c)
  {}

  lemma SettledTransitive(c: Client, d: Client, e: Client)
    requires Settled(c, d) && Settled(d, e)
    ensures Settled(c, e)
  {}

  /** No command is stuck: a caller that still waits can be answered, cancelled or told of the
      shutdown, and any other caller that has not returned has a step of its own. */
  lemma NobodyIsStuck(c: Client, id: Id)
    requires Inv(c) && id in c.calls && !c.calls[id].phase.Done?
    ensures c.calls[id].phase.Waiting? && c.calls[id].channel.None? && c.shutdown.Open? ==>
      forall body :: TakeResponse(Deliver(c, Message(id, body)), id).calls[id].phase ==
        Done(Answered(Reply(Message(id, body))))
    ensures c.calls[id].phase.Waiting? && c.calls[id].channel.Some? ==> TakeResponse(c, id).calls[id].phase.Done?
    ensures c.calls[id].phase.Waiting? && !c.shutdown.Open? ==> SeeClosed(c, id).calls[id].phase.Done?
    ensures c.calls[id].phase.Waiting? ==> Leave(Cancel(c, id), id).calls[id].phase.Done?
    ensures c.calls[id].phase.Leaving? ==> Leave(c, id).calls[id].phase.Done?
    ensures c.calls[id].phase.Failing? ==> GiveUp(c, id).calls[id].phase.Done?
    ensures c.calls[id].phase.Encoded? ==> Register(c, id) != c
    ensures c.calls[id].phase.Registered? ==> forall ok :: Write(c, id, ok) != c
  {
    forall ok | c.calls[id].phase.Registered? ensures Write(c, id, ok) != c {
      assert Write(c, id, ok).calls[id].phase != c.calls[id].phase;
    }
    assert c.calls[id].phase.Encoded? ==> Register(c, id).calls[id].phase != c.calls[id].phase;
  }

  // ---- What an outcome means ----

  /** One caller's step that makes it return: with the response it was sent, whenever there is one;
      cancelled or closed only without; and with an error that is its own. */
  lemma WhatReturns(c: Client, e: Event, id: Id)
    requires Inv(c) && id in c.calls && !c.calls[id].phase.Done?
    ensures id in Step(c, e).calls
    ensures var x, y := c.calls[id], Step(c, e).calls[id]; y.phase.Done? ==>
      match y.phase.outcome
      case Answered(r) => x.channel == Some(r) && (x.phase.Waiting? || x.phase.Leaving?)
      case WriteFailed => x.phase.Failing? && e == EvGiveUp(id)
      case Cancelled => x.phase.Leaving? && e == EvLeave(id) && x.channel.None?
      case Closed => !c.shutdown.Open? && x.channel.None? && (e == EvRegister(id) || e == EvSeeClosed(id))
      case Unsent => false
    ensures var x, y := c.calls[id], Step(c, e).calls[id]; y.phase != x.phase && !y.phase.Done? ==>
      match y.phase
      case Registered => x.phase.Encoded? && e == EvRegister(id) && c.shutdown.Open?
      case Waiting => x.phase.Registered? && e == EvWrite(id, true)
      case Failing => x.phase.Registered? && e == EvWrite(id, false)
      case Leaving => x.phase.Waiting? && e == EvCancel(id)
      case _ => false
  {
    assert e.EvBegin? ==> c.nextId + 1 != id;
  }

  /** A new command gets the next id; one that cannot be encoded returns at once. */
  lemma BeginsNext(c: Client, encodes: bool)
    requires Inv(c)
    ensures var v, id := Step(c, EvBegin(encodes)), c.nextId + 1;
      && id !in c.calls && v.nextId == id && v.pending == c.pending && v.shutdown == c.shutdown
      && v.calls == c.calls[id := Call(if encodes then Encoded else Done(Unsent), None, 0)]
  {}

  /** A command that is registered, written, answered and not disturbed returns the answer and
      leaves nothing behind; so does one whose write fails, with its error. */
  lemma CommandReturns(c: Client, id: Id, body: nat)
    requires Inv(c) && id in c.calls && c.calls[id].phase.Encoded? && c.shutdown.Open?
    ensures var sent := Step(Step(c, EvRegister(id)), EvWrite(id, true));
      var v := Step(Step(sent, EvDeliver(Message(id, body))), EvTakeResponse(id));
      && sent.pending == c.pending + {id}
      && id in v.calls && v.calls[id].phase == Done(Answered(Reply(Message(id, body)))) && v.pending == c.pending
    ensures var v := Step(Step(Step(c, EvRegister(id)), EvWrite(id, false)), EvGiveUp(id));
      id in v.calls && v.calls[id].phase == Done(WriteFailed) && v.pending == c.pending
  {
    assert c.pending + {id} - {id} == c.pending;
  }

  /** Shutting down refuses what is not registered yet and tells every pending command, and only
      those; the second half does nothing before the first. */
  lemma ShutdownTells(c: Client)
    requires c.shutdown.Open?
    ensures Step(c, EvFailPending) == c
    ensures var shut := Step(c, EvShut); var v := Step(shut, EvFailPending);
      && shut.shutdown.Closing? && shut.calls == c.calls && shut.pending == c.pending
      && v.shutdown.Failed? && v.pending == {} && v.calls.Keys == c.calls.Keys
      && (forall id :: id in c.calls ==>
           && v.calls[id].phase == c.calls[id].phase
           && v.calls[id].channel == if id in c.pending then Some(Unknown) else c.calls[id].channel)
      && (forall id :: id in c.calls && c.calls[id].phase.Encoded? ==>
        Step(shut, EvRegister(id)).calls[id].phase == Done(Closed))
  {}

  // ---- The shared tables ----

  /** pending, the channels and the closed channel of one connection, whose sections are the
      steps above. */
  class Connection {
    var pending: set<Id>
    var channels: map<Id, Option<Response>>
    var closed: bool
    var nextId: Id

    ghost predicate Shows(c: Client)
      reads this
    {
      && pending == c.pending && nextId == c.nextId && closed == !c.shutdown.Open?
      && channels.Keys == c.calls.Keys && forall id :: id in channels ==> channels[id] == c.calls[id].channel
    }

    constructor ()
      ensures Shows(START)
    {
      pending, channels, closed, nextId := {}, map[], false, 0;
    }

    method BeginSend(encodes: bool, ghost c: Client) returns (id: Id)
      requires Shows(c)
      modifies this
      ensures Shows(Begin(c, encodes)) && id == c.nextId + 1
    {
      nextId := nextId + 1;
      id := nextId;
      channels := channels[id := None];
    }

    method RegisterSend(id: Id, ghost c: Client) returns (ok: bool)
      requires Shows(c) && id in c.calls && c.calls[id].phase.Encoded?
      modifies this
      ensures Shows(Register(c, id)) && ok == Register(c, id).calls[id].phase.Registered?
    {
      ok := !closed;
      if ok { pending := pending + {id}; }
    }

    /** A buffered send, which would block on a full channel. */
    method Push(id: Id, r: Response)
      requires id in channels && channels[id] == None
      modifies this`channels
      ensures channels == old(channels)[id := Some(r)]
    {
      channels := channels[id := Some(r)];
    }

    method DeliverReply(m: Message, ghost c: Client)
      requires Shows(c) && Inv(c)
      modifies this
      ensures Shows(Deliver(c, m))
    {
      if m.id in pending {
        Push(m.id, Reply(m));
        pending := pending - {m.id};
      }
    }

    method ForgetCancelled(id: Id, ghost c: Client)
      requires Shows(c) && id in c.calls && c.calls[id].phase.Waiting?
      modifies this
      ensures Shows(Cancel(c, id))
    {
      pending := pending - {id};
    }

    method ForgetUnwritten(id: Id, ghost c: Client)
      requires Shows(c) && id in c.calls && c.calls[id].phase.Failing?
      modifies this
      ensures Shows(GiveUp(c, id))
    {
      pending := pending - {id};
    }

    method Close(ghost c: Client)
      requires Shows(c)
      modifies this
      ensures Shows(Shut(c))
    {
      closed := true;
    }

    method FailAll(ghost c: Client)
      requires Shows(c) && Inv(c) && c.shutdown.Closing?
      modifies this
      ensures Shows(FailPending(c)) && pending == {}
    {
      while pending != {}
        invariant pending <= c.pending && channels.Keys == c.calls.Keys && closed && nextId == c.nextId
        invariant forall id :: id in channels ==>
          channels[id] == if id in c.pending && id !in pending then Some(Unknown) else c.calls[id].channel
        decreases pending
      {
        var id :| id in pending;
        Push(id, Unknown);
        pending := pending - {id};
      }
    }
  }
}
