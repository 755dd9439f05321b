/**
  What the parties to the interaction listeners achieve when nobody disturbs them: a session is
  injected, cleaned up by its worker or by a sweep, and a failure does what it should. The
  worlds around the session are arbitrary.
*/
module InteractionScenarios {
  import opened Collections
  import opened InteractionCleanup

  lemma PutTwice(w: World, s: SessionId, x: Session, y: Session)
    ensures Put(Put(w, s, x), s, y) == Put(w, s, y)
  {
    assert w.sessions[s := x][s := y] == w.sessions[s := y];
  }

  lemma SendsOne(x: Session, c: Command)
    requires x.alive && x.queue == []
    ensures Sent(x, c) == x.(queue := [c], nextOp := x.nextOp + 1)
  {}

  /** The browser handles the one command of a session. */
  lemma HandlesOne(w: World, s: SessionId, x: Session, c: Command, verdict: Reply, guarded: bool)
    requires s in w.sessions && w.sessions[s] == x && x.alive && x.queue == [c]
    ensures var reply := if verdict.Success? then Success(w.nextScript) else verdict;
      var y := x.(queue := [], replies := x.replies[c.op := reply],
        scripts := ScriptsAfter(x.scripts, c, w.nextScript, verdict));
      Step(w, EvHandle(s, verdict), guarded) == Put(w, s, y).(
        nextScript := w.nextScript + 1, carrying := CarryingAfter(w.carrying, x.target, c, verdict))
  {
    assert x.queue[1..] == [];
    assert x.scripts == ScriptsAfter(x.scripts, Evaluate(0), w.nextScript, verdict);
  }

  function ScriptsAfter(scripts: set<Script>, c: Command, next: Script, verdict: Reply): set<Script> {
    if verdict.Rejected? then scripts
    else match c
      case AddTracker(_) => scripts + {next}
      case RemoveScript(_, script) => scripts - {script}
      case _ => scripts
  }

  function CarryingAfter(carrying: set<Target>, t: Target, c: Command, verdict: Reply): set<Target> {
    if verdict.Rejected? then carrying
    else match c
      case Evaluate(_) => carrying + {t}
      case Cleanup(_) => carrying - {t}
      case _ => carrying
  }

  // ---- Injecting ----

  /** Session s is x, a new one that the monitor has just been told of. */
  predicate IsNew(w: World, s: SessionId, x: Session) {
    && s in w.sessions && w.sessions[s] == x && x.worker.Starting? && x.delivery.Attached? && x.marker.Unmarked?
    && w.applier.Off?
  }

  /** A new session whose target is owed nothing gets ready, and is marked for an injection exactly
      if capture is on and the connection works. */
  lemma GetsReady(w: World, s: SessionId, x: Session, guarded: bool)
    requires IsNew(w, s, x) && x.target !in w.obligations
    ensures var e := EvWorker(s, true, true);
      var v := Step(Step(Step(Step(w, e, guarded), e, guarded), e, guarded), e, guarded);
      v == Put(w, s,
        if w.telemetry && w.connection.Up? then x.(ready := true, marker := Marked(None), worker := Registering)
        else x.(ready := true, worker := Idle))
  {
    var e := EvWorker(s, true, true);
    var locked, readying, enabling := x.(worker := Locked), x.(worker := Readying),
      x.(ready := true, worker := Enabling);
    assert Step(w, e, guarded) == Put(w, s, locked);
    Unowed(w, s, locked, guarded);
    ThenEnables(w, s, locked, readying, enabling, guarded);
    PutTwice(w, s, enabling, enabling.(marker := Marked(None), worker := Registering));
    PutTwice(w, s, enabling, enabling.(worker := Idle));
    Enables(Put(w, s, enabling), s, enabling, guarded);
    hide Step, Put;
  }

  lemma Unowed(w: World, s: SessionId, x: Session, guarded: bool)
    requires s in w.sessions && x.worker.Locked? && x.target !in w.obligations
    ensures Step(Put(w, s, x), EvWorker(s, true, true), guarded) == Put(w, s, x.(worker := Readying))
  {
    PutTwice(w, s, x, x.(worker := Readying));
  }

  lemma ThenEnables(w: World, s: SessionId, x: Session, y: Session, z: Session, guarded: bool)
    requires s in w.sessions && y.worker.Readying? && y.delivery.Attached? && z == y.(ready := true, worker := Enabling)
    ensures Step(Put(w, s, y), EvWorker(s, true, true), guarded) == Put(w, s, z)
  {
    PutTwice(w, s, y, z);
  }

  lemma Enables(w: World, s: SessionId, x: Session, guarded: bool)
    requires s in w.sessions && w.sessions[s] == x && x.worker.Enabling? && x.delivery.Attached? && x.marker.Unmarked?
    ensures Step(w, EvWorker(s, true, true), guarded) ==
      Put(w, s, if w.telemetry && w.connection.Up? then x.(marker := Marked(None), worker := Registering)
                else x.(worker := Idle))
  {}

  /** A script the browser registers is recorded with its session, and its target is owed. */
  lemma RegistersScript(w: World, s: SessionId, x: Session, any: Script, guarded: bool)
    requires s in w.sessions && w.sessions[s] == x && x.worker.Registering? && x.delivery.Attached? && x.marker.Marked?
    requires x.alive && x.queue == []
    ensures var e := EvWorker(s, true, true);
      var v := Step(Step(Step(Step(w, e, guarded), EvHandle(s, Success(any)), guarded), e, guarded), e, guarded);
      v == Put(w, s, x.(nextOp := x.nextOp + 1, replies := x.replies[x.nextOp := Success(w.nextScript)],
                        scripts := x.scripts + {w.nextScript}, marker := Marked(Some(w.nextScript)),
                        worker := Evaluating)).(
             nextScript := w.nextScript + 1, obligations := w.obligations + {x.target})
  {
    var e, op := EvWorker(s, true, true), x.nextOp;
    var y := x.(queue := [AddTracker(op)], nextOp := op + 1, worker := Injecting(op, true, false));
    SendsOne(x, AddTracker(op));
    assert Step(w, e, guarded) == Put(w, s, y);
    HandlesOne(Put(w, s, y), s, y, AddTracker(op), Success(any), guarded);
    var z := y.(queue := [], replies := x.replies[op := Success(w.nextScript)], scripts := x.scripts + {w.nextScript});
    var handled := Put(w, s, z).(nextScript := w.nextScript + 1);
    PutTwice(w, s, y, z);
    Records(handled, s, z, guarded);
    hide Step;
    var noted := handled.(obligations := w.obligations + {x.target});
    PutTwice(noted, s, z, z.(marker := Marked(Some(w.nextScript)), worker := Evaluating));
    PutTwice(w, s, z, z.(marker := Marked(Some(w.nextScript)), worker := Evaluating));
  }

  lemma Records(w: World, s: SessionId, x: Session, guarded: bool)
    requires s in w.sessions && w.sessions[s] == x && x.worker.Injecting? && x.worker.counted && !x.worker.destroyed
    requires x.worker.op in x.replies && x.replies[x.worker.op].Success? && x.marker.Marked?
    ensures var script := x.replies[x.worker.op].script; var e := EvWorker(s, true, true);
      Step(Step(w, e, guarded), e, guarded) ==
        Put(w.(obligations := w.obligations + {x.target}), s, x.(marker := Marked(Some(script)), worker := Evaluating))
  {
    var e, script := EvWorker(s, true, true), x.replies[x.worker.op].script;
    var y := x.(worker := Recorded(script));
    var noted := w.(obligations := w.obligations + {x.target});
    assert Step(w, e, guarded) == Put(noted, s, y);
    PutTwice(noted, s, y, y.(marker := Marked(Some(script)), worker := Evaluating));
  }

  /** A rejected injection leaves nothing owed; one without a usable reply is owed and costs the
      connection; so is one without a reply in time; one told that its target is gone is not. */
  lemma InjectionFails(w: World, s: SessionId, x: Session, inTime: bool, guarded: bool)
    requires s in w.sessions && w.sessions[s] == x && x.worker.Injecting? && x.worker.counted
    ensures var v, idle, op := Step(w, EvWorker(s, true, inTime), guarded), x.(worker := Idle), x.worker.op;
      && (inTime && op !in x.replies ==> v == w)
      && (inTime && op in x.replies && x.replies[op].Rejected? ==> v == Put(w, s, idle))
      && (x.worker.destroyed && (!inTime || op in x.replies) ==> v == Put(w, s, idle))
      && (!x.worker.destroyed && (!inTime || (op in x.replies && x.replies[op].Garbled?)) ==>
            v == Put(w, s, idle.(lost := true)).(
                   obligations := w.obligations + {x.target},
                   connection := if w.connection.Up? then Cancelled else w.connection))
  {}

  /** The document that is there then carries the listeners. */
  lemma ShowsListeners(w: World, s: SessionId, x: Session, any: Script, guarded: bool)
    requires s in w.sessions && w.sessions[s] == x && x.worker.Evaluating? && x.alive && x.queue == []
    ensures var sent := Step(w, EvWorker(s, true, true), guarded);
      var v := Step(sent, EvHandle(s, Success(any)), guarded);
      && s in v.sessions && v.sessions[s].worker.Idle? && v.sessions[s].queue == [] && v.sessions[s].marker == x.marker
      && v == Put(w, s, v.sessions[s]).(nextScript := w.nextScript + 1, carrying := w.carrying + {x.target})
  {
    SendsOne(x, Evaluate(x.nextOp));
    var y := x.(queue := [Evaluate(x.nextOp)], nextOp := x.nextOp + 1, worker := Idle);
    assert Step(w, EvWorker(s, true, true), guarded) == Put(w, s, y);
    HandlesOne(Put(w, s, y), s, y, Evaluate(x.nextOp), Success(any), guarded);
    PutTwice(w, s, y, y.(queue := [], replies := x.replies[x.nextOp := Success(w.nextScript)]));
    hide Step;
  }

  // ---- Cleaning up ----

  /** The worker of a session whose target is owed cleans its documents; when all goes well the
      target is owed no more. */
  lemma WorkerCleans(w: World, s: SessionId, x: Session, any: Script)
    requires s in w.sessions && w.sessions[s] == x && x.worker.Locked? && x.target in w.obligations
    requires x.alive && x.queue == []
    ensures var e := EvWorker(s, true, true);
      var v := Step(Step(Step(Step(w, e, false), EvHandle(s, Success(any)), false), e, false), e, false);
      v == Put(w, s, x.(nextOp := x.nextOp + 1, replies := x.replies[x.nextOp := Success(w.nextScript)],
                        worker := Readying)).(
             nextScript := w.nextScript + 1, carrying := w.carrying - {x.target},
             obligations := w.obligations - {x.target})
  {
    var e, op := EvWorker(s, true, true), x.nextOp;
    var y := x.(queue := [Cleanup(op)], nextOp := op + 1, worker := Cleaning(op));
    SendsOne(x, Cleanup(op));
    assert Step(w, e, false) == Put(w, s, y);
    HandlesOne(Put(w, s, y), s, y, Cleanup(op), Success(any), false);
    var z := y.(queue := [], replies := x.replies[op := Success(w.nextScript)]);
    PutTwice(w, s, y, z);
    var handled := Put(w, s, z).(nextScript := w.nextScript + 1, carrying := w.carrying - {x.target});
    Discharges(handled, s, z, true);
    hide Step;
    PutTwice(w, s, z, z.(worker := Readying));
  }

  lemma Discharges(w: World, s: SessionId, x: Session, ok: bool)
    requires s in w.sessions && w.sessions[s] == x && x.worker.Cleaning? && x.worker.op in x.replies
    requires x.replies[x.worker.op].Success? && ok
    ensures var e := EvWorker(s, true, true);
      Step(Step(w, e, false), e, false) == Put(w, s, x.(worker := Readying)).(obligations := w.obligations - {x.target})
  {
    var y := x.(worker := Cleaned);
    assert Step(w, EvWorker(s, true, true), false) == Put(w, s, y);
    PutTwice(w, s, y, x.(worker := Readying));
  }

  /** When the reply is missing or bad, or what follows fails, the obligation stays. */
  lemma WorkerFails(w: World, s: SessionId, x: Session, ok: bool, inTime: bool, guarded: bool)
    requires s in w.sessions && w.sessions[s] == x
    ensures x.worker.Cleaning? && (!inTime || (x.worker.op in x.replies && !x.replies[x.worker.op].Success?)) ==>
      Step(w, EvWorker(s, ok, inTime), guarded) == AfterFailure(w, s)
    ensures x.worker.Cleaned? && !ok ==> Step(w, EvWorker(s, ok, inTime), guarded) == AfterFailure(w, s)
    ensures (x.worker.Cleaning? || x.worker.Injecting?) && inTime && x.worker.op !in x.replies ==>
      Step(w, EvWorker(s, ok, inTime), guarded) == w
    ensures !ok && (x.worker.Registering? || (x.worker.Starting? && x.delivery.Attached?)) ==>
      Step(w, EvWorker(s, ok, inTime), guarded)
        == Put(w, s, x.(worker := Idle)).(connection := if w.connection.Up? then Cancelled else w.connection)
  {}

  /** A failed cleanup ends the worker and the connection of an attached session; the worker of
      one that has left goes on. */
  function AfterFailure(w: World, s: SessionId): World
    requires s in w.sessions
  {
    var x := w.sessions[s];
    if !x.delivery.Attached? then Put(w, s, x.(worker := Readying))
    else Put(w, s, x.(worker := Idle)).(connection := if w.connection.Up? then Cancelled else w.connection)
  }

  /** The sweep removes the script of a session it comes to, cleans its documents, and takes its
      target and its mark off the books. */
  lemma SweepCleans(w: World, s: SessionId, x: Session, todo: set<SessionId>, failed: bool, any: Script, guarded: bool)
    requires w.applier == Sweeping(todo, failed) && s in todo && s in w.sessions && w.sessions[s] == x
    requires x.delivery.Attached? && x.marker.Marked? && x.marker.script.Some? && x.target in w.obligations
    requires x.alive && x.queue == []
    ensures var a := Step(Step(w, EvSweepOne(s), guarded), EvHandle(s, Success(any)), guarded);
      var b := Step(Step(a, EvSweepReply(true, true), guarded), EvHandle(s, Success(any)), guarded);
      var v := Step(Step(b, EvSweepReply(true, true), guarded), EvSweepReply(true, true), guarded);
      && s in v.sessions && v.sessions[s].scripts == x.scripts - {x.marker.script.value}
      && v.sessions[s].queue == [] && v.sessions[s].marker.Unmarked?
      && v == Put(w, s, v.sessions[s]).(nextScript := w.nextScript + 2, carrying := w.carrying - {x.target},
                obligations := w.obligations - {x.target}, applier := Sweeping(todo - {s}, failed))
  {
    var script := x.marker.script.value;
    SweepRemoves(w, s, x, todo, failed, any, guarded);
    var a := Step(Step(w, EvSweepOne(s), guarded), EvHandle(s, Success(any)), guarded);
    var y := a.sessions[s];
    SweepScrubs(a, s, y, y.nextOp - 1, todo - {s}, failed, any, guarded);
    hide Step;
  }

  /** Without a script to remove the sweep goes straight to the documents, and without an
      obligation straight past them. */
  lemma SweepSkips(w: World, s: SessionId, x: Session, todo: set<SessionId>, failed: bool, guarded: bool)
    requires w.applier == Sweeping(todo, failed) && s in todo && s in w.sessions && w.sessions[s] == x
    requires x.delivery.Attached? && (x.marker.Unmarked? || x.marker.script.None?)
    ensures x.target in w.obligations && x.alive && x.queue == [] ==>
      Step(w, EvSweepOne(s), guarded) == Put(w, s, x.(queue := [Cleanup(x.nextOp)], nextOp := x.nextOp + 1)).(
        applier := Scrubbing(s, x.nextOp, false, todo - {s}, failed))
    ensures x.target !in w.obligations ==>
      Step(w, EvSweepOne(s), guarded) == w.(applier := Finishing(s, false, todo - {s}, failed))
  {
    if x.alive && x.queue == [] { SendsOne(x, Cleanup(x.nextOp)); }
  }

  lemma SweepRemoves(w: World, s: SessionId, x: Session, todo: set<SessionId>, failed: bool, any: Script, guarded: bool)
    requires w.applier == Sweeping(todo, failed) && s in todo && s in w.sessions && w.sessions[s] == x
    requires x.delivery.Attached? && x.marker.Marked? && x.marker.script.Some? && x.alive && x.queue == []
    ensures var a := Step(Step(w, EvSweepOne(s), guarded), EvHandle(s, Success(any)), guarded);
      var y := x.(scripts := x.scripts - {x.marker.script.value}, nextOp := x.nextOp + 1,
                  replies := x.replies[x.nextOp := Success(w.nextScript)]);
      a == Put(w, s, y).(nextScript := w.nextScript + 1, applier := Removing(s, x.nextOp, todo - {s}, failed))
  {
    var script, op := x.marker.script.value, x.nextOp;
    SendsOne(x, RemoveScript(op, script));
    var y := x.(queue := [RemoveScript(op, script)], nextOp := op + 1);
    var sent := Put(w, s, y).(applier := Removing(s, op, todo - {s}, failed));
    assert Step(w, EvSweepOne(s), guarded) == sent;
    HandlesOne(sent, s, y, RemoveScript(op, script), Success(any), guarded);
    PutTwice(w, s, y, y.(queue := [], replies := x.replies[op := Success(w.nextScript)],
      scripts := x.scripts - {script}));
    hide Step;
  }

  lemma SweepScrubs(w: World, s: SessionId, x: Session, op: nat, todo: set<SessionId>, failed: bool, any: Script,
      guarded: bool)
    requires w.applier == Removing(s, op, todo, failed) && s in w.sessions && w.sessions[s] == x
    requires op in x.replies && x.replies[op].Success? && x.target in w.obligations && x.alive && x.queue == []
    ensures var b := Step(Step(w, EvSweepReply(true, true), guarded), EvHandle(s, Success(any)), guarded);
      var v := Step(Step(b, EvSweepReply(true, true), guarded), EvSweepReply(true, true), guarded);
      var y := x.(nextOp := x.nextOp + 1, replies := x.replies[x.nextOp := Success(w.nextScript)], marker := Unmarked);
      v == Put(w, s, y).(nextScript := w.nextScript + 1, carrying := w.carrying - {x.target},
             obligations := w.obligations - {x.target}, applier := Sweeping(todo, failed))
  {
    SendsOne(x, Cleanup(x.nextOp));
    var z := x.(queue := [Cleanup(x.nextOp)], nextOp := x.nextOp + 1);
    var sent := Put(w, s, z).(applier := Scrubbing(s, x.nextOp, false, todo, failed));
    assert Step(w, EvSweepReply(true, true), guarded) == sent;
    HandlesOne(sent, s, z, Cleanup(x.nextOp), Success(any), guarded);
    var y := x.(nextOp := x.nextOp + 1, replies := x.replies[x.nextOp := Success(w.nextScript)]);
    PutTwice(w, s, z, y);
    var b := Put(w, s, y).(nextScript := w.nextScript + 1, carrying := w.carrying - {x.target},
      applier := Scrubbing(s, x.nextOp, false, todo, failed));
    Finishes(b, s, y, x.nextOp, todo, failed, guarded);
    PutTwice(w, s, y, y.(marker := Unmarked));
    hide Step;
  }

  lemma Finishes(w: World, s: SessionId, x: Session, op: nat, todo: set<SessionId>, failed: bool, guarded: bool)
    requires w.applier == Scrubbing(s, op, false, todo, failed) && s in w.sessions && w.sessions[s] == x
    requires op in x.replies && x.replies[op].Success?
    ensures Step(Step(w, EvSweepReply(true, true), guarded), EvSweepReply(true, true), guarded)
      == Put(w, s, x.(marker := Unmarked)).(obligations := w.obligations - {x.target},
        applier := Sweeping(todo, failed))
  {
    assert Step(w, EvSweepReply(true, true), guarded) == w.(applier := Finishing(s, false, todo, failed));
  }

  /** A session the sweep fails to clean keeps its mark and its obligation, and the whole sweep
      has failed; a session that has left is passed over; a failed sweep costs the connection. */
  lemma SweepFails(w: World, s: SessionId, todo: set<SessionId>, failed: bool, ok: bool, guarded: bool)
    requires s in w.sessions
    ensures (w.applier == Finishing(s, true, todo, failed)
      || (w.applier == Finishing(s, false, todo, failed) && !ok)) ==>
      Step(w, EvSweepReply(ok, true), guarded) == w.(applier := Sweeping(todo, true))
    ensures w.applier == Sweeping(todo, failed) && s in todo && !w.sessions[s].delivery.Attached? ==>
      Step(w, EvSweepOne(s), guarded) == w.(applier := Sweeping(todo - {s}, failed))
    ensures w.applier == Sweeping({}, failed) && (failed || w.obligations != {}) ==>
      Step(w, EvEndSweep, guarded)
        == w.(applier := Off, connection := if w.connection.Up? then Cancelled else w.connection)
  {}

  /** A step of the sweep whose reply is missing or bad is remembered as bad. */
  lemma BadReplies(w: World, s: SessionId, op: nat, bad: bool, todo: set<SessionId>, failed: bool, ok: bool,
      inTime: bool, guarded: bool)
    requires s in w.sessions && w.sessions[s].target !in w.obligations
    requires !inTime || (op in w.sessions[s].replies && !w.sessions[s].replies[op].Success?)
    ensures w.applier == Removing(s, op, todo, failed) || w.applier == Scrubbing(s, op, bad, todo, failed) ==>
      Step(w, EvSweepReply(ok, inTime), guarded) == w.(applier := Finishing(s, true, todo, failed))
  {}

  /** The sweep waits for a reply that may still come in time, a worker whose session has left before
      it began just stops, and a session that lost its mark meanwhile does not get it back. */
  lemma NothingIsRushed(w: World, s: SessionId, x: Session, op: nat, bad: bool, todo: set<SessionId>, failed: bool,
      ok: bool, guarded: bool)
    requires s in w.sessions && w.sessions[s] == x
    ensures op !in x.replies ==>
      (w.applier == Removing(s, op, todo, failed) || w.applier == Scrubbing(s, op, bad, todo, failed) ==>
         Step(w, EvSweepReply(ok, true), guarded) == w)
    ensures x.worker.Starting? && !x.delivery.Attached? ==>
      Step(w, EvWorker(s, false, true), guarded) == Put(w, s, x.(worker := Idle))
    ensures x.worker.Recorded? && x.marker.Unmarked? ==>
      Step(w, EvWorker(s, ok, true), guarded) == Put(w, s, x.(worker := Evaluating))
    ensures !w.applier.Off? || !x.worker.Idle? ==> Step(w, EvClose, guarded) == w
  {}

  // ---- The browser, and what is heard of it ----

  /** A target that is gone is live no more, carries nothing, and takes its sessions along. */
  lemma TargetsComeAndGo(w: World, t: Target, s: SessionId, guarded: bool)
    ensures Step(w, EvNewTarget, guarded) == w.(live := w.live + {w.nextTarget}, nextTarget := w.nextTarget + 1)
    ensures var v := Step(w, EvDestroyTarget(t), guarded);
      && v == w.(live := w.live - {t}, carrying := w.carrying - {t}, sessions := v.sessions)
      && (s in v.sessions <==> s in w.sessions)
      && (s in w.sessions ==>
            v.sessions[s] == if w.sessions[s].target == t then Dropped(w.sessions[s]) else w.sessions[s])
    ensures s in w.sessions ==> Step(w, EvDropSession(s), guarded) == Put(w, s, Dropped(w.sessions[s]))
  {}

  /** A dropped session runs no command and has no script: it rejects whatever it is sent. */
  lemma DroppedRejects(x: Session, c: Command)
    ensures Dropped(x) == x.(alive := false, scripts := {}, queue := [])
    ensures Sent(Dropped(x), c) == Dropped(x).(replies := x.replies[x.nextOp := Rejected], nextOp := x.nextOp + 1)
  {}

  predicate NoneAlive(w: World, t: Target) {
    forall r :: r in w.sessions && w.sessions[r].target == t ==> !w.sessions[r].alive
  }

  predicate NoneHeard(w: World, s: SessionId)
    requires s in w.sessions
  {
    forall r :: r in w.sessions && w.sessions[r].target == w.sessions[s].target ==> !w.sessions[r].delivery.Attached?
  }

  /** A live target without a session can be attached to, once; a new document of a session with a
      script carries the listeners, and no other does. */
  lemma SessionsAppear(w: World, t: Target, s: SessionId, guarded: bool)
    ensures (w.connection.Up? || w.connection.Cancelled?) && t in w.live && NoneAlive(w, t) ==>
      Step(w, EvNewSession(t), guarded)
        == Put(w, w.nextSession, Session(t, true, {}, [], map[], 0, Unannounced, Unmarked, false, Idle, false)).(
             nextSession := w.nextSession + 1)
    ensures s in w.sessions ==>
      Step(w, EvNewDocument(s), guarded) ==
        if w.sessions[s].alive && w.sessions[s].scripts != {} then w.(carrying := w.carrying + {w.sessions[s].target})
          else w
  {}

  /** What is heard of a session starts its worker, or makes the monitor forget it; what is heard of
      a target that is gone ends its obligation and tells the injections that are pending for it. */
  lemma NewsArrives(w: World, s: SessionId, t: Target, guarded: bool)
    requires s in w.sessions
    ensures (w.connection.Up? || w.connection.Cancelled?) && w.sessions[s].delivery.Unannounced? && NoneHeard(w, s) ==>
      Step(w, EvAttached(s), guarded) == Put(w, s, w.sessions[s].(delivery := Attached, worker := Starting))
    ensures !w.sessions[s].alive ==>
      Step(w, EvDetached(s), guarded) == Put(w, s,
        w.sessions[s].(delivery := Detached, marker := Unmarked, ready := false))
    ensures t < w.nextTarget && t !in w.live ==>
      var v := Step(w, EvDestroyed(t), guarded);
      && v == w.(obligations := w.obligations - {t}, sessions := v.sessions) && s in v.sessions
      && var x := w.sessions[s];
         v.sessions[s] == if x.target == t && x.worker.Injecting? && x.worker.counted
                          then x.(worker := x.worker.(destroyed := true)) else x
  {}

  // ---- Revisions and connections ----

  /** Applying a revision waits for the workers, stops capture, and on a connection that is lost
      only forgets what was injected. */
  lemma ApplyingStops(w: World, guarded: bool)
    requires w.applier.Off? && !w.connection.Closed? && !w.connection.Pruning?
    ensures (exists s :: s in w.sessions && HoldsLock(w.sessions[s].worker)) ==> Step(w, EvBeginApply, guarded) == w
    ensures (forall s :: s in w.sessions ==> !HoldsLock(w.sessions[s].worker)) ==>
      var v := Step(w, EvBeginApply, guarded);
      && !v.telemetry && v.obligations == w.obligations && v.connection == w.connection
      && if w.connection.Up? then
           v == w.(telemetry := false, applier := v.applier) && v.applier.Sweeping? && !v.applier.failed
           && forall s :: s in v.applier.todo <==> s in w.sessions && w.sessions[s].marker.Marked?
         else
           v == w.(telemetry := false, applier := Deciding(false), sessions := v.sessions)
           && v.sessions.Keys == w.sessions.Keys
           && forall s :: s in w.sessions ==> v.sessions[s] == w.sessions[s].(marker := Unmarked, lost := true)
  {}

  /** A worker waits for a revision that is being applied; a ready session is served again after. */
  lemma WorkersWait(w: World, s: SessionId, ok: bool, guarded: bool)
    requires s in w.sessions
    ensures !w.applier.Off? && (w.sessions[s].worker.Idle? || (w.sessions[s].worker.Starting? && ok)) ==>
      Step(w, EvWorker(s, ok, true), guarded) == w
    ensures w.applier.Off? && w.sessions[s].worker.Idle? && w.sessions[s].ready ==>
      Step(w, EvWorker(s, ok, true), guarded) == Put(w, s, w.sessions[s].(worker := Enabling))
  {}

  /** Closing a connection, when no worker is at it, drops and forgets every session. */
  lemma ClosingForgets(w: World, guarded: bool)
    requires w.applier.Off? && forall s :: s in w.sessions ==> w.sessions[s].worker.Idle?
    ensures var v := Step(w, EvClose, guarded);
      && v == w.(connection := Closed, telemetry := false, sessions := v.sessions) && v.sessions.Keys == w.sessions.Keys
      && forall s :: s in w.sessions ==> v.sessions[s] == Forgotten(Dropped(w.sessions[s]))
  {}
}
