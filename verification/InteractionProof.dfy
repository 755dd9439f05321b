/**
  Why the obligations cover every document: an invariant of each session next to the rest of
  the world, and what every step does to it.
*/
module InteractionProof {
  import opened Collections
  import opened InteractionCleanup

  // ---- Why it holds: one session at a time ----

  /** Commands are numbered in the order they were sent. */
  predicate OpsOk(x: Session) {
    && (forall op :: op in x.replies ==> op < x.nextOp)
    && (forall i :: 0 <= i < |x.queue| ==> x.queue[i].op < x.nextOp)
    && (forall i, j :: 0 <= i < j < |x.queue| ==> x.queue[i].op < x.queue[j].op)
  }

  /** The last command sent is the one waited for. */
  predicate Awaits(x: Session, c: Command) {
    && c.op < x.nextOp
    && (x.alive && c.op !in x.replies ==> x.queue != [] && x.queue[|x.queue| - 1] == c)
    && (x.alive && c.op in x.replies ==> x.queue == [])
  }

  predicate NoRegistration(q: seq<Command>) {
    forall i :: 0 <= i < |q| ==> !q[i].AddTracker?
  }

  /** Until its reply an injection is the only source of listeners; the reply tells which script. */
  predicate InjectionOk(x: Session, op: nat) {
    x.alive ==>
      if op !in x.replies then x.scripts == {} && x.queue != [] && NoTracker(x.queue[..|x.queue| - 1])
      else match x.replies[op]
        case Success(id) => x.scripts == {id}
        case Garbled => true
        case Rejected => x.scripts == {}
  }

  predicate PhaseOk(x: Session) {
    match x.worker
    case Idle => true
    case Starting => !CanInstall(x)
    case Locked => !CanInstall(x)
    case Cleaning(op) => !CanInstall(x) && Awaits(x, Cleanup(op))
    case Cleaned => !CanInstall(x)
    case Readying => !CanInstall(x)
    case Enabling => true
    case Registering => !CanInstall(x) && (x.alive ==> x.marker == Marked(None))
    case Injecting(op, counted, destroyed) =>
      && (x.alive ==> counted && !destroyed && x.marker == Marked(None))
      && Awaits(x, AddTracker(op)) && InjectionOk(x, op)
    case Recorded(id) =>
      x.alive ==> x.scripts == {id} && x.queue == [] && x.marker == Marked(None)
    case Evaluating => x.alive ==> x.scripts != {} && x.queue == [] && x.marker.Marked? && x.marker.script.Some?
  }

  /** Unless lost, the monitor knows what the session registered. */
  predicate MarkerOk(x: Session) {
    x.alive && !x.lost ==>
      match x.marker
      case Unmarked => !CanInstall(x)
      case Marked(None) => x.worker.Idle? || x.worker.Enabling? ==> !CanInstall(x)
      case Marked(Some(id)) => x.scripts <= {id} && NoRegistration(x.queue)
  }

  predicate LocalOk(x: Session) {
    && (!x.alive ==> x.scripts == {} && x.queue == [])
    && (x.alive ==> !x.delivery.Detached?)
    && (x.delivery.Unannounced? ==>
          x.worker.Idle? && x.marker.Unmarked? && x.scripts == {} && x.queue == [] && !x.ready)
    && OpsOk(x) && PhaseOk(x) && MarkerOk(x)
  }

  // ---- Why it holds: the whole world ----

  predicate Down(w: World) {
    w.connection.Closed? || w.connection.Pruning?
  }

  predicate Sweeps(a: Applier) {
    a.Sweeping? || a.Removing? || a.Scrubbing? || a.Finishing?
  }

  /** The awaited cleanup has succeeded in the browser. */
  predicate HeardClean(x: Session) {
    x.worker.Cleaning? && x.worker.op in x.replies && x.replies[x.worker.op].Success?
  }

  /** A session next to the rest of the world. */
  predicate Placed(w: World, x: Session) {
    && x.target < w.nextTarget
    && (x.alive ==> x.target in w.live)
    && (CanInstall(x) ==> Accounted(w, x.target) || PendingInjection(x))
    && (x.delivery.Attached? && (x.worker.Cleaned? || HeardClean(x)) ==> x.target !in w.carrying)
    && (x.lost && x.alive ==> !w.connection.Up? && !Sweeps(w.applier))
    && (WriteLocked(w) ==> !HoldsLock(x.worker))
    && (Down(w) ==> !x.alive && x.worker.Idle? && !x.ready && x.delivery.Detached?)
  }

  predicate SessionsOk(w: World) {
    forall s :: s in w.sessions ==> LocalOk(w.sessions[s]) && Placed(w, w.sessions[s])
  }

  predicate IdsOk(w: World) {
    && (forall t :: t in w.live ==> t < w.nextTarget)
    && (forall t :: t in w.obligations ==> t < w.nextTarget)
    && w.carrying <= w.live
    && (forall s :: s in w.sessions ==> s < w.nextSession)
  }

  predicate OneAlive(w: World) {
    forall s, r :: s in w.sessions && r in w.sessions && w.sessions[s].alive && w.sessions[r].alive ==>
      w.sessions[s].target == w.sessions[r].target ==> s == r
  }

  predicate OneAttached(w: World) {
    forall s, r :: s in w.sessions && w.sessions[s].delivery.Attached? ==>
      r in w.sessions && w.sessions[r].delivery.Attached? ==>
      w.sessions[s].target == w.sessions[r].target ==> s == r
  }

  predicate DocumentsOk(w: World) {
    forall t :: t in w.carrying ==> Accounted(w, t)
  }

  predicate NoneInstalls(w: World, t: Target) {
    forall s :: s in w.sessions && w.sessions[s].target == t ==> !CanInstall(w.sessions[s])
  }

  predicate OthersQuiet(w: World, r: SessionId)
    requires r in w.sessions
  {
    forall s :: s in w.sessions && s != r && w.sessions[s].target == w.sessions[r].target
      ==> !CanInstall(w.sessions[s])
  }

  predicate RemovalOk(x: Session, op: nat) {
    && op < x.nextOp && !x.delivery.Unannounced?
    && (x.alive ==>
          if op in x.replies then x.queue == [] && (x.replies[op].Success? ==> x.scripts == {})
          else
            && x.queue != [] && x.queue[|x.queue| - 1].RemoveScript? && x.queue[|x.queue| - 1].op == op
            && NoRegistration(x.queue) && x.scripts <= {x.queue[|x.queue| - 1].script})
  }

  predicate ApplierOk(w: World) {
    match w.applier
    case Off => true
    case Sweeping(_, _) => true
    case Removing(s, op, _, _) =>
      s in w.sessions && RemovalOk(w.sessions[s], op) && OthersQuiet(w, s)
    case Scrubbing(s, op, bad, _, _) =>
      && s in w.sessions && Awaits(w.sessions[s], Cleanup(op))
      && (!bad ==> NoneInstalls(w, w.sessions[s].target))
      && (!bad && op in w.sessions[s].replies && w.sessions[s].replies[op].Success? ==>
            w.sessions[s].target !in w.carrying)
    case Finishing(s, bad, _, _) =>
      && s in w.sessions
      && (!bad && w.sessions[s].target in w.obligations ==>
            w.sessions[s].target !in w.carrying && NoneInstalls(w, w.sessions[s].target))
    case Deciding(cleaned) => cleaned ==> w.obligations == {}
  }

  predicate ConnectionOk(w: World) {
    && (Down(w) ==> w.applier.Off?)
    && (w.connection.Pruning? ==> w.obligations * w.live <= w.connection.snapshot)
  }

  predicate Inv(w: World) {
    && SessionsOk(w) && IdsOk(w) && OneAlive(w) && OneAttached(w)
    && DocumentsOk(w) && ApplierOk(w) && ConnectionOk(w)
  }

  lemma InvIsOwed(w: World)
    requires Inv(w)
    ensures Owed(w)
  {
    forall t | t in w.live && Exposed(w, t) ensures Accounted(w, t) {
      if t !in w.carrying {
        var s :| s in w.sessions && w.sessions[s].target == t && CanInstall(w.sessions[s])
          && !PendingInjection(w.sessions[s]);
        assert Placed(w, w.sessions[s]);
      }
    }
  }

  /** What is owed covers every live target. */
  lemma OwedIsSafe(w: World)
    requires Owed(w)
    ensures Safe(w)
  {
    forall t | t in w.live && MayCarry(w, t) ensures Covered(w, t) {
      if Exposed(w, t) { assert Accounted(w, t); }
    }
  }

  /** Documents stay accounted for while injections in flight are kept or recorded. */
  lemma StillAccounted(w: World, v: World)
    requires DocumentsOk(w)
    requires forall t :: t in v.carrying && t !in w.carrying ==> Accounted(v, t)
    requires forall t :: t in v.carrying && t in w.obligations ==> t in v.obligations
    requires forall s :: s in w.sessions ==> s in v.sessions && v.sessions[s].target == w.sessions[s].target
    requires forall s :: s in w.sessions && Unrecorded(w.sessions[s]) && w.sessions[s].target in v.carrying ==>
      Unrecorded(v.sessions[s]) || w.sessions[s].target in v.obligations
    ensures DocumentsOk(v)
  {
    forall t | t in v.carrying ensures Accounted(v, t) {
      if t in w.carrying && t !in w.obligations {
        var s :| s in w.sessions && w.sessions[s].target == t && Unrecorded(w.sessions[s]);
        assert s in v.sessions;
      }
    }
  }

  /** Whatever is accounted for stays so. */
  ghost predicate Accounts(w: World, v: World) {
    forall t :: Accounted(w, t) ==> Accounted(v, t)
  }

  lemma StillAccounts(w: World, v: World)
    requires w.obligations <= v.obligations && w.sessions.Keys <= v.sessions.Keys
    requires forall s :: s in w.sessions ==> v.sessions[s].target == w.sessions[s].target
    requires forall s :: s in w.sessions && Unrecorded(w.sessions[s]) ==> Unrecorded(v.sessions[s])
    ensures Accounts(w, v)
  {
    forall t | Accounted(w, t) ensures Accounted(v, t) {
      if t !in w.obligations {
        var s :| s in w.sessions && w.sessions[s].target == t && Unrecorded(w.sessions[s]);
        assert s in v.sessions;
      }
    }
  }

  /** v keeps every session of w, none of which revives or is announced again. */
  predicate NoneAdded(w: World, v: World) {
    && v.sessions.Keys == w.sessions.Keys
    && (forall s :: s in w.sessions ==>
          && v.sessions[s].target == w.sessions[s].target
          && (v.sessions[s].alive ==> w.sessions[s].alive)
          && (v.sessions[s].delivery.Attached? ==> w.sessions[s].delivery.Attached?))
  }

  lemma StillOne(w: World, v: World)
    requires OneAlive(w) && OneAttached(w) && NoneAdded(w, v)
    ensures OneAlive(v) && OneAttached(v)
  {}

  /** Nothing new can install listeners. */
  predicate Calmer(w: World, v: World) {
    && v.sessions.Keys == w.sessions.Keys
    && (forall s :: s in w.sessions ==>
          && v.sessions[s].target == w.sessions[s].target
          && (CanInstall(v.sessions[s]) ==> CanInstall(w.sessions[s])))
  }

  /** What the applier waits for goes on as before, or the session is dropped. */
  predicate SameReplies(x: Session, y: Session) {
    && y.replies == x.replies && y.nextOp == x.nextOp && y.target == x.target
    && (y.delivery.Unannounced? ==> x.delivery.Unannounced?)
    && (y.alive ==> x.alive && y.queue == x.queue && y.scripts == x.scripts)
  }

  lemma SameItself(x: Session)
    ensures SameReplies(x, x)
  {}

  lemma StillApplying(w: World, v: World)
    requires ApplierOk(w) && Calmer(w, v) && v.applier == w.applier
    requires v.carrying <= w.carrying && v.obligations <= w.obligations
    requires forall s :: s in w.sessions ==> SameReplies(w.sessions[s], v.sessions[s])
    ensures ApplierOk(v)
  {}

  /** Replacing session s, when the rest of the world is known to be fine. */
  lemma Replaced(w: World, v: World, s: SessionId)
    requires Inv(w) && s in w.sessions && v.sessions.Keys == w.sessions.Keys
    requires forall r :: r in w.sessions && r != s ==> v.sessions[r] == w.sessions[r] && Placed(v, w.sessions[r])
    requires v.sessions[s].target == w.sessions[s].target
    requires v.sessions[s].alive ==> w.sessions[s].alive
    requires v.sessions[s].delivery.Attached? ==> w.sessions[s].delivery.Attached?
    requires LocalOk(v.sessions[s]) && Placed(v, v.sessions[s])
    requires IdsOk(v) && DocumentsOk(v) && ApplierOk(v) && ConnectionOk(v)
    ensures Inv(v)
  {
    hide LocalOk, Placed, CanInstall, IdsOk, DocumentsOk, ApplierOk, ConnectionOk, OneAlive, OneAttached;
    StillOne(w, v);
  }

  lemma PutFits(w: World, s: SessionId, x: Session)
    requires Inv(w) && s in w.sessions
    requires x.target == w.sessions[s].target
    requires LocalOk(x) && Placed(w, x)
    requires Unrecorded(w.sessions[s]) ==> Unrecorded(x) || x.target in w.obligations
    requires OneAlive(Put(w, s, x)) && OneAttached(Put(w, s, x))
    requires ApplierOk(Put(w, s, x))
    ensures Inv(Put(w, s, x))
  {
    var v := Put(w, s, x);
    hide LocalOk, CanInstall, PendingInjection, HeardClean, HoldsLock, Unrecorded, ApplierOk, DocumentsOk, OneAlive,
      OneAttached;
    StillAccounted(w, v);
    forall r | r in v.sessions ensures LocalOk(v.sessions[r]) && Placed(v, v.sessions[r]) {
      assert Placed(w, v.sessions[r]);
    }
  }

  /** Replacing one session by another of the same target, and nothing else. */
  lemma PutKeeps(w: World, s: SessionId, x: Session)
    requires Inv(w) && s in w.sessions
    requires x.target == w.sessions[s].target
    requires x.alive ==> w.sessions[s].alive
    requires x.delivery.Attached? ==> w.sessions[s].delivery.Attached?
    requires LocalOk(x) && Placed(w, x)
    requires Unrecorded(w.sessions[s]) ==> Unrecorded(x) || x.target in w.obligations
    requires ApplierOk(Put(w, s, x))
    ensures Inv(Put(w, s, x))
  {
    hide LocalOk, Placed, CanInstall, Unrecorded, ApplierOk, DocumentsOk, OneAlive, OneAttached, ConnectionOk, IdsOk;
    StillOne(w, Put(w, s, x));
    PutFits(w, s, x);
  }

  lemma DroppedOk(x: Session)
    requires LocalOk(x)
    ensures LocalOk(Dropped(x))
    ensures !CanInstall(Dropped(x))
    ensures Unrecorded(x) ==> Unrecorded(Dropped(x))
    ensures HeardClean(Dropped(x)) ==> HeardClean(x)
    ensures SameReplies(x, Dropped(x))
  {}

  lemma NewTargetKeeps(w: World)
    requires Inv(w)
    ensures Inv(NewTarget(w))
  {
    StillAccounted(w, NewTarget(w));
  }

  lemma DestroyTargetKeeps(w: World, t: Target)
    requires Inv(w)
    ensures Inv(DestroyTarget(w, t))
  {
    hide LocalOk, CanInstall, HeardClean, Unrecorded, PendingInjection, HoldsLock, ApplierOk, DocumentsOk, OneAlive,
      OneAttached, SameReplies, Accounts, Accounted;
    var v := DestroyTarget(w, t);
    forall s | s in w.sessions ensures Unrecorded(w.sessions[s]) ==> Unrecorded(v.sessions[s]) {
      DroppedOk(w.sessions[s]);
    }
    StillAccounts(w, v);
    forall s | s in v.sessions
      ensures LocalOk(v.sessions[s]) && Placed(v, v.sessions[s])
      ensures CanInstall(v.sessions[s]) ==> CanInstall(w.sessions[s])
      ensures SameReplies(w.sessions[s], v.sessions[s])
    {
      DropIfKeeps(w, v, s, t);
    }
    StillOne(w, v);
    StillApplying(w, v);
    StillAccounted(w, v);
  }

  lemma DropIfKeeps(w: World, v: World, s: SessionId, t: Target)
    requires SessionsOk(w) && v == DestroyTarget(w, t) && s in w.sessions && Accounts(w, v)
    ensures LocalOk(v.sessions[s]) && Placed(v, v.sessions[s])
    ensures CanInstall(v.sessions[s]) ==> CanInstall(w.sessions[s])
    ensures SameReplies(w.sessions[s], v.sessions[s])
  {
    hide LocalOk, CanInstall, HeardClean, Unrecorded, SameReplies, Accounted;
    DroppedOk(w.sessions[s]);
    SameItself(w.sessions[s]);
  }

  lemma NewSessionFits(w: World, t: Target)
    requires SessionsOk(w) && IdsOk(w) && OneAlive(w) && OneAttached(w) && NewSession(w, t) != w
    ensures var v := NewSession(w, t);
      && LocalOk(v.sessions[w.nextSession]) && Placed(v, v.sessions[w.nextSession])
      && OneAlive(v) && OneAttached(v) && w.nextSession !in w.sessions && !CanInstall(v.sessions[w.nextSession])
  {
    var v, n := NewSession(w, t), w.nextSession;
    assert n !in w.sessions;
    assert LocalOk(v.sessions[n]) && Placed(v, v.sessions[n]);
    hide LocalOk, Placed, SessionsOk;
    assert OneAttached(v);
    assert OneAlive(v);
  }

  lemma NewSessionKeeps(w: World, t: Target)
    requires Inv(w)
    ensures Inv(NewSession(w, t))
  {
    var v := NewSession(w, t);
    if v != w {
      var n := w.nextSession;
      NewSessionFits(w, t);
      hide CanInstall, LocalOk, OneAlive, OneAttached, Accounted, Unrecorded, PendingInjection, HeardClean, HoldsLock;
      assert ApplierOk(v) by { hide Placed, DocumentsOk; }
      hide ApplierOk;
      StillAccounts(w, v);
      StillAccounted(w, v);
      hide DocumentsOk;
      assert SessionsOk(v);
    }
  }

  lemma DropSessionKeeps(w: World, s: SessionId)
    requires Inv(w)
    ensures Inv(DropSession(w, s))
  {
    if s in w.sessions {
      hide LocalOk, CanInstall, HeardClean, Unrecorded, PendingInjection, HoldsLock, ApplierOk, DocumentsOk, OneAlive,
        OneAttached, SameReplies;
      DroppedOk(w.sessions[s]);
      StillApplying(w, DropSession(w, s));
      PutKeeps(w, s, Dropped(w.sessions[s]));
    }
  }

  lemma NewDocumentKeeps(w: World, s: SessionId)
    requires Inv(w)
    ensures Inv(NewDocument(w, s))
  {
    StillAccounted(w, NewDocument(w, s));
  }

  lemma HandledOps(x: Session, verdict: Reply, next: Script)
    requires OpsOk(x) && x.queue != []
    ensures OpsOk(Handled(x, verdict, next))
    ensures CanInstall(Handled(x, verdict, next)) ==> CanInstall(x)
  {
    var y := Handled(x, verdict, next);
    if CanInstall(y) && y.scripts == {} {
      var i :| 0 <= i < |y.queue| && IsTracker(y.queue[i]);
      assert x.queue[i + 1] == y.queue[i];
    } else if CanInstall(y) && x.scripts == {} {
      assert IsTracker(x.queue[0]);
    }
  }

  lemma HandledWait(x: Session, verdict: Reply, next: Script, c: Command)
    requires OpsOk(x) && x.alive && x.queue != [] && Awaits(x, c)
    ensures Awaits(Handled(x, verdict, next), c)
    ensures c.op !in x.replies
    ensures c.op in Handled(x, verdict, next).replies ==> x.queue == [c]
  {
    var last := |x.queue| - 1;
    if last > 0 {
      assert x.queue[0].op < x.queue[last].op;
      assert x.queue[1..][last - 1] == c;
    }
  }

  lemma HandledInjection(x: Session, verdict: Reply, next: Script, op: nat)
    requires OpsOk(x) && x.alive && x.queue != [] && Awaits(x, AddTracker(op)) && InjectionOk(x, op)
    ensures InjectionOk(Handled(x, verdict, next), op)
  {
    var y := Handled(x, verdict, next);
    HandledWait(x, verdict, next, AddTracker(op));
    if op in y.replies {
    } else {
      assert |x.queue| > 1;
      assert y.queue[..|y.queue| - 1] == x.queue[..|x.queue| - 1][1..];
      assert !IsTracker(x.queue[..|x.queue| - 1][0]);
    }
  }

  lemma HandledPhase(x: Session, verdict: Reply, next: Script)
    requires OpsOk(x) && PhaseOk(x) && x.alive && x.queue != []
    ensures PhaseOk(Handled(x, verdict, next))
  {
    hide InjectionOk, Awaits, CanInstall, OpsOk;
    HandledOps(x, verdict, next);
    match x.worker
    case Cleaning(op) => HandledWait(x, verdict, next, Cleanup(op));
    case Injecting(op, _, _) =>
      HandledWait(x, verdict, next, AddTracker(op));
      HandledInjection(x, verdict, next, op);
    case Recorded(_) => HandledQuiet(x, verdict, next);
    case _ =>
  }

  lemma HandledQuiet(x: Session, verdict: Reply, next: Script)
    requires x.queue != []
    ensures NoRegistration(x.queue) ==>
      NoRegistration(Handled(x, verdict, next).queue) && Handled(x, verdict, next).scripts <= x.scripts
    ensures NoTracker(x.queue) ==>
      NoTracker(Handled(x, verdict, next).queue) && Handled(x, verdict, next).scripts <= x.scripts
  {}

  lemma HandledMarker(x: Session, verdict: Reply, next: Script)
    requires OpsOk(x) && MarkerOk(x) && x.alive && x.queue != []
    ensures MarkerOk(Handled(x, verdict, next))
  {
    hide CanInstall, OpsOk, NoRegistration, NoTracker;
    HandledOps(x, verdict, next);
    HandledQuiet(x, verdict, next);
  }

  lemma HandledOk(x: Session, verdict: Reply, next: Script)
    requires LocalOk(x) && x.alive && x.queue != []
    ensures LocalOk(Handled(x, verdict, next))
    ensures CanInstall(Handled(x, verdict, next)) ==> CanInstall(x)
  {
    hide PhaseOk, MarkerOk, OpsOk, CanInstall;
    HandledOps(x, verdict, next);
    HandledPhase(x, verdict, next);
    HandledMarker(x, verdict, next);
  }

  lemma About(w: World, s: SessionId)
    requires SessionsOk(w) && s in w.sessions
    ensures LocalOk(w.sessions[s]) && Placed(w, w.sessions[s]) && OpsOk(w.sessions[s])
    ensures HoldsLock(w.sessions[s].worker) ==> w.applier.Off? && !Down(w)
  {
    assert LocalOk(w.sessions[s]) && Placed(w, w.sessions[s]);
  }

  /** A session about to evaluate the tracker is attached and is no rival's target. */
  lemma EvaluatesAlone(w: World, s: SessionId)
    requires SessionsOk(w) && OneAttached(w) && s in w.sessions && w.sessions[s].alive
    requires w.sessions[s].queue != [] && w.sessions[s].queue[0].Evaluate?
    ensures CanInstall(w.sessions[s]) && Accounted(w, w.sessions[s].target)
    ensures forall r :: r in w.sessions && r != s && w.sessions[r].delivery.Attached? ==>
      w.sessions[r].target != w.sessions[s].target
  {
    var x := w.sessions[s];
    assert LocalOk(x) && Placed(w, x);
    assert IsTracker(x.queue[0]);
    if |x.queue| > 1 {
      assert x.queue[..|x.queue| - 1][0] == x.queue[0];
    }
  }

  /** What handling a command changes outside its session. */
  lemma HandleFrame(w: World, s: SessionId, verdict: Reply)
    requires s in w.sessions && w.sessions[s].alive && w.sessions[s].queue != []
    ensures var v := Handle(w, s, verdict);
      && v == Put(w, s, v.sessions[s]).(carrying := v.carrying, nextScript := v.nextScript)
      && v.sessions[s] == Handled(w.sessions[s], verdict, w.nextScript)
      && v.sessions[s].target == w.sessions[s].target && v.sessions[s].delivery == w.sessions[s].delivery
      && v.sessions[s].alive && v.sessions[s].worker == w.sessions[s].worker
      && v.sessions[s].lost == w.sessions[s].lost && v.sessions[s].ready == w.sessions[s].ready
      && (v.carrying <= w.carrying || v.carrying == w.carrying + {w.sessions[s].target})
      && (v.carrying <= w.carrying || w.sessions[s].queue[0].Evaluate?)
  {}

  /** An awaited cleanup succeeds only when the documents are clean. */
  lemma HandleCleans(w: World, s: SessionId, verdict: Reply, op: nat)
    requires s in w.sessions && w.sessions[s].alive && w.sessions[s].queue != []
    requires OpsOk(w.sessions[s]) && Awaits(w.sessions[s], Cleanup(op))
    ensures var v := Handle(w, s, verdict);
      op in v.sessions[s].replies && v.sessions[s].replies[op].Success? ==> w.sessions[s].target !in v.carrying
  {
    HandledWait(w.sessions[s], verdict, w.nextScript, Cleanup(op));
  }

  lemma HandlePlaces(w: World, s: SessionId, verdict: Reply)
    requires SessionsOk(w) && OneAttached(w) && s in w.sessions && w.sessions[s].alive && w.sessions[s].queue != []
    ensures forall r :: r in w.sessions ==> Placed(Handle(w, s, verdict), Handle(w, s, verdict).sessions[r])
  {
    var v, x := Handle(w, s, verdict), w.sessions[s];
    HandleFrame(w, s, verdict);
    HandledOk(x, verdict, w.nextScript);
    assert LocalOk(x) && Placed(w, x);
    if x.queue[0].Evaluate? { EvaluatesAlone(w, s); }
    if x.worker.Cleaning? { HandleCleans(w, s, verdict, x.worker.op); }
    assert x.worker.Cleaned? ==> !CanInstall(x);
    HandleAccounts(w, s, verdict);
    hide LocalOk, CanInstall, OneAttached, Handle, Handled, PendingInjection, HoldsLock, Accounted;
    PendingStays(x, v.sessions[s]);
    assert Placed(v, v.sessions[s]);
    hide HeardClean;
    forall r | r in w.sessions && r != s ensures Placed(v, w.sessions[r]) {
      assert Placed(w, w.sessions[r]);
    }
  }

  /** A handled command makes an injection unrecorded, never the other way round. */
  lemma HandleAccounts(w: World, s: SessionId, verdict: Reply)
    requires SessionsOk(w) && s in w.sessions && w.sessions[s].alive && w.sessions[s].queue != []
    ensures Accounts(w, Handle(w, s, verdict))
  {
    assert LocalOk(w.sessions[s]) && !Unrecorded(w.sessions[s]);
    HandleFrame(w, s, verdict);
    hide Unrecorded, SessionsOk, LocalOk, Handle, Handled;
    StillAccounts(w, Handle(w, s, verdict));
  }

  lemma PendingStays(x: Session, y: Session)
    requires x.worker == y.worker
    ensures PendingInjection(x) == PendingInjection(y) && HoldsLock(x.worker) == HoldsLock(y.worker)
  {}

  lemma HandleDocuments(w: World, s: SessionId, verdict: Reply)
    requires SessionsOk(w) && OneAttached(w) && DocumentsOk(w)
    requires s in w.sessions && w.sessions[s].alive && w.sessions[s].queue != []
    ensures DocumentsOk(Handle(w, s, verdict))
  {
    var v, x := Handle(w, s, verdict), w.sessions[s];
    HandleFrame(w, s, verdict);
    assert LocalOk(x) && !Unrecorded(x);
    if x.queue[0].Evaluate? { EvaluatesAlone(w, s); }
    HandleAccounts(w, s, verdict);
    hide Unrecorded, LocalOk, SessionsOk, OneAttached, DocumentsOk, Handle, Handled, CanInstall;
    StillAccounted(w, v);
  }

  lemma HandledRemoval(x: Session, verdict: Reply, next: Script, op: nat)
    requires OpsOk(x) && x.alive && x.queue != [] && RemovalOk(x, op)
    ensures RemovalOk(Handled(x, verdict, next), op)
  {
    var y, last := Handled(x, verdict, next), |x.queue| - 1;
    HandledQuiet(x, verdict, next);
    if last > 0 {
      assert x.queue[0].op < x.queue[last].op;
      assert y.queue[last - 1] == x.queue[last];
    }
  }

  lemma HandleRemoving(w: World, s: SessionId, verdict: Reply)
    requires SessionsOk(w) && ApplierOk(w) && w.applier.Removing?
    requires s in w.sessions && w.sessions[s].alive && w.sessions[s].queue != []
    ensures ApplierOk(Handle(w, s, verdict))
  {
    var v, x := Handle(w, s, verdict), w.sessions[s];
    hide SessionsOk, CanInstall, OpsOk, Handle, Handled, RemovalOk, LocalOk, Placed;
    About(w, s);
    HandleFrame(w, s, verdict);
    HandledOps(x, verdict, w.nextScript);
    if w.applier.session == s { HandledRemoval(x, verdict, w.nextScript, w.applier.op); }
  }

  lemma HandleApplies(w: World, s: SessionId, verdict: Reply)
    requires SessionsOk(w) && OneAttached(w) && ApplierOk(w) && !w.applier.Removing?
    requires s in w.sessions && w.sessions[s].alive && w.sessions[s].queue != []
    ensures ApplierOk(Handle(w, s, verdict))
  {
    var v, x := Handle(w, s, verdict), w.sessions[s];
    hide SessionsOk, OneAttached, CanInstall, OpsOk, Handle, Handled, Awaits, LocalOk, Placed;
    About(w, s);
    HandleFrame(w, s, verdict);
    HandledOps(x, verdict, w.nextScript);
    if x.queue[0].Evaluate? { EvaluatesAlone(w, s); }
    if w.applier.Scrubbing? && w.applier.session == s {
      HandledWait(x, verdict, w.nextScript, Cleanup(w.applier.op));
      HandleCleans(w, s, verdict, w.applier.op);
    }
  }

  /** Handling a command makes up no targets and no sessions. */
  lemma HandleIds(w: World, s: SessionId, verdict: Reply)
    requires SessionsOk(w) && IdsOk(w) && ConnectionOk(w)
    requires s in w.sessions && w.sessions[s].alive && w.sessions[s].queue != []
    ensures IdsOk(Handle(w, s, verdict)) && ConnectionOk(Handle(w, s, verdict))
  {
    HandleFrame(w, s, verdict);
    assert w.sessions[s].target in w.live by { About(w, s); }
    hide Handle, Handled, SessionsOk;
  }

  lemma HandleKeeps(w: World, s: SessionId, verdict: Reply)
    requires Inv(w)
    ensures Inv(Handle(w, s, verdict))
  {
    if s in w.sessions && w.sessions[s].alive && w.sessions[s].queue != [] {
      var v := Handle(w, s, verdict);
      hide OneAlive, OneAttached, CanInstall, DocumentsOk, ApplierOk, Handled, Handle, LocalOk, Placed, Accounted,
        IdsOk, ConnectionOk, SessionsOk;
      HandleFrame(w, s, verdict);
      About(w, s);
      HandlePlaces(w, s, verdict);
      HandleDocuments(w, s, verdict);
      if w.applier.Removing? { HandleRemoving(w, s, verdict); } else { HandleApplies(w, s, verdict); }
      HandledOk(w.sessions[s], verdict, w.nextScript);
      HandleIds(w, s, verdict);
      Replaced(w, v, s);
    }
  }

  lemma FirstAttached(w: World, s: SessionId)
    requires SessionsOk(w) && OneAlive(w) && OneAttached(w) && s in w.sessions
    ensures OneAlive(DeliverAttached(w, s)) && OneAttached(DeliverAttached(w, s))
  {
    hide LocalOk, Placed;
  }

  lemma StartedOk(w: World, x: Session)
    requires LocalOk(x) && Placed(w, x) && x.delivery.Unannounced? && !Down(w)
    ensures var y := x.(delivery := Attached, worker := Starting);
      LocalOk(y) && Placed(w, y) && !Unrecorded(x) && SameReplies(x, y) && !CanInstall(y)
  {}

  lemma DeliverAttachedKeeps(w: World, s: SessionId)
    requires Inv(w)
    ensures Inv(DeliverAttached(w, s))
  {
    var v := DeliverAttached(w, s);
    if v != w {
      hide LocalOk, CanInstall, Unrecorded, DocumentsOk, ApplierOk, OneAlive, OneAttached, SameReplies, OlderGone;
      var y := w.sessions[s].(delivery := Attached, worker := Starting);
      assert v == Put(w, s, y);
      StartedOk(w, w.sessions[s]);
      FirstAttached(w, s);
      hide DeliverAttached, Placed;
      SameAll(w, s, y);
      StillApplying(w, v);
      PutFits(w, s, y);
    }
  }

  lemma SameAll(w: World, s: SessionId, y: Session)
    requires s in w.sessions && SameReplies(w.sessions[s], y)
    ensures forall r :: r in w.sessions ==> SameReplies(w.sessions[r], Put(w, s, y).sessions[r])
  {}

  lemma DeliverDetachedKeeps(w: World, s: SessionId)
    requires Inv(w)
    ensures Inv(DeliverDetached(w, s))
  {
    if s in w.sessions && !w.sessions[s].alive {
      var x := Forgotten(w.sessions[s]);
      assert LocalOk(x) && Placed(w, x) && (Unrecorded(w.sessions[s]) ==> Unrecorded(x));
      assert SameReplies(w.sessions[s], x) && !CanInstall(x);
      hide LocalOk, CanInstall, HeardClean, Unrecorded, PendingInjection, HoldsLock, ApplierOk, DocumentsOk, OneAlive,
        OneAttached;
      StillApplying(w, Put(w, s, x));
      PutKeeps(w, s, x);
    }
  }

  lemma MarkDestroyedOk(w: World, x: Session, t: Target)
    requires LocalOk(x) && Placed(w, x) && t !in w.live
    ensures LocalOk(MarkDestroyed(x, t))
    ensures x.target == t ==> !x.alive && !CanInstall(x)
    ensures SameReplies(x, MarkDestroyed(x, t))
    ensures HeardClean(MarkDestroyed(x, t)) ==> HeardClean(x)
    ensures x.target != t ==> MarkDestroyed(x, t) == x
    ensures CanInstall(MarkDestroyed(x, t)) ==> CanInstall(x)
  {}

  lemma DestroyedPlaces(w: World, s: SessionId, t: Target)
    requires SessionsOk(w) && s in w.sessions && t !in w.live && t < w.nextTarget
    ensures var v := DeliverDestroyed(w, t);
      && LocalOk(v.sessions[s]) && Placed(v, v.sessions[s])
      && SameReplies(w.sessions[s], v.sessions[s])
      && (CanInstall(v.sessions[s]) ==> CanInstall(w.sessions[s]))
      && (w.sessions[s].target != t ==> v.sessions[s] == w.sessions[s])
      && v.sessions[s].target == w.sessions[s].target && v.sessions[s].alive == w.sessions[s].alive
      && v.sessions[s].delivery == w.sessions[s].delivery
  {
    hide LocalOk, SameReplies, HeardClean, PendingInjection, CanInstall, Accounted;
    assert LocalOk(w.sessions[s]) && Placed(w, w.sessions[s]);
    if w.sessions[s].target != t { DestroyedAccounts(w, t, w.sessions[s].target); }
    MarkDestroyedOk(w, w.sessions[s], t);
  }

  lemma DestroyedAccounts(w: World, t: Target, u: Target)
    requires u != t
    ensures Accounted(w, u) ==> Accounted(DeliverDestroyed(w, t), u)
  {
    if Accounted(w, u) && u !in w.obligations {
      var s :| s in w.sessions && w.sessions[s].target == u && Unrecorded(w.sessions[s]);
      assert DeliverDestroyed(w, t).sessions[s] == w.sessions[s];
    }
  }

  lemma DestroyedAll(w: World, t: Target)
    requires SessionsOk(w) && t !in w.live && t < w.nextTarget
    ensures var v := DeliverDestroyed(w, t);
      && v == w.(obligations := w.obligations - {t}, sessions := v.sessions) && v.sessions.Keys == w.sessions.Keys
      && forall s :: s in w.sessions ==>
           && LocalOk(v.sessions[s]) && Placed(v, v.sessions[s]) && SameReplies(w.sessions[s], v.sessions[s])
           && (CanInstall(v.sessions[s]) ==> CanInstall(w.sessions[s]))
           && (w.sessions[s].target != t ==> v.sessions[s] == w.sessions[s])
           && v.sessions[s].target == w.sessions[s].target && v.sessions[s].alive == w.sessions[s].alive
           && v.sessions[s].delivery == w.sessions[s].delivery
  {
    hide SessionsOk, LocalOk, CanInstall, Placed, SameReplies, MarkDestroyed;
    forall s | s in w.sessions { DestroyedPlaces(w, s, t); }
  }

  lemma DeliverDestroyedKeeps(w: World, t: Target)
    requires Inv(w)
    ensures Inv(DeliverDestroyed(w, t))
  {
    if t < w.nextTarget && t !in w.live {
      var v := DeliverDestroyed(w, t);
      DestroyedAll(w, t);
      hide ApplierOk, DocumentsOk, OneAlive, OneAttached, LocalOk, CanInstall, Placed, SameReplies, Unrecorded,
        DeliverDestroyed;
      StillOne(w, v);
      StillAccounted(w, v);
      StillApplying(w, v);
    }
  }

  lemma CancelKeeps(w: World)
    requires Inv(w)
    ensures Inv(Cancel(w))
  {
    if w.connection.Up? {
      hide LocalOk, CanInstall, HeardClean, HoldsLock, OneAlive, OneAttached, Unrecorded;
      StillAccounted(w, Cancel(w));
    }
  }

  // ---- The worker's steps ----

  /** While some worker runs under the lock, nothing is being applied. */
  lemma PutWorker(w: World, s: SessionId, x: Session)
    requires Inv(w) && s in w.sessions && w.applier.Off?
    requires x.target == w.sessions[s].target
    requires x.alive ==> w.sessions[s].alive
    requires x.delivery == w.sessions[s].delivery
    requires LocalOk(x) && Placed(w, x)
    requires Unrecorded(w.sessions[s]) ==> Unrecorded(x) || x.target in w.obligations
    ensures Inv(Put(w, s, x))
  {
    hide Inv, LocalOk, Placed, Unrecorded;
    assert ApplierOk(Put(w, s, x));
    PutKeeps(w, s, x);
  }

  lemma IdleKeeps(w: World, s: SessionId, ok: bool, inTime: bool, guarded: bool)
    requires Inv(w) && s in w.sessions && w.sessions[s].worker.Idle?
    ensures Inv(WorkerStep(w, s, ok, inTime, guarded))
  {
    var x := w.sessions[s].(worker := Enabling);
    if w.sessions[s].ready && !WriteLocked(w) {
      assert LocalOk(w.sessions[s]) && Placed(w, w.sessions[s]);
      hide Inv, SessionsOk;
      PutWorker(w, s, x);
    }
  }

  lemma StoppedOk(w: World, s: SessionId)
    requires Inv(w) && s in w.sessions && (w.sessions[s].worker.Starting? || w.applier.Off?)
    requires w.sessions[s].worker.Injecting? || w.sessions[s].worker.Recorded? ==> !w.sessions[s].alive
    requires Unrecorded(w.sessions[s]) ==> w.sessions[s].target in w.obligations
    ensures Inv(StopWorker(w, s))
  {
    var x := w.sessions[s].(worker := Idle);
    assert LocalOk(w.sessions[s]) && Placed(w, w.sessions[s]);
    assert LocalOk(x) && Placed(w, x);
    assert ApplierOk(Put(w, s, x)) by {
      if !w.applier.Off? {
        assert CanInstall(x) == CanInstall(w.sessions[s]) && SameReplies(w.sessions[s], x);
        hide CanInstall, Inv, SessionsOk, LocalOk, Placed, SameReplies, ApplierOk;
        SameAll(w, s, x);
        StillApplying(w, Put(w, s, x));
      }
    }
    hide Inv, SessionsOk, LocalOk, Placed, ApplierOk;
    PutKeeps(w, s, x);
  }

  /** Steps that only move the worker on, or stop it. */
  lemma EarlyKeeps(w: World, s: SessionId, ok: bool, inTime: bool, guarded: bool)
    requires Inv(w) && s in w.sessions
    requires w.sessions[s].worker.Starting? || w.sessions[s].worker.Readying? || w.sessions[s].worker.Enabling?
    ensures Inv(WorkerStep(w, s, ok, inTime, guarded))
  {
    var x := w.sessions[s];
    assert LocalOk(x) && Placed(w, x);
    match x.worker
    case Starting =>
      if !ok {
        hide Inv, SessionsOk;
        StoppedOk(w, s);
        CancelKeeps(StopWorker(w, s));
      } else if !WriteLocked(w) {
        hide Inv, SessionsOk;
        PutWorker(w, s, x.(worker := Locked));
      }
    case Readying =>
      hide Inv, SessionsOk;
      PutWorker(w, s, x.(ready := x.ready || x.delivery.Attached?, worker := Enabling));
    case Enabling =>
      hide Inv, SessionsOk;
      if x.delivery.Attached? && x.marker.Unmarked? && w.telemetry && w.connection.Up? {
        PutWorker(w, s, x.(marker := Marked(None), worker := Registering));
      } else {
        StoppedOk(w, s);
      }
  }

  lemma SentOk(x: Session, c: Command)
    requires OpsOk(x) && c.op == x.nextOp && (!x.alive ==> x.queue == [])
    ensures OpsOk(Sent(x, c)) && Awaits(Sent(x, c), c)
    ensures IsTracker(c) || CanInstall(Sent(x, c)) == CanInstall(x)
    ensures c.AddTracker? || (NoRegistration(Sent(x, c).queue) == NoRegistration(x.queue))
  {
    var y := Sent(x, c);
    assert x.queue == y.queue[..|x.queue|];
  }

  lemma CleaningOk(w: World, x: Session)
    requires LocalOk(x) && Placed(w, x) && x.worker.Locked?
    ensures var y := Sent(x, Cleanup(x.nextOp)).(worker := Cleaning(x.nextOp));
      LocalOk(y) && Placed(w, y)
  {
    SentOk(x, Cleanup(x.nextOp));
  }

  lemma InjectingOk(w: World, x: Session)
    requires LocalOk(x) && Placed(w, x) && x.worker.Registering?
    ensures var y := Sent(x, AddTracker(x.nextOp)).(worker := Injecting(x.nextOp, x.delivery.Attached?, false));
      LocalOk(y) && Placed(w, y)
  {
    var c := AddTracker(x.nextOp);
    var y := Sent(x, c).(worker := Injecting(x.nextOp, x.delivery.Attached?, false));
    SentOk(x, c);
    assert x.alive ==> x.delivery.Attached? && x.nextOp !in x.replies;
    assert x.alive ==> x.scripts == {} && NoTracker(x.queue);
    hide OpsOk, Awaits, MarkerOk, NoTracker, HeardClean;
    assert Sent(x, c).alive ==> Sent(x, c).queue[..|Sent(x, c).queue| - 1] == x.queue;
    assert InjectionOk(y, x.nextOp);
    hide InjectionOk;
    SameOps(Sent(x, c), y);
    assert MarkerOk(y) by { hide *; InjectingMarker(y); }
  }

  lemma SameOps(x: Session, y: Session)
    requires y == x.(worker := y.worker)
    ensures OpsOk(y) == OpsOk(x)
    ensures forall c :: Awaits(y, c) == Awaits(x, c)
  {}

  lemma InjectingMarker(y: Session)
    requires y.worker.Injecting? && (y.alive ==> y.marker == Marked(None))
    ensures MarkerOk(y)
  {}

  lemma EvaluatedOk(w: World, x: Session)
    requires LocalOk(x) && Placed(w, x) && x.worker.Evaluating?
    ensures var y := Sent(x, Evaluate(x.nextOp)).(worker := Idle);
      LocalOk(y) && Placed(w, y)
  {
    SentOk(x, Evaluate(x.nextOp));
  }

  lemma SendingKeeps(w: World, s: SessionId, ok: bool, inTime: bool, guarded: bool)
    requires Inv(w) && s in w.sessions
    requires w.sessions[s].worker.Locked? || w.sessions[s].worker.Registering? || w.sessions[s].worker.Evaluating?
    ensures Inv(WorkerStep(w, s, ok, inTime, guarded))
  {
    var x := w.sessions[s];
    assert LocalOk(x) && Placed(w, x) && w.applier.Off?;
    hide Inv, SessionsOk;
    match x.worker
    case Locked =>
      CleaningOk(w, x);
      if x.target !in w.obligations {
        PutWorker(w, s, x.(worker := Readying));
      } else {
        hide LocalOk, Placed;
        PutWorker(w, s, Sent(x, Cleanup(x.nextOp)).(worker := Cleaning(x.nextOp)));
      }
    case Registering =>
      if !ok {
        StoppedOk(w, s);
        CancelKeeps(StopWorker(w, s));
        return;
      }
      InjectingOk(w, x);
      hide LocalOk, Placed;
      PutWorker(w, s, Sent(x, AddTracker(x.nextOp)).(worker := Injecting(x.nextOp, x.delivery.Attached?, false)));
    case Evaluating =>
      EvaluatedOk(w, x);
      hide LocalOk, Placed;
      PutWorker(w, s, Sent(x, Evaluate(x.nextOp)).(worker := Idle));
  }

  lemma CleaningKeeps(w: World, s: SessionId, ok: bool, inTime: bool, guarded: bool)
    requires Inv(w) && s in w.sessions && w.sessions[s].worker.Cleaning?
    ensures Inv(WorkerStep(w, s, ok, inTime, guarded))
  {
    var x := w.sessions[s];
    assert LocalOk(x) && Placed(w, x) && w.applier.Off?;
    hide Inv, SessionsOk;
    var reply := Outcome(x, x.worker.op, inTime);
    if reply.Some? && reply.value.Success? {
      PutWorker(w, s, x.(worker := Cleaned));
    } else if reply.Some? || !inTime {
      if x.delivery.Attached? {
        StoppedOk(w, s);
        CancelKeeps(StopWorker(w, s));
      } else {
        PutWorker(w, s, x.(worker := Readying));
      }
    }
  }

  lemma RecordedKeeps(w: World, s: SessionId, ok: bool, inTime: bool, guarded: bool)
    requires Inv(w) && s in w.sessions && w.sessions[s].worker.Recorded?
    ensures Inv(WorkerStep(w, s, ok, inTime, guarded))
  {
    var x := w.sessions[s];
    assert LocalOk(x) && Placed(w, x) && w.applier.Off?;
    hide Inv, SessionsOk;
    var marker := if x.marker.Unmarked? then Unmarked else Marked(Some(x.worker.script));
    PutWorker(w, s, x.(marker := marker, worker := Evaluating));
  }

  /** A cleaned target whose session is still attached owes nothing. */
  lemma DischargeKeeps(w: World, s: SessionId)
    requires Inv(w) && s in w.sessions && w.applier.Off? && w.sessions[s].delivery.Attached?
    requires w.sessions[s].target !in w.carrying && w.sessions[s].worker.Cleaned?
    ensures Inv(w.(obligations := w.obligations - {w.sessions[s].target}))
  {
    var v := w.(obligations := w.obligations - {w.sessions[s].target});
    StillAccounted(w, v);
    forall r | r in v.sessions ensures LocalOk(v.sessions[r]) && Placed(v, v.sessions[r]) {
      assert LocalOk(w.sessions[r]) && Placed(w, w.sessions[r]);
    }
  }

  /** A discharge by a session that has left, of a target that nobody has exposed again, or
      that an injection accounts for anyway. */
  lemma StaleDischargeKeeps(w: World, s: SessionId)
    requires Inv(w) && s in w.sessions && w.applier.Off?
    requires var t := w.sessions[s].target; t in w.live && Exposed(w, t) ==> Injected(w, t)
    ensures Inv(w.(obligations := w.obligations - {w.sessions[s].target}))
  {
    var t := w.sessions[s].target;
    var v := w.(obligations := w.obligations - {t});
    hide LocalOk, CanInstall, HeardClean, HoldsLock, Unrecorded, OneAlive, OneAttached, PendingInjection;
    forall u | Accounted(w, u) && (u != t || Injected(w, t)) ensures Accounted(v, u) {
      if u !in w.obligations || u == t {
        var r :| r in w.sessions && w.sessions[r].target == u && Unrecorded(w.sessions[r]);
        assert r in v.sessions;
      }
    }
    forall r | r in v.sessions ensures LocalOk(v.sessions[r]) && Placed(v, v.sessions[r]) {
      assert LocalOk(w.sessions[r]) && Placed(w, w.sessions[r]);
      if w.sessions[r].target == t && CanInstall(w.sessions[r]) {
        assert t in w.live by { DeadIsQuiet(w.sessions[r]); }
      }
    }
    hide Placed;
    assert DocumentsOk(v);
  }

  lemma DeadIsQuiet(x: Session)
    ensures CanInstall(x) ==> x.alive
  {}

  lemma CleanedKeeps(w: World, s: SessionId, ok: bool, inTime: bool, guarded: bool)
    requires Inv(w) && s in w.sessions && w.sessions[s].worker.Cleaned?
    requires guarded || !Harms(w, EvWorker(s, ok, inTime))
    ensures Inv(WorkerStep(w, s, ok, inTime, guarded))
  {
    var x := w.sessions[s];
    assert LocalOk(x) && Placed(w, x) && w.applier.Off?;
    var y := x.(worker := Readying);
    var v := w.(obligations := w.obligations - {x.target});
    if ok && (x.delivery.Attached? || !guarded) {
      if x.delivery.Attached? { DischargeKeeps(w, s); } else { StaleDischargeKeeps(w, s); }
      assert LocalOk(y) && Placed(v, y) by { About(v, s); }
      hide Inv, SessionsOk, Placed;
      PutWorker(v, s, y);
    } else if ok || !x.delivery.Attached? {
      hide Inv, SessionsOk;
      PutWorker(w, s, y);
    } else {
      hide Inv, SessionsOk;
      StoppedOk(w, s);
      CancelKeeps(StopWorker(w, s));
    }
  }

  /** The reply to an injection is counted before the worker moves on. */
  lemma CountKeeps(w: World, s: SessionId)
    requires Inv(w) && s in w.sessions && w.applier.Off? && w.sessions[s].worker.Injecting?
    ensures Inv(w.(obligations := w.obligations + {w.sessions[s].target}))
  {
    var v := w.(obligations := w.obligations + {w.sessions[s].target});
    hide LocalOk, CanInstall, HeardClean, Unrecorded, DocumentsOk, OneAlive, OneAttached;
    assert Placed(w, w.sessions[s]);
    StillAccounted(w, v);
    forall r | r in v.sessions ensures LocalOk(v.sessions[r]) && Placed(v, v.sessions[r]) {
      assert Placed(w, w.sessions[r]);
    }
  }

  lemma InjectedOk(x: Session, op: nat)
    requires LocalOk(x) && x.worker.Injecting? && op == x.worker.op
    ensures op in x.replies && x.replies[op].Success? ==> LocalOk(x.(worker := Recorded(x.replies[op].script)))
    ensures x.worker.destroyed || (op in x.replies && x.replies[op].Rejected?) ==> LocalOk(x.(worker := Idle))
    ensures x.worker.destroyed || (op in x.replies && x.replies[op].Rejected?) ==> !Unrecorded(x)
    ensures x.worker.destroyed || (op in x.replies && x.replies[op].Rejected?) ==> !CanInstall(x)
    ensures LocalOk(x.(worker := Idle, lost := true))
    ensures x.alive ==> PendingInjection(x)
    ensures Unrecorded(x) ==> PendingInjection(x)
  {}

  function Noted(w: World, x: Session, rejected: bool): World
    requires x.worker.Injecting?
  {
    if x.worker.counted && !x.worker.destroyed && !rejected then w.(obligations := w.obligations + {x.target}) else w
  }

  lemma NotedKeeps(w: World, s: SessionId, rejected: bool)
    requires Inv(w) && s in w.sessions && w.sessions[s].worker.Injecting?
    ensures var v := Noted(w, w.sessions[s], rejected);
      && Inv(v) && v.sessions == w.sessions && v.applier.Off? && LocalOk(w.sessions[s]) && Placed(v, w.sessions[s])
      && (!rejected && PendingInjection(w.sessions[s]) ==> w.sessions[s].target in v.obligations)
  {
    hide SessionsOk, LocalOk, IdsOk, OneAlive, OneAttached, DocumentsOk, ApplierOk, ConnectionOk, CanInstall, Placed;
    About(w, s);
    CountKeeps(w, s);
    About(Noted(w, w.sessions[s], rejected), s);
  }

  lemma AnsweredKeeps(w: World, s: SessionId, ok: bool, inTime: bool, guarded: bool)
    requires Inv(w) && s in w.sessions && w.sessions[s].worker.Injecting?
    requires var reply := Outcome(w.sessions[s], w.sessions[s].worker.op, inTime);
      w.sessions[s].worker.destroyed || (reply.Some? && !reply.value.Garbled?)
    ensures Inv(WorkerStep(w, s, ok, inTime, guarded))
  {
    var x := w.sessions[s];
    var reply := Outcome(x, x.worker.op, inTime);
    if reply.None? && inTime { return; }
    var rejected := reply.Some? && reply.value.Rejected?;
    var v := Noted(w, x, rejected);
    hide Inv, LocalOk, Unrecorded, CanInstall, Placed;
    NotedKeeps(w, s, rejected);
    InjectedOk(x, x.worker.op);
    var y := x.(worker := if x.worker.destroyed || rejected then Idle else Recorded(reply.value.script));
    InjectedPlaces(v, x);
    PutWorker(v, s, y);
  }

  lemma UncertainKeeps(w: World, s: SessionId, ok: bool, inTime: bool, guarded: bool)
    requires Inv(w) && s in w.sessions && w.sessions[s].worker.Injecting? && !w.sessions[s].worker.destroyed
    requires var reply := Outcome(w.sessions[s], w.sessions[s].worker.op, inTime);
      if reply.None? then !inTime else reply.value.Garbled?
    ensures Inv(WorkerStep(w, s, ok, inTime, guarded))
  {
    var x := w.sessions[s];
    var v := Noted(w, x, false);
    var y := x.(worker := Idle, lost := true);
    hide Inv, LocalOk, Unrecorded, CanInstall, Placed;
    NotedKeeps(w, s, false);
    InjectedOk(x, x.worker.op);
    // Cancelling first: a connection already given up holds no knowledge to lose.
    CancelKeeps(v);
    About(Cancel(v), s);
    InjectedPlaces(Cancel(v), x);
    PutWorker(Cancel(v), s, y);
    assert Put(Cancel(v), s, y) == Cancel(Put(v, s, y));
  }

  lemma InjectedPlaces(w: World, x: Session)
    requires Placed(w, x) && x.worker.Injecting? && w.applier.Off?
    requires PendingInjection(x) ==> x.target in w.obligations || !CanInstall(x)
    ensures Placed(w, x.(worker := Idle))
    ensures forall id :: (x.alive ==> x.target in w.obligations) ==> Placed(w, x.(worker := Recorded(id)))
    ensures !w.connection.Up? ==> Placed(w, x.(worker := Idle, lost := true))
  {}

  lemma WorkerKeeps(w: World, s: SessionId, ok: bool, inTime: bool, guarded: bool)
    requires Inv(w) && s in w.sessions && (guarded || !Harms(w, EvWorker(s, ok, inTime)))
    ensures Inv(WorkerStep(w, s, ok, inTime, guarded))
  {
    hide Inv, Harms;
    match w.sessions[s].worker
    case Idle => IdleKeeps(w, s, ok, inTime, guarded);
    case Locked => SendingKeeps(w, s, ok, inTime, guarded);
    case Cleaning(_) => CleaningKeeps(w, s, ok, inTime, guarded);
    case Cleaned => CleanedKeeps(w, s, ok, inTime, guarded);
    case Registering => SendingKeeps(w, s, ok, inTime, guarded);
    case Injecting(op, _, destroyed) =>
      var reply := Outcome(w.sessions[s], op, inTime);
      if destroyed || (reply.Some? && !reply.value.Garbled?) {
        AnsweredKeeps(w, s, ok, inTime, guarded);
      } else if reply.Some? || !inTime {
        UncertainKeeps(w, s, ok, inTime, guarded);
      }
    case Recorded(_) => RecordedKeeps(w, s, ok, inTime, guarded);
    case Evaluating => SendingKeeps(w, s, ok, inTime, guarded);
    case _ => EarlyKeeps(w, s, ok, inTime, guarded);
  }

  // ---- The applier's steps ----

  /** Only the applier, the telemetry flag and knowledge about lost scripts change. */
  lemma ApplierMoves(w: World, v: World)
    requires Inv(w) && v == w.(applier := v.applier, telemetry := v.telemetry)
    requires ApplierOk(v) && (Down(v) ==> v.applier.Off?)
    requires WriteLocked(v) ==> WriteLocked(w) || NoneHoldsLock(w)
    requires Sweeps(v.applier) ==> Sweeps(w.applier) || w.connection.Up?
    ensures Inv(v)
  {
    hide LocalOk, CanInstall, HeardClean, Unrecorded, ApplierOk, DocumentsOk, OneAlive, OneAttached;
    StillOne(w, v);
    StillAccounted(w, v);
    forall s | s in v.sessions ensures LocalOk(v.sessions[s]) && Placed(v, v.sessions[s]) {
      assert Placed(w, w.sessions[s]);
    }
  }

  lemma UnmarkedOk(w: World, x: Session, blind: bool)
    requires LocalOk(x) && Placed(w, x) && !HoldsLock(x.worker)
    requires if blind then !w.connection.Up? && w.applier.Off? else !Accounted(w, x.target)
    ensures var y := x.(marker := Unmarked, lost := x.lost || blind);
      && LocalOk(y) && Placed(w, y)
      && CanInstall(y) == CanInstall(x) && Unrecorded(y) == Unrecorded(x)
  {}

  /** While nobody holds the lock only obligations account for documents. */
  lemma UnlockedAccounts(w: World)
    requires NoneHoldsLock(w)
    ensures forall t :: Accounted(w, t) == (t in w.obligations)
    ensures forall blind, t :: Accounted(w, t) ==> Accounted(ClearMarkers(w, blind), t)
  {}

  lemma ClearedOk(w: World, s: SessionId, blind: bool)
    requires SessionsOk(w) && NoneHoldsLock(w) && s in w.sessions
    requires if blind then !w.connection.Up? && w.applier.Off? else w.obligations == {}
    ensures var v := ClearMarkers(w, blind);
      && LocalOk(v.sessions[s]) && Placed(v, v.sessions[s])
      && (Unrecorded(w.sessions[s]) ==> Unrecorded(v.sessions[s]))
  {
    About(w, s);
    UnlockedAccounts(w);
    assert !HoldsLock(w.sessions[s].worker);
    hide LocalOk, CanInstall, Unrecorded, PendingInjection, HeardClean, NoneHoldsLock, Accounted, SessionsOk, HoldsLock;
    UnmarkedOk(w, w.sessions[s], blind);
  }

  lemma ClearMarkersKeeps(w: World, blind: bool)
    requires Inv(w) && NoneHoldsLock(w) && (w.applier.Sweeping? || w.applier.Off?)
    requires if blind then !w.connection.Up? && w.applier.Off? else w.obligations == {}
    ensures Inv(ClearMarkers(w, blind))
  {
    var v := ClearMarkers(w, blind);
    hide LocalOk, Placed, CanInstall, Unrecorded, DocumentsOk, OneAlive, OneAttached, NoneHoldsLock, Accounted;
    forall s | s in v.sessions
      ensures LocalOk(v.sessions[s]) && Placed(v, v.sessions[s])
      ensures Unrecorded(w.sessions[s]) ==> Unrecorded(v.sessions[s])
    {
      ClearedOk(w, s, blind);
    }
    StillOne(w, v);
    StillAccounted(w, v);
  }

  lemma BeginApplyKeeps(w: World)
    requires Inv(w)
    ensures Inv(BeginApply(w))
  {
    var v := BeginApply(w);
    if v != w {
      hide Inv, SessionsOk;
      var quiet := w.(telemetry := false);
      assert w.applier.Off? && ApplierOk(quiet) && ApplierOk(w);
      assert !Down(w) && NoneHoldsLock(w);
      ApplierMoves(w, quiet);
      if w.connection.Up? {
        ApplierMoves(quiet, v);
      } else {
        ClearMarkersKeeps(quiet, true);
        var c := ClearMarkers(quiet, true);
        assert NoneHoldsLock(c);
        ApplierMoves(c, v);
      }
    }
  }

  lemma EndSweepKeeps(w: World)
    requires Inv(w)
    ensures Inv(EndSweep(w))
  {
    if w.applier.Sweeping? && w.applier.todo == {} {
      var v := EndSweep(w);
      assert NoneHoldsLock(w) by {
        forall s | s in w.sessions ensures !HoldsLock(w.sessions[s].worker) { About(w, s); }
      }
      hide Inv, SessionsOk;
      if w.applier.failed || w.obligations != {} {
        ApplierMoves(w, w.(applier := Off));
        CancelKeeps(w.(applier := Off));
      } else {
        ClearMarkersKeeps(w, false);
        ApplierMoves(ClearMarkers(w, false), v);
      }
    }
  }

  lemma DecideKeeps(w: World, enable: bool)
    requires Inv(w)
    ensures Inv(Decide(w, enable))
  {
    hide SessionsOk, IdsOk, OneAlive, OneAttached, DocumentsOk;
    if w.applier.Deciding? {
      ApplierMoves(w, Decide(w, enable));
    }
  }

  lemma QuietRivals(w: World, s: SessionId)
    requires SessionsOk(w) && OneAttached(w) && s in w.sessions && w.sessions[s].delivery.Attached?
    ensures OthersQuiet(w, s)
  {
    forall r | r in w.sessions && r != s && w.sessions[r].target == w.sessions[s].target
      ensures !CanInstall(w.sessions[r])
    {
      About(w, r);
    }
  }

  lemma SweptOk(w: World, x: Session, c: Command)
    requires LocalOk(x) && Placed(w, x) && !HoldsLock(x.worker) && !IsTracker(c) && c.op == x.nextOp
    requires !x.delivery.Unannounced?
    ensures LocalOk(Sent(x, c)) && Placed(w, Sent(x, c)) && Awaits(Sent(x, c), c)
    ensures Sent(x, c).target == x.target && Sent(x, c).delivery == x.delivery && Sent(x, c).alive == x.alive
    ensures CanInstall(Sent(x, c)) == CanInstall(x) && Unrecorded(Sent(x, c)) == Unrecorded(x)
    ensures NoRegistration(x.queue) ==> NoRegistration(Sent(x, c).queue)
  {
    SentOk(x, c);
  }

  /** The applier sends a command on a session and waits for its reply. */
  lemma SweepSends(w: World, s: SessionId, c: Command, a: Applier)
    requires Inv(w) && s in w.sessions && Sweeps(w.applier) && Sweeps(a)
    requires !IsTracker(c) && c.op == w.sessions[s].nextOp && !w.sessions[s].delivery.Unannounced?
    requires ApplierOk(Put(w, s, Sent(w.sessions[s], c)).(applier := a))
    ensures Inv(Put(w, s, Sent(w.sessions[s], c)).(applier := a))
  {
    var x := w.sessions[s];
    var y := Sent(x, c);
    var v := w.(applier := Sweeping({}, false));
    assert !HoldsLock(x.worker) by { About(w, s); }
    hide SessionsOk, LocalOk, Placed, CanInstall, Unrecorded, IsTracker, Sent, IdsOk, OneAlive, OneAttached,
      DocumentsOk, ConnectionOk;
    ApplierMoves(w, v);
    About(v, s);
    SweptOk(v, x, c);
    assert ApplierOk(Put(v, s, y));
    PutKeeps(v, s, y);
    ApplierMoves(Put(v, s, y), Put(w, s, y).(applier := a));
  }

  /** Scrubbing a session once nothing is left that could install listeners again. */
  lemma ScrubKeeps(w: World, s: SessionId, bad: bool, todo: set<SessionId>, failed: bool)
    requires Inv(w) && s in w.sessions && Sweeps(w.applier) && !w.sessions[s].delivery.Unannounced?
    requires !bad ==> NoneInstalls(w, w.sessions[s].target)
    ensures Inv(Scrub(w, s, bad, todo, failed))
  {
    var x := w.sessions[s];
    hide SessionsOk, LocalOk, Placed, CanInstall, Sent, IdsOk, OneAlive, OneAttached, DocumentsOk, ConnectionOk, Awaits;
    if x.target in w.obligations {
      var c := Cleanup(x.nextOp);
      About(w, s);
      assert !HoldsLock(x.worker) by { LockFree(w, x); }
      SweptOk(w, x, c);
      assert x.nextOp !in Sent(x, c).replies || Sent(x, c).replies[x.nextOp] == Rejected by { hide *; SentOp(x, c); }
      SweepSends(w, s, c, Scrubbing(s, x.nextOp, bad, todo, failed));
    } else {
      assert ApplierOk(Scrub(w, s, bad, todo, failed));
      ApplierMoves(w, Scrub(w, s, bad, todo, failed));
    }
  }

  lemma LockFree(w: World, x: Session)
    requires Placed(w, x) && WriteLocked(w)
    ensures !HoldsLock(x.worker)
  {}

  lemma SentOp(x: Session, c: Command)
    requires OpsOk(x) && c.op == x.nextOp
    ensures x.nextOp !in Sent(x, c).replies || Sent(x, c).replies[x.nextOp] == Rejected
  {}

  lemma SweepOneKeeps(w: World, s: SessionId)
    requires Inv(w)
    ensures Inv(SweepOne(w, s))
  {
    if w.applier.Sweeping? && s in w.applier.todo && s in w.sessions {
      var x := w.sessions[s];
      var todo, failed := w.applier.todo - {s}, w.applier.failed;
      About(w, s);
      assert !HoldsLock(x.worker) && (x.alive ==> !x.lost);
      if !x.delivery.Attached? {
        hide SessionsOk, LocalOk, Placed, IdsOk, OneAlive, OneAttached, DocumentsOk;
        ApplierMoves(w, w.(applier := Sweeping(todo, failed)));
      } else {
        QuietRivals(w, s);
        if x.marker.Marked? && x.marker.script.Some? {
          var c := RemoveScript(x.nextOp, x.marker.script.value);
          SweptOk(w, x, c);
          assert RemovalOk(Sent(x, c), x.nextOp);
          hide SessionsOk, LocalOk, Placed, IdsOk, OneAlive, OneAttached, DocumentsOk, CanInstall, Sent, RemovalOk;
          SweepSends(w, s, c, Removing(s, x.nextOp, todo, failed));
        } else {
          assert !CanInstall(x);
          hide SessionsOk, LocalOk, Placed, IdsOk, OneAlive, OneAttached, DocumentsOk, CanInstall, Sent;
          ScrubKeeps(w, s, false, todo, failed);
        }
      }
    }
  }

  lemma FinishPlaces(w: World, s: SessionId, r: SessionId)
    requires Inv(w) && w.applier.Finishing? && !w.applier.bad && s == w.applier.session && r in w.sessions
    ensures var v := SweepReply(w, true, true); LocalOk(v.sessions[r]) && Placed(v, v.sessions[r])
    ensures !Unrecorded(w.sessions[r])
  {
    About(w, r);
    assert w.sessions[r].target == w.sessions[s].target ==> !CanInstall(w.sessions[r]);
    hide DocumentsOk, OneAlive, OneAttached, IdsOk, SessionsOk, ApplierOk, CanInstall;
  }

  /** The session is cleaned: its target owes nothing and its marker goes. */
  lemma FinishKeeps(w: World, s: SessionId)
    requires Inv(w) && w.applier.Finishing? && !w.applier.bad && s == w.applier.session
    ensures Inv(SweepReply(w, true, true))
  {
    var v := SweepReply(w, true, true);
    hide LocalOk, Placed, CanInstall, Unrecorded, OneAlive, OneAttached, DocumentsOk;
    forall r | r in v.sessions
      ensures LocalOk(v.sessions[r]) && Placed(v, v.sessions[r]) && !Unrecorded(w.sessions[r])
    {
      FinishPlaces(w, s, r);
    }
    StillOne(w, v);
    StillAccounted(w, v);
  }

  lemma SweepReplyKeeps(w: World, ok: bool, inTime: bool)
    requires Inv(w)
    ensures Inv(SweepReply(w, ok, inTime))
  {
    var v := SweepReply(w, ok, inTime);
    match w.applier
    case Removing(s, op, todo, failed) =>
      var x := w.sessions[s];
      var reply := Outcome(x, op, inTime);
      About(w, s);
      if reply.Some? && reply.value.Success? { assert !CanInstall(x); }
      hide SessionsOk, LocalOk, Placed, IdsOk, OneAlive, OneAttached, DocumentsOk, CanInstall, RemovalOk;
      if reply.Some? || !inTime {
        ScrubKeeps(w, s, !(reply.Some? && reply.value.Success?), todo, failed);
      }
    case Scrubbing(s, op, bad, todo, failed) =>
      hide SessionsOk, LocalOk, Placed, IdsOk, OneAlive, OneAttached, DocumentsOk, CanInstall;
      ApplierMoves(w, v);
    case Finishing(s, bad, todo, failed) =>
      if !bad && ok {
        FinishKeeps(w, s);
      } else {
        hide SessionsOk, LocalOk, Placed, IdsOk, OneAlive, OneAttached, DocumentsOk, CanInstall;
        ApplierMoves(w, v);
      }
    case _ =>
  }

  // ---- Connections ----

  lemma ClosedOk(w: World, v: World, x: Session)
    requires LocalOk(x) && Placed(w, x) && x.worker.Idle? && w.applier.Off?
    requires v.live == w.live && v.nextTarget == w.nextTarget && v.applier == w.applier && v.carrying == w.carrying
    ensures var y := Forgotten(Dropped(x));
      && LocalOk(y) && Placed(v, y) && !Unrecorded(x)
      && y.target == x.target && !y.alive && !y.delivery.Attached?
  {}

  predicate CanClose(w: World) {
    w.applier.Off? && forall s :: s in w.sessions ==> w.sessions[s].worker.Idle?
  }

  lemma ClosedAll(w: World)
    requires SessionsOk(w) && CanClose(w)
    ensures var v := Close(w);
      && v == w.(connection := Closed, telemetry := false, sessions := v.sessions)
      && v.sessions.Keys == w.sessions.Keys
      && forall s :: s in w.sessions ==>
           && LocalOk(v.sessions[s]) && Placed(v, v.sessions[s]) && !Unrecorded(w.sessions[s])
           && v.sessions[s].target == w.sessions[s].target && !v.sessions[s].alive && !v.sessions[s].delivery.Attached?
  {
    hide LocalOk, Unrecorded, Forgotten, Dropped, Placed;
    forall s | s in w.sessions
      ensures LocalOk(Close(w).sessions[s]) && Placed(Close(w), Close(w).sessions[s]) && !Unrecorded(w.sessions[s])
      ensures Close(w).sessions[s].target == w.sessions[s].target
      ensures !Close(w).sessions[s].alive && !Close(w).sessions[s].delivery.Attached?
    {
      ClosedOk(w, Close(w), w.sessions[s]);
    }
  }

  lemma CloseKeeps(w: World)
    requires Inv(w)
    ensures Inv(Close(w))
  {
    var v := Close(w);
    if CanClose(w) {
      ClosedAll(w);
      hide Close, CanClose, LocalOk, Placed, Unrecorded, CanInstall, OneAlive, OneAttached, DocumentsOk;
      StillOne(w, v);
      StillAccounted(w, v);
    }
  }

  lemma AskTargetsKeeps(w: World)
    requires Inv(w)
    ensures Inv(AskTargets(w))
  {
    hide LocalOk, CanInstall, HeardClean, Unrecorded, PendingInjection, DocumentsOk, OneAlive, OneAttached, ApplierOk;
    var v := AskTargets(w);
    StillOne(w, v);
    StillAccounted(w, v);
    forall s | s in w.sessions ensures SameReplies(w.sessions[s], v.sessions[s]) { SameItself(w.sessions[s]); }
    StillApplying(w, v);
  }

  lemma OpenKeeps(w: World, enabled: bool)
    requires Inv(w)
    ensures Inv(Open(w, enabled))
  {
    if w.connection.Pruning? {
      var v := Open(w, enabled);
      forall s | s in v.sessions
        ensures LocalOk(v.sessions[s]) && Placed(v, v.sessions[s]) && !Unrecorded(w.sessions[s])
      {
        About(w, s);
      }
      hide LocalOk, Placed, Unrecorded, CanInstall;
      StillOne(w, v);
      StillAccounted(w, v);
    }
  }

  /** Every step of the browser, of the monitor and of its connections keeps the invariant,
      except a harmful discharge. */
  lemma StepKeeps(w: World, e: Event, guarded: bool)
    requires Inv(w) && (guarded || !Harms(w, e))
    ensures Inv(Step(w, e, guarded))
  {
    hide Inv, Harms;
    match e
    case EvNewTarget => NewTargetKeeps(w);
    case EvDestroyTarget(t) => DestroyTargetKeeps(w, t);
    case EvNewSession(t) => NewSessionKeeps(w, t);
    case EvDropSession(s) => DropSessionKeeps(w, s);
    case EvNewDocument(s) => NewDocumentKeeps(w, s);
    case EvHandle(s, verdict) => HandleKeeps(w, s, verdict);
    case EvAttached(s) => DeliverAttachedKeeps(w, s);
    case EvDetached(s) => DeliverDetachedKeeps(w, s);
    case EvDestroyed(t) => DeliverDestroyedKeeps(w, t);
    case EvWorker(s, ok, inTime) => if s in w.sessions { WorkerKeeps(w, s, ok, inTime, guarded); }
    case EvBeginApply => BeginApplyKeeps(w);
    case EvSweepOne(s) => SweepOneKeeps(w, s);
    case EvSweepReply(ok, inTime) => SweepReplyKeeps(w, ok, inTime);
    case EvEndSweep => EndSweepKeeps(w);
    case EvDecide(enable) => DecideKeeps(w, enable);
    case EvCancel => CancelKeeps(w);
    case EvClose => CloseKeeps(w);
    case EvAskTargets => AskTargetsKeeps(w);
    case EvOpen(enabled) => OpenKeeps(w, enabled);
  }
}
