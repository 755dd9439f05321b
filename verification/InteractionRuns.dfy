/**
  Whole runs of the source: every exposed target is accounted for in all states of a run
  exactly when no worker harmfully discharges a target for a session that has left.
*/
module InteractionRuns {
  import opened Collections
  import opened InteractionCleanup
  import opened InteractionProof

  ghost predicate Follows(w: World, v: World, guarded: bool) {
    exists e :: v == Step(w, e, guarded)
  }

  ghost predicate IsRun(run: seq<World>, guarded: bool) {
    run != [] && run[0] == INITIAL && forall i :: 0 < i < |run| ==> Follows(run[i - 1], run[i], guarded)
  }

  ghost predicate Reachable(w: World, guarded: bool) {
    exists run :: IsRun(run, guarded) && run[|run| - 1] == w
  }

  /** Somewhere in the run a session that had left discharged a target exposed again. */
  ghost predicate Harmed(run: seq<World>) {
    exists i: nat, e :: i + 1 < |run| && Harms(run[i], e) && run[i + 1] == Step(run[i], e, false)
  }

  lemma NextKeeps(run: seq<World>, guarded: bool, n: nat)
    requires IsRun(run, guarded) && (guarded || !Harmed(run)) && n + 1 < |run| && Inv(run[n])
    ensures Inv(run[n + 1])
  {
    hide Inv, Step, Harms;
    assert Follows(run[n + 1 - 1], run[n + 1], guarded);
    var e :| run[n + 1] == Step(run[n], e, guarded);
    assert guarded || !Harms(run[n], e);
    StepKeeps(run[n], e, guarded);
  }

  lemma {:induction false} RunKeeps(run: seq<World>, guarded: bool, n: nat)
    requires IsRun(run, guarded) && (guarded || !Harmed(run)) && n < |run|
    ensures Inv(run[n])
  {
    if n == 0 {
    } else {
      hide Inv, Harmed, Follows;
      RunKeeps(run, guarded, n - 1);
      NextKeeps(run, guarded, n - 1);
    }
  }

  lemma RunOwes(run: seq<World>, guarded: bool, n: nat)
    requires IsRun(run, guarded) && (guarded || !Harmed(run)) && n < |run|
    ensures Owed(run[n]) && Safe(run[n])
  {
    RunKeeps(run, guarded, n);
    hide IsRun, Harmed;
    InvIsOwed(run[n]);
    OwedIsSafe(run[n]);
  }

  /** A harmful discharge leaves an exposed target unaccounted for at once; and uncovered, if
      no injection is in flight. */
  lemma HarmIsSeen(w: World, e: Event)
    requires Harms(w, e)
    ensures !Owed(Step(w, e, false))
    ensures (forall s :: s in w.sessions && w.sessions[s].target == w.sessions[e.session].target ==>
               !PendingInjection(w.sessions[s])) ==> !Safe(Step(w, e, false))
  {
    var v, t := Step(w, e, false), w.sessions[e.session].target;
    if t !in w.carrying {
      var r :| r in w.sessions && w.sessions[r].target == t && CanInstall(w.sessions[r])
        && !PendingInjection(w.sessions[r]);
      assert CanInstall(v.sessions[r]) && !PendingInjection(v.sessions[r]);
    }
    assert Exposed(v, t) && MayCarry(v, t);
    assert !Injected(v, t);
    hide CanInstall;
  }

  /** In a run of the source every exposed target is accounted for in every state exactly
      when none of its steps is a harmful discharge. */
  lemma OwedIff(run: seq<World>)
    requires IsRun(run, false)
    ensures (forall n :: 0 <= n < |run| ==> Owed(run[n])) <==> !Harmed(run)
  {
    if Harmed(run) {
      var i: nat, e :| i + 1 < |run| && Harms(run[i], e) && run[i + 1] == Step(run[i], e, false);
      HarmIsSeen(run[i], e);
    } else {
      hide Owed, IsRun, Harmed;
      forall n | 0 <= n < |run| ensures Owed(run[n]) { RunOwes(run, false, n); }
    }
  }

  /** A disabled revision is marked applied on a working connection only when nothing is left. */
  lemma AppliedOnlyWhenClean(run: seq<World>, guarded: bool)
    requires IsRun(run, guarded) && (guarded || !Harmed(run)) && run[|run| - 1].applier == Deciding(true)
    ensures var w := run[|run| - 1];
      && w.obligations == {}
      && (forall t :: t in w.live ==> !MayCarry(w, t))
      && (forall s :: s in w.sessions ==> !PendingInjection(w.sessions[s]) && w.sessions[s].scripts == {})
  {
    var w := run[|run| - 1];
    RunKeeps(run, guarded, |run| - 1);
    hide IsRun, Harmed;
    InvIsOwed(w);
    OwedIsSafe(w);
    forall s | s in w.sessions ensures !PendingInjection(w.sessions[s]) && w.sessions[s].scripts == {} {
      About(w, s);
    }
  }

  // ---- What a stored revision means ----

  /** The applier's lock keeps obligations as they are. */
  predicate LockOk(w: World) {
    && (WriteLocked(w) ==> NoneHoldsLock(w))
    && (w.applier == Deciding(true) ==> w.obligations == {})
    && (Down(w) ==> w.applier.Off?)
  }

  /** A step of the browser or an event: no worker takes the lock and the applier stays. */
  lemma QuietLocks(w: World, v: World)
    requires LockOk(w) && v.applier == w.applier && v.connection == w.connection && v.obligations <= w.obligations
    requires forall s :: s in v.sessions ==>
      !HoldsLock(v.sessions[s].worker) || (s in w.sessions && HoldsLock(w.sessions[s].worker))
    ensures LockOk(v)
  {}

  lemma CancelFrame(w: World)
    ensures Cancel(w).applier == w.applier && Down(Cancel(w)) == Down(w)
  {}

  lemma InjectingFrame(w: World, s: SessionId, ok: bool, inTime: bool, guarded: bool)
    requires s in w.sessions && w.sessions[s].worker.Injecting?
    ensures var v := WorkerStep(w, s, ok, inTime, guarded); v.applier == w.applier && Down(v) == Down(w)
  {
    hide Outcome;
  }

  lemma WorkerFrame(w: World, s: SessionId, ok: bool, inTime: bool, guarded: bool)
    requires s in w.sessions
    ensures var v := WorkerStep(w, s, ok, inTime, guarded); v.applier == w.applier && Down(v) == Down(w)
  {
    if w.sessions[s].worker.Injecting? {
      InjectingFrame(w, s, ok, inTime, guarded);
    } else {
      hide Outcome, Sent, WriteLocked, Cancel;
      CancelFrame(StopWorker(w, s));
    }
  }

  /** While something is being applied, a worker without the lock stays without it. */
  lemma WorkerOutside(w: World, s: SessionId, ok: bool, inTime: bool, guarded: bool)
    requires s in w.sessions && WriteLocked(w) && !HoldsLock(w.sessions[s].worker)
    ensures var v := WorkerStep(w, s, ok, inTime, guarded);
      && v.obligations == w.obligations && v.sessions.Keys == w.sessions.Keys && !HoldsLock(v.sessions[s].worker)
      && forall r :: r in w.sessions && r != s ==> v.sessions[r] == w.sessions[r]
  {}

  lemma WorkerLocks(w: World, s: SessionId, ok: bool, inTime: bool, guarded: bool)
    requires LockOk(w) && s in w.sessions
    ensures LockOk(WorkerStep(w, s, ok, inTime, guarded))
  {
    hide WorkerStep, HoldsLock;
    WorkerFrame(w, s, ok, inTime, guarded);
    if WriteLocked(w) { WorkerOutside(w, s, ok, inTime, guarded); }
  }

  lemma BrowserLocks(w: World, e: Event)
    requires LockOk(w)
    requires e.EvNewTarget? || e.EvDestroyTarget? || e.EvNewSession? || e.EvDropSession? || e.EvNewDocument?
    ensures LockOk(Step(w, e, true))
  {
    QuietLocks(w, Step(w, e, true));
  }

  lemma HandleLocks(w: World, s: SessionId, verdict: Reply)
    requires LockOk(w)
    ensures LockOk(Handle(w, s, verdict))
  {
    if s in w.sessions && w.sessions[s].alive && w.sessions[s].queue != [] {
      HandleFrame(w, s, verdict);
      hide Handle, Handled;
      QuietLocks(w, Handle(w, s, verdict));
    }
  }

  lemma EventLocks(w: World, e: Event)
    requires LockOk(w) && (e.EvAttached? || e.EvDetached? || e.EvDestroyed? || e.EvCancel?)
    ensures LockOk(Step(w, e, true))
  {
    if !e.EvCancel? { QuietLocks(w, Step(w, e, true)); }
  }

  lemma SweepLocks(w: World, ok: bool, inTime: bool)
    requires LockOk(w)
    ensures LockOk(SweepReply(w, ok, inTime))
  {
    hide Outcome;
  }

  lemma SweepOneLocks(w: World, s: SessionId)
    requires LockOk(w)
    ensures LockOk(SweepOne(w, s))
  {}

  lemma ApplierLocks(w: World, e: Event)
    requires LockOk(w) && (e.EvBeginApply? || e.EvSweepOne? || e.EvSweepReply? || e.EvEndSweep? || e.EvDecide?)
    ensures LockOk(Step(w, e, true))
  {
    match e
    case EvSweepReply(ok, inTime) =>
      hide LockOk;
      SweepLocks(w, ok, inTime);
    case EvSweepOne(s) =>
      hide LockOk;
      SweepOneLocks(w, s);
    case _ =>
  }

  lemma ConnectionLocks(w: World, e: Event)
    requires LockOk(w) && (e.EvClose? || e.EvAskTargets? || e.EvOpen?)
    ensures LockOk(Step(w, e, true))
  {}

  lemma LockStep(w: World, e: Event, guarded: bool)
    requires LockOk(w)
    ensures LockOk(Step(w, e, guarded))
  {
    hide LockOk;
    match e
    case EvHandle(s, verdict) => HandleLocks(w, s, verdict);
    case EvWorker(s, ok, inTime) => if s in w.sessions { WorkerLocks(w, s, ok, inTime, guarded); }
    case _ => OtherLocks(w, e, guarded);
  }

  lemma OtherLocks(w: World, e: Event, guarded: bool)
    requires LockOk(w) && !e.EvHandle? && !e.EvWorker?
    ensures LockOk(Step(w, e, guarded))
  {
    assert Step(w, e, guarded) == Step(w, e, true);
    hide LockOk, Step;
    if e.EvNewTarget? || e.EvDestroyTarget? || e.EvNewSession? || e.EvDropSession? || e.EvNewDocument? {
      BrowserLocks(w, e);
    } else if e.EvAttached? || e.EvDetached? || e.EvDestroyed? || e.EvCancel? {
      EventLocks(w, e);
    } else if e.EvClose? || e.EvAskTargets? || e.EvOpen? {
      ConnectionLocks(w, e);
    } else {
      ApplierLocks(w, e);
    }
  }

  lemma {:induction false} RunLocks(run: seq<World>, n: nat, guarded: bool)
    requires IsRun(run, guarded) && n < |run|
    ensures LockOk(run[n])
  {
    if n == 0 {
      assert LockOk(INITIAL);
    } else {
      hide Step, LockOk;
      RunLocks(run, n - 1, guarded);
      assert Follows(run[n - 1], run[n], guarded);
      var e :| run[n] == Step(run[n - 1], e, guarded);
      LockStep(run[n - 1], e, guarded);
    }
  }

  /** A revision is stored after a sweep of a working connection only when no obligation
      remains, with or without the look. */
  lemma AppliedWithoutObligations(run: seq<World>, guarded: bool)
    requires IsRun(run, guarded) && run[|run| - 1].applier == Deciding(true)
    ensures run[|run| - 1].obligations == {}
  {
    RunLocks(run, |run| - 1, guarded);
  }

  /** Whatever was discharged before: what a stored revision promises, that no live document
      may still carry the listeners, holds exactly when every exposed target is accounted for. */
  lemma StoredMeansCleanIffOwed(run: seq<World>, guarded: bool)
    requires IsRun(run, guarded) && run[|run| - 1].applier == Deciding(true)
    ensures var w := run[|run| - 1]; (forall t :: t in w.live ==> !MayCarry(w, t)) <==> Owed(w)
  {
    var w := run[|run| - 1];
    RunLocks(run, |run| - 1, guarded);
    hide IsRun, CanInstall;
    assert forall s :: s in w.sessions ==> !PendingInjection(w.sessions[s]);
    assert forall t :: !Accounted(w, t);
    assert forall t :: MayCarry(w, t) == Exposed(w, t);
  }
}
