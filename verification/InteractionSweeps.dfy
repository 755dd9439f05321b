/**
  That obligations also go away: what opening a connection keeps of them, where an owed target
  on an open connection can come from, and that a sweep with nothing in its way finishes clean.
*/
module InteractionSweeps {
  import opened Collections
  import opened InteractionCleanup
  import opened InteractionProof
  import opened InteractionRuns

  // ---- Opening a connection ----

  /** The new browser is asked for all its targets; opening then keeps exactly the obligations
      of targets it reported, and captures exactly if asked to. */
  lemma OpeningPrunes(w: World, enabled: bool, t: Target)
    ensures w.connection.Closed? ==> AskTargets(w).connection == Pruning(w.live)
    ensures w.connection.Pruning? ==>
      var v := Open(w, enabled);
      && v.connection.Up? && v.telemetry == enabled
      && (t in v.obligations <==> t in w.obligations && t in w.connection.snapshot)
  {}

  /** An announced injection of the target ends in the step from w to v, and its target was
      not reported gone. */
  predicate RecordsInjection(w: World, v: World, t: Target) {
    exists s :: s in w.sessions && w.sessions[s].target == t && PendingInjection(w.sessions[s])
      && s in v.sessions && !v.sessions[s].worker.Injecting?
  }

  lemma WorkerObliges(w: World, s: SessionId, ok: bool, inTime: bool, guarded: bool, t: Target)
    requires s in w.sessions && t !in w.obligations && t in WorkerStep(w, s, ok, inTime, guarded).obligations
    ensures RecordsInjection(w, WorkerStep(w, s, ok, inTime, guarded), t)
  {
    hide Outcome, Sent, WriteLocked;
    assert w.sessions[s].worker.Injecting?;
    var v := WorkerStep(w, s, ok, inTime, guarded);
    assert s in v.sessions && !v.sessions[s].worker.Injecting?;
    hide WorkerStep;
  }

  /** Nothing but the end of an announced injection makes a target owed. */
  lemma OnlyInjectionsOblige(w: World, v: World, t: Target, guarded: bool)
    requires Follows(w, v, guarded) && t !in w.obligations && t in v.obligations
    ensures RecordsInjection(w, v, t)
  {
    var e :| v == Step(w, e, guarded);
    if e.EvWorker? && e.session in w.sessions {
      hide WorkerStep;
      WorkerObliges(w, e.session, e.ok, e.inTime, guarded, t);
    } else {
      hide WorkerStep, Outcome, Sent, RecordsInjection;
    }
  }

  /** The connection opened in the step from m is open in every state up to n. */
  ghost predicate OpenSince(run: seq<World>, m: nat, n: nat) {
    && m < n < |run| && run[m].connection.Pruning?
    && forall k :: m < k <= n ==> !Down(run[k])
  }

  /** On an open connection every owed target was among those the browser reported when it was
      opened, or an injection of it has ended since. */
  lemma {:induction false} OwedWasReported(run: seq<World>, guarded: bool, m: nat, n: nat, t: Target)
    requires IsRun(run, guarded) && OpenSince(run, m, n) && t in run[n].obligations
    ensures t in run[m].connection.snapshot || exists k: nat :: m < k < n && RecordsInjection(run[k], run[k + 1], t)
    decreases n
  {
    hide Step, RecordsInjection;
    assert Follows(run[n - 1], run[n], guarded);
    if n == m + 1 {
      OpensOnlyByOpening(run[m], run[n], guarded, t);
    } else if t in run[n - 1].obligations {
      OwedWasReported(run, guarded, m, n - 1, t);
    } else {
      var k: nat := n - 1;
      OnlyInjectionsOblige(run[k], run[k + 1], t, guarded);
    }
  }

  lemma OpensOnlyByOpening(w: World, v: World, guarded: bool, t: Target)
    requires Follows(w, v, guarded) && w.connection.Pruning? && !Down(v) && t in v.obligations
    ensures t in w.connection.snapshot
  {
    var e :| v == Step(w, e, guarded);
    if e.EvWorker? && e.session in w.sessions {
      StaysDown(w, e.session, e.ok, e.inTime, guarded);
      hide WorkerStep;
    } else {
      hide WorkerStep, Outcome, Sent;
    }
  }

  lemma StaysDown(w: World, s: SessionId, ok: bool, inTime: bool, guarded: bool)
    requires s in w.sessions && w.connection.Pruning?
    ensures WorkerStep(w, s, ok, inTime, guarded).connection == w.connection
  {
    hide Outcome, Sent, WriteLocked;
  }

  // ---- A sweep that finishes clean ----

  /** The sessions the sweep has still to clean, the current one included. */
  function Planned(a: Applier): set<SessionId> {
    match a
    case Sweeping(todo, _) => todo
    case Removing(s, _, todo, _) => todo + {s}
    case Scrubbing(s, _, _, todo, _) => todo + {s}
    case Finishing(s, _, todo, _) => todo + {s}
    case _ => {}
  }

  /** The sweep is under way and nothing it tried has failed. */
  predicate GoesWell(a: Applier) {
    Sweeps(a) && !a.failed && (a.Scrubbing? || a.Finishing? ==> !a.bad)
  }

  /** Every owed target has a session that is still to be cleaned. */
  ghost predicate OwedIsPlanned(w: World) {
    forall t :: t in w.obligations ==>
      exists s :: s in Planned(w.applier) && s in w.sessions && w.sessions[s].target == t
  }

  predicate PlannedAttached(w: World) {
    forall s :: s in Planned(w.applier) ==> s in w.sessions && w.sessions[s].delivery.Attached?
  }

  /** Sessions stay those of their targets. */
  predicate KeepsTargets(w: World, v: World) {
    forall s :: s in w.sessions ==> s in v.sessions && v.sessions[s].target == w.sessions[s].target
  }

  lemma PlanStays(w: World, v: World)
    requires OwedIsPlanned(w) && KeepsTargets(w, v) && v.obligations <= w.obligations
    requires Planned(w.applier) <= Planned(v.applier)
    ensures OwedIsPlanned(v)
  {
    forall t | t in v.obligations
      ensures exists s :: s in Planned(v.applier) && s in v.sessions && v.sessions[s].target == t
    {
      var s :| s in Planned(w.applier) && s in w.sessions && w.sessions[s].target == t;
      assert s in Planned(v.applier) && s in v.sessions;
    }
  }

  /** What is not the sweep itself neither obliges nor moves it. */
  lemma OutsideSweep(w: World, e: Event, guarded: bool)
    requires WriteLocked(w) && NoneHoldsLock(w)
    requires !e.EvSweepOne? && !e.EvSweepReply? && !e.EvEndSweep? && !e.EvDecide?
    requires e.EvNewSession? ==> w.nextSession !in w.sessions
    ensures var v := Step(w, e, guarded);
      KeepsTargets(w, v) && v.obligations <= w.obligations && v.applier == w.applier
  {
    if e.EvWorker? && e.session in w.sessions {
      IdleWorker(w, e.session, e.ok, e.inTime, guarded);
      hide WorkerStep;
    } else {
      hide WorkerStep, Outcome, Sent;
    }
  }

  lemma IdleWorker(w: World, s: SessionId, ok: bool, inTime: bool, guarded: bool)
    requires WriteLocked(w) && s in w.sessions && !HoldsLock(w.sessions[s].worker)
    ensures var v := WorkerStep(w, s, ok, inTime, guarded);
      KeepsTargets(w, v) && v.obligations == w.obligations && v.applier == w.applier
  {
    hide Outcome, Sent;
  }

  lemma ScrubPlans(w: World, s: SessionId, bad: bool, todo: set<SessionId>, failed: bool)
    requires s in w.sessions
    ensures var v := Scrub(w, s, bad, todo, failed);
      KeepsTargets(w, v) && v.obligations == w.obligations && Planned(v.applier) == todo + {s}
  {
    hide Outcome;
  }

  lemma SweepPlans(w: World, e: Event)
    requires (e.EvSweepOne? || e.EvSweepReply?) && GoesWell(w.applier) && PlannedAttached(w)
    requires OwedIsPlanned(w) && GoesWell(Step(w, e, true).applier)
    ensures OwedIsPlanned(Step(w, e, true))
  {
    var v := Step(w, e, true);
    if e.EvSweepOne? {
      if w.applier.Sweeping? && e.session in w.applier.todo && e.session in w.sessions {
        ScrubPlans(w, e.session, false, w.applier.todo - {e.session}, false);
        hide Scrub, Sent;
        PlanStays(w, v);
      }
    } else if w.applier.Removing? {
      var s := w.applier.session;
      var reply := Outcome(w.sessions[s], w.applier.op, e.inTime);
      ScrubPlans(w, s, !(reply.Some? && reply.value.Success?), w.applier.todo, false);
      hide Scrub, Outcome;
      PlanStays(w, v);
    } else if w.applier.Scrubbing? {
      hide Outcome;
      PlanStays(w, v);
    } else if w.applier.Finishing? {
      FinishPlans(w, e.ok, e.inTime);
    }
  }

  /** A session that is cleaned takes its target off the list of owed ones. */
  lemma FinishPlans(w: World, ok: bool, inTime: bool)
    requires w.applier.Finishing? && GoesWell(w.applier) && PlannedAttached(w) && OwedIsPlanned(w)
    requires GoesWell(SweepReply(w, ok, inTime).applier)
    ensures OwedIsPlanned(SweepReply(w, ok, inTime))
  {
    var v, s := SweepReply(w, ok, inTime), w.applier.session;
    forall t | t in v.obligations
      ensures exists r :: r in Planned(v.applier) && r in v.sessions && v.sessions[r].target == t
    {
      var r :| r in Planned(w.applier) && r in w.sessions && w.sessions[r].target == t;
      assert r != s && r in v.sessions;
    }
  }

  lemma StepPlans(w: World, v: World, guarded: bool)
    requires Follows(w, v, guarded) && LockOk(w) && IdsBelow(w)
    requires GoesWell(w.applier) && GoesWell(v.applier) && PlannedAttached(w) && OwedIsPlanned(w)
    ensures OwedIsPlanned(v)
  {
    var e :| v == Step(w, e, guarded);
    hide LockOk, OwedIsPlanned, PlannedAttached;
    assert NoneHoldsLock(w) && WriteLocked(w) by { Locked(w); }
    if e.EvSweepOne? || e.EvSweepReply? {
      SweepPlans(w, e);
    } else if e.EvEndSweep? || e.EvDecide? {
      assert v == w by { NotEnded(w, e, guarded); }
    } else {
      OutsideSweep(w, e, guarded);
      hide Step, KeepsTargets;
      PlanStays(w, v);
    }
  }

  lemma Locked(w: World)
    requires LockOk(w) && Sweeps(w.applier)
    ensures NoneHoldsLock(w) && WriteLocked(w)
  {}

  lemma NotEnded(w: World, e: Event, guarded: bool)
    requires e.EvEndSweep? || e.EvDecide?
    requires Sweeps(w.applier) && Sweeps(Step(w, e, guarded).applier)
    ensures Step(w, e, guarded) == w
  {}

  predicate IdsBelow(w: World) {
    forall s :: s in w.sessions ==> s < w.nextSession
  }

  lemma WorkerIds(w: World, s: SessionId, ok: bool, inTime: bool, guarded: bool)
    requires IdsBelow(w) && s in w.sessions
    ensures IdsBelow(WorkerStep(w, s, ok, inTime, guarded))
  {
    hide Outcome, Sent, WriteLocked;
  }

  predicate OldSessions(w: World, v: World) {
    v.sessions.Keys == w.sessions.Keys && v.nextSession == w.nextSession
  }

  lemma QuietIds(w: World, e: Event)
    requires !e.EvNewSession? && !e.EvWorker? && !e.EvHandle? && !e.EvSweepOne? && !e.EvSweepReply?
    ensures OldSessions(w, Step(w, e, true))
  {
    hide Dropped, Forgotten, MarkDestroyed;
  }

  lemma ReplyIds(w: World, e: Event)
    requires e.EvHandle? || e.EvSweepOne? || e.EvSweepReply?
    ensures OldSessions(w, Step(w, e, true))
  {
    hide Outcome, Sent, Handled;
  }

  lemma NewSessionIds(w: World, t: Target)
    requires IdsBelow(w)
    ensures IdsBelow(NewSession(w, t))
  {}

  lemma StepIds(w: World, v: World, guarded: bool)
    requires Follows(w, v, guarded) && IdsBelow(w)
    ensures IdsBelow(v)
  {
    var e :| v == Step(w, e, guarded);
    if e.EvWorker? {
      hide WorkerStep;
      if e.session in w.sessions { WorkerIds(w, e.session, e.ok, e.inTime, guarded); }
    } else {
      assert v == Step(w, e, true);
      if e.EvNewSession? {
        hide NewSession;
        NewSessionIds(w, e.target);
      } else {
        hide Step;
        if e.EvHandle? || e.EvSweepOne? || e.EvSweepReply? { ReplyIds(w, e); } else { QuietIds(w, e); }
      }
    }
  }

  lemma {:induction false} RunIds(run: seq<World>, guarded: bool, n: nat)
    requires IsRun(run, guarded) && n < |run|
    ensures IdsBelow(run[n])
  {
    if n > 0 {
      hide IdsBelow, Step;
      RunIds(run, guarded, n - 1);
      StepIds(run[n - 1], run[n], guarded);
    }
  }

  /** From m to n a sweep goes well, and no session it has still to clean detaches. */
  ghost predicate SweepsWell(run: seq<World>, m: nat, n: nat) {
    m <= n < |run| && forall k :: m <= k <= n ==> GoesWell(run[k].applier) && PlannedAttached(run[k])
  }

  lemma {:induction false} PlanLasts(run: seq<World>, guarded: bool, m: nat, n: nat)
    requires IsRun(run, guarded) && SweepsWell(run, m, n) && OwedIsPlanned(run[m])
    ensures OwedIsPlanned(run[n])
    decreases n - m
  {
    hide Follows, LockOk, IdsBelow, OwedIsPlanned, GoesWell, PlannedAttached;
    if m < n {
      var w, v := run[n - 1], run[n];
      assert Follows(w, v, guarded) && GoesWell(w.applier) && GoesWell(v.applier) && PlannedAttached(w);
      PlanLasts(run, guarded, m, n - 1);
      hide SweepsWell;
      RunLocks(run, n - 1, guarded);
      RunIds(run, guarded, n - 1);
      hide IsRun;
      StepPlans(w, v, guarded);
    }
  }

  /** Applying a revision sweeps every session that was injected, on a working connection. */
  lemma ApplyingSweeps(w: World)
    requires w.applier.Off? && NoneHoldsLock(w) && w.connection.Up?
    ensures var v := BeginApply(w);
      && v.applier.Sweeping? && !v.applier.failed && !v.telemetry && v.obligations == w.obligations
      && v.sessions == w.sessions
      && forall s :: s in v.applier.todo <==> s in w.sessions && w.sessions[s].marker.Marked?
  {}

  /** A sweep that goes well to its end, begun when every owed target had an injected session,
      leaves nothing owed and is about to store its revision as cleaned; storing an enabled
      revision switches capture on again. */
  lemma CleanSweepDecides(run: seq<World>, guarded: bool, m: nat, n: nat)
    requires IsRun(run, guarded) && m < n && SweepsWell(run, m + 1, n) && run[m + 1] == BeginApply(run[m])
    requires run[m].applier.Off? && NoneHoldsLock(run[m]) && run[m].connection.Up?
    requires forall t :: t in run[m].obligations ==>
      exists s :: s in run[m].sessions && run[m].sessions[s].target == t && run[m].sessions[s].marker.Marked?
    requires run[n].applier == Sweeping({}, false)
    ensures run[n].obligations == {}
    ensures var v := Step(run[n], EvEndSweep, guarded);
      && v.applier == Deciding(true) && v.obligations == {}
      && (forall s :: s in v.sessions ==> v.sessions[s].marker.Unmarked?)
      && forall enable :: Decide(v, enable).applier.Off? && Decide(v, enable).telemetry == (enable && v.connection.Up?)
  {
    ApplyingSweeps(run[m]);
    assert OwedIsPlanned(run[m + 1]) by {
      var w, v := run[m], run[m + 1];
      hide IsRun, SweepsWell;
      forall t | t in v.obligations
        ensures exists s :: s in Planned(v.applier) && s in v.sessions && v.sessions[s].target == t
      {
        var s :| s in w.sessions && w.sessions[s].target == t && w.sessions[s].marker.Marked?;
        assert s in Planned(v.applier) && s in v.sessions;
      }
    }
    hide BeginApply;
    PlanLasts(run, guarded, m + 1, n);
    hide IsRun, SweepsWell;
  }
}
