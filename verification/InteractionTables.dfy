/**
  The monitor's own tables of obligations and injections, and the sections of code that change
  them (server/lib/cdpmonitor: domains.go, interaction_cleanup.go, monitor.go).
*/
module InteractionTables {
  import opened Collections
  import opened InteractionCleanup

  datatype Injection = Injection(target: Target, destroyed: bool)

  /** What the monitor's tables hold in a world. */
  ghost predicate Tables(targets: set<Target>, pending: set<SessionId>, injections: map<SessionId, Injection>, w: World)
  {
    && targets == w.obligations
    && (forall s :: s in injections <==> s in w.sessions && w.sessions[s].worker.Injecting?)
    && (forall s :: s in injections ==>
          injections[s] == Injection(w.sessions[s].target, w.sessions[s].worker.destroyed))
    && (forall s :: s in pending <==> s in w.sessions && PendingInjection(w.sessions[s]))
  }

  /** Workers' steps seen from the tables. */
  lemma BeginShape(w: World, s: SessionId, ok: bool, inTime: bool, guarded: bool)
    requires s in w.sessions && w.sessions[s].worker.Registering? && ok
    ensures var v, x := WorkerStep(w, s, ok, inTime, guarded), w.sessions[s];
      && v.obligations == w.obligations && s in v.sessions && v.sessions == w.sessions[s := v.sessions[s]]
      && v.sessions[s].target == x.target
      && v.sessions[s].worker == Injecting(x.nextOp, x.delivery.Attached?, false)
  {}

  /** A worker that stops before it injects leaves the tables alone. */
  lemma StopTables(targets: set<Target>, pending: set<SessionId>, injections: map<SessionId, Injection>,
      w: World, s: SessionId, inTime: bool, guarded: bool)
    requires Tables(targets, pending, injections, w) && s in w.sessions && w.sessions[s].worker.Registering?
    ensures Tables(targets, pending, injections, WorkerStep(w, s, false, inTime, guarded))
  {
    var v := WorkerStep(w, s, false, inTime, guarded);
    assert v.obligations == w.obligations && v.sessions == w.sessions[s := w.sessions[s].(worker := Idle)];
    hide WorkerStep;
  }

  lemma EndTables(targets: set<Target>, pending: set<SessionId>, injections: map<SessionId, Injection>,
      w: World, v: World, s: SessionId, rejected: bool)
    requires Tables(targets, pending, injections, w) && s in w.sessions && s in v.sessions
    requires w.sessions[s].worker.Injecting? && !v.sessions[s].worker.Injecting?
    requires v.sessions == w.sessions[s := v.sessions[s]]
    requires v.obligations ==
      if PendingInjection(w.sessions[s]) && !rejected then w.obligations + {w.sessions[s].target} else w.obligations
    ensures Tables(v.obligations, pending - {s}, injections - {s}, v)
  {}

  lemma EndShape(w: World, s: SessionId, ok: bool, inTime: bool, guarded: bool)
    requires s in w.sessions && w.sessions[s].worker.Injecting?
    requires Outcome(w.sessions[s], w.sessions[s].worker.op, inTime).Some? || !inTime
    ensures var v, x := WorkerStep(w, s, ok, inTime, guarded), w.sessions[s];
      var reply := Outcome(x, x.worker.op, inTime);
      var rejected := reply.Some? && reply.value.Rejected?;
      && v.obligations == (if PendingInjection(x) && !rejected then w.obligations + {x.target} else w.obligations)
      && s in v.sessions && v.sessions == w.sessions[s := v.sessions[s]]
      && !v.sessions[s].worker.Injecting?
  {}

  lemma BeginTables(targets: set<Target>, pending: set<SessionId>, injections: map<SessionId, Injection>,
      w: World, v: World, s: SessionId)
    requires Tables(targets, pending, injections, w) && s in w.sessions && s in v.sessions
    requires w.sessions[s].worker.Registering? && v.sessions[s].worker.Injecting? && !v.sessions[s].worker.destroyed
    requires v.obligations == w.obligations && v.sessions == w.sessions[s := v.sessions[s]]
    ensures Tables(targets, if v.sessions[s].worker.counted then pending + {s} else pending,
                   injections[s := Injection(v.sessions[s].target, false)], v)
  {}

  lemma DestroyedTables(pending: set<SessionId>, injections: map<SessionId, Injection>,
      after: set<SessionId>, later: map<SessionId, Injection>, w: World, t: Target)
    requires Tables(w.obligations, pending, injections, w) && t < w.nextTarget && t !in w.live
    requires after <= pending && later.Keys == injections.Keys && pending <= injections.Keys
    requires forall s :: s in pending ==> (s in after <==> injections[s].target != t)
    requires forall s :: s in injections ==>
      later[s] == if s in pending && s !in after then Injection(t, true) else injections[s]
    ensures Tables(w.obligations - {t}, after, later, DeliverDestroyed(w, t))
  {}

  /** The monitor's interactionTargets, its pendingInjections, and the injections its workers
      still hold, which outlive their entry in pendingInjections. */
  class InteractionState {
    var interactionTargets: set<Target>
    var pendingInjections: set<SessionId>
    var injections: map<SessionId, Injection>

    ghost predicate Shows(w: World)
      reads this
    {
      Tables(interactionTargets, pendingInjections, injections, w)
    }

    constructor ()
      ensures Shows(INITIAL)
    {
      interactionTargets, pendingInjections, injections := {}, {}, map[];
    }

    /** injectScript up to its command; ok says that its context is still good. */
    method BeginInjection(s: SessionId, target: Target, attached: bool, ok: bool, ghost w: World,
        ghost inTime: bool, ghost guarded: bool)
      requires Shows(w) && s in w.sessions && w.sessions[s].worker.Registering?
      requires target == w.sessions[s].target && attached == w.sessions[s].delivery.Attached?
      modifies this
      ensures Shows(WorkerStep(w, s, ok, inTime, guarded))
    {
      if !ok {
        StopTables(interactionTargets, pendingInjections, injections, w, s, inTime, guarded);
        return;
      }
      BeginShape(w, s, ok, inTime, guarded);
      BeginTables(interactionTargets, pendingInjections, injections, w, WorkerStep(w, s, ok, inTime, guarded), s);
      hide WorkerStep, Tables;
      injections := injections[s := Injection(target, false)];
      if attached { pendingInjections := pendingInjections + {s}; }
    }

    /** The reply is in, or its deadline has passed. */
    method EndInjection(s: SessionId, attached: bool, rejected: bool, ghost w: World,
        ghost ok: bool, ghost inTime: bool, ghost guarded: bool)
      returns (destroyed: bool)
      requires Shows(w) && s in w.sessions && w.sessions[s].worker.Injecting?
      requires attached == w.sessions[s].worker.counted
      requires var reply := Outcome(w.sessions[s], w.sessions[s].worker.op, inTime);
        (reply.Some? || !inTime) && rejected == (reply.Some? && reply.value.Rejected?)
      modifies this
      ensures Shows(WorkerStep(w, s, ok, inTime, guarded))
      ensures destroyed == w.sessions[s].worker.destroyed
    {
      EndShape(w, s, ok, inTime, guarded);
      EndTables(interactionTargets, pendingInjections, injections,
        w, WorkerStep(w, s, ok, inTime, guarded), s, rejected);
      assert injections[s] == Injection(w.sessions[s].target, w.sessions[s].worker.destroyed);
      assert interactionTargets == w.obligations;
      hide WorkerStep, Outcome, Tables;
      var injection := injections[s];
      pendingInjections := pendingInjections - {s};
      injections := injections - {s};
      destroyed := injection.destroyed;
      if attached && !destroyed && !rejected {
        interactionTargets := interactionTargets + {injection.target};
      }
    }

    method TargetDestroyed(t: Target, ghost w: World)
      requires Shows(w) && t < w.nextTarget && t !in w.live
      modifies this
      ensures Shows(DeliverDestroyed(w, t))
    {
      assert interactionTargets == w.obligations && pendingInjections <= injections.Keys;
      hide Tables;
      interactionTargets := interactionTargets - {t};
      var todo := pendingInjections;
      while todo != {}
        invariant todo <= pendingInjections <= old(pendingInjections)
        invariant interactionTargets == old(interactionTargets) - {t}
        invariant injections.Keys == old(injections.Keys)
        invariant forall s :: s in old(pendingInjections) && s !in pendingInjections ==>
          old(injections)[s].target == t && injections[s] == Injection(t, true)
        invariant forall s :: s in injections && (s in pendingInjections || s !in old(pendingInjections)) ==>
          injections[s] == old(injections)[s]
        invariant forall s :: s in pendingInjections && s !in todo ==> injections[s].target != t
        decreases todo
      {
        var s :| s in todo;
        todo := todo - {s};
        if injections[s].target == t {
          injections := injections[s := injections[s].(destroyed := true)];
          pendingInjections := pendingInjections - {s};
        }
      }
      DestroyedTables(old(pendingInjections), old(injections), pendingInjections, injections, w, t);
    }

    /** cleanupAttachedTarget deletes its obligation without looking at the session again. */
    method Discharge(s: SessionId, target: Target, ghost w: World)
      requires Shows(w) && s in w.sessions && w.sessions[s].worker.Cleaned? && target == w.sessions[s].target
      modifies this
      ensures forall inTime :: Shows(WorkerStep(w, s, true, inTime, false))
    {
      interactionTargets := interactionTargets - {target};
    }

    method PruneInteractionTargets(live: set<Target>, ghost w: World)
      requires Shows(w) && w.connection == Pruning(live)
      modifies this
      ensures forall enabled :: Shows(Open(w, enabled))
    {
      var todo := interactionTargets;
      while todo != {}
        invariant todo <= interactionTargets <= old(interactionTargets)
        invariant pendingInjections == old(pendingInjections) && injections == old(injections)
        invariant forall t :: t in old(interactionTargets) && t !in todo ==> (t in interactionTargets <==> t in live)
        decreases todo
      {
        var t :| t in todo;
        todo := todo - {t};
        if t !in live { interactionTargets := interactionTargets - {t}; }
      }
      assert interactionTargets == old(interactionTargets) * live;
    }
  }
}
