/**
  Discharges by sessions that have left: a run of the source in which one does harm, what the
  look would have prevented, and why a harmful one needs a newer session.
*/
module StaleDischarges {
  import opened Collections
  import opened InteractionCleanup
  import opened InteractionProof
  import opened InteractionRuns

  lemma Extend(w: World, e: Event) returns (v: World)
    requires Reachable(w, false)
    ensures v == Step(w, e, false) && Reachable(v, false)
  {
    var run :| IsRun(run, false) && run[|run| - 1] == w;
    hide Step;
    v := Step(w, e, false);
    var longer := run + [v];
    assert Follows(w, v, false);
    forall i | 0 < i < |longer| ensures Follows(longer[i - 1], longer[i], false) {
      if i < |run| { assert Follows(run[i - 1], run[i], false); }
    }
    assert IsRun(longer, false);
  }

  // ---- What goes wrong without the look ----

  function Fresh(k: Worker): Session {
    Session(0, true, {}, [], map[], 0, Attached, Unmarked, false, k, false)
  }

  function Installing(op: nat, replies: map<nat, Reply>): Session {
    Session(0, true, {}, [AddTracker(op)], replies, op + 1, Attached, Marked(None), true, Injecting(op, true, false),
      false)
  }

  /** A session that installed the tracker and then left. */
  const LEFT := Session(0, false, {}, [], map[0 := Success(0)], 1, Detached, Unmarked, false, Recorded(0), false)

  /** A session that cleaned its target and left before its worker looked at the outcome. */
  const STALE := Session(0, false, {}, [], map[0 := Success(1)], 1, Detached, Unmarked, false, Cleaned, false)

  const CURRENT :=
    Session(0, true, {3}, [], map[0 := Success(2), 1 := Success(3)], 2, Attached, Marked(None), true, Recorded(3),
      false)

  function Only(sessions: map<SessionId, Session>, next: SessionId, script: Script, obligations: set<Target>): World {
    World({0}, 1, {}, sessions, next, script, obligations, true, Up, Off)
  }

  lemma FirstAttaches()
    ensures Reachable(Only(map[0 := Fresh(Locked)], 1, 0, {}), false)
  {
    assert IsRun([INITIAL], false);
    assert [INITIAL][|[INITIAL]| - 1] == INITIAL;
    var w := Extend(INITIAL, EvAskTargets);
    w := Extend(w, EvOpen(true));
    w := Extend(w, EvNewTarget);
    assert w == Only(map[], 0, 0, {});
    w := Extend(w, EvNewSession(0));
    w := Extend(w, EvAttached(0));
    w := Extend(w, EvWorker(0, true, true));
  }

  lemma FirstInstalls()
    ensures Reachable(Only(map[0 := Installing(0, map[])], 1, 0, {}), false)
  {
    FirstAttaches();
    var w := Only(map[0 := Fresh(Locked)], 1, 0, {});
    w := Extend(w, EvWorker(0, true, true));
    w := Extend(w, EvWorker(0, true, true));
    w := Extend(w, EvWorker(0, true, true));
    w := Extend(w, EvWorker(0, true, true));
    assert w.sessions[0] == Installing(0, map[]);
  }

  lemma FirstLeaves()
    ensures Reachable(Only(map[0 := LEFT], 1, 1, {0}), false)
  {
    FirstInstalls();
    var w := Only(map[0 := Installing(0, map[])], 1, 0, {});
    w := Extend(w, EvHandle(0, Success(0)));
    w := Extend(w, EvWorker(0, true, true));
    w := Extend(w, EvDropSession(0));
    w := Extend(w, EvDetached(0));
    assert w.sessions[0] == LEFT;
  }

  const CLEANING := Session(0, true, {}, [Cleanup(0)], map[], 1, Attached, Unmarked, false, Cleaning(0), false)

  function HasCleaned(script: Script): Session {
    Fresh(Cleaned).(replies := map[0 := Success(script)], nextOp := 1)
  }

  lemma BeginsCleaning(sessions: map<SessionId, Session>, next: SessionId, script: Script)
    requires Reachable(Only(sessions, next, script, {0}), false) && next !in sessions
    requires forall s :: s in sessions ==> !sessions[s].alive && !sessions[s].delivery.Attached?
    ensures Reachable(Only(sessions[next := CLEANING], next + 1, script, {0}), false)
  {
    var w := Extend(Only(sessions, next, script, {0}), EvNewSession(0));
    assert w == Only(sessions[next := w.sessions[next]], next + 1, script, {0});
    w := Extend(w, EvAttached(next));
    assert w == Only(sessions[next := Fresh(Starting)], next + 1, script, {0});
    w := Extend(w, EvWorker(next, true, true));
    assert w == Only(sessions[next := Fresh(Locked)], next + 1, script, {0});
    w := Extend(w, EvWorker(next, true, true));
    assert w.sessions[next].queue == [Cleanup(0)];
    assert w.sessions[next] == CLEANING;
    assert w == Only(sessions[next := CLEANING], next + 1, script, {0});
  }

  /** A later session cleans the target of the obligation it finds. */
  lemma Cleans(sessions: map<SessionId, Session>, next: SessionId, script: Script)
    requires Reachable(Only(sessions, next, script, {0}), false) && next !in sessions
    requires forall s :: s in sessions ==> !sessions[s].alive && !sessions[s].delivery.Attached?
    ensures Reachable(Only(sessions[next := HasCleaned(script)], next + 1, script + 1, {0}), false)
  {
    BeginsCleaning(sessions, next, script);
    var w := Extend(Only(sessions[next := CLEANING], next + 1, script, {0}), EvHandle(next, Success(0)));
    w := Extend(w, EvWorker(next, true, true));
    assert w.carrying == {};
    assert w == Only(sessions[next := HasCleaned(script)], next + 1, script + 1, {0});
  }

  lemma SecondLeaves()
    ensures Reachable(Only(map[0 := LEFT, 1 := STALE], 2, 2, {0}), false)
  {
    FirstLeaves();
    Cleans(map[0 := LEFT], 1, 1);
    var y := HasCleaned(1);
    assert map[0 := LEFT][1 := y] == map[0 := LEFT, 1 := y];
    var w := Only(map[0 := LEFT, 1 := y], 2, 2, {0});
    w := Extend(w, EvDropSession(1));
    w := Extend(w, EvDetached(1));
    assert w == Only(map[0 := LEFT, 1 := STALE], 2, 2, {0});
  }

  lemma ThirdIsReady()
    ensures Reachable(Only(map[0 := LEFT, 1 := STALE, 2 := HasCleaned(2).(worker := Enabling, ready := true)], 3, 3,
      {}), false)
  {
    SecondLeaves();
    Cleans(map[0 := LEFT, 1 := STALE], 2, 2);
    var w := Only(map[0 := LEFT, 1 := STALE][2 := HasCleaned(2)], 3, 3, {0});
    w := Extend(w, EvWorker(2, true, true));
    assert w.obligations == {};
    w := Extend(w, EvWorker(2, true, true));
    assert w == Only(map[0 := LEFT, 1 := STALE, 2 := HasCleaned(2).(worker := Enabling, ready := true)], 3, 3, {});
  }

  lemma ThirdInstalls()
    ensures Reachable(Only(map[0 := LEFT, 1 := STALE, 2 := Installing(1, map[0 := Success(2)])], 3, 3, {}), false)
  {
    ThirdIsReady();
    var w := Only(map[0 := LEFT, 1 := STALE, 2 := HasCleaned(2).(worker := Enabling, ready := true)], 3, 3, {});
    w := Extend(w, EvWorker(2, true, true));
    w := Extend(w, EvWorker(2, true, true));
    assert w.sessions[2] == Installing(1, map[0 := Success(2)]);
    assert w == Only(map[0 := LEFT, 1 := STALE, 2 := Installing(1, map[0 := Success(2)])], 3, 3, {});
  }

  function AfterStale(): World {
    Only(map[0 := LEFT, 1 := STALE.(worker := Readying), 2 := CURRENT], 3, 4, {})
  }

  /** The worker left behind deletes the obligation that the current session has just made. */
  lemma StaleWorkerDeletes()
    ensures Reachable(AfterStale(), false) && !Safe(AfterStale())
  {
    ThirdInstalls();
    var w := Only(map[0 := LEFT, 1 := STALE, 2 := Installing(1, map[0 := Success(2)])], 3, 3, {});
    w := Extend(w, EvHandle(2, Success(0)));
    w := Extend(w, EvWorker(2, true, true));
    assert w.sessions[2] == CURRENT && w.obligations == {0};
    w := Extend(w, EvWorker(1, true, true));
    assert w.obligations == {};
    assert w == AfterStale();
    assert CanInstall(w.sessions[2]) && MayCarry(w, 0);
    assert !Covered(w, 0);
  }

  /** Every target is covered in every run exactly when the worker looks before it deletes. */
  lemma CoveredIffGuarded(guarded: bool)
    ensures (forall w :: Reachable(w, guarded) ==> Safe(w)) <==> guarded
  {
    if guarded {
      forall w | Reachable(w, true) ensures Safe(w) {
        var run :| IsRun(run, true) && run[|run| - 1] == w;
        RunOwes(run, true, |run| - 1);
      }
    } else {
      StaleWorkerDeletes();
    }
  }

  /** LEFT and STALE once their workers are through, and CURRENT when its is. */
  const GONE := LEFT.(worker := Idle, replies := map[0 := Success(0), 1 := Rejected], nextOp := 2)

  const TRACKED := CURRENT.(worker := Idle, marker := Marked(Some(3)), queue := [Evaluate(2)], nextOp := 3)

  lemma FirstWorkerLeaves()
    ensures Reachable(Only(map[0 := GONE, 1 := STALE.(worker := Readying), 2 := CURRENT], 3, 4, {}), false)
  {
    StaleWorkerDeletes();
    var w := Extend(AfterStale(), EvWorker(0, true, true));
    w := Extend(w, EvWorker(0, true, true));
    assert w.sessions[0] == GONE;
    assert w == Only(map[0 := GONE, 1 := STALE.(worker := Readying), 2 := CURRENT], 3, 4, {});
  }

  lemma WorkersLeave()
    ensures Reachable(Only(map[0 := GONE, 1 := STALE.(worker := Idle), 2 := CURRENT], 3, 4, {}), false)
  {
    FirstWorkerLeaves();
    var w := Only(map[0 := GONE, 1 := STALE.(worker := Readying), 2 := CURRENT], 3, 4, {});
    w := Extend(w, EvWorker(1, true, true));
    w := Extend(w, EvWorker(1, true, true));
    assert w == Only(map[0 := GONE, 1 := STALE.(worker := Idle), 2 := CURRENT], 3, 4, {});
  }

  /** The current document carries the listeners. */
  lemma TrackerRuns()
    ensures Reachable(Only(map[0 := GONE, 1 := STALE.(worker := Idle), 2 := Evaluated()], 3, 5, {}).(carrying := {0}),
      false)
  {
    WorkersLeave();
    var w := Only(map[0 := GONE, 1 := STALE.(worker := Idle), 2 := CURRENT], 3, 4, {});
    w := Extend(w, EvWorker(2, true, true));
    w := Extend(w, EvWorker(2, true, true));
    assert w.sessions[2] == TRACKED;
    w := Extend(w, EvHandle(2, Success(0)));
    assert w.sessions[2] == Evaluated() && w.carrying == {0};
    assert w == Only(map[0 := GONE, 1 := STALE.(worker := Idle), 2 := Evaluated()], 3, 5, {}).(carrying := {0});
  }

  function Evaluated(): Session {
    TRACKED.(queue := [], replies := TRACKED.replies[2 := Success(4)])
  }

  function Swept(x: Session, a: Applier, script: Script): World {
    Only(map[0 := GONE, 1 := STALE.(worker := Idle), 2 := x], 3, script, {}).(carrying := {0}, telemetry := false,
      applier := a)
  }

  lemma SweepBegins()
    ensures Reachable(Swept(Evaluated(), Sweeping({2}, false), 5), false)
  {
    TrackerRuns();
    var w := Only(map[0 := GONE, 1 := STALE.(worker := Idle), 2 := Evaluated()], 3, 5, {}).(carrying := {0});
    w := Extend(w, EvBeginApply);
    assert w.applier.todo == {2};
    assert w == Swept(Evaluated(), Sweeping({2}, false), 5);
  }

  lemma SweepRemoves()
    ensures Reachable(Swept(Evaluated().(queue := [RemoveScript(3, 3)], nextOp := 4), Removing(2, 3, {}, false), 5),
      false)
  {
    SweepBegins();
    var w := Extend(Swept(Evaluated(), Sweeping({2}, false), 5), EvSweepOne(2));
    assert w.sessions[2].queue == [RemoveScript(3, 3)];
    assert w.applier == Removing(2, 3, {}, false);
    assert w == Swept(Evaluated().(queue := [RemoveScript(3, 3)], nextOp := 4), Removing(2, 3, {}, false), 5);
  }

  function Removed(): Session {
    Evaluated().(scripts := {}, replies := Evaluated().replies[3 := Success(5)], nextOp := 4)
  }

  /** The script is gone; nothing is owed, so the documents are not cleaned. */
  lemma SweepSkipsDocuments()
    ensures Reachable(Swept(Removed(), Finishing(2, false, {}, false), 6), false)
  {
    SweepRemoves();
    var x := Evaluated().(queue := [RemoveScript(3, 3)], nextOp := 4);
    var w := Extend(Swept(x, Removing(2, 3, {}, false), 5), EvHandle(2, Success(0)));
    assert w.sessions[2] == Removed();
    w := Extend(w, EvSweepReply(true, true));
    assert w == Swept(Removed(), Finishing(2, false, {}, false), 6);
  }

  lemma SweepFinishes()
    ensures exists w :: Reachable(w, false) && w.applier == Deciding(true) && w.live == {0} && w.carrying == {0}
  {
    SweepSkipsDocuments();
    var w := Extend(Swept(Removed(), Finishing(2, false, {}, false), 6), EvSweepReply(true, true));
    w := Extend(w, EvEndSweep);
  }

  /** Storing a revision after a sweep means that no live document may still carry the
      listeners, in every run, exactly when the worker looks before it deletes. */
  lemma StoredMeansCleanIff(guarded: bool)
    ensures guarded <==>
      forall w, t :: Reachable(w, guarded) && w.applier == Deciding(true) && t in w.live ==> !MayCarry(w, t)
  {
    if guarded {
      forall w, t | Reachable(w, true) && w.applier == Deciding(true) && t in w.live ensures !MayCarry(w, t) {
        var run :| IsRun(run, true) && run[|run| - 1] == w;
        AppliedOnlyWhenClean(run, true);
      }
    } else {
      SweepFinishes();
      var w :| Reachable(w, false) && w.applier == Deciding(true) && w.live == {0} && w.carrying == {0};
      assert 0 in w.live && MayCarry(w, 0);
    }
  }

  // ---- A harmful discharge needs a newer session ----

  /** The monitor has been told of a newer session of the same target. */
  predicate Superseded(w: World, s: SessionId)
    requires s in w.sessions
  {
    exists r :: r in w.sessions && s < r && w.sessions[r].target == w.sessions[s].target
      && !w.sessions[r].delivery.Unannounced?
  }

  /** Only the newest session of a target is alive. */
  predicate NewestAlive(w: World) {
    forall s, r :: s in w.sessions && r in w.sessions && w.sessions[r].alive
      && w.sessions[s].target == w.sessions[r].target
      ==> s <= r
  }

  predicate HasHeard(x: Session) {
    x.worker.Cleaned? || HeardClean(x)
  }

  /** A target that was cleaned carries the listeners again only because of a newer session. */
  predicate CleanOrNewer(w: World) {
    forall s :: s in w.sessions && HasHeard(w.sessions[s]) && w.sessions[s].target in w.carrying ==> Superseded(w, s)
  }

  predicate Ages(x: Session, y: Session) {
    && y.target == x.target && (y.alive ==> x.alive)
    && (y.delivery.Unannounced? ==> x.delivery.Unannounced?)
  }

  lemma NewerStays(w: World, v: World)
    requires NewestAlive(w) && CleanOrNewer(w) && v.sessions.Keys == w.sessions.Keys
    requires forall s :: s in w.sessions ==> Ages(w.sessions[s], v.sessions[s])
    requires forall s :: s in w.sessions && HasHeard(v.sessions[s]) && v.sessions[s].target in v.carrying ==>
      (HasHeard(w.sessions[s]) && w.sessions[s].target in w.carrying) || Superseded(w, s)
    ensures NewestAlive(v) && CleanOrNewer(v)
  {
    hide HasHeard;
    forall s | s in v.sessions && HasHeard(v.sessions[s]) && v.sessions[s].target in v.carrying
      ensures Superseded(v, s)
    {
      var r :| r in w.sessions && s < r && w.sessions[r].target == w.sessions[s].target
        && !w.sessions[r].delivery.Unannounced?;
      assert Ages(w.sessions[r], v.sessions[r]) && r in v.sessions;
    }
  }

  /** A session that can install listeners is newer than one that was cleaned. */
  lemma InstallerIsNewer(w: World, s: SessionId, r: SessionId)
    requires SessionsOk(w) && NewestAlive(w) && s in w.sessions && r in w.sessions
    requires HasHeard(w.sessions[s]) && CanInstall(w.sessions[r]) && w.sessions[r].target == w.sessions[s].target
    ensures Superseded(w, s)
  {
    assert LocalOk(w.sessions[s]) && LocalOk(w.sessions[r]);
    DeadIsQuiet(w.sessions[r]);
    assert r != s && !w.sessions[r].delivery.Unannounced?;
  }

  lemma BrowserAges(w: World, e: Event)
    requires NewestAlive(w) && CleanOrNewer(w)
    requires e.EvNewTarget? || e.EvDestroyTarget? || e.EvDropSession?
    ensures NewestAlive(Step(w, e, false)) && CleanOrNewer(Step(w, e, false))
  {
    hide Superseded;
    NewerStays(w, Step(w, e, false));
  }

  lemma NewSessionAges(w: World, t: Target)
    requires IdsOk(w) && NewestAlive(w) && CleanOrNewer(w)
    ensures NewestAlive(NewSession(w, t)) && CleanOrNewer(NewSession(w, t))
  {
    var v := NewSession(w, t);
    if v != w {
      assert w.nextSession !in w.sessions && !HasHeard(v.sessions[w.nextSession]);
      forall s | s in v.sessions && HasHeard(v.sessions[s]) && v.sessions[s].target in v.carrying
        ensures Superseded(v, s)
      {
        var r :| r in w.sessions && s < r && w.sessions[r].target == w.sessions[s].target
          && !w.sessions[r].delivery.Unannounced?;
        assert r in v.sessions;
      }
    }
  }

  lemma NewDocumentAges(w: World, r: SessionId)
    requires SessionsOk(w) && NewestAlive(w) && CleanOrNewer(w)
    ensures NewestAlive(NewDocument(w, r)) && CleanOrNewer(NewDocument(w, r))
  {
    var v := NewDocument(w, r);
    if v != w {
      assert CanInstall(w.sessions[r]);
      hide CanInstall, SessionsOk, HasHeard;
      forall s | s in w.sessions && HasHeard(w.sessions[s]) && w.sessions[s].target == w.sessions[r].target
        ensures Superseded(w, s)
      {
        InstallerIsNewer(w, s, r);
      }
      hide Superseded;
      NewerStays(w, v);
    }
  }

  /** A cleanup that is heard of has emptied the documents; a tracker that runs is a newer one. */
  lemma HandleHears(w: World, r: SessionId, verdict: Reply)
    requires SessionsOk(w) && OneAttached(w) && r in w.sessions && w.sessions[r].alive && w.sessions[r].queue != []
    ensures var v := Handle(w, r, verdict);
      HasHeard(v.sessions[r]) ==> w.sessions[r].target !in v.carrying || HasHeard(w.sessions[r])
    ensures w.sessions[r].queue[0].Evaluate? ==> CanInstall(w.sessions[r])
  {
    About(w, r);
    HandleFrame(w, r, verdict);
    if w.sessions[r].worker.Cleaning? { HandleCleans(w, r, verdict, w.sessions[r].worker.op); }
    if w.sessions[r].queue[0].Evaluate? { EvaluatesAlone(w, r); }
  }

  lemma HandleAges(w: World, r: SessionId, verdict: Reply)
    requires SessionsOk(w) && OneAttached(w) && NewestAlive(w) && CleanOrNewer(w)
    ensures NewestAlive(Handle(w, r, verdict)) && CleanOrNewer(Handle(w, r, verdict))
  {
    var v := Handle(w, r, verdict);
    if r in w.sessions && w.sessions[r].alive && w.sessions[r].queue != [] {
      HandleFrame(w, r, verdict);
      HandleHears(w, r, verdict);
      hide CanInstall, SessionsOk, OneAttached, HasHeard, Handle, Handled;
      if w.sessions[r].queue[0].Evaluate? {
        forall s | s in w.sessions && HasHeard(w.sessions[s]) && w.sessions[s].target == w.sessions[r].target
          ensures Superseded(w, s)
        {
          InstallerIsNewer(w, s, r);
        }
      }
      hide Superseded;
      NewerStays(w, v);
    }
  }

  lemma DeliveryAges(w: World, e: Event)
    requires SessionsOk(w) && NewestAlive(w) && CleanOrNewer(w) && (e.EvAttached? || e.EvDetached? || e.EvDestroyed?)
    ensures NewestAlive(Step(w, e, false)) && CleanOrNewer(Step(w, e, false))
  {
    hide Superseded, SessionsOk, OlderGone;
    NewerStays(w, Step(w, e, false));
  }

  /** Sending makes nobody hear of a success. */
  lemma SentHears(x: Session, c: Command)
    requires c.op == x.nextOp
    ensures HeardClean(Sent(x, c)) ==> HeardClean(x)
    ensures Ages(x, Sent(x, c)) && Sent(x, c).worker == x.worker
  {}

  /** The session gets older and hears of no cleanup it had not heard of. */
  predicate Hears(w: World, v: World, s: SessionId) {
    && s in w.sessions && s in v.sessions
    && Ages(w.sessions[s], v.sessions[s]) && (HasHeard(v.sessions[s]) ==> HasHeard(w.sessions[s]))
  }

  predicate Touches(w: World, v: World, s: SessionId) {
    s in v.sessions && v.sessions == w.sessions[s := v.sessions[s]] && v.carrying == w.carrying
  }

  lemma PutHears(w: World, u: World, s: SessionId, y: Session)
    requires s in w.sessions && u == w.(obligations := u.obligations)
    requires Ages(w.sessions[s], y) && !y.worker.Cleaned? && !y.worker.Cleaning?
    ensures Touches(w, Put(u, s, y), s) && Hears(w, Put(u, s, y), s)
    ensures Touches(w, Cancel(Put(u, s, y)), s) && Hears(w, Cancel(Put(u, s, y)), s)
  {}

  lemma InjectingHears(w: World, s: SessionId, ok: bool, inTime: bool, guarded: bool)
    requires s in w.sessions && w.sessions[s].worker.Injecting?
    ensures var v := WorkerStep(w, s, ok, inTime, guarded); v == w || (Touches(w, v, s) && Hears(w, v, s))
  {
    var x := w.sessions[s];
    var reply := Outcome(x, x.worker.op, inTime);
    var rejected := reply.Some? && reply.value.Rejected?;
    var u := Noted(w, x, rejected);
    PutHears(w, u, s, x.(worker := Idle));
    PutHears(w, u, s, x.(worker := Idle, lost := true));
    if reply.Some? && reply.value.Success? { PutHears(w, u, s, x.(worker := Recorded(reply.value.script))); }
    hide Outcome, Cancel, Touches, Hears, Put;
  }

  lemma SendingHears(w: World, s: SessionId, ok: bool, inTime: bool, guarded: bool)
    requires s in w.sessions && OpsOk(w.sessions[s])
    requires var k := w.sessions[s].worker; k.Locked? || k.Registering? || k.Evaluating?
    ensures var v := WorkerStep(w, s, ok, inTime, guarded); Touches(w, v, s) && Hears(w, v, s)
  {
    var x := w.sessions[s];
    if x.worker.Locked? {
      SentHears(x, Cleanup(x.nextOp));
      assert x.nextOp !in x.replies;
    } else {
      SentHears(x, AddTracker(x.nextOp));
      SentHears(x, Evaluate(x.nextOp));
      hide Sent;
    }
    hide OpsOk;
  }

  lemma CleaningHears(w: World, s: SessionId, ok: bool, inTime: bool, guarded: bool)
    requires s in w.sessions && w.sessions[s].worker.Cleaning?
    ensures var v := WorkerStep(w, s, ok, inTime, guarded); Touches(w, v, s) && Hears(w, v, s)
  {
    hide Cancel;
    CancelTouches(StopWorker(w, s));
  }

  lemma CancelTouches(w: World)
    ensures Cancel(w).sessions == w.sessions && Cancel(w).carrying == w.carrying
  {}

  lemma OtherHears(w: World, s: SessionId, ok: bool, inTime: bool, guarded: bool)
    requires s in w.sessions
    requires var k := w.sessions[s].worker;
      k.Idle? || k.Starting? || k.Cleaned? || k.Readying? || k.Enabling? || k.Recorded?
    ensures var v := WorkerStep(w, s, ok, inTime, guarded); Touches(w, v, s) && Hears(w, v, s)
  {
    hide Cancel, WriteLocked;
    CancelTouches(StopWorker(w, s));
  }

  lemma WorkerHears(w: World, s: SessionId, ok: bool, inTime: bool, guarded: bool)
    requires SessionsOk(w) && s in w.sessions
    ensures var v := WorkerStep(w, s, ok, inTime, guarded); v == w || (Touches(w, v, s) && Hears(w, v, s))
  {
    About(w, s);
    hide SessionsOk, LocalOk, Placed, OpsOk, WorkerStep, Touches, Hears;
    match w.sessions[s].worker
    case Locked => SendingHears(w, s, ok, inTime, guarded);
    case Registering => SendingHears(w, s, ok, inTime, guarded);
    case Evaluating => SendingHears(w, s, ok, inTime, guarded);
    case Injecting(_, _, _) => InjectingHears(w, s, ok, inTime, guarded);
    case Cleaning(_) => CleaningHears(w, s, ok, inTime, guarded);
    case _ => OtherHears(w, s, ok, inTime, guarded);
  }

  lemma WorkerAges(w: World, s: SessionId, ok: bool, inTime: bool, guarded: bool)
    requires SessionsOk(w) && NewestAlive(w) && CleanOrNewer(w) && s in w.sessions
    ensures var v := WorkerStep(w, s, ok, inTime, guarded); NewestAlive(v) && CleanOrNewer(v)
  {
    WorkerHears(w, s, ok, inTime, guarded);
    hide WorkerStep, SessionsOk, Touches, Hears, NewestAlive, CleanOrNewer;
    if WorkerStep(w, s, ok, inTime, guarded) != w { TouchedAges(w, WorkerStep(w, s, ok, inTime, guarded), s); }
  }

  lemma ScrubHears(w: World, s: SessionId, bad: bool, todo: set<SessionId>, failed: bool)
    requires s in w.sessions
    ensures var v := Scrub(w, s, bad, todo, failed); Touches(w, v, s) && Hears(w, v, s)
  {
    SentHears(w.sessions[s], Cleanup(w.sessions[s].nextOp));
    hide Sent;
  }

  lemma SweepOneHears(w: World, s: SessionId)
    requires s in w.sessions
    ensures Touches(w, SweepOne(w, s), s) && Hears(w, SweepOne(w, s), s)
  {
    var x := w.sessions[s];
    if w.applier.Sweeping? {
      ScrubHears(w, s, false, w.applier.todo - {s}, w.applier.failed);
      if x.marker.Marked? && x.marker.script.Some? { SentHears(x, RemoveScript(x.nextOp, x.marker.script.value)); }
      hide Sent, Scrub;
    }
  }

  lemma SweepReplyHears(w: World, ok: bool, inTime: bool)
    requires Sweeps(w.applier) && !w.applier.Sweeping? && w.applier.session in w.sessions
    ensures var v := SweepReply(w, ok, inTime); Touches(w, v, w.applier.session) && Hears(w, v, w.applier.session)
  {
    if w.applier.Removing? {
      var reply := Outcome(w.sessions[w.applier.session], w.applier.op, inTime);
      ScrubHears(w, w.applier.session, !(reply.Some? && reply.value.Success?), w.applier.todo, w.applier.failed);
    }
    hide Scrub, Outcome;
  }

  lemma TouchedAges(w: World, v: World, s: SessionId)
    requires NewestAlive(w) && CleanOrNewer(w) && Touches(w, v, s) && Hears(w, v, s)
    ensures NewestAlive(v) && CleanOrNewer(v)
  {
    hide Superseded, HasHeard;
    NewerStays(w, v);
  }

  lemma SweepsNothing(w: World, e: Event)
    requires e.EvSweepOne? || e.EvSweepReply?
    requires e.EvSweepOne? ==> e.session !in w.sessions
    requires e.EvSweepReply? ==> !Sweeps(w.applier) || w.applier.Sweeping? || w.applier.session !in w.sessions
    ensures Step(w, e, false) == w
  {}

  lemma ApplierAges(w: World, e: Event)
    requires NewestAlive(w) && CleanOrNewer(w)
    requires e.EvBeginApply? || e.EvSweepOne? || e.EvSweepReply? || e.EvEndSweep? || e.EvDecide? || e.EvCancel?
    ensures NewestAlive(Step(w, e, false)) && CleanOrNewer(Step(w, e, false))
  {
    hide Superseded;
    hide SweepOne, SweepReply, Touches, Hears, NewestAlive, CleanOrNewer;
    if e.EvSweepOne? {
      if e.session in w.sessions {
        SweepOneHears(w, e.session);
        TouchedAges(w, SweepOne(w, e.session), e.session);
      } else {
        assert SweepOne(w, e.session) == w by { SweepsNothing(w, e); }
      }
    } else if e.EvSweepReply? {
      if Sweeps(w.applier) && !w.applier.Sweeping? && w.applier.session in w.sessions {
        SweepReplyHears(w, e.ok, e.inTime);
        TouchedAges(w, SweepReply(w, e.ok, e.inTime), w.applier.session);
      } else {
        SweepsNothing(w, e);
      }
    } else {
      NewerStays(w, Step(w, e, false));
    }
  }

  lemma ConnectionAges(w: World, e: Event)
    requires NewestAlive(w) && CleanOrNewer(w) && (e.EvClose? || e.EvAskTargets? || e.EvOpen?)
    ensures NewestAlive(Step(w, e, false)) && CleanOrNewer(Step(w, e, false))
  {
    hide Superseded;
    NewerStays(w, Step(w, e, false));
  }

  lemma StepAges(w: World, e: Event)
    requires Inv(w) && NewestAlive(w) && CleanOrNewer(w)
    ensures NewestAlive(Step(w, e, false)) && CleanOrNewer(Step(w, e, false))
  {
    hide SessionsOk, IdsOk, OneAlive, OneAttached, DocumentsOk, ApplierOk, ConnectionOk, NewestAlive, CleanOrNewer;
    match e
    case EvNewSession(t) => NewSessionAges(w, t);
    case EvNewDocument(s) => NewDocumentAges(w, s);
    case EvHandle(s, verdict) => HandleAges(w, s, verdict);
    case EvWorker(s, ok, inTime) => if s in w.sessions { WorkerAges(w, s, ok, inTime, false); }
    case _ =>
      hide Step;
      if e.EvNewTarget? || e.EvDestroyTarget? || e.EvDropSession? {
        BrowserAges(w, e);
      } else if e.EvAttached? || e.EvDetached? || e.EvDestroyed? {
        DeliveryAges(w, e);
      } else if e.EvClose? || e.EvAskTargets? || e.EvOpen? {
        ConnectionAges(w, e);
      } else {
        ApplierAges(w, e);
      }
  }

  lemma {:induction false} RunAges(run: seq<World>, n: nat)
    requires IsRun(run, false) && n < |run| && !Harmed(run[..n + 1])
    ensures Inv(run[n]) && NewestAlive(run[n]) && CleanOrNewer(run[n])
  {
    if n == 0 {
    } else {
      var part := run[..n + 1];
      assert IsRun(part, false) by { hide Follows; }
      hide Inv, NewestAlive, CleanOrNewer, Follows;
      RunKeeps(part, false, n);
      RunKeeps(part, false, n - 1);
      assert part[..n] == run[..n];
      HarmedLater(part, n);
      RunAges(run, n - 1);
      AgesOnce(run, n);
    }
  }

  lemma AgesOnce(run: seq<World>, n: nat)
    requires IsRun(run, false) && 0 < n < |run| && Inv(run[n - 1]) && NewestAlive(run[n - 1])
      && CleanOrNewer(run[n - 1])
    ensures NewestAlive(run[n]) && CleanOrNewer(run[n])
  {
    hide Inv, NewestAlive, CleanOrNewer, Step;
    assert Follows(run[n - 1], run[n], false);
    var e :| run[n] == Step(run[n - 1], e, false);
    StepAges(run[n - 1], e);
  }

  lemma HarmedLater(run: seq<World>, n: nat)
    requires n <= |run|
    ensures Harmed(run[..n]) ==> Harmed(run)
  {
    if Harmed(run[..n]) {
      var i: nat, e :| i + 1 < n && Harms(run[..n][i], e) && run[..n][i + 1] == Step(run[..n][i], e, false);
      assert Harms(run[i], e) && run[i + 1] == Step(run[i], e, false);
    }
  }

  /** The first harmful discharge of a run comes after the monitor was told of a newer session
      of the target. */
  lemma HarmNeedsNewer(run: seq<World>, e: Event)
    requires IsRun(run, false) && !Harmed(run) && Harms(run[|run| - 1], e)
    ensures Superseded(run[|run| - 1], e.session)
  {
    var w, s := run[|run| - 1], e.session;
    assert run[..|run| - 1 + 1] == run;
    RunAges(run, |run| - 1);
    hide IsRun, Harmed;
    if w.sessions[s].target !in w.carrying {
      var r :| r in w.sessions && w.sessions[r].target == w.sessions[s].target && CanInstall(w.sessions[r])
        && !PendingInjection(w.sessions[r]);
      InstallerIsNewer(w, s, r);
    }
  }
}
