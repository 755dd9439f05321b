/**
  The per-session state machine behind network_idle, page_layout_settled and
  page_navigation_settled (server/lib/cdpmonitor/computed.go).

  The machine is a value with one step function per method. Timers are not clocks
  here: a debounce callback may run at any later time, also after stopTimer failed
  to catch it, and always carries the navigation number it captured when armed.
*/
module ComputedStates {
  import opened Collections

  /** netTimer and layoutTimer hold the captured navigation number of the timer that
      is armed and has not run yet. */
  datatype Machine = Machine(
    dead: bool,
    navSeq: nat,
    netPending: int,
    netTimer: Option<nat>,
    netFired: bool,
    layoutTimer: Option<nat>,
    layoutFired: bool,
    pageLoadSeen: bool,
    domLoaded: bool,
    layoutSettled: bool,
    navFired: bool)

  /** What an observer of one session sees, in order. The last three are the
      decisions the machine publishes; pending is the counter at that moment. */
  datatype Observation =
    | DomLoaded(nav: nat)
    | Stopped
    | NetworkIdle(nav: nat, pending: int)
    | LayoutSettled(nav: nat)
    | NavigationSettled(nav: nat)

  datatype Outcome = Outcome(machine: Machine, seen: seq<Observation>)

  function NewMachine(): Machine {
    Machine(false, 0, 0, None, false, None, false, false, false, false, false)
  }

  function StartNetIdleTimer(m: Machine): Machine {
    if m.dead then m else m.(netTimer := Some(m.navSeq))
  }

  function ResetOnNavigation(m: Machine, inflight: nat): Machine {
    var cleared := m.(navSeq := m.navSeq + 1, netTimer := None, netPending := inflight, netFired := false);
    var armed := if inflight == 0 then StartNetIdleTimer(cleared) else cleared;
    armed.(layoutTimer := None, layoutFired := false, pageLoadSeen := false,
           domLoaded := false, layoutSettled := false, navFired := false)
  }

  function OnRequest(m: Machine): Machine {
    if m.dead then m else m.(netPending := m.netPending + 1, netTimer := None)
  }

  function OnLoadingFinished(m: Machine): Machine {
    if m.dead then m
    else
      var lowered := m.(netPending := if m.netPending - 1 < 0 then 0 else m.netPending - 1);
      if lowered.netPending > 0 || lowered.netFired then lowered else StartNetIdleTimer(lowered)
  }

  function OnPageLoad(m: Machine): Machine {
    if m.dead then m
    else if m.layoutFired then m.(pageLoadSeen := true)
    else m.(pageLoadSeen := true, layoutTimer := Some(m.navSeq))
  }

  function OnLayoutShift(m: Machine): Machine {
    if m.dead || m.layoutFired || !m.pageLoadSeen then m else m.(layoutTimer := Some(m.navSeq))
  }

  function Stop(m: Machine): Machine {
    m.(dead := true, netTimer := None, layoutTimer := None)
  }

  function PendingNavigationSettled(m: Machine): Outcome {
    if !m.dead && m.domLoaded && m.layoutSettled && !m.navFired
    then Outcome(m.(navFired := true), [NavigationSettled(m.navSeq)])
    else Outcome(m, [])
  }

  function OnDomContentLoaded(m: Machine): Outcome {
    var settled := PendingNavigationSettled(m.(domLoaded := true));
    Outcome(settled.machine, [DomLoaded(m.navSeq)] + settled.seen)
  }

  /** The body of the network_idle callback that captured navigation nav. */
  function NetIdleCallback(m: Machine, nav: nat): Outcome {
    if m.dead || m.navSeq != nav || m.netFired || m.netPending > 0 then Outcome(m, [])
    else Outcome(m.(netFired := true), [NetworkIdle(m.navSeq, m.netPending)])
  }

  function LayoutCallback(m: Machine, nav: nat): Outcome {
    if m.dead || m.navSeq != nav || m.layoutFired || !m.pageLoadSeen then Outcome(m, [])
    else
      var settled := PendingNavigationSettled(m.(layoutFired := true, layoutSettled := true));
      Outcome(settled.machine, [LayoutSettled(m.navSeq)] + settled.seen)
  }

  /** A callback event with current set is the armed timer running (so it is no longer
      armed); otherwise it is any callback ever created, with any captured number. */
  datatype Event =
    | Navigated(inflight: nat)
    | Requested
    | Finished
    | PageLoaded
    | Shifted
    | DomContentLoaded
    | StopCalled
    | NetTimer(nav: nat, current: bool)
    | LayoutTimer(nav: nat, current: bool)

  function Step(m: Machine, e: Event): Outcome {
    match e
    case Navigated(inflight) => Outcome(ResetOnNavigation(m, inflight), [])
    case Requested => Outcome(OnRequest(m), [])
    case Finished => Outcome(OnLoadingFinished(m), [])
    case PageLoaded => Outcome(OnPageLoad(m), [])
    case Shifted => Outcome(OnLayoutShift(m), [])
    case DomContentLoaded => OnDomContentLoaded(m)
    case StopCalled => Outcome(Stop(m), [Stopped])
    case NetTimer(nav, current) =>
      if !current then NetIdleCallback(m, nav)
      else if m.netTimer == Some(nav) then NetIdleCallback(m.(netTimer := None), nav)
      else Outcome(m, [])
    case LayoutTimer(nav, current) =>
      if !current then LayoutCallback(m, nav)
      else if m.layoutTimer == Some(nav) then LayoutCallback(m.(layoutTimer := None), nav)
      else Outcome(m, [])
  }

  /** The machine and everything observed after a whole sequence of events. */
  function Run(events: seq<Event>): Outcome {
    if events == [] then Outcome(NewMachine(), [])
    else
      var before := Run(events[..|events| - 1]);
      var now := Step(before.machine, events[|events| - 1]);
      Outcome(now.machine, before.seen + now.seen)
  }

  predicate IsDecision(o: Observation) {
    o.NetworkIdle? || o.LayoutSettled? || o.NavigationSettled?
  }

  /** Two decisions of the same kind about the same navigation. */
  predicate SameDecision(a: Observation, b: Observation) {
    || (a.NetworkIdle? && b.NetworkIdle? && a.nav == b.nav)
    || (a.LayoutSettled? && a == b)
    || (a.NavigationSettled? && a == b)
  }

  predicate AtMostOnce(log: seq<Observation>) {
    forall i, j :: 0 <= i < j < |log| ==> !SameDecision(log[i], log[j])
  }

  predicate IdleOnlyAtZero(log: seq<Observation>) {
    forall i :: 0 <= i < |log| && log[i].NetworkIdle? ==> log[i].pending == 0
  }

  predicate SettledAfterBoth(log: seq<Observation>) {
    forall i :: 0 <= i < |log| && log[i].NavigationSettled? ==>
      DomLoaded(log[i].nav) in log[..i] && LayoutSettled(log[i].nav) in log[..i]
  }

  predicate NothingAfterStop(log: seq<Observation>) {
    forall i, j :: 0 <= i < j < |log| && log[i].Stopped? ==> !IsDecision(log[j])
  }

  predicate GoodLog(log: seq<Observation>) {
    AtMostOnce(log) && IdleOnlyAtZero(log) && SettledAfterBoth(log) && NothingAfterStop(log)
  }

  /** Nothing is owed: a live session that has navigated, has no request in flight and
      has not yet reported idle has the timer for this very navigation armed; the same
      for layout after page_load. */
  predicate NoLostTimer(m: Machine) {
    && (!m.dead && m.navSeq > 0 && m.netPending == 0 && !m.netFired ==> m.netTimer == Some(m.navSeq))
    && (!m.dead && m.pageLoadSeen && !m.layoutFired ==> m.layoutTimer == Some(m.navSeq))
  }

  /** How the flags of the machine summarise the log. */
  predicate Summarises(m: Machine, log: seq<Observation>) {
    && m.netPending >= 0
    && (Stopped in log ==> m.dead)
    && (forall o :: o in log && !o.Stopped? ==> o.nav <= m.navSeq)
    && (forall o :: o in log && o.NetworkIdle? && o.nav == m.navSeq ==> m.netFired)
    && (LayoutSettled(m.navSeq) in log ==> m.layoutFired)
    && (NavigationSettled(m.navSeq) in log ==> m.navFired)
    && (m.domLoaded ==> DomLoaded(m.navSeq) in log)
    && (m.layoutSettled ==> LayoutSettled(m.navSeq) in log)
  }

  /** Appending one observation that the log allows. */
  predicate Appendable(log: seq<Observation>, o: Observation) {
    && (forall p :: p in log ==> !SameDecision(p, o))
    && (o.NetworkIdle? ==> o.pending == 0)
    && (o.NavigationSettled? ==> DomLoaded(o.nav) in log && LayoutSettled(o.nav) in log)
    && (IsDecision(o) ==> Stopped !in log)
  }

  lemma AppendOne(log: seq<Observation>, o: Observation)
    requires GoodLog(log) && Appendable(log, o)
    ensures GoodLog(log + [o])
  {
    var longer := log + [o];
    forall i | 0 <= i < |longer| && longer[i].NavigationSettled?
      ensures DomLoaded(longer[i].nav) in longer[..i] && LayoutSettled(longer[i].nav) in longer[..i]
    {
      assert longer[..i] == log[..i];
      if i == |log| {
        assert log[..i] == log;
      }
    }
  }

  /** What one event lets an observer see is at most two observations, each allowed. */
  lemma StepAppends(m: Machine, log: seq<Observation>, e: Event)
    requires GoodLog(log) && Summarises(m, log)
    ensures GoodLog(log + Step(m, e).seen)
  {
    var seen := Step(m, e).seen;
    SeenIsAppendable(m, log, e);
    hide Step, Appendable, GoodLog, Summarises;
    if seen == [] {
      assert log + seen == log;
    } else {
      AppendOne(log, seen[0]);
      if |seen| == 1 {
        assert seen == [seen[0]];
      } else {
        AppendOne(log + [seen[0]], seen[1]);
        assert log + seen == log + [seen[0]] + [seen[1]];
      }
    }
  }

  lemma SeenIsAppendable(m: Machine, log: seq<Observation>, e: Event)
    requires Summarises(m, log)
    ensures var seen := Step(m, e).seen;
      && |seen| <= 2 && (seen != [] ==> Appendable(log, seen[0]))
      && (|seen| == 2 ==> Appendable(log + [seen[0]], seen[1]))
  {
    var seen := Step(m, e).seen;
    if |seen| == 2 { assert seen[0] in log + [seen[0]]; }
  }

  /** A step that shows nothing and stays on its navigation may only raise flags. */
  lemma QuietSummarises(m: Machine, log: seq<Observation>, next: Machine)
    requires Summarises(m, log)
    requires next.navSeq == m.navSeq && next.netPending >= 0 && (m.dead ==> next.dead)
    requires next.netFired == m.netFired && next.layoutFired == m.layoutFired && next.navFired == m.navFired
    requires next.domLoaded == m.domLoaded && next.layoutSettled == m.layoutSettled
    ensures Summarises(next, log)
  {
  }

  lemma SettleSummarises(m: Machine, log: seq<Observation>)
    requires Summarises(m, log)
    ensures Summarises(PendingNavigationSettled(m).machine, log + PendingNavigationSettled(m).seen)
  {
    var r := PendingNavigationSettled(m);
    assert r.seen == [] ==> log + r.seen == log;
  }

  lemma CallbackSummarises(m: Machine, log: seq<Observation>, nav: nat)
    requires Summarises(m, log)
    ensures Summarises(NetIdleCallback(m, nav).machine, log + NetIdleCallback(m, nav).seen)
    ensures Summarises(LayoutCallback(m, nav).machine, log + LayoutCallback(m, nav).seen)
  {
    assert log + [] == log;
    var l := LayoutCallback(m, nav);
    if l.seen != [] {
      var fired := m.(layoutFired := true, layoutSettled := true);
      var middle := log + [LayoutSettled(m.navSeq)];
      assert LayoutSettled(m.navSeq) in middle;
      assert Summarises(fired, middle);
      SettleSummarises(fired, middle);
      assert middle + PendingNavigationSettled(fired).seen == log + l.seen;
    }
  }

  lemma DomContentSummarises(m: Machine, log: seq<Observation>)
    requires Summarises(m, log)
    ensures Summarises(OnDomContentLoaded(m).machine, log + OnDomContentLoaded(m).seen)
  {
    var loaded := m.(domLoaded := true);
    var middle := log + [DomLoaded(m.navSeq)];
    assert DomLoaded(m.navSeq) in middle;
    assert Summarises(loaded, middle);
    SettleSummarises(loaded, middle);
    assert middle + PendingNavigationSettled(loaded).seen == log + OnDomContentLoaded(m).seen;
  }

  lemma ResetSummarises(m: Machine, log: seq<Observation>, inflight: nat)
    requires Summarises(m, log)
    ensures Summarises(ResetOnNavigation(m, inflight), log)
  {
  }

  lemma StopSummarises(m: Machine, log: seq<Observation>)
    requires Summarises(m, log)
    ensures Summarises(Stop(m), log + [Stopped])
  {
  }

  lemma TimerSummarises(m: Machine, log: seq<Observation>, e: Event)
    requires Summarises(m, log) && (e.NetTimer? || e.LayoutTimer?)
    ensures Summarises(Step(m, e).machine, log + Step(m, e).seen)
  {
    if e.current && e.NetTimer? && m.netTimer == Some(e.nav) {
      CallbackSummarises(m.(netTimer := None), log, e.nav);
    } else if e.current && e.LayoutTimer? && m.layoutTimer == Some(e.nav) {
      CallbackSummarises(m.(layoutTimer := None), log, e.nav);
    } else if e.current {
      assert log + [] == log;
    } else {
      CallbackSummarises(m, log, e.nav);
    }
  }

  lemma StepSummarises(m: Machine, log: seq<Observation>, e: Event)
    requires Summarises(m, log)
    ensures Summarises(Step(m, e).machine, log + Step(m, e).seen)
  {
    match e {
      case Navigated(inflight) => ResetSummarises(m, log, inflight);
      case DomContentLoaded => DomContentSummarises(m, log);
      case StopCalled => StopSummarises(m, log);
      case NetTimer(_, _) => TimerSummarises(m, log, e);
      case LayoutTimer(_, _) => TimerSummarises(m, log, e);
      case _ => QuietSummarises(m, log, Step(m, e).machine);
    }
    assert Step(m, e).seen == [] ==> log + Step(m, e).seen == log;
  }

  lemma StepKeepsTimers(m: Machine, e: Event)
    requires NoLostTimer(m) && m.netPending >= 0
    ensures NoLostTimer(Step(m, e).machine)
  {
  }

  lemma {:induction false} RunSummarises(events: seq<Event>)
    ensures GoodLog(Run(events).seen)
    ensures NoLostTimer(Run(events).machine)
    ensures Summarises(Run(events).machine, Run(events).seen)
  {
    if events != [] {
      RunSummarises(events[..|events| - 1]);
      var before := Run(events[..|events| - 1]);
      StepAppends(before.machine, before.seen, events[|events| - 1]);
      StepSummarises(before.machine, before.seen, events[|events| - 1]);
      StepKeepsTimers(before.machine, events[|events| - 1]);
    }
  }

  /** Over every sequence of events and callbacks: each kind of decision is taken at most
      once per navigation, idle only with nothing in flight, settled only after both of its
      causes in the same navigation, and nothing once stopped. */
  lemma DecisionsAreSound(events: seq<Event>)
    ensures GoodLog(Run(events).seen)
  {
    RunSummarises(events);
  }

  /** A network-idle or layout timer that is still due is armed. */
  lemma NoTimerIsLost(events: seq<Event>)
    ensures NoLostTimer(Run(events).machine)
  {
    RunSummarises(events);
  }

  // ---- Nothing owed is withheld ----

  function Navigations(events: seq<Event>): nat {
    if events == [] then 0
    else Navigations(events[..|events| - 1]) + (if events[|events| - 1].Navigated? then 1 else 0)
  }

  /** The page has loaded since the latest navigation. */
  predicate LoadedSince(events: seq<Event>) {
    events != []
    && var last := events[|events| - 1];
       last.PageLoaded? || (!last.Navigated? && LoadedSince(events[..|events| - 1]))
  }

  /** The flags of a live machine say no more than the log, and settle whatever can be. */
  ghost predicate Settles(m: Machine, log: seq<Observation>) {
    && (DomLoaded(m.navSeq) in log ==> m.domLoaded)
    && (m.layoutFired ==> m.layoutSettled && LayoutSettled(m.navSeq) in log)
    && (m.netFired ==> exists o :: o in log && o.NetworkIdle? && o.nav == m.navSeq)
    && (m.navFired ==> NavigationSettled(m.navSeq) in log)
    && (m.domLoaded && m.layoutSettled ==> m.navFired)
    && forall n :: DomLoaded(n) in log && LayoutSettled(n) in log ==> NavigationSettled(n) in log
  }

  lemma SettlesLater(m: Machine, log: seq<Observation>, next: Machine)
    requires Settles(m, log)
    requires next == m.(netPending := next.netPending, netTimer := next.netTimer, layoutTimer := next.layoutTimer,
                        pageLoadSeen := next.pageLoadSeen)
    ensures Settles(next, log + [])
  {
    assert log + [] == log;
  }

  lemma SettlesSettled(m: Machine, log: seq<Observation>)
    requires !m.dead && Summarises(m, log)
    requires DomLoaded(m.navSeq) in log ==> m.domLoaded
    requires m.layoutFired ==> m.layoutSettled && LayoutSettled(m.navSeq) in log
    requires m.netFired ==> exists o :: o in log && o.NetworkIdle? && o.nav == m.navSeq
    requires m.navFired ==> NavigationSettled(m.navSeq) in log
    requires forall n :: n != m.navSeq && DomLoaded(n) in log && LayoutSettled(n) in log ==> NavigationSettled(n) in log
    ensures var r := PendingNavigationSettled(m); Settles(r.machine, log + r.seen)
  {
    var r := PendingNavigationSettled(m);
    var longer := log + r.seen;
    assert forall o :: o in log ==> o in longer;
    if r.seen != [] { assert r.seen[0] in longer; }
    if m.netFired {
      var o :| o in log && o.NetworkIdle? && o.nav == m.navSeq;
      assert o in longer;
    }
  }

  lemma IdleSettles(m: Machine, log: seq<Observation>, nav: nat)
    requires Settles(m, log)
    ensures Settles(NetIdleCallback(m, nav).machine, log + NetIdleCallback(m, nav).seen)
  {
    var r := NetIdleCallback(m, nav);
    if r.seen == [] {
      assert log + r.seen == log;
    } else {
      assert r.seen[0] in log + r.seen;
    }
  }

  lemma LayoutSettles(m: Machine, log: seq<Observation>, nav: nat)
    requires Settles(m, log) && Summarises(m, log)
    ensures Settles(LayoutCallback(m, nav).machine, log + LayoutCallback(m, nav).seen)
  {
    var r := LayoutCallback(m, nav);
    if r.seen == [] {
      assert log + r.seen == log;
    } else {
      var fired, middle := m.(layoutFired := true, layoutSettled := true), log + [LayoutSettled(m.navSeq)];
      assert middle[|log|] == LayoutSettled(m.navSeq) && forall o :: o in log ==> o in middle;
      if m.netFired {
        var o :| o in log && o.NetworkIdle? && o.nav == m.navSeq;
        assert o in middle;
      }
      assert m.domLoaded ==> DomLoaded(m.navSeq) in middle;
      SettlesSettled(fired, middle);
      assert middle + PendingNavigationSettled(fired).seen == log + r.seen;
    }
  }

  lemma DomSettles(m: Machine, log: seq<Observation>)
    requires Settles(m, log) && Summarises(m, log) && !m.dead
    ensures Settles(OnDomContentLoaded(m).machine, log + OnDomContentLoaded(m).seen)
  {
    var loaded, middle := m.(domLoaded := true), log + [DomLoaded(m.navSeq)];
    assert middle[|log|] == DomLoaded(m.navSeq) && forall o :: o in log ==> o in middle;
    if m.netFired {
      var o :| o in log && o.NetworkIdle? && o.nav == m.navSeq;
      assert o in middle;
    }
    SettlesSettled(loaded, middle);
    assert middle + PendingNavigationSettled(loaded).seen == log + OnDomContentLoaded(m).seen;
  }

  lemma ResetSettles(m: Machine, log: seq<Observation>, inflight: nat)
    requires Settles(m, log) && Summarises(m, log)
    ensures Settles(ResetOnNavigation(m, inflight), log + [])
  {
    assert log + [] == log;
    assert DomLoaded(m.navSeq + 1) !in log;
  }

  lemma StepSettlesAll(m: Machine, log: seq<Observation>, e: Event)
    requires Settles(m, log) && Summarises(m, log) && !Step(m, e).machine.dead
    ensures Settles(Step(m, e).machine, log + Step(m, e).seen)
  {
    hide Settles, Summarises;
    match e
    case Navigated(inflight) => ResetSettles(m, log, inflight);
    case DomContentLoaded => DomSettles(m, log);
    case NetTimer(nav, current) =>
      if current && m.netTimer == Some(nav) {
        SettlesLater(m, log, m.(netTimer := None));
        assert log + [] == log;
        IdleSettles(m.(netTimer := None), log, nav);
      } else {
        SettlesLater(m, log, m);
        IdleSettles(m, log, nav);
      }
    case LayoutTimer(nav, current) =>
      if current && m.layoutTimer == Some(nav) {
        SettlesLater(m, log, m.(layoutTimer := None));
        BasicSummary(m, log);
        QuietSummarises(m, log, m.(layoutTimer := None));
        assert log + [] == log;
        LayoutSettles(m.(layoutTimer := None), log, nav);
      } else {
        SettlesLater(m, log, m);
        LayoutSettles(m, log, nav);
      }
    case _ => SettlesLater(m, log, Step(m, e).machine);
  }

  lemma BasicSummary(m: Machine, log: seq<Observation>)
    requires Summarises(m, log)
    ensures m.netPending >= 0
  {}

  lemma {:induction false} RunSettlesAll(events: seq<Event>)
    requires !Run(events).machine.dead
    ensures Settles(Run(events).machine, Run(events).seen)
    ensures Run(events).machine.navSeq == Navigations(events)
    ensures LoadedSince(events) ==> Run(events).machine.pageLoadSeen
  {
    if events != [] {
      var earlier := events[..|events| - 1];
      var before, e := Run(earlier), events[|events| - 1];
      assert Run(events).machine == Step(before.machine, e).machine;
      assert Run(events).seen == before.seen + Step(before.machine, e).seen;
      hide Step, Settles, Summarises, GoodLog, NoLostTimer, Run;
      RunSummarises(earlier);
      StepGoesOn(before.machine, e);
      RunSettlesAll(earlier);
      StepSettlesAll(before.machine, before.seen, e);
    }
  }

  /** Callbacks touch only what they decide. */
  lemma CallbackTouches(m: Machine, nav: nat)
    ensures var n := NetIdleCallback(m, nav).machine; n == m.(netFired := n.netFired)
    ensures var n := LayoutCallback(m, nav).machine;
      n == m.(layoutFired := n.layoutFired, layoutSettled := n.layoutSettled, navFired := n.navFired)
    ensures var n := OnDomContentLoaded(m).machine; n == m.(domLoaded := true, navFired := n.navFired)
  {}

  predicate GoesOn(m: Machine, n: Machine, e: Event) {
    && (m.dead ==> n.dead) && n.navSeq == m.navSeq + (if e.Navigated? then 1 else 0)
    && (!n.dead ==> n.pageLoadSeen == (e.PageLoaded? || (!e.Navigated? && m.pageLoadSeen)))
  }

  lemma TimerGoesOn(m: Machine, e: Event)
    requires e.NetTimer? || e.LayoutTimer?
    ensures GoesOn(m, Step(m, e).machine, e)
  {
    CallbackTouches(m, e.nav);
    CallbackTouches(m.(netTimer := None), e.nav);
    CallbackTouches(m.(layoutTimer := None), e.nav);
    hide NetIdleCallback, LayoutCallback;
  }

  lemma StepGoesOn(m: Machine, e: Event)
    ensures GoesOn(m, Step(m, e).machine, e)
  {
    if e.NetTimer? || e.LayoutTimer? {
      TimerGoesOn(m, e);
    } else {
      CallbackTouches(m, 0);
      hide NetIdleCallback, LayoutCallback, OnDomContentLoaded;
    }
  }

  lemma SettledNeedsBoth(log: seq<Observation>, n: nat)
    requires SettledAfterBoth(log) && NavigationSettled(n) in log
    ensures DomLoaded(n) in log && LayoutSettled(n) in log
  {
    var i :| 0 <= i < |log| && log[i] == NavigationSettled(n);
    assert DomLoaded(n) in log[..i] && LayoutSettled(n) in log[..i];
  }

  lemma LayoutIsDue(m: Machine, log: seq<Observation>)
    requires !m.dead && Settles(m, log) && NoLostTimer(m) && m.pageLoadSeen && LayoutSettled(m.navSeq) !in log
    ensures m.layoutTimer == Some(m.navSeq) && LayoutSettled(m.navSeq) in Step(m, LayoutTimer(m.navSeq, true)).seen
  {
    assert !m.layoutFired;
    assert LayoutCallback(m.(layoutTimer := None), m.navSeq).seen[0] == LayoutSettled(m.navSeq);
  }

  lemma IdleIsDue(m: Machine, log: seq<Observation>)
    requires !m.dead && Settles(m, log) && NoLostTimer(m) && m.navSeq > 0 && m.netPending == 0
    requires forall o :: o in log && o.NetworkIdle? ==> o.nav != m.navSeq
    ensures m.netTimer == Some(m.navSeq) && NetworkIdle(m.navSeq, 0) in Step(m, NetTimer(m.navSeq, true)).seen
  {
    assert !m.netFired;
    assert NetIdleCallback(m.(netTimer := None), m.navSeq).seen[0] == NetworkIdle(m.navSeq, 0);
  }

  /** While the session lives: a navigation is settled exactly when its DOM content is in and
      its layout has settled; once the page has loaded its layout is settled, or the timer that
      will decide so is armed; and with nothing in flight idleness is decided, or the timer that
      will decide it is armed. */
  lemma DecisionsAreComplete(events: seq<Event>)
    requires !Run(events).machine.dead
    ensures var m, seen := Run(events).machine, Run(events).seen;
      && m.navSeq == Navigations(events)
      && (forall n :: NavigationSettled(n) in seen <==> DomLoaded(n) in seen && LayoutSettled(n) in seen)
      && (LoadedSince(events) && LayoutSettled(m.navSeq) !in seen ==>
            m.layoutTimer == Some(m.navSeq)
            && LayoutSettled(m.navSeq) in Step(m, LayoutTimer(m.navSeq, true)).seen)
      && (m.navSeq > 0 && m.netPending == 0 && (forall o :: o in seen && o.NetworkIdle? ==> o.nav != m.navSeq) ==>
            m.netTimer == Some(m.navSeq)
            && NetworkIdle(m.navSeq, 0) in Step(m, NetTimer(m.navSeq, true)).seen)
  {
    RunSettlesAll(events);
    RunSummarises(events);
    var m, seen := Run(events).machine, Run(events).seen;
    forall n ensures NavigationSettled(n) in seen <==> DomLoaded(n) in seen && LayoutSettled(n) in seen {
      hide Run, LoadedSince, Summarises, NoLostTimer;
      if NavigationSettled(n) in seen { SettledNeedsBoth(seen, n); }
    }
    hide Run, LoadedSince, Step, Summarises, NoLostTimer, GoodLog, Settles;
    if m.pageLoadSeen && LayoutSettled(m.navSeq) !in seen { LayoutIsDue(m, seen); }
    if m.navSeq > 0 && m.netPending == 0 && (forall o :: o in seen && o.NetworkIdle? ==> o.nav != m.navSeq) {
      IdleIsDue(m, seen);
    }
  }

  // ---- The counter and the timers ----

  /** Requests less finishes since the latest navigation, which brings its own in flight. */
  function Balance(events: seq<Event>): int {
    if events == [] then 0
    else
      match events[|events| - 1]
      case Navigated(inflight) => inflight
      case Requested => Balance(events[..|events| - 1]) + 1
      case Finished => Balance(events[..|events| - 1]) - 1
      case _ => Balance(events[..|events| - 1])
  }

  /** The lowest the balance has been since then, if it was ever below zero. */
  function Low(events: seq<Event>): int {
    if events == [] || events[|events| - 1].Navigated? then 0
    else
      var before, now := Low(events[..|events| - 1]), Balance(events);
      if now < before then now else before
  }

  predicate NeverStopped(events: seq<Event>) {
    forall i :: 0 <= i < |events| ==> !events[i].StopCalled?
  }

  /** Timers at most cleared, and nothing but decisions otherwise. */
  predicate OnlyDecides(m: Machine, n: Machine) {
    && n.dead == m.dead && n.navSeq == m.navSeq && n.netPending == m.netPending && n.pageLoadSeen == m.pageLoadSeen
    && (n.netTimer == m.netTimer || n.netTimer.None?) && (n.layoutTimer == m.layoutTimer || n.layoutTimer.None?)
  }

  lemma CallbackDecides(m: Machine, nav: nat)
    ensures OnlyDecides(m, NetIdleCallback(m, nav).machine) && OnlyDecides(m, LayoutCallback(m, nav).machine)
    ensures OnlyDecides(m, OnDomContentLoaded(m).machine)
  {}

  lemma TimerDecides(m: Machine, e: Event)
    requires e.NetTimer? || e.LayoutTimer? || e.DomContentLoaded?
    ensures OnlyDecides(m, Step(m, e).machine)
  {
    if e.DomContentLoaded? {
      CallbackDecides(m, 0);
    } else {
      CallbackDecides(m, e.nav);
      CallbackDecides(m.(netTimer := None), e.nav);
      CallbackDecides(m.(layoutTimer := None), e.nav);
    }
    hide NetIdleCallback, LayoutCallback, OnDomContentLoaded;
  }

  lemma StaysAlive(m: Machine, e: Event)
    requires !m.dead && !e.StopCalled?
    ensures !Step(m, e).machine.dead
  {
    if e.NetTimer? || e.LayoutTimer? || e.DomContentLoaded? {
      TimerDecides(m, e);
      hide Step;
    }
  }

  lemma {:induction false} NeverDead(events: seq<Event>)
    requires NeverStopped(events)
    ensures !Run(events).machine.dead
  {
    if events != [] {
      NeverDead(events[..|events| - 1]);
      StaysAlive(Run(events[..|events| - 1]).machine, events[|events| - 1]);
      hide Step;
    }
  }

  /** The counter never shows less than nothing: it is the balance, lifted by as much as the
      balance has been below zero; so it is the balance exactly if that has not happened. */
  lemma {:induction false} CounterIsLifted(events: seq<Event>)
    requires NeverStopped(events)
    ensures Low(events) <= 0 && Low(events) <= Balance(events)
    ensures Run(events).machine.netPending == Balance(events) - Low(events)
  {
    if events != [] {
      var before, e := events[..|events| - 1], events[|events| - 1];
      CounterIsLifted(before);
      NeverDead(before);
      PendingMoves(Run(before).machine, e);
      hide Step;
    }
  }

  lemma PendingMoves(m: Machine, e: Event)
    requires !m.dead && m.netPending >= 0
    ensures Step(m, e).machine.netPending ==
      match e
      case Navigated(inflight) => inflight
      case Requested => m.netPending + 1
      case Finished => if m.netPending > 0 then m.netPending - 1 else 0
      case _ => m.netPending
  {
    if e.NetTimer? || e.LayoutTimer? || e.DomContentLoaded? {
      TimerDecides(m, e);
      hide Step;
    }
  }

  /** An armed timer is for the current navigation of a live session: the idle one with nothing in
      flight, the layout one after the page has loaded. */
  predicate TimersAreCurrent(m: Machine) {
    && (m.netTimer.Some? ==> m.netTimer.value == m.navSeq && !m.dead && m.netPending == 0)
    && (m.layoutTimer.Some? ==> m.layoutTimer.value == m.navSeq && !m.dead && m.pageLoadSeen)
  }

  lemma StepKeepsCurrent(m: Machine, e: Event)
    requires TimersAreCurrent(m) && m.netPending >= 0
    ensures TimersAreCurrent(Step(m, e).machine)
  {
    if e.NetTimer? || e.LayoutTimer? || e.DomContentLoaded? {
      TimerDecides(m, e);
      hide Step;
    }
  }

  lemma {:induction false} ArmedIsCurrent(events: seq<Event>)
    ensures TimersAreCurrent(Run(events).machine)
  {
    if events != [] {
      ArmedIsCurrent(events[..|events| - 1]);
      RunSummarises(events[..|events| - 1]);
      hide Step;
      StepKeepsCurrent(Run(events[..|events| - 1]).machine, events[|events| - 1]);
    }
  }

  /** A stopped session takes no notice of the page, and a decision taken arms no timer again. */
  lemma NothingIsRearmed(m: Machine, e: Event)
    requires e.Requested? || e.Finished? || e.PageLoaded? || e.Shifted?
    ensures m.dead ==> Step(m, e) == Outcome(m, [])
    ensures m.layoutFired ==> Step(m, e).machine.layoutTimer == m.layoutTimer
    ensures m.netFired && e.Finished? ==> Step(m, e).machine.netTimer == m.netTimer
  {}

  /** The object of the source: its methods update the fields under the object's mutex and
      hand decided events to the publish function, here the sequence published. */
  class ComputedState {
    var dead: bool
    var navSeq: nat
    var netPending: int
    var netTimer: Option<nat>
    var netFired: bool
    var layoutTimer: Option<nat>
    var layoutFired: bool
    var pageLoadSeen: bool
    var navDomLoaded: bool
    var navLayoutSettled: bool
    var navFired: bool
    var published: seq<Observation>

    function View(): Machine
      reads this
    {
      Machine(dead, navSeq, netPending, netTimer, netFired, layoutTimer, layoutFired, pageLoadSeen,
              navDomLoaded, navLayoutSettled, navFired)
    }

    constructor ()
      ensures View() == NewMachine() && published == []
    {
      dead, navSeq := false, 0;
      netPending, netTimer, netFired := 0, None, false;
      layoutTimer, layoutFired, pageLoadSeen := None, false, false;
      navDomLoaded, navLayoutSettled, navFired := false, false, false;
      published := [];
    }

    method StopMachine()
      modifies this
      ensures View() == Stop(old(View())) && published == old(published)
    {
      dead := true;
      netTimer := None;
      layoutTimer := None;
    }

    method ArmNetIdle()
      modifies this
      ensures View() == StartNetIdleTimer(old(View())) && published == old(published)
    {
      if dead {
        return;
      }
      netTimer := Some(navSeq);
    }

    method Reset(inflight: nat)
      modifies this
      ensures View() == ResetOnNavigation(old(View()), inflight) && published == old(published)
    {
      navSeq := navSeq + 1;
      netTimer := None;
      netPending := inflight;
      netFired := false;
      if inflight == 0 {
        ArmNetIdle();
      }
      layoutTimer := None;
      layoutFired := false;
      pageLoadSeen := false;
      navDomLoaded := false;
      navLayoutSettled := false;
      navFired := false;
    }

    method Request()
      modifies this
      ensures View() == OnRequest(old(View())) && published == old(published)
    {
      if dead {
        return;
      }
      netPending := netPending + 1;
      netTimer := None;
    }

    method LoadingFinished()
      modifies this
      ensures View() == OnLoadingFinished(old(View())) && published == old(published)
    {
      if dead {
        return;
      }
      netPending := netPending - 1;
      if netPending < 0 {
        netPending := 0;
      }
      if netPending > 0 || netFired {
        return;
      }
      ArmNetIdle();
    }

    method PageLoad()
      modifies this
      ensures View() == OnPageLoad(old(View())) && published == old(published)
    {
      if dead {
        return;
      }
      pageLoadSeen := true;
      if layoutFired {
        return;
      }
      layoutTimer := Some(navSeq);
    }

    method LayoutShift()
      modifies this
      ensures View() == OnLayoutShift(old(View())) && published == old(published)
    {
      if dead || layoutFired || !pageLoadSeen {
        return;
      }
      layoutTimer := Some(navSeq);
    }

    method TakeNavigationSettled() returns (decided: seq<Observation>)
      modifies this
      ensures Outcome(View(), decided) == PendingNavigationSettled(old(View()))
      ensures published == old(published)
    {
      decided := [];
      if dead {
        return;
      }
      if navDomLoaded && navLayoutSettled && !navFired {
        navFired := true;
        decided := [NavigationSettled(navSeq)];
      }
    }

    /** The arrival of the event itself is observed as DomLoaded. */
    method DomContent()
      modifies this
      ensures Outcome(View(), published) ==
        Outcome(OnDomContentLoaded(old(View())).machine, old(published) + OnDomContentLoaded(old(View())).seen)
    {
      navDomLoaded := true;
      var decided := TakeNavigationSettled();
      published := published + ([DomLoaded(navSeq)] + decided);
    }

    method RunNetIdle(nav: nat)
      modifies this
      ensures View() == NetIdleCallback(old(View()), nav).machine
      ensures published == old(published) + NetIdleCallback(old(View()), nav).seen
    {
      if dead || navSeq != nav || netFired || netPending > 0 {
        return;
      }
      netFired := true;
      published := published + [NetworkIdle(navSeq, netPending)];
    }

    method RunLayoutSettled(nav: nat)
      modifies this
      ensures View() == LayoutCallback(old(View()), nav).machine
      ensures published == old(published) + LayoutCallback(old(View()), nav).seen
    {
      if dead || navSeq != nav || layoutFired || !pageLoadSeen {
        return;
      }
      layoutFired := true;
      navLayoutSettled := true;
      var decided := [LayoutSettled(navSeq)];
      var settled := TakeNavigationSettled();
      published := published + (decided + settled);
    }
  }
}
