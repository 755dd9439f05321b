/**
  The telemetry revision word and the fence around publication (server/lib/cdpmonitor:
  telemetry.go, monitor.go). A word is a revision in the high bits and enabled in the low
  bit. SetTelemetry commits the desired word; the reconcile worker or a new connection
  applies it later; publishers check both under a read lock.
*/
module TelemetryFence {
  import opened Collections

  type Word = nat

  predicate Enabled(w: Word) {
    w % 2 == 1
  }

  /** SetTelemetry: the next revision with the given bit, or the same word if nothing changes. */
  function NextWord(w: Word, enabled: bool): Word {
    if Enabled(w) == enabled then w else (w - w % 2) + 2 + (if enabled then 1 else 0)
  }

  /** A publisher inside the read lock: it has entered, or has passed captureEnabled. */
  datatype Reader = Entered | Passed

  /** Whoever holds restartMu from one step to the next. The worker has taken the signal, loaded
      the desired word and drained the old capture; an opener has dialled a connection. */
  datatype Holder =
    | Nobody
    | WorkerWaiting
    | WorkerLoaded(state: Word)
    | WorkerDrained(state: Word)
    | WorkerChecked(state: Word)
    | OpenerDialling
    | OpenerLoaded(state: Word)

  /** A connection that works, one that is lost but not yet closed, or none. */
  datatype Conn = NoConn | Live | Lost

  /** What happened, in order. A word is applied by the worker or by a new connection. Published
      is a non-monitor event that left the fence, with the desired word of that moment. */
  datatype Entry = Desired(word: Word) | Drained | Applied(word: Word, byWorker: bool) | Published(word: Word)

  datatype World = World(
    desired: Word,
    applied: Word,
    readers: map<nat, Reader>,
    holder: Holder,
    workerWaits: bool,
    signal: bool,
    unsent: nat,
    conn: Conn,
    log: seq<Entry>)

  const INITIAL := World(1, 1, map[], Nobody, false, false, 0, NoConn, [])

  datatype Event =
    | SetTelemetry(enabled: bool)
    | SendSignal
    | Enter(reader: nat)
    | Check(reader: nat)
    | Leave(reader: nat)
    | TakeSignal
    | LockForWorker
    | Load
    | Drain
    | CleanupFails
    | CheckDesired
    | Store
    | Disconnect
    | CloseOld
    | BeginOpen
    | FailOpen

  function Logged(w: World, e: Entry): World {
    w.(log := w.log + [e])
  }

  function SetTelemetryStep(w: World, enabled: bool): World {
    // The write lock waits for every publisher inside the fence.
    var next := NextWord(w.desired, enabled);
    if w.readers != map[] || next == w.desired then w
    else Logged(w.(desired := next, unsent := w.unsent + 1), Desired(next))
  }

  function ReaderStep(w: World, e: Event): World {
    match e
    case Enter(r) => if r in w.readers then w else w.(readers := w.readers[r := Entered])
    case Check(r) =>
      if r !in w.readers || w.readers[r] != Entered then w
      else if Enabled(w.desired) && w.desired == w.applied then w.(readers := w.readers[r := Passed])
      else w.(readers := w.readers - {r})
    case Leave(r) =>
      // The event is handed on while the lock is still held.
      if r !in w.readers || w.readers[r] != Passed then w
      else Logged(w.(readers := w.readers - {r}), Published(w.desired))
    case _ => w
  }

  function WorkerStep(w: World, e: Event): World {
    match e
    case TakeSignal => if w.signal && !w.workerWaits then w.(signal := false, workerWaits := true) else w
    case LockForWorker =>
      if w.workerWaits && w.holder.Nobody? then w.(holder := WorkerWaiting) else w
    case Load =>
      if w.holder.WorkerWaiting? then w.(holder := WorkerLoaded(w.desired))
      else if w.holder.OpenerDialling? then w.(holder := OpenerLoaded(w.desired))
      else w
    case Drain =>
      // An already applied word needs no work.
      if !w.holder.WorkerLoaded? then w
      else if w.applied == w.holder.state then w.(holder := Nobody, workerWaits := false)
      else Logged(w.(holder := WorkerDrained(w.holder.state)), Drained)
    case CleanupFails =>
      if w.holder.WorkerDrained? && w.conn.Live? then w.(holder := Nobody, workerWaits := false, conn := Lost) else w
    case CheckDesired =>
      if !w.holder.WorkerDrained? then w
      else if w.desired != w.holder.state then w.(holder := Nobody, workerWaits := false, signal := true)
      else w.(holder := WorkerChecked(w.holder.state))
    case Store =>
      if w.holder.WorkerChecked? then
        var done := w.(holder := Nobody, workerWaits := false);
        if Enabled(w.holder.state) && !w.conn.Live? then done
        else Logged(done.(applied := w.holder.state), Applied(w.holder.state, true))
      else if w.holder.OpenerLoaded? then
        Logged(w.(holder := Nobody, applied := w.holder.state, conn := Live), Applied(w.holder.state, false))
      else w
    case _ => w
  }

  function Step(w: World, e: Event): World {
    match e
    case SetTelemetry(enabled) => SetTelemetryStep(w, enabled)
    case SendSignal => if w.unsent > 0 then w.(unsent := w.unsent - 1, signal := true) else w
    case Enter(_) => ReaderStep(w, e)
    case Check(_) => ReaderStep(w, e)
    case Leave(_) => ReaderStep(w, e)
    case Disconnect => if w.conn.Live? then w.(conn := Lost) else w
    // Closing drains the capture and releases restartMu; opening takes it again and does not drain.
    case CloseOld => if w.holder.Nobody? then Logged(w.(conn := NoConn), Drained) else w
    case BeginOpen => if w.holder.Nobody? && w.conn.NoConn? then w.(holder := OpenerDialling) else w
    case FailOpen => if w.holder.OpenerDialling? then w.(holder := Nobody) else w
    case _ => WorkerStep(w, e)
  }

  // ---- Invariants ----

  /** A word loaded earlier is still the desired one, or someone will be told. */
  predicate Fresh(w: World, state: Word) {
    state == w.desired || w.signal || w.unsent > 0
  }

  predicate HolderOk(w: World) {
    match w.holder
    case Nobody => true
    case WorkerWaiting => w.workerWaits
    case WorkerLoaded(state) => w.applied <= state <= w.desired && w.workerWaits && Fresh(w, state)
    case WorkerDrained(state) => w.applied <= state <= w.desired && w.workerWaits
    case WorkerChecked(state) => w.applied <= state <= w.desired && w.workerWaits && Fresh(w, state)
    case OpenerDialling => w.conn.NoConn?
    case OpenerLoaded(state) => w.conn.NoConn? && w.applied <= state <= w.desired && (Fresh(w, state) || w.workerWaits)
  }

  /** A publisher that passed the check still sees an applied, enabled, current word. */
  predicate ReadersOk(w: World) {
    forall r :: r in w.readers && w.readers[r].Passed? ==> Enabled(w.desired) && w.applied == w.desired
  }

  /** No committed word is forgotten: it is applied, or a signal, the worker or the next
      connection will look at it. */
  predicate NotForgotten(w: World) {
    w.applied == w.desired || w.signal || w.unsent > 0 || w.workerWaits || !w.conn.Live?
  }

  /** A drain, with nothing applied since. */
  ghost predicate DrainedSince(log: seq<Entry>) {
    exists d :: 0 <= d < |log| && log[d].Drained? && forall j :: d < j < |log| ==> !log[j].Applied?
  }

  /** If the last applied word was enabled, its capture has been drained since. */
  ghost predicate CaptureClosed(log: seq<Entry>) {
    forall i :: 0 <= i < |log| && IsLastEnabled(log, i) ==> exists d :: i < d < |log| && log[d].Drained?
  }

  ghost predicate IsLastEnabled(log: seq<Entry>, i: nat)
    requires i < |log|
  {
    log[i].Applied? && Enabled(log[i].word) && forall j :: i < j < |log| ==> !log[j].Applied?
  }

  ghost predicate WasApplied(v: Word, log: seq<Entry>) {
    exists j :: 0 <= j < |log| && log[j].Applied? && log[j].word == v
  }

  ghost predicate EntryOk(log: seq<Entry>, k: nat)
    requires k < |log|
  {
    match log[k]
    case Desired(v) => v > 1 && forall j :: 0 <= j < k && log[j].Desired? ==> log[j].word < v
    case Applied(v, byWorker) =>
      && (v == 1 || Desired(v) in log[..k]) && CaptureClosed(log[..k])
      && (byWorker ==> DrainedSince(log[..k]))
    case Published(v) =>
      && Enabled(v)
      && (v == 1 || WasApplied(v, log[..k]))
      && (forall j :: 0 <= j < k && log[j].Desired? ==> log[j].word <= v)
    case Drained => true
  }

  ghost predicate LogOk(w: World) {
    && (forall k :: 0 <= k < |w.log| ==> EntryOk(w.log, k))
    && (forall k :: 0 <= k < |w.log| && w.log[k].Desired? ==> w.log[k].word <= w.desired)
    && (w.desired == 1 || Desired(w.desired) in w.log)
    && (w.applied == 1 || WasApplied(w.applied, w.log))
    && (w.holder.WorkerDrained? || w.holder.WorkerChecked? ==> DrainedSince(w.log))
    && (w.conn.NoConn? ==> CaptureClosed(w.log))
    && (w.holder.WorkerLoaded? || w.holder.WorkerDrained? || w.holder.WorkerChecked? || w.holder.OpenerLoaded? ==>
          w.holder.state == 1 || Desired(w.holder.state) in w.log)
  }

  ghost predicate Inv(w: World) {
    Fenced(w) && LogOk(w)
  }

  predicate Fenced(w: World) {
    w.applied <= w.desired && HolderOk(w) && ReadersOk(w) && NotForgotten(w)
  }

  predicate Grows(w: World, v: World) {
    w.applied <= v.applied && w.desired <= v.desired
  }

  lemma ReaderFences(w: World, e: Event)
    requires Fenced(w)
    ensures Fenced(ReaderStep(w, e)) && Grows(w, ReaderStep(w, e))
  {
  }

  lemma StoreFences(w: World)
    requires Fenced(w)
    ensures Fenced(WorkerStep(w, Store)) && Grows(w, WorkerStep(w, Store))
  {
  }

  lemma WorkerFences(w: World, e: Event)
    requires Fenced(w)
    ensures Fenced(WorkerStep(w, e)) && Grows(w, WorkerStep(w, e))
  {
    if e.Store? {
      StoreFences(w);
    }
  }

  lemma SetFences(w: World, enabled: bool)
    requires Fenced(w)
    ensures Fenced(SetTelemetryStep(w, enabled)) && Grows(w, SetTelemetryStep(w, enabled))
  {
  }

  /** Applied never passes desired, both only grow, and no publisher is surprised. */
  lemma StepFences(w: World, e: Event)
    requires Fenced(w)
    ensures Fenced(Step(w, e)) && Grows(w, Step(w, e))
  {
    hide ReaderStep, WorkerStep, SetTelemetryStep;
    match e {
      case SetTelemetry(enabled) => SetFences(w, enabled);
      case Enter(_) => ReaderFences(w, e);
      case Check(_) => ReaderFences(w, e);
      case Leave(_) => ReaderFences(w, e);
      case SendSignal =>
      case Disconnect =>
      case CloseOld =>
      case BeginOpen =>
      case FailOpen =>
      case _ => WorkerFences(w, e);
    }
  }

  lemma AppendKeeps(log: seq<Entry>, e: Entry)
    requires forall k :: 0 <= k < |log| ==> EntryOk(log, k)
    requires EntryOk(log + [e], |log|)
    ensures forall k :: 0 <= k < |log + [e]| ==> EntryOk(log + [e], k)
  {
    var longer := log + [e];
    forall k | 0 <= k < |log| ensures EntryOk(longer, k) {
      assert EntryOk(log, k) && longer[..k] == log[..k];
    }
  }

  lemma DrainedAppend(log: seq<Entry>, e: Entry)
    requires !e.Applied? && (DrainedSince(log) || e.Drained?)
    ensures DrainedSince(log + [e])
  {
    if e.Drained? {
      assert (log + [e])[|log|].Drained?;
    } else {
      var d :| 0 <= d < |log| && log[d].Drained? && forall j :: d < j < |log| ==> !log[j].Applied?;
      assert (log + [e])[d].Drained?;
    }
  }

  /** Anything but an applied word keeps a closed capture closed, and a drain closes it. */
  lemma ClosedAppend(log: seq<Entry>, e: Entry)
    requires !e.Applied? && (CaptureClosed(log) || e.Drained?)
    ensures CaptureClosed(log + [e])
  {
    var longer := log + [e];
    forall i | 0 <= i < |longer| && IsLastEnabled(longer, i)
      ensures exists d :: i < d < |longer| && longer[d].Drained?
    {
      assert i < |log| && longer[i] == log[i];
      if e.Drained? {
        assert longer[|log|].Drained?;
      } else {
        forall j | i < j < |log| ensures !log[j].Applied? { assert longer[j] == log[j]; }
        assert IsLastEnabled(log, i);
        var d :| i < d < |log| && log[d].Drained?;
        assert longer[d].Drained?;
      }
    }
  }

  /** Applying a disabled word leaves no capture open. */
  lemma ClosedByDisabled(log: seq<Entry>, e: Entry)
    requires e.Applied? && !Enabled(e.word)
    ensures CaptureClosed(log + [e])
  {
    var longer := log + [e];
    forall i | 0 <= i < |longer| ensures !IsLastEnabled(longer, i) {
      assert longer[|log|] == e;
    }
  }

  lemma DrainedIsClosed(log: seq<Entry>)
    requires DrainedSince(log)
    ensures CaptureClosed(log)
  {
    var d :| 0 <= d < |log| && log[d].Drained? && forall j :: d < j < |log| ==> !log[j].Applied?;
    forall i | 0 <= i < |log| && IsLastEnabled(log, i) ensures exists k :: i < k < |log| && log[k].Drained? {
      assert i < d;
    }
  }

  lemma WasAppliedAppend(v: Word, log: seq<Entry>, e: Entry)
    requires WasApplied(v, log) || (e.Applied? && e.word == v)
    ensures WasApplied(v, log + [e])
  {
    if WasApplied(v, log) {
      var j :| 0 <= j < |log| && log[j].Applied? && log[j].word == v;
      assert (log + [e])[j] == log[j];
    } else {
      assert (log + [e])[|log|] == e;
    }
  }

  /** One more entry, other than an applied word, and what the log still says. */
  lemma PlainAppend(w: World, v: World, e: Entry)
    requires LogOk(w) && !e.Applied? && v.log == w.log + [e] && EntryOk(v.log, |w.log|)
    ensures forall k :: 0 <= k < |v.log| ==> EntryOk(v.log, k)
    ensures DrainedSince(w.log) || e.Drained? ==> DrainedSince(v.log)
    ensures CaptureClosed(w.log) || e.Drained? ==> CaptureClosed(v.log)
    ensures forall u :: WasApplied(u, w.log) ==> WasApplied(u, v.log)
  {
    hide DrainedSince, CaptureClosed, WasApplied;
    AppendKeeps(w.log, e);
    if DrainedSince(w.log) || e.Drained? { DrainedAppend(w.log, e); }
    if CaptureClosed(w.log) || e.Drained? { ClosedAppend(w.log, e); }
    forall u | WasApplied(u, w.log) ensures WasApplied(u, v.log) { WasAppliedAppend(u, w.log, e); }
  }

  lemma SetLogs(w: World, enabled: bool)
    requires Inv(w)
    ensures LogOk(SetTelemetryStep(w, enabled))
  {
    var v := SetTelemetryStep(w, enabled);
    if v != w {
      hide DrainedSince, CaptureClosed, WasApplied;
      assert v.log[..|w.log|] == w.log;
      assert EntryOk(v.log, |w.log|);
      PlainAppend(w, v, Desired(v.desired));
      hide EntryOk;
      assert v.log[|w.log|] == Desired(v.desired);
    }
  }

  lemma ReaderLogs(w: World, e: Event)
    requires Inv(w)
    ensures LogOk(ReaderStep(w, e))
  {
    var v := ReaderStep(w, e);
    hide DrainedSince, CaptureClosed, WasApplied;
    if v.log != w.log {
      assert v.log[..|w.log|] == w.log;
      assert EntryOk(v.log, |w.log|);
      PlainAppend(w, v, Published(w.desired));
    }
    hide EntryOk;
  }

  lemma DrainLogs(w: World, e: Event)
    requires Inv(w) && (e.Drain? || e.CloseOld?)
    ensures LogOk(Step(w, e))
  {
    var v := Step(w, e);
    hide DrainedSince, CaptureClosed, WasApplied, EntryOk;
    if v.log != w.log {
      DrainEntry(w.log);
      PlainAppend(w, v, Drained);
    }
  }

  lemma DrainEntry(log: seq<Entry>)
    ensures EntryOk(log + [Drained], |log|)
  {
    assert (log + [Drained])[|log|] == Drained;
  }

  lemma AppliedEntry(log: seq<Entry>, v: Word, byWorker: bool)
    requires v == 1 || Desired(v) in log
    requires if byWorker then DrainedSince(log) else CaptureClosed(log)
    ensures EntryOk(log + [Applied(v, byWorker)], |log|)
  {
    if byWorker { DrainedIsClosed(log); }
    hide DrainedSince, CaptureClosed;
    assert (log + [Applied(v, byWorker)])[..|log|] == log;
  }

  lemma StoreLogs(w: World)
    requires Inv(w)
    ensures LogOk(WorkerStep(w, Store))
  {
    var v := WorkerStep(w, Store);
    hide DrainedSince, CaptureClosed, WasApplied, EntryOk;
    if v.log != w.log {
      var e := Applied(v.applied, w.holder.WorkerChecked?);
      AppliedEntry(w.log, v.applied, w.holder.WorkerChecked?);
      AppendKeeps(w.log, e);
      WasAppliedAppend(v.applied, w.log, e);
      if v.conn.NoConn? { ClosedByDisabled(w.log, e); }
    }
  }

  lemma StepLogs(w: World, e: Event)
    requires Inv(w)
    ensures LogOk(Step(w, e))
  {
    hide EntryOk, DrainedSince, CaptureClosed, WasApplied;
    match e {
      case SetTelemetry(enabled) => SetLogs(w, enabled);
      case Enter(_) => ReaderLogs(w, e);
      case Check(_) => ReaderLogs(w, e);
      case Leave(_) => ReaderLogs(w, e);
      case Drain => DrainLogs(w, e);
      case CloseOld => DrainLogs(w, e);
      case Store => StoreLogs(w);
      case _ =>
    }
  }

  // ---- Whole runs ----

  ghost predicate Next(w: World, v: World) {
    exists e :: v == Step(w, e)
  }

  ghost predicate IsRun(trace: seq<World>) {
    && |trace| > 0
    && trace[0] == INITIAL
    && forall i :: 0 <= i < |trace| - 1 ==> Next(trace[i], trace[i + 1])
  }

  lemma NextKeeps(w: World, v: World)
    requires Inv(w) && Next(w, v)
    ensures Inv(v) && Grows(w, v)
  {
    var e :| v == Step(w, e);
    hide Step, Fenced, LogOk, Grows;
    StepFences(w, e);
    StepLogs(w, e);
  }

  lemma {:induction false} RunInv(trace: seq<World>, n: nat)
    requires IsRun(trace) && n < |trace|
    ensures Inv(trace[n])
  {
    hide Next;
    if n > 0 {
      RunInv(trace, n - 1);
      hide Inv;
      assert Next(trace[n - 1], trace[n - 1 + 1]);
      NextKeeps(trace[n - 1], trace[n]);
    }
  }

  lemma RunGrows(trace: seq<World>, n: nat)
    requires IsRun(trace) && n + 1 < |trace|
    ensures Grows(trace[n], trace[n + 1])
  {
    RunInv(trace, n);
    hide Inv, Next;
    assert Next(trace[n], trace[n + 1]);
    NextKeeps(trace[n], trace[n + 1]);
  }

  lemma InvFacts(w: World)
    requires Inv(w)
    ensures w.applied <= w.desired && NotForgotten(w)
  {
  }

  /** Over every run: the applied revision never passes the desired one, neither ever goes
      back, and a revision that is not applied is never forgotten. */
  lemma {:induction false} RevisionsOnlyGrow(trace: seq<World>, m: nat, n: nat)
    requires IsRun(trace) && m <= n < |trace|
    ensures trace[n].applied <= trace[n].desired && NotForgotten(trace[n])
    ensures trace[m].applied <= trace[n].applied && trace[m].desired <= trace[n].desired
    decreases n - m
  {
    hide IsRun, Inv, NotForgotten;
    RunInv(trace, n);
    InvFacts(trace[n]);
    if m < n {
      RevisionsOnlyGrow(trace, m, n - 1);
      RunGrows(trace, n - 1);
    }
  }

  /** A non-monitor event that leaves the fence leaves it while the desired word is enabled
      and applied, whatever ran between the check and the hand-over. */
  lemma PublishedOnlyWhenApplied(trace: seq<World>, n: nat)
    requires IsRun(trace) && n + 1 < |trace|
    requires trace[n + 1].log == trace[n].log + [Published(trace[n].desired)]
    ensures Enabled(trace[n].desired) && trace[n].applied == trace[n].desired
  {
    RunInv(trace, n);
    hide Fenced, LogOk;
    assert Next(trace[n], trace[n + 1]);
    PublishStep(trace[n], trace[n + 1]);
  }

  lemma PublishStep(w: World, v: World)
    requires Fenced(w) && Next(w, v) && v.log == w.log + [Published(w.desired)]
    ensures Enabled(w.desired) && w.applied == w.desired
  {
    var e :| v == Step(w, e);
    assert v.log[|w.log|] == Published(w.desired);
    if e.Leave? {
      assert ReadersOk(w);
    } else {
      OnlyLeavePublishes(w, e);
    }
  }

  lemma OnlyLeavePublishes(w: World, e: Event)
    requires !e.Leave?
    ensures Step(w, e).log == w.log || (|Step(w, e).log| == |w.log| + 1 && !Step(w, e).log[|w.log|].Published?)
  {
  }

  /** After a disabled word is committed, the next published event needs a later enabled word
      to have been applied in between: a false SetTelemetry that returned silences capture. */
  lemma DisabledSilences(trace: seq<World>, n: nat, i: nat, k: nat)
    requires IsRun(trace) && n < |trace|
    requires var log := trace[n].log;
      i < k < |log| && log[i].Desired? && !Enabled(log[i].word) && log[k].Published?
    ensures var log := trace[n].log;
      exists j :: i < j < k && log[j].Applied? && Enabled(log[j].word) && log[j].word > log[i].word
  {
    RunInv(trace, n);
    hide IsRun, Fenced;
    var log := trace[n].log;
    assert EntryOk(log, i) && EntryOk(log, k);
    var v := log[k].word;
    assert log[i].word <= v;
    assert WasApplied(v, log[..k]);
    var j :| 0 <= j < k && log[j].Applied? && log[j].word == v;
    assert EntryOk(log, j);
    var d :| 0 <= d < j && log[d] == Desired(v);
    assert EntryOk(log, d);
  }

  /** Whatever the worker applies it applies after a drain of its own: no other word has been
      applied since. */
  lemma WorkerDrainsFirst(trace: seq<World>, n: nat, k: nat)
    requires IsRun(trace) && n < |trace|
    requires k < |trace[n].log| && trace[n].log[k].Applied? && trace[n].log[k].byWorker
    ensures DrainedSince(trace[n].log[..k])
  {
    RunInv(trace, n);
    hide IsRun, Fenced;
    assert EntryOk(trace[n].log, k);
  }

  /** Between an enabled applied word and any later applied word the capture of the first is
      drained, also for an off/on pair that was coalesced. */
  lemma {:induction false} EnabledIsDrained(trace: seq<World>, n: nat, i: nat, k: nat)
    requires IsRun(trace) && n < |trace|
    requires var log := trace[n].log;
      i < k < |log| && log[i].Applied? && Enabled(log[i].word) && log[k].Applied?
    ensures exists d :: i < d < k && trace[n].log[d].Drained?
    decreases k
  {
    var log := trace[n].log;
    if j :| i < j < k && log[j].Applied? {
      EnabledIsDrained(trace, n, i, j);
    } else {
      RunInv(trace, n);
      hide IsRun, Fenced;
      assert EntryOk(log, k) && CaptureClosed(log[..k]);
      assert IsLastEnabled(log[..k], i);
      var d :| i < d < |log[..k]| && log[..k][d].Drained?;
      assert log[d].Drained?;
    }
  }

  // ---- Why the earlier word has to be an enabled one ----

  ghost predicate Reachable(w: World) {
    exists trace :: IsRun(trace) && trace[|trace| - 1] == w
  }

  ghost predicate BothApplied(log: seq<Entry>, i: nat, k: nat) {
    i < k < |log| && log[i].Applied? && log[k].Applied?
  }

  ghost predicate DrainedBetween(log: seq<Entry>, i: nat, k: nat) {
    exists d :: i < d < k < |log| && log[d].Drained?
  }

  lemma Extend(w: World, e: Event) returns (v: World)
    requires Reachable(w)
    ensures v == Step(w, e) && Reachable(v)
  {
    var trace :| IsRun(trace) && trace[|trace| - 1] == w;
    hide Step;
    v := Step(w, e);
    var longer := trace + [v];
    assert Next(w, v);
    forall i | 0 <= i < |longer| - 1 ensures Next(longer[i], longer[i + 1]) {
      if i < |trace| - 1 { assert Next(trace[i], trace[i + 1]); }
    }
    assert IsRun(longer);
  }

  /** The first connection applies word 1. */
  const OPENED := [Applied(1, false)]

  /** It is lost and closed, which drains it; then capture is switched off, and the worker
      drains and applies word 2 while there is no connection. */
  const SWITCHED_OFF := OPENED + [Drained, Desired(2), Drained, Applied(2, true)]

  lemma FirstOpens()
    ensures Reachable(INITIAL.(conn := Live, log := OPENED))
  {
    assert IsRun([INITIAL]);
    assert [INITIAL][|[INITIAL]| - 1] == INITIAL;
    var w := Extend(INITIAL, BeginOpen);
    w := Extend(w, Load);
    w := Extend(w, Store);
    assert w == INITIAL.(conn := Live, log := OPENED);
  }

  function Closing(log: seq<Entry>, holder: Holder): World {
    INITIAL.(desired := 2, log := log, holder := holder, workerWaits := true)
  }

  lemma WorkerLocks()
    ensures Reachable(Closing(SWITCHED_OFF[..3], WorkerWaiting))
  {
    FirstOpens();
    var w := Extend(INITIAL.(conn := Live, log := OPENED), Disconnect);
    w := Extend(w, CloseOld);
    w := Extend(w, SetTelemetry(false));
    w := Extend(w, SendSignal);
    w := Extend(w, TakeSignal);
    w := Extend(w, LockForWorker);
    assert w.log == SWITCHED_OFF[..3];
    assert w == Closing(SWITCHED_OFF[..3], WorkerWaiting);
  }

  lemma WorkerSwitchesOff()
    ensures Reachable(INITIAL.(desired := 2, applied := 2, log := SWITCHED_OFF))
  {
    WorkerLocks();
    var w := Extend(Closing(SWITCHED_OFF[..3], WorkerWaiting), Load);
    w := Extend(w, Drain);
    assert w.log == SWITCHED_OFF[..4];
    assert w == Closing(SWITCHED_OFF[..4], WorkerDrained(2));
    w := Extend(w, CheckDesired);
    w := Extend(w, Store);
    assert w.log == SWITCHED_OFF;
    assert w == INITIAL.(desired := 2, applied := 2, log := SWITCHED_OFF);
  }

  /** The next connection applies the word that switched capture on again, and nothing was
      drained since the word before it. */
  lemma OpenerDoesNotDrain()
    ensures exists w :: Reachable(w) && w.log == SWITCHED_OFF + [Desired(5), Applied(5, false)]
  {
    WorkerSwitchesOff();
    var w := Extend(INITIAL.(desired := 2, applied := 2, log := SWITCHED_OFF), SetTelemetry(true));
    w := Extend(w, BeginOpen);
    w := Extend(w, Load);
    w := Extend(w, Store);
    assert w.log == SWITCHED_OFF + [Desired(5), Applied(5, false)];
  }

  /** Of two applied words the capture of the earlier is drained before the later is applied,
      in every run, exactly when the earlier is an enabled one. */
  lemma DrainedBetweenIff(enabled: bool)
    ensures enabled <==>
      forall w, i: nat, k: nat :: Reachable(w) && BothApplied(w.log, i, k) && Enabled(w.log[i].word) == enabled ==>
        DrainedBetween(w.log, i, k)
  {
    if enabled {
      forall w, i: nat, k: nat | Reachable(w) && BothApplied(w.log, i, k) && Enabled(w.log[i].word)
        ensures DrainedBetween(w.log, i, k)
      {
        var trace :| IsRun(trace) && trace[|trace| - 1] == w;
        EnabledIsDrained(trace, |trace| - 1, i, k);
      }
    } else {
      OpenerDoesNotDrain();
      var w :| Reachable(w) && w.log == SWITCHED_OFF + [Desired(5), Applied(5, false)];
      assert BothApplied(w.log, 4, 6) && !Enabled(w.log[4].word);
      assert !DrainedBetween(w.log, 4, 6);
    }
  }

  // ---- What does happen ----

  /** A publisher that nobody disturbs hands its event on exactly if the desired word is enabled
      and applied, and leaves the fence in either case. */
  lemma PublishesIff(w: World, r: nat)
    requires r !in w.readers
    ensures var entered := Step(w, Enter(r)); var v := Step(Step(entered, Check(r)), Leave(r));
      && r in entered.readers && v == w.(log := v.log)
      && v.log == if Enabled(w.desired) && w.desired == w.applied then w.log + [Published(w.desired)] else w.log
  {
    assert w.readers[r := Entered] - {r} == w.readers;
    assert w.readers[r := Entered][r := Passed] - {r} == w.readers;
  }

  /** A publisher enters once, is checked once and leaves once. */
  lemma OnlyInsidersMove(w: World, r: nat)
    ensures r !in w.readers ==> Step(w, Check(r)) == w && Step(w, Leave(r)) == w
    ensures r in w.readers ==> Step(w, Enter(r)) == w && (w.readers[r].Passed? ==> Step(w, Check(r)) == w)
    ensures r in w.readers && w.readers[r].Entered? ==> Step(w, Leave(r)) == w
  {}

  /** A setting is committed, and someone told to signal it, exactly when it is new and no
      publisher is inside the fence. */
  lemma CommitsIff(w: World, enabled: bool)
    ensures var v := Step(w, SetTelemetry(enabled));
      if w.readers == map[] && Enabled(w.desired) != enabled then
        && Enabled(v.desired) == enabled && v.desired > w.desired && v.unsent == w.unsent + 1
        && v.log == w.log + [Desired(v.desired)] && v.applied == w.applied
      else v == w
    ensures w.unsent > 0 ==> Step(w, SendSignal) == w.(unsent := w.unsent - 1, signal := true)
  {}

  /** The steps of the worker from its signal to its store, with nothing else in between. */
  function WorkerRuns(w: World): World {
    Step(Step(Step(Step(Step(Step(w, TakeSignal), LockForWorker), Load), Drain), CheckDesired), Store)
  }

  predicate WorkerCanRun(w: World) {
    w.signal && !w.workerWaits && w.holder.Nobody?
  }

  /** A signalled worker that nobody disturbs drains and applies the desired word, unless it is
      applied already, or enabled with no working connection to apply it on. */
  lemma WorkerApplies(w: World)
    requires WorkerCanRun(w)
    ensures var v, drained := WorkerRuns(w), w.(signal := false, log := w.log + [Drained]);
      if w.applied == w.desired then v == w.(signal := false)
      else if Enabled(w.desired) && !w.conn.Live? then v == drained
      else v == drained.(applied := w.desired, log := w.log + [Drained, Applied(w.desired, true)])
  {
    assert w.log + [Drained] + [Applied(w.desired, true)] == w.log + [Drained, Applied(w.desired, true)];
  }

  /** A worker that finds another word desired after its drain stores nothing and signals again;
      one whose cleanup fails gives the connection up. */
  lemma WorkerStartsOver(w: World)
    requires w.holder.WorkerDrained?
    ensures w.desired != w.holder.state ==>
      Step(w, CheckDesired) == w.(holder := Nobody, workerWaits := false, signal := true)
    ensures w.conn.Live? ==> Step(w, CleanupFails) == w.(holder := Nobody, workerWaits := false, conn := Lost)
    ensures !w.conn.Live? ==> Step(w, CleanupFails) == w
  {}

  /** An opener that nobody disturbs applies the desired word on a new connection, or gives up
      and leaves everything as it was; closing drops the connection and drains. */
  lemma OpenerApplies(w: World)
    requires w.holder.Nobody?
    ensures Step(w, CloseOld) == w.(conn := NoConn, log := w.log + [Drained])
    ensures w.conn.NoConn? ==>
      && Step(Step(Step(w, BeginOpen), Load), Store)
           == w.(conn := Live, applied := w.desired, log := w.log + [Applied(w.desired, false)])
      && Step(Step(w, BeginOpen), FailOpen) == w
    ensures !w.conn.NoConn? ==> Step(w, BeginOpen) == w
    ensures Step(w, Disconnect).conn == if w.conn.Live? then Lost else w.conn
  {}

  /** Turning capture off and on again is never the word that was applied before, so the
      worker cannot skip the drain; asking for the current setting changes nothing. */
  lemma OffOnIsNew(w: Word, enabled: bool)
    ensures Enabled(NextWord(w, enabled)) == enabled
    ensures NextWord(w, enabled) == w <==> Enabled(w) == enabled
    ensures NextWord(w, enabled) / 2 == w / 2 + (if Enabled(w) == enabled then 0 else 1)
    ensures NextWord(w, enabled) >= w && NextWord(NextWord(w, !Enabled(w)), Enabled(w)) > w
  {
  }

  // ---- The word as the source updates it ----

  class TelemetryState {
    var desired: Word
    var applied: Word
    var signalled: bool

    constructor ()
      ensures desired == applied == 1 && !signalled
    {
      desired, applied, signalled := 1, 1, false;
    }

    method SetTelemetry(enabled: bool)
      modifies this
      ensures desired == NextWord(old(desired), enabled) && applied == old(applied)
      ensures signalled == (old(signalled) || desired != old(desired))
    {
      var state := desired;
      var changed := (state % 2 != 0) != enabled;
      if changed {
        state := (state - state % 2) + 2;
        if enabled {
          state := state + 1;
        }
        desired := state;
        signalled := true;
      }
    }

    method CaptureEnabled() returns (ok: bool)
      ensures ok <==> Enabled(desired) && desired == applied
    {
      var state := desired;
      ok := state % 2 != 0 && state == applied;
    }
  }
}
