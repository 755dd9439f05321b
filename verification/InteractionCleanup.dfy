/**
  Obligations to clean injected listeners out of live documents (server/lib/cdpmonitor:
  domains.go, interaction_cleanup.go, telemetry.go, monitor.go), against a browser that may
  apply, reject or lose any command and may destroy, detach and replace at any moment.

  One live session per target; a dropped session loses its scripts and its queued commands
  and rejects later ones; commands of one session are handled in the order they were sent;
  target and session ids are never reused. Only page-like targets are modelled.
*/
module InteractionCleanup {
  import opened Collections

  type Target = nat
  type SessionId = nat
  type Script = nat

  /** Commands that matter, numbered per session. AddTracker installs the tracker on future
      documents, Evaluate in the current one, Cleanup removes it from every document. */
  datatype Command =
    | AddTracker(op: nat)
    | Evaluate(op: nat)
    | Cleanup(op: nat)
    | RemoveScript(op: nat, script: Script)

  /** Garbled is a success the client cannot decode. */
  datatype Reply = Success(script: Script) | Garbled | Rejected

  /** What the monitor has been told about a session. */
  datatype Delivery = Unannounced | Attached | Detached

  /** The optionalSessions entry: absent, or present with the registered script, if known. */
  datatype Marker = Unmarked | Marked(script: Option<Script>)

  /** The goroutine that serves a session. All phases but the first two hold the read lock. */
  datatype Worker =
    | Idle
    | Starting
    | Locked
    | Cleaning(op: nat)
    | Cleaned
    | Readying
    | Enabling
    | Registering
    | Injecting(op: nat, counted: bool, destroyed: bool)
    | Recorded(script: Script)
    | Evaluating

  /** One session: its browser side, then what the monitor holds about it. lost records, for
      the proof, that the monitor no longer knows which scripts the session registered. */
  datatype Session = Session(
    target: Target,
    alive: bool,
    scripts: set<Script>,
    queue: seq<Command>,
    replies: map<nat, Reply>,
    nextOp: nat,
    delivery: Delivery,
    marker: Marker,
    ready: bool,
    worker: Worker,
    lost: bool)

  datatype Connection = Up | Cancelled | Closed | Pruning(snapshot: set<Target>)

  /** applyTelemetry, which holds the write lock from begin to end. */
  datatype Applier =
    | Off
    | Sweeping(todo: set<SessionId>, failed: bool)
    | Removing(session: SessionId, op: nat, todo: set<SessionId>, failed: bool)
    | Scrubbing(session: SessionId, op: nat, bad: bool, todo: set<SessionId>, failed: bool)
    | Finishing(session: SessionId, bad: bool, todo: set<SessionId>, failed: bool)
    | Deciding(cleaned: bool)

  datatype World = World(
    live: set<Target>,
    nextTarget: Target,
    carrying: set<Target>,
    sessions: map<SessionId, Session>,
    nextSession: SessionId,
    nextScript: Script,
    obligations: set<Target>,
    telemetry: bool,
    connection: Connection,
    applier: Applier)

  predicate HoldsLock(k: Worker) {
    !k.Idle? && !k.Starting?
  }

  predicate WriteLocked(w: World) {
    !w.applier.Off?
  }

  predicate NoneHoldsLock(w: World) {
    forall s :: s in w.sessions ==> !HoldsLock(w.sessions[s].worker)
  }

  function Put(w: World, s: SessionId, x: Session): World {
    w.(sessions := w.sessions[s := x])
  }

  function Dropped(x: Session): Session {
    x.(alive := false, scripts := {}, queue := [])
  }

  /** Sending: a dropped session rejects at once. */
  function Sent(x: Session, c: Command): Session {
    if x.alive then x.(queue := x.queue + [c], nextOp := x.nextOp + 1)
    else x.(replies := x.replies[x.nextOp := Rejected], nextOp := x.nextOp + 1)
  }

  /** How the monitor sees the outcome of an operation: its reply, or nothing in time. */
  function Outcome(x: Session, op: nat, inTime: bool): Option<Reply> {
    if inTime && op in x.replies then Some(x.replies[op]) else None
  }

  // ---- The browser ----

  function NewTarget(w: World): World {
    w.(live := w.live + {w.nextTarget}, nextTarget := w.nextTarget + 1)
  }

  function DestroyTarget(w: World, t: Target): World {
    w.(live := w.live - {t}, carrying := w.carrying - {t},
       sessions := map s | s in w.sessions ::
         if w.sessions[s].target == t then Dropped(w.sessions[s]) else w.sessions[s])
  }

  predicate HasSession(w: World, t: Target) {
    exists s :: s in w.sessions && w.sessions[s].alive && w.sessions[s].target == t
  }

  function NewSession(w: World, t: Target): World {
    if t in w.live && !HasSession(w, t) && (w.connection.Up? || w.connection.Cancelled?) then
      w.(sessions := w.sessions[w.nextSession :=
           Session(t, true, {}, [], map[], 0, Unannounced, Unmarked, false, Idle, false)],
         nextSession := w.nextSession + 1)
    else w
  }

  function DropSession(w: World, s: SessionId): World {
    if s in w.sessions then Put(w, s, Dropped(w.sessions[s])) else w
  }

  /** A new document of a session with a registered tracker carries the listeners. */
  function NewDocument(w: World, s: SessionId): World {
    if s in w.sessions && w.sessions[s].alive && w.sessions[s].scripts != {} then
      w.(carrying := w.carrying + {w.sessions[s].target})
    else w
  }

  /** Handling the oldest command of a session: what becomes of the session. */
  function Handled(x: Session, verdict: Reply, next: Script): Session
    requires x.queue != []
  {
    var c := x.queue[0];
    var reply := if verdict.Success? then Success(next) else verdict;
    var done := x.(queue := x.queue[1..], replies := x.replies[c.op := reply]);
    if reply.Rejected? then done
    else match c
      case AddTracker(_) => done.(scripts := x.scripts + {next})
      case Evaluate(_) => done
      case Cleanup(_) => done
      case RemoveScript(_, script) => done.(scripts := x.scripts - {script})
  }

  function Handle(w: World, s: SessionId, verdict: Reply): World {
    if s !in w.sessions || !w.sessions[s].alive || w.sessions[s].queue == [] then w
    else
      var x := w.sessions[s];
      var v := Put(w, s, Handled(x, verdict, w.nextScript)).(nextScript := w.nextScript + 1);
      if verdict.Rejected? then v
      else match x.queue[0]
        case AddTracker(_) => v
        case Evaluate(_) => v.(carrying := w.carrying + {x.target})
        case Cleanup(_) => v.(carrying := w.carrying - {x.target})
        case RemoveScript(_, _) => v
  }

  // ---- Events the monitor receives ----

  /** The monitor hears of a target's newer session only after the older one's detach. */
  predicate OlderGone(w: World, t: Target) {
    forall s :: s in w.sessions && w.sessions[s].target == t ==> !w.sessions[s].delivery.Attached?
  }

  function DeliverAttached(w: World, s: SessionId): World {
    if s in w.sessions && w.sessions[s].delivery.Unannounced? && OlderGone(w, w.sessions[s].target)
       && (w.connection.Up? || w.connection.Cancelled?) then
      Put(w, s, w.sessions[s].(delivery := Attached, worker := Starting))
    else w
  }

  function Forgotten(x: Session): Session {
    x.(delivery := Detached, marker := Unmarked, ready := false)
  }

  function DeliverDetached(w: World, s: SessionId): World {
    if s in w.sessions && !w.sessions[s].alive then Put(w, s, Forgotten(w.sessions[s])) else w
  }

  function MarkDestroyed(x: Session, t: Target): Session {
    if x.target == t && x.worker.Injecting? && x.worker.counted then x.(worker := x.worker.(destroyed := true)) else x
  }

  function DeliverDestroyed(w: World, t: Target): World {
    if t < w.nextTarget && t !in w.live then
      w.(obligations := w.obligations - {t},
         sessions := map s | s in w.sessions :: MarkDestroyed(w.sessions[s], t))
    else w
  }

  // ---- The worker of one session ----

  function StopWorker(w: World, s: SessionId): World
    requires s in w.sessions
  {
    Put(w, s, w.sessions[s].(worker := Idle))
  }

  function Cancel(w: World): World {
    if w.connection.Up? then w.(connection := Cancelled) else w
  }

  /** One step of the worker. ok is the outcome of commands whose effect does not matter here
      and inTime whether the awaited reply arrives before its deadline. guarded asks the
      worker to look, before it deletes an obligation, whether its session is still attached;
      the source does not. */
  function WorkerStep(w: World, s: SessionId, ok: bool, inTime: bool, guarded: bool): World
    requires s in w.sessions
  {
    var x := w.sessions[s];
    match x.worker
    case Idle =>
      // A goroutine started by applyTelemetry for a session that is ready.
      if x.ready && !WriteLocked(w) then Put(w, s, x.(worker := Enabling)) else w
    case Starting =>
      if !ok then (if x.delivery.Attached? then Cancel(StopWorker(w, s)) else StopWorker(w, s))
      else if WriteLocked(w) then w
      else Put(w, s, x.(worker := Locked))
    case Locked =>
      if x.target !in w.obligations then Put(w, s, x.(worker := Readying))
      else Put(w, s, Sent(x, Cleanup(x.nextOp)).(worker := Cleaning(x.nextOp)))
    case Cleaning(op) =>
      var reply := Outcome(x, op, inTime);
      if reply.None? && inTime then w
      else if reply.Some? && reply.value.Success? then Put(w, s, x.(worker := Cleaned))
      else if x.delivery.Attached? then Cancel(StopWorker(w, s))
      else Put(w, s, x.(worker := Readying))
    case Cleaned =>
      if ok then
        var done := Put(w, s, x.(worker := Readying));
        if guarded && !x.delivery.Attached? then done else done.(obligations := w.obligations - {x.target})
      else if x.delivery.Attached? then Cancel(StopWorker(w, s))
      else Put(w, s, x.(worker := Readying))
    case Readying =>
      Put(w, s, x.(ready := x.ready || x.delivery.Attached?, worker := Enabling))
    case Enabling =>
      if x.delivery.Attached? && x.marker.Unmarked? && w.telemetry && w.connection.Up? then
        Put(w, s, x.(marker := Marked(None), worker := Registering))
      else StopWorker(w, s)
    case Registering =>
      // The deadline of the session's set-up may have passed before the injection.
      if !ok then Cancel(StopWorker(w, s)) else
      var counted := x.delivery.Attached?;
      Put(w, s, Sent(x, AddTracker(x.nextOp)).(worker := Injecting(x.nextOp, counted, false)))
    case Injecting(op, counted, destroyed) =>
      var reply := Outcome(x, op, inTime);
      if reply.None? && inTime then w
      else
        var rejected := reply.Some? && reply.value.Rejected?;
        var noted := if counted && !destroyed && !rejected then w.(obligations := w.obligations + {x.target}) else w;
        if destroyed || rejected then StopWorker(noted, s)
        else if reply.Some? && reply.value.Success? then Put(noted, s, x.(worker := Recorded(reply.value.script)))
        else Cancel(Put(noted, s, x.(worker := Idle, lost := true)))
    case Recorded(script) =>
      Put(w, s, x.(marker := if x.marker.Unmarked? then Unmarked else Marked(Some(script)), worker := Evaluating))
    case Evaluating =>
      Put(w, s, Sent(x, Evaluate(x.nextOp)).(worker := Idle))
  }

  // ---- applyTelemetry ----

  function BeginApply(w: World): World {
    if !w.applier.Off? || !NoneHoldsLock(w) || w.connection.Closed? || w.connection.Pruning? then w
    else
      var quiet := w.(telemetry := false);
      if w.connection.Up? then
        quiet.(applier := Sweeping(set s | s in w.sessions && w.sessions[s].marker.Marked?, false))
      else ClearMarkers(quiet, true).(applier := Deciding(false))
  }

  /** optionalSessions is cleared; blind says that no cleaning preceded it. */
  function ClearMarkers(w: World, blind: bool): World {
    w.(sessions := map s | s in w.sessions ::
         w.sessions[s].(marker := Unmarked, lost := w.sessions[s].lost || blind))
  }

  /** The next session of the sweep: remove its script, scrub its documents, then the rest. */
  function SweepOne(w: World, s: SessionId): World {
    if !w.applier.Sweeping? || s !in w.applier.todo || s !in w.sessions then w
    else
      var x := w.sessions[s];
      var todo, failed := w.applier.todo - {s}, w.applier.failed;
      if !x.delivery.Attached? then w.(applier := Sweeping(todo, failed))
      else if x.marker.Marked? && x.marker.script.Some? then
        Put(w, s, Sent(x, RemoveScript(x.nextOp, x.marker.script.value))).(
          applier := Removing(s, x.nextOp, todo, failed))
      else Scrub(w, s, false, todo, failed)
  }

  function Scrub(w: World, s: SessionId, bad: bool, todo: set<SessionId>, failed: bool): World
    requires s in w.sessions
  {
    var x := w.sessions[s];
    if x.target in w.obligations then
      Put(w, s, Sent(x, Cleanup(x.nextOp))).(applier := Scrubbing(s, x.nextOp, bad, todo, failed))
    else w.(applier := Finishing(s, bad, todo, failed))
  }

  function SweepReply(w: World, ok: bool, inTime: bool): World {
    match w.applier
    case Removing(s, op, todo, failed) =>
      if s !in w.sessions then w
      else
        var reply := Outcome(w.sessions[s], op, inTime);
        if reply.None? && inTime then w
        else Scrub(w, s, !(reply.Some? && reply.value.Success?), todo, failed)
    case Scrubbing(s, op, bad, todo, failed) =>
      if s !in w.sessions then w
      else
        var reply := Outcome(w.sessions[s], op, inTime);
        if reply.None? && inTime then w
        else w.(applier := Finishing(s, bad || !ok || !(reply.Some? && reply.value.Success?), todo, failed))
    case Finishing(s, bad, todo, failed) =>
      if s !in w.sessions then w
      else if bad || !ok then w.(applier := Sweeping(todo, true))
      else
        Put(w, s, w.sessions[s].(marker := Unmarked)).(
          obligations := w.obligations - {w.sessions[s].target}, applier := Sweeping(todo, failed))
    case _ => w
  }

  function EndSweep(w: World): World {
    if !w.applier.Sweeping? || w.applier.todo != {} then w
    else if w.applier.failed || w.obligations != {} then Cancel(w).(applier := Off)
    else ClearMarkers(w, false).(applier := Deciding(true))
  }

  /** The applied revision is disabled, or enabled on a connection that still works; or a
      newer revision has been asked for and nothing is stored. */
  function Decide(w: World, enable: bool): World {
    if !w.applier.Deciding? then w
    else w.(applier := Off, telemetry := enable && w.connection.Up?)
  }

  // ---- Connections ----

  /** closeConnection waits for every worker; clearState follows. */
  function Close(w: World): World {
    if w.applier.Off? && (forall s :: s in w.sessions ==> w.sessions[s].worker.Idle?) then
      w.(connection := Closed, telemetry := false,
         sessions := map s | s in w.sessions :: Forgotten(Dropped(w.sessions[s])))
    else w
  }

  /** pruneInteractionTargets asks the new browser for its targets, then keeps only those. */
  function AskTargets(w: World): World {
    if w.connection.Closed? then w.(connection := Pruning(w.live)) else w
  }

  function Open(w: World, enabled: bool): World {
    if w.connection.Pruning? then
      w.(connection := Up, telemetry := enabled, obligations := w.obligations * w.connection.snapshot)
    else w
  }

  const INITIAL := World({}, 0, {}, map[], 0, 0, {}, false, Closed, Off)

  datatype Event =
    | EvNewTarget
    | EvDestroyTarget(target: Target)
    | EvNewSession(target: Target)
    | EvDropSession(session: SessionId)
    | EvNewDocument(session: SessionId)
    | EvHandle(session: SessionId, verdict: Reply)
    | EvAttached(session: SessionId)
    | EvDetached(session: SessionId)
    | EvDestroyed(target: Target)
    | EvWorker(session: SessionId, ok: bool, inTime: bool)
    | EvBeginApply
    | EvSweepOne(session: SessionId)
    | EvSweepReply(ok: bool, inTime: bool)
    | EvEndSweep
    | EvDecide(enable: bool)
    | EvCancel
    | EvClose
    | EvAskTargets
    | EvOpen(enabled: bool)

  function Step(w: World, e: Event, guarded: bool): World {
    match e
    case EvNewTarget => NewTarget(w)
    case EvDestroyTarget(t) => DestroyTarget(w, t)
    case EvNewSession(t) => NewSession(w, t)
    case EvDropSession(s) => DropSession(w, s)
    case EvNewDocument(s) => NewDocument(w, s)
    case EvHandle(s, verdict) => Handle(w, s, verdict)
    case EvAttached(s) => DeliverAttached(w, s)
    case EvDetached(s) => DeliverDetached(w, s)
    case EvDestroyed(t) => DeliverDestroyed(w, t)
    case EvWorker(s, ok, inTime) => if s in w.sessions then WorkerStep(w, s, ok, inTime, guarded) else w
    case EvBeginApply => BeginApply(w)
    case EvSweepOne(s) => SweepOne(w, s)
    case EvSweepReply(ok, inTime) => SweepReply(w, ok, inTime)
    case EvEndSweep => EndSweep(w)
    case EvDecide(enable) => Decide(w, enable)
    case EvCancel => Cancel(w)
    case EvClose => Close(w)
    case EvAskTargets => AskTargets(w)
    case EvOpen(enabled) => Open(w, enabled)
  }

  // ---- What must hold ----

  predicate IsTracker(c: Command) {
    c.AddTracker? || c.Evaluate?
  }

  predicate NoTracker(q: seq<Command>) {
    forall i :: 0 <= i < |q| ==> !IsTracker(q[i])
  }

  /** The session can still put listeners into documents of its target. */
  predicate CanInstall(x: Session) {
    x.alive && (x.scripts != {} || !NoTracker(x.queue))
  }

  /** Documents of the target may carry the listeners, now or through a live session. */
  predicate MayCarry(w: World, t: Target) {
    t in w.carrying || exists s :: s in w.sessions && w.sessions[s].target == t && CanInstall(w.sessions[s])
  }

  /** An injection in flight that has been announced and not been told its target is gone. */
  predicate PendingInjection(x: Session) {
    x.worker.Injecting? && x.worker.counted && !x.worker.destroyed
  }

  predicate Covered(w: World, t: Target) {
    t in w.obligations || exists s :: s in w.sessions && w.sessions[s].target == t && PendingInjection(w.sessions[s])
  }

  /** Every live target whose documents may carry the listeners is owed a cleanup. */
  predicate Safe(w: World) {
    forall t :: t in w.live && MayCarry(w, t) ==> Covered(w, t)
  }

  /** The browser has registered the tracker and the monitor has yet to look at the reply. */
  predicate Unrecorded(x: Session) {
    PendingInjection(x) && x.worker.op in x.replies && !x.replies[x.worker.op].Rejected?
  }

  predicate Injected(w: World, t: Target) {
    exists s :: s in w.sessions && w.sessions[s].target == t && Unrecorded(w.sessions[s])
  }

  /** An obligation is recorded, or the reply that will record it is there. */
  predicate Accounted(w: World, t: Target) {
    t in w.obligations || Injected(w, t)
  }

  /** Documents of the target may carry the listeners for another reason than an injection
      still in flight. */
  predicate Exposed(w: World, t: Target) {
    t in w.carrying
    || exists s :: s in w.sessions && w.sessions[s].target == t
         && CanInstall(w.sessions[s]) && !PendingInjection(w.sessions[s])
  }

  /** Every live exposed target is accounted for: stronger than Safe, since an injection in
      flight that may yet be rejected accounts for nothing but itself. */
  predicate Owed(w: World) {
    forall t :: t in w.live && Exposed(w, t) ==> Accounted(w, t)
  }

  /** The worker is about to delete an obligation for a session that has left. */
  predicate StaleDischarge(w: World, e: Event) {
    && e.EvWorker? && e.ok && e.session in w.sessions
    && w.sessions[e.session].worker.Cleaned? && !w.sessions[e.session].delivery.Attached?
  }

  /** And the target has been exposed again in the meantime. */
  predicate Harms(w: World, e: Event) {
    StaleDischarge(w, e)
    && var t := w.sessions[e.session].target; t in w.live && Exposed(w, t) && !Injected(w, t)
  }
}
