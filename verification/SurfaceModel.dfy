/**
  The tables of the browser-surface tracker and what each of its critical sections does to
  them (server/lib/browsersurface: types.go, frames.go, targets.go).

  Browser identifiers are numbers here, EMPTY standing for the empty string. Titles and URLs
  are payload. bindSessionsLocked depends on the order in which Go visits a map, so it is a
  relation; everything else is a function.
*/
module SurfaceModel {
  import opened ParentClosure

  const EMPTY: Id := 0

  datatype Kind = Page | IFrame | DedicatedWorker | ServiceWorker | SharedWorker | OtherKind

  datatype Target = Target(id: Id, kind: Kind, parentFrame: Id)

  datatype Session = Session(parent: Id, target: Target, tab: nat, initializing: bool, initialized: bool)

  datatype Frame = Frame(publicId: nat, parent: Id, tab: nat, session: Id)

  datatype Tab = Tab(target: Id, window: nat, rawWindow: int, rootFrame: Id)

  /** A frame tree as the browser reports it. */
  datatype FrameTree = FrameTree(id: Id, parent: Id, children: seq<FrameTree>)

  datatype Surface = Surface(
    trackLocations: bool,
    additional: set<Kind>,
    nextWindow: nat,
    nextTab: nat,
    nextFrame: nat,
    windows: map<int, nat>,
    tabs: map<nat, Tab>,
    tabsByTarget: map<Id, nat>,
    frames: map<Id, Frame>,
    sessions: map<Id, Session>,
    tracking: map<Id, bool>,
    nonPages: set<Id>)

  predicate Inherits(k: Kind) {
    k.IFrame? || k.DedicatedWorker?
  }

  predicate Binds(k: Kind) {
    k.Page? || Inherits(k)
  }

  predicate Tracks(s: Surface, k: Kind) {
    k.Page? || k.IFrame? || k in s.additional
  }

  /** A missing entry reads as zero. */
  function TabOf(s: Surface, target: Id): nat {
    if target in s.tabsByTarget then s.tabsByTarget[target] else 0
  }

  function Start(trackLocations: bool, additional: set<Kind>): Surface {
    Surface(trackLocations, additional, 0, 0, 0, map[], map[], map[], map[], map[], map[], {})
  }

  // ---- Binding sessions to tabs ----

  /** Sessions that could be the parent of session x, whose parent is not known. */
  function Candidates(s: Surface, x: Id): set<Id>
    requires x in s.sessions
  {
    set y | y in s.sessions && y != x && s.sessions[y].target.id == s.sessions[x].target.parentFrame
  }

  predicate IsLost(s: Surface, x: Id)
    requires x in s.sessions
  {
    !s.trackLocations && Inherits(s.sessions[x].target.kind) && s.sessions[x].parent == EMPTY
  }

  /** r is s after every session that lacked a parent, and can be given one, got one. */
  ghost predicate Recovered(s: Surface, r: Surface) {
    && r == s.(sessions := r.sessions)
    && r.sessions.Keys == s.sessions.Keys
    && forall x :: x in s.sessions ==>
         && r.sessions[x] == s.sessions[x].(parent := r.sessions[x].parent)
         && (if IsLost(s, x) && Candidates(s, x) != {} then r.sessions[x].parent in Candidates(s, x)
             else r.sessions[x].parent == s.sessions[x].parent)
  }

  type Assignment = map<Id, nat>

  /** The tab session x has under an assignment: its own when it has one or is not bound;
      else its target's; else its parent session's; else a known frame's. */
  function Rule(s: Surface, f: Assignment, x: Id): nat
    requires x in s.sessions && f.Keys == s.sessions.Keys
  {
    var c := s.sessions[x];
    if c.tab != 0 || !Binds(c.target.kind) then c.tab
    else if TabOf(s, c.target.id) != 0 then TabOf(s, c.target.id)
    else if c.parent in s.sessions then f[c.parent]
    else if c.target.parentFrame in s.frames then s.frames[c.target.parentFrame].tab
    else if c.target.id in s.frames then s.frames[c.target.id].tab
    else 0
  }

  ghost predicate IsSolution(s: Surface, f: Assignment) {
    f.Keys == s.sessions.Keys && forall x :: x in s.sessions ==> f[x] == Rule(s, f, x)
  }

  /** f assigns no tab that some other solution does not. */
  ghost predicate Below(f: Assignment, g: Assignment) {
    forall x :: x in f && f[x] != 0 ==> x in g && g[x] == f[x]
  }

  ghost predicate IsLeast(s: Surface, f: Assignment) {
    IsSolution(s, f) && forall g :: IsSolution(s, g) ==> Below(f, g)
  }

  function Assigned(s: Surface, f: Assignment): Surface
    requires f.Keys == s.sessions.Keys
  {
    s.(sessions := map x | x in s.sessions :: s.sessions[x].(tab := f[x]))
  }

  /** bindSessionsLocked takes a to b. */
  ghost predicate Bound(a: Surface, b: Surface) {
    exists r, f :: Recovered(a, r) && IsLeast(r, f) && b == Assigned(r, f)
  }

  function Tabs(s: Surface): Assignment {
    map x | x in s.sessions :: s.sessions[x].tab
  }

  function Parents(sessions: map<Id, Session>): map<Id, Id> {
    map x | x in sessions :: sessions[x].parent
  }

  function FrameParents(frames: map<Id, Frame>): map<Id, Id> {
    map x | x in frames :: frames[x].parent
  }

  // ---- Pages and windows ----

  /** registerPage, before it binds sessions. */
  function Register(s: Surface, t: Target): Surface {
    if TabOf(s, t.id) != 0 then s.(tracking := s.tracking[t.id := true])
    else
      var k := s.nextTab + 1;
      s.(nextTab := k, tabs := s.tabs[k := Tab(t.id, 0, 0, EMPTY)], tabsByTarget := s.tabsByTarget[t.id := k],
         tracking := s.tracking[t.id := true])
  }

  predicate HasTabOn(tabs: map<nat, Tab>, raw: int) {
    exists k :: k in tabs && tabs[k].rawWindow == raw
  }

  function DropEmptyWindow(s: Surface, raw: int): Surface {
    if HasTabOn(s.tabs, raw) then s else s.(windows := s.windows - {raw})
  }

  /** Tab k goes to the window with this raw id, which is created if need be. */
  function Moved(s: Surface, k: nat, raw: int): Surface
    requires k in s.tabs
  {
    var id := if raw in s.windows then s.windows[raw] else s.nextWindow + 1;
    s.(nextWindow := if raw in s.windows then s.nextWindow else id, windows := s.windows[raw := id],
       tabs := s.tabs[k := s.tabs[k].(window := id, rawWindow := raw)])
  }

  function AssignWindow(s: Surface, target: Id, raw: int): Surface {
    var k := TabOf(s, target);
    if k !in s.tabs then s
    else if s.tabs[k].rawWindow == raw then Moved(s, k, raw)
    else DropEmptyWindow(Moved(s, k, raw), s.tabs[k].rawWindow)
  }

  function UpdateTarget(s: Surface, t: Target): Surface {
    s.(sessions := map x | x in s.sessions ::
         if s.sessions[x].target.id == t.id then s.sessions[x].(target := t) else s.sessions[x])
  }

  // ---- Sessions ----

  /** addSession, before it binds sessions; None when the session is not added. */
  predicate CanAdd(s: Surface, id: Id, parent: Id, t: Target) {
    && Tracks(s, t.kind) && id !in s.sessions
    && !(Inherits(t.kind) && parent != EMPTY && parent !in s.sessions)
  }

  /** The tab an iframe session can be given at once. */
  function FirstTab(s: Surface, parent: Id, t: Target): nat {
    var own := TabOf(s, t.id);
    if own != 0 || !t.kind.IFrame? then own
    else
      var fromParent := if parent != EMPTY && parent in s.sessions then s.sessions[parent].tab else 0;
      if fromParent != 0 then fromParent
      else
        var fromFrame := if t.parentFrame != EMPTY && t.parentFrame in s.frames then s.frames[t.parentFrame].tab else 0;
        if fromFrame != 0 then fromFrame else if t.id in s.frames then s.frames[t.id].tab else 0
  }

  function AddSession(s: Surface, id: Id, parent: Id, t: Target): Surface {
    s.(sessions := s.sessions[id :=
         Session(if Inherits(t.kind) then parent else EMPTY, t, FirstTab(s, parent, t), false, false)])
  }

  predicate CanBeginInit(s: Surface, id: Id) {
    && s.trackLocations && id in s.sessions
    && (s.sessions[id].target.kind.Page? || s.sessions[id].target.kind.IFrame?)
    && !s.sessions[id].initialized && !s.sessions[id].initializing
    && s.sessions[id].tab != 0
    && (s.sessions[id].parent in s.sessions ==> s.sessions[s.sessions[id].parent].initialized)
  }

  function BeginInit(s: Surface, id: Id): Surface
    requires id in s.sessions
  {
    s.(sessions := s.sessions[id := s.sessions[id].(initializing := true)])
  }

  /** Page targets removed with their sessions count as no longer tracked. */
  function PageTargets(s: Surface, gone: set<Id>): set<Id> {
    set x | x in s.sessions && x in gone && s.sessions[x].target.kind.Page? :: s.sessions[x].target.id
  }

  function OtherTargets(s: Surface, gone: set<Id>): set<Id> {
    set x | x in s.sessions && x in gone && !s.sessions[x].target.kind.Page? :: s.sessions[x].target.id
  }

  function Untracked(tracking: map<Id, bool>, targets: set<Id>): map<Id, bool> {
    map t | t in tracking.Keys + targets :: if t in targets then false else tracking[t]
  }

  function Orphaned(frames: map<Id, Frame>, gone: set<Id>): map<Id, Frame> {
    map x | x in frames :: if frames[x].session in gone then frames[x].(session := EMPTY) else frames[x]
  }

  function DropSessions(s: Surface, gone: set<Id>): Surface {
    s.(sessions := s.sessions - gone, frames := Orphaned(s.frames, gone),
       tracking := Untracked(s.tracking, PageTargets(s, gone)), nonPages := s.nonPages - OtherTargets(s, gone))
  }

  ghost function RemoveSession(s: Surface, id: Id): Surface {
    DropSessions(s, Subtree(Parents(s.sessions), {id}) + {id})
  }

  /** Sessions of a tab, and sessions of a target. */
  function OfTab(s: Surface, k: nat): set<Id> {
    set x | x in s.sessions && s.sessions[x].tab == k
  }

  function OfTarget(s: Surface, t: Id): set<Id> {
    set x | x in s.sessions && s.sessions[x].target.id == t
  }

  ghost function RemoveTab(s: Surface, k: nat): Surface {
    if k !in s.tabs then s
    else
      var left := DropSessions(s, Subtree(Parents(s.sessions), OfTab(s, k)));
      var bare := left.(
        frames := map x | x in left.frames && left.frames[x].tab != k :: left.frames[x],
        tabsByTarget := s.tabsByTarget - {s.tabs[k].target}, tracking := left.tracking - {s.tabs[k].target},
        tabs := s.tabs - {k});
      DropEmptyWindow(bare, s.tabs[k].rawWindow)
  }

  ghost function RemoveTarget(s: Surface, target: Id): Surface {
    var known := s.(nonPages := s.nonPages - {target});
    if TabOf(s, target) != 0 then RemoveTab(known, TabOf(s, target))
    else DropSessions(known, Subtree(Parents(s.sessions), OfTarget(s, target)))
  }

  // ---- Frames ----

  function Upsert(s: Surface, tab: nat, session: Id, id: Id, parent: Id): Surface {
    var prior := if id in s.frames then s.frames[id].publicId else 0;
    var next := if prior == 0 && parent != EMPTY then s.nextFrame + 1 else s.nextFrame;
    s.(nextFrame := next,
       frames := s.frames[id := Frame(if prior == 0 && parent != EMPTY then next else prior, parent, tab, session)])
  }

  function UpsertTree(s: Surface, tab: nat, session: Id, tree: FrameTree): Surface
    decreases tree
  {
    UpsertForest(Upsert(s, tab, session, tree.id, tree.parent), tab, session, tree.children)
  }

  function UpsertForest(s: Surface, tab: nat, session: Id, trees: seq<FrameTree>): Surface
    decreases trees
  {
    if trees == [] then s
    else UpsertForest(UpsertTree(s, tab, session, trees[0]), tab, session, trees[1..])
  }

  /** The root of an iframe's own tree keeps the parent known from elsewhere. */
  function Rooted(s: Surface, t: Target, tree: FrameTree): FrameTree {
    if tree.parent != EMPTY || !t.kind.IFrame? then tree
    else tree.(parent := if tree.id in s.frames && s.frames[tree.id].parent != EMPTY then s.frames[tree.id].parent
                         else t.parentFrame)
  }

  /** The end of a session's initialization, before it binds sessions. copy is the session as
      it was when the initialization began; its target may have been replaced since. */
  function CommitInit(s: Surface, id: Id, copy: Session, tree: FrameTree): Surface
    requires id in s.sessions
  {
    var root := Rooted(s, copy.target, tree);
    var grown := UpsertTree(s, copy.tab, id, root);
    grown.(
      tabs := if copy.target.kind.Page? && copy.tab in s.tabs
              then s.tabs[copy.tab := s.tabs[copy.tab].(rootFrame := root.id)] else s.tabs,
      sessions := s.sessions[id := s.sessions[id].(initializing := false, initialized := true)])
  }

  predicate Located(s: Surface, session: Id) {
    session in s.sessions && s.sessions[session].tab != 0
  }

  /** attachFrame of a located session, before it binds sessions. */
  function AttachFrame(s: Surface, session: Id, id: Id, parent: Id): Surface
    requires Located(s, session)
  {
    Upsert(s, s.sessions[session].tab, session, id, parent)
  }

  /** Frames whose parent is the given one, then everything below them. */
  ghost function FramesBelow(frames: map<Id, Frame>, parent: Id): set<Id> {
    Subtree(FrameParents(frames), set x | x in frames && frames[x].parent == parent)
  }

  ghost function NavigateFrame(s: Surface, session: Id, id: Id, parent: Id): Surface {
    if !Located(s, session) then s
    else
      var cut := s.(frames := s.frames - FramesBelow(s.frames, id));
      var above := if parent == EMPTY && s.sessions[session].target.kind.IFrame? && id in cut.frames
                   then cut.frames[id].parent else parent;
      Upsert(cut, s.sessions[session].tab, session, id, above)
  }

  ghost function RemoveFrame(s: Surface, id: Id): Surface {
    s.(frames := s.frames - FramesBelow(s.frames, id) - {id})
  }

  // ---- Steps ----

  datatype Event =
    | EvRegister(info: Target)
    | EvAttachFailed(target: Id, tab: nat)
    | EvTrackNonPage(target: Id)
    | EvForgetNonPage(target: Id)
    | EvAddSession(id: Id, parent: Id, info: Target)
    | EvBind
    | EvBeginInit(id: Id)
    | EvCommitInit(id: Id, copy: Session, tree: FrameTree)
    | EvAssignWindow(target: Id, raw: int)
    | EvUpdateTarget(info: Target)
    | EvRemoveTarget(target: Id)
    | EvRemoveSession(id: Id)
    | EvAttachFrame(session: Id, frame: Id, parent: Id)
    | EvNavigateFrame(session: Id, frame: Id, parent: Id)
    | EvRemoveFrame(frame: Id)

  /** Session ids are not empty. */
  ghost predicate Next(s: Surface, v: Surface, e: Event) {
    match e
    case EvRegister(t) => Bound(Register(s, t), v)
    case EvAttachFailed(t, k) => v == if k != 0 && TabOf(s, t) == k then s.(tracking := s.tracking[t := false]) else s
    case EvTrackNonPage(t) => v == s.(nonPages := s.nonPages + {t})
    case EvForgetNonPage(t) => v == s.(nonPages := s.nonPages - {t})
    case EvAddSession(id, parent, t) =>
      id != EMPTY && if CanAdd(s, id, parent, t) then Bound(AddSession(s, id, parent, t), v) else v == s
    case EvBind => Bound(s, v)
    case EvBeginInit(id) => CanBeginInit(s, id) && v == BeginInit(s, id)
    // The tab of the copy is still the session's: see SurfaceOwnership.OwnTabLasts.
    case EvCommitInit(id, copy, tree) =>
      && id in s.sessions && s.sessions[id].initializing && copy.tab == s.sessions[id].tab
      && Bound(CommitInit(s, id, copy, tree), v)
    case EvAssignWindow(t, raw) => v == AssignWindow(s, t, raw)
    case EvUpdateTarget(t) => v == UpdateTarget(s, t)
    case EvRemoveTarget(t) => v == RemoveTarget(s, t)
    case EvRemoveSession(id) => id != EMPTY && v == RemoveSession(s, id)
    case EvAttachFrame(session, id, parent) =>
      if Located(s, session) then Bound(AttachFrame(s, session, id, parent), v) else v == s
    case EvNavigateFrame(session, id, parent) => v == NavigateFrame(s, session, id, parent)
    case EvRemoveFrame(id) => v == RemoveFrame(s, id)
  }

  ghost predicate Follows(s: Surface, v: Surface) {
    exists e :: Next(s, v, e)
  }

  ghost predicate IsRun(run: seq<Surface>) {
    && run != []
    && (exists trackLocations, additional :: run[0] == Start(trackLocations, additional))
    && forall i :: 0 < i < |run| ==> Follows(run[i - 1], run[i])
  }
}
