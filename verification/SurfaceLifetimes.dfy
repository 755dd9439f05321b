/**
  When sessions, tabs and frames come and go, and what of them may change in between: for each
  step of the tracker, whatever bindSessionsLocked decided.
*/
module SurfaceLifetimes {
  import opened ParentClosure
  import opened SurfaceModel
  import opened SurfaceOwnership
  import opened SurfaceFrames

  // ---- Binding changes no more than parents and tabs ----

  /** d is c with, at most, a parent it lacked and a tab it lacked. */
  predicate Placed(c: Session, d: Session, trackLocations: bool) {
    && d == c.(parent := d.parent, tab := d.tab)
    && (trackLocations || !Inherits(c.target.kind) || c.parent != EMPTY ==> d.parent == c.parent)
    && (c.tab != 0 ==> d.tab == c.tab)
  }

  predicate OnlyPlaced(u: Surface, v: Surface) {
    && v == u.(sessions := v.sessions) && v.sessions.Keys == u.sessions.Keys
    && forall x :: x in u.sessions ==> Placed(u.sessions[x], v.sessions[x], u.trackLocations)
  }

  lemma RecoveredPlaces(u: Surface, r: Surface, x: Id)
    requires Recovered(u, r) && x in u.sessions
    ensures x in r.sessions && Placed(u.sessions[x], r.sessions[x], u.trackLocations)
  {
    hide Candidates;
  }

  lemma AssignedPlaces(r: Surface, f: Assignment, x: Id)
    requires IsSolution(r, f) && x in r.sessions
    ensures var v := Assigned(r, f);
      v.sessions[x] == r.sessions[x].(tab := f[x]) && (r.sessions[x].tab != 0 ==> f[x] == r.sessions[x].tab)
  {
    assert f[x] == Rule(r, f, x);
  }

  lemma PlacedTwice(c: Session, d: Session, e: Session, trackLocations: bool)
    requires Placed(c, d, trackLocations) && e == d.(tab := e.tab) && (d.tab != 0 ==> e.tab == d.tab)
    ensures Placed(c, e, trackLocations)
  {}

  lemma BoundPlaces(u: Surface, v: Surface)
    requires Bound(u, v)
    ensures OnlyPlaced(u, v)
  {
    var r, f :| Recovered(u, r) && IsLeast(r, f) && v == Assigned(r, f);
    assert IsSolution(r, f) && r == u.(sessions := r.sessions) && r.sessions.Keys == u.sessions.Keys;
    hide Recovered, IsLeast, IsSolution, Placed;
    assert v == r.(sessions := v.sessions) && v.sessions.Keys == r.sessions.Keys;
    forall x | x in u.sessions ensures Placed(u.sessions[x], v.sessions[x], u.trackLocations) {
      RecoveredPlaces(u, r, x);
      AssignedPlaces(r, f, x);
      hide *;
      PlacedTwice(u.sessions[x], r.sessions[x], v.sessions[x], u.trackLocations);
    }
  }

  // ---- What binding achieves ----

  /** Session y, other than x, is attached to the frame above x's target. */
  predicate IsAbove(s: Surface, x: Id, y: Id)
    requires x in s.sessions
  {
    y in s.sessions && y != x && s.sessions[y].target.id == s.sessions[x].target.parentFrame
  }

  /** Without tracked locations a frame or worker session that was not
      told its parent gets some session above it, if there is one. */
  lemma BindingFindsParents(a: Surface, b: Surface, x: Id)
    requires Bound(a, b) && x in a.sessions
    requires !a.trackLocations && Inherits(a.sessions[x].target.kind) && a.sessions[x].parent == EMPTY
    ensures x in b.sessions
    ensures if exists y :: IsAbove(a, x, y) then IsAbove(a, x, b.sessions[x].parent) else b.sessions[x].parent == EMPTY
  {
    var r, f :| Recovered(a, r) && IsLeast(r, f) && b == Assigned(r, f);
    assert IsLost(a, x) && b.sessions[x].parent == r.sessions[x].parent;
    CandidatesAre(a, x);
    hide Candidates, IsAbove, IsLeast;
  }

  lemma CandidatesAre(a: Surface, x: Id)
    requires x in a.sessions
    ensures forall y :: y in Candidates(a, x) <==> IsAbove(a, x, y)
    ensures Candidates(a, x) != {} <==> exists y :: IsAbove(a, x, y)
  {}

  ghost function WithParent(a: Surface, x: Id): Session
    requires x in a.sessions
  {
    var c := a.sessions[x];
    if IsLost(a, x) && exists y :: IsAbove(a, x, y) then
      var y :| IsAbove(a, x, y);
      c.(parent := y)
    else c
  }

  lemma RecoveryIsPossible(a: Surface) returns (r: Surface)
    ensures Recovered(a, r)
  {
    r := a.(sessions := map x | x in a.sessions :: WithParent(a, x));
    forall x | x in a.sessions
      ensures if IsLost(a, x) && Candidates(a, x) != {} then r.sessions[x].parent in Candidates(a, x)
              else r.sessions[x] == a.sessions[x]
    {
      CandidatesAre(a, x);
      hide Candidates, IsAbove, IsLost;
    }
    hide WithParent, Candidates, IsLost;
    forall x | x in a.sessions ensures r.sessions[x] == a.sessions[x].(parent := r.sessions[x].parent) {
      KeepsTheRest(a, x);
    }
  }

  lemma KeepsTheRest(a: Surface, x: Id)
    requires x in a.sessions
    ensures WithParent(a, x) == a.sessions[x].(parent := WithParent(a, x).parent)
  {
    hide IsLost, IsAbove;
  }

  /** Whatever the tables, sessions can be bound. */
  lemma BindingIsPossible(a: Surface) returns (b: Surface)
    requires Owned(a)
    ensures Bound(a, b)
  {
    hide Recovered, Owned, IsLeast;
    var r := RecoveryIsPossible(a);
    RecoveredOwned(a, r);
    OwnedParts(r);
    var f := LeastExists(r);
    assert f.Keys == r.sessions.Keys by { LeastHasKeys(r, f); }
    b := Assigned(r, f);
  }

  lemma OwnedParts(s: Surface)
    requires Owned(s)
    ensures TabsOk(s) && SessionsOk(s) && FramesOk(s)
  {}

  lemma LeastHasKeys(s: Surface, f: Assignment)
    requires IsLeast(s, f)
    ensures f.Keys == s.sessions.Keys
  {}

  /** A session that has no tab yet goes where its target is; else with its parent session; else
      where the frame above it, or its own frame, is. Other kinds are never bound. */
  lemma BindingGoesBy(a: Surface, b: Surface, x: Id)
    requires Bound(a, b) && x in a.sessions && a.sessions[x].tab == 0
    ensures x in b.sessions
    ensures var c := b.sessions[x];
      c.tab ==
        if !Binds(c.target.kind) then 0
        else if c.target.id in b.tabsByTarget && b.tabsByTarget[c.target.id] != 0 then b.tabsByTarget[c.target.id]
        else if c.parent in b.sessions then b.sessions[c.parent].tab
        else if c.target.parentFrame in b.frames then b.frames[c.target.parentFrame].tab
        else if c.target.id in b.frames then b.frames[c.target.id].tab
        else 0
  {
    var r, f :| Recovered(a, r) && IsLeast(r, f) && b == Assigned(r, f);
    assert f[x] == Rule(r, f, x);
    hide Recovered, IsLeast, IsSolution;
  }

  /** The surface an event makes before sessions are bound. */
  ghost function Unbound(s: Surface, e: Event): Surface {
    match e
    case EvRegister(t) => Register(s, t)
    case EvAttachFailed(t, k) => if k != 0 && TabOf(s, t) == k then s.(tracking := s.tracking[t := false]) else s
    case EvTrackNonPage(t) => s.(nonPages := s.nonPages + {t})
    case EvForgetNonPage(t) => s.(nonPages := s.nonPages - {t})
    case EvAddSession(id, parent, t) => if CanAdd(s, id, parent, t) then AddSession(s, id, parent, t) else s
    case EvBind => s
    case EvBeginInit(id) => if id in s.sessions then BeginInit(s, id) else s
    case EvCommitInit(id, copy, tree) => if id in s.sessions then CommitInit(s, id, copy, tree) else s
    case EvAssignWindow(t, raw) => AssignWindow(s, t, raw)
    case EvUpdateTarget(t) => UpdateTarget(s, t)
    case EvRemoveTarget(t) => RemoveTarget(s, t)
    case EvRemoveSession(id) => RemoveSession(s, id)
    case EvAttachFrame(session, id, parent) => if Located(s, session) then AttachFrame(s, session, id, parent) else s
    case EvNavigateFrame(session, id, parent) => NavigateFrame(s, session, id, parent)
    case EvRemoveFrame(id) => RemoveFrame(s, id)
  }

  lemma NextPlaces(s: Surface, v: Surface, e: Event)
    requires Next(s, v, e)
    ensures OnlyPlaced(Unbound(s, e), v)
  {
    var u := Unbound(s, e);
    assert Bound(u, v) || v == u by {
      hide Bound, Register, CanAdd, AddSession, BeginInit, CommitInit, AssignWindow, UpdateTarget, RemoveTarget,
        RemoveSession, AttachFrame, NavigateFrame, RemoveFrame;
    }
    hide *;
    if Bound(u, v) { BoundPlaces(u, v); } else { SamePlaced(u); }
  }

  lemma SamePlaced(s: Surface)
    ensures OnlyPlaced(s, s)
  {}

  /** Adding a frame tree touches the frame table alone. */
  lemma {:induction false} TreeTouchesFrames(s: Surface, tab: nat, session: Id, tree: FrameTree)
    ensures var v := UpsertTree(s, tab, session, tree); v == s.(frames := v.frames, nextFrame := v.nextFrame)
    decreases tree
  {
    ForestTouchesFrames(Upsert(s, tab, session, tree.id, tree.parent), tab, session, tree.children);
  }

  lemma {:induction false} ForestTouchesFrames(s: Surface, tab: nat, session: Id, trees: seq<FrameTree>)
    ensures var v := UpsertForest(s, tab, session, trees); v == s.(frames := v.frames, nextFrame := v.nextFrame)
    decreases trees
  {
    if trees == [] {
    } else {
      TreeTouchesFrames(s, tab, session, trees[0]);
      ForestTouchesFrames(UpsertTree(s, tab, session, trees[0]), tab, session, trees[1..]);
    }
  }

  /** Committing touches the session, the root of a page's tab, and frames. */
  lemma CommitTouches(s: Surface, id: Id, copy: Session, tree: FrameTree)
    requires id in s.sessions
    ensures var v := CommitInit(s, id, copy, tree);
      && v == s.(frames := v.frames, nextFrame := v.nextFrame, tabs := v.tabs, sessions := v.sessions)
      && v.sessions == s.sessions[id := s.sessions[id].(initializing := false, initialized := true)]
      && (forall k :: k in v.tabs <==> k in s.tabs)
      && (forall k :: k in s.tabs ==>
            v.tabs[k] ==
              if copy.target.kind.Page? && k == copy.tab then s.tabs[k].(rootFrame := tree.id) else s.tabs[k])
  {
    var root := Rooted(s, copy.target, tree);
    TreeTouchesFrames(s, copy.tab, id, root);
    hide UpsertTree;
  }

  // ---- What a removal takes along ----

  predicate Tracked(s: Surface, t: Id) {
    t in s.tracking && s.tracking[t]
  }

  /** Some session that goes, of a page or of anything else, is attached to t. */
  predicate Loses(s: Surface, gone: set<Id>, t: Id, page: bool) {
    exists x :: x in s.sessions && x in gone && s.sessions[x].target.kind.Page? == page && s.sessions[x].target.id == t
  }

  ghost predicate FramesGone(s: map<Id, Frame>, v: map<Id, Frame>, gone: set<Id>, tab: nat) {
    && (forall x :: x in v <==> x in s && s[x].tab != tab)
    && (forall x :: x in v ==> v[x] == s[x].(session := if s[x].session in gone then EMPTY else s[x].session))
  }

  ghost predicate Untracks(s: Surface, v: Surface, gone: set<Id>, tab: nat) {
    && (forall t :: Tracked(v, t) <==>
          Tracked(s, t) && !Loses(s, gone, t, true) && !(tab in s.tabs && s.tabs[tab].target == t))
    && (forall t :: t in v.nonPages <==> t in s.nonPages && !Loses(s, gone, t, false))
  }

  /** The window of the tab goes unless another tab is on it. */
  ghost predicate WindowGone(s: Surface, v: Surface, tab: nat) {
    && (forall r :: r in v.windows <==>
          r in s.windows && (tab in s.tabs && s.tabs[tab].rawWindow == r ==> HasTabOn(v.tabs, r)))
    && (forall r :: r in v.windows ==> v.windows[r] == s.windows[r])
  }

  /** v is s without these sessions and, unless it is zero, without this tab and its frames. */
  ghost predicate Removed(s: Surface, v: Surface, gone: set<Id>, tab: nat) {
    && v == s.(sessions := s.sessions - gone, frames := v.frames, tracking := v.tracking, nonPages := v.nonPages,
               tabs := s.tabs - {tab}, tabsByTarget := v.tabsByTarget, windows := v.windows)
    && FramesGone(s.frames, v.frames, gone, tab) && Untracks(s, v, gone, tab) && WindowGone(s, v, tab)
  }

  lemma DropsAre(s: Surface, gone: set<Id>)
    requires 0 !in s.tabs && forall x :: x in s.frames ==> s.frames[x].tab != 0
    ensures Removed(s, DropSessions(s, gone), gone, 0)
  {
    var v := DropSessions(s, gone);
    assert s.tabs - {0} == s.tabs;
    forall t ensures Tracked(v, t) <==> Tracked(s, t) && !Loses(s, gone, t, true) {
      assert t in PageTargets(s, gone) <==> Loses(s, gone, t, true);
    }
    forall t ensures t in v.nonPages <==> t in s.nonPages && !Loses(s, gone, t, false) {
      assert t in OtherTargets(s, gone) <==> Loses(s, gone, t, false);
    }
    hide Loses, PageTargets, OtherTargets;
  }

  lemma SessionGoes(s: Surface, id: Id)
    requires TabsOk(s) && FramesOk(s)
    ensures Removed(s, RemoveSession(s, id), Subtree(Parents(s.sessions), {id}) + {id}, 0)
  {
    assert 0 !in s.tabs;
    DropsAre(s, Subtree(Parents(s.sessions), {id}) + {id});
    hide Subtree, Removed, DropSessions;
  }

  lemma TabGoes(s: Surface, k: nat)
    requires TabsOk(s) && FramesOk(s) && k in s.tabs
    ensures Removed(s, RemoveTab(s, k), Subtree(Parents(s.sessions), OfTab(s, k)), k)
  {
    var gone := Subtree(Parents(s.sessions), OfTab(s, k));
    var left := DropSessions(s, gone);
    assert 0 !in s.tabs;
    DropsAre(s, gone);
    assert RemoveTab(s, k) == DropEmptyWindow(WithoutTab(left, k), s.tabs[k].rawWindow) && left.tabs == s.tabs by {
      hide Subtree, Removed, OfTab, DropEmptyWindow;
    }
    hide *;
    AlsoWithoutTab(s, left, gone, k);
  }

  lemma AlsoWithoutTab(s: Surface, left: Surface, gone: set<Id>, k: nat)
    requires Removed(s, left, gone, 0) && 0 !in s.tabs && k in s.tabs && left.tabs == s.tabs
    requires forall x :: x in s.frames ==> s.frames[x].tab != 0
    ensures Removed(s, DropEmptyWindow(WithoutTab(left, k), s.tabs[k].rawWindow), gone, k)
  {
    DropsOnlyWindow(WithoutTab(left, k), s.tabs[k].rawWindow);
    var v := DropEmptyWindow(WithoutTab(left, k), s.tabs[k].rawWindow);
    assert FramesGone(s.frames, v.frames, gone, k) by { hide Loses, HasTabOn; }
    assert Untracks(s, v, gone, k) by { hide Loses, HasTabOn, FramesGone; }
    assert WindowGone(s, v, k) by { hide Loses, HasTabOn, FramesGone, Untracks; }
    hide FramesGone, Untracks, WindowGone, DropEmptyWindow;
  }

  lemma DropsOnlyWindow(s: Surface, raw: int)
    ensures DropEmptyWindow(s, raw) == s.(windows := DropEmptyWindow(s, raw).windows)
  {}

  lemma TargetGoes(s: Surface, t: Id)
    requires TabsOk(s) && FramesOk(s)
    ensures Removed(s.(nonPages := s.nonPages - {t}), RemoveTarget(s, t), GoneWith(s, t), TabOf(s, t))
  {
    var known := s.(nonPages := s.nonPages - {t});
    ListedTab(s, t);
    assert 0 !in s.tabs;
    if TabOf(s, t) != 0 {
      TabGoes(known, TabOf(s, t));
      assert OfTab(known, TabOf(s, t)) == OfTab(s, TabOf(s, t));
    } else {
      DropsAre(known, GoneWith(s, t));
    }
    hide Subtree, Removed, DropSessions, RemoveTab;
  }

  ghost function GoneWith(s: Surface, t: Id): set<Id> {
    Subtree(Parents(s.sessions), if TabOf(s, t) != 0 then OfTab(s, TabOf(s, t)) else OfTarget(s, t))
  }

  // ---- Sessions ----

  /** The sessions removed with target t: those of its tab, or those attached to it. */
  predicate GoesWith(s: Surface, x: Id, t: Id) {
    && x in s.sessions
    && if t in s.tabsByTarget then s.sessions[x].tab == s.tabsByTarget[t] else s.sessions[x].target.id == t
  }

  /** Session x, or a session above it, is removed or goes with a removed target. */
  ghost predicate Ends(s: Surface, e: Event, x: Id) {
    match e
    case EvRemoveSession(id) => Leads(Parents(s.sessions), x, {id})
    case EvRemoveTarget(t) => exists y :: GoesWith(s, y, t) && Leads(Parents(s.sessions), x, {y})
    case _ => false
  }

  /** A session of a tracked kind is admitted under a new id; a child needs a known parent. */
  predicate Admits(s: Surface, e: Event, x: Id) {
    && e.EvAddSession? && e.id == x && x !in s.sessions
    && (e.info.kind.Page? || e.info.kind.IFrame? || e.info.kind in s.additional)
    && (Inherits(e.info.kind) && e.parent != EMPTY ==> e.parent in s.sessions)
  }

  lemma SubtreeEnds(s: Surface, t: Id, roots: set<Id>, x: Id)
    requires x in s.sessions && forall y :: y in roots <==> GoesWith(s, y, t)
    ensures x in Subtree(Parents(s.sessions), roots) <==> Ends(s, EvRemoveTarget(t), x)
  {
    if Ends(s, EvRemoveTarget(t), x) {
      var y :| GoesWith(s, y, t) && Leads(Parents(s.sessions), x, {y});
      var path :| IsPath(Parents(s.sessions), path) && path[0] == x && path[|path| - 1] in {y};
      assert path[|path| - 1] in roots;
    }
    if x in Subtree(Parents(s.sessions), roots) {
      var path :| IsPath(Parents(s.sessions), path) && path[0] == x && path[|path| - 1] in roots;
      var y := path[|path| - 1];
      assert y in {y} && Leads(Parents(s.sessions), x, {y});
      assert GoesWith(s, y, t);
    }
  }

  lemma TargetEnds(s: Surface, t: Id, x: Id)
    requires TabsOk(s) && x in s.sessions
    ensures x in GoneWith(s, t) <==> Ends(s, EvRemoveTarget(t), x)
  {
    ListedTab(s, t);
    var roots := if TabOf(s, t) != 0 then OfTab(s, TabOf(s, t)) else OfTarget(s, t);
    forall y ensures y in roots <==> GoesWith(s, y, t) {}
    SubtreeEnds(s, t, roots, x);
    hide Subtree, Ends;
  }

  lemma SessionEnds(s: Surface, id: Id, x: Id)
    requires x in s.sessions
    ensures x in Subtree(Parents(s.sessions), {id}) + {id} <==> Ends(s, EvRemoveSession(id), x)
  {
    RootIsBelow(Parents(s.sessions), {id}, id);
    hide Leads;
  }

  /** A session is there after a step exactly if it was there and has not ended, or is admitted. */
  lemma SessionsComeAndGo(s: Surface, v: Surface, e: Event, x: Id)
    requires Owned(s) && Next(s, v, e)
    ensures x in v.sessions <==> (x in s.sessions && !Ends(s, e, x)) || Admits(s, e, x)
  {
    if e.EvRemoveTarget? {
      TargetGoes(s, e.target);
      if x in s.sessions { TargetEnds(s, e.target, x); }
    } else if e.EvRemoveSession? {
      SessionGoes(s, e.id);
      if x in s.sessions { SessionEnds(s, e.id, x); }
    } else {
      NothingEnds(s, e, x);
      OthersComeAndGo(s, v, e, x);
    }
    hide Bound, CommitInit, RemoveTarget, RemoveSession, NavigateFrame, AssignWindow, FirstTab, Owned, Ends, GoneWith,
      Subtree, Untracks, FramesGone, WindowGone;
  }

  lemma NothingEnds(s: Surface, e: Event, x: Id)
    requires !e.EvRemoveTarget? && !e.EvRemoveSession?
    ensures !Ends(s, e, x)
  {}

  lemma OthersComeAndGo(s: Surface, v: Surface, e: Event, x: Id)
    requires Next(s, v, e) && !e.EvRemoveTarget? && !e.EvRemoveSession?
    ensures x in v.sessions <==> x in s.sessions || Admits(s, e, x)
  {
    NextPlaces(s, v, e);
    AddsOnly(s, e, x);
    hide Next, Placed, Unbound, Admits;
  }

  lemma AddsOnly(s: Surface, e: Event, x: Id)
    requires !e.EvRemoveTarget? && !e.EvRemoveSession?
    ensures x in Unbound(s, e).sessions <==> x in s.sessions || Admits(s, e, x)
  {
    if e.EvCommitInit? && e.id in s.sessions { CommitTouches(s, e.id, e.copy, e.tree); }
    if LeavesSessions(e) { SessionsAreLeft(s, e); }
    hide Bound, CommitInit, FirstTab, AssignWindow, NavigateFrame, Register, AttachFrame, RemoveFrame;
  }

  /** The events that leave sessions to be bound at most. */
  predicate LeavesSessions(e: Event) {
    e.EvRegister? || e.EvAssignWindow? || e.EvNavigateFrame? || e.EvAttachFrame? || e.EvRemoveFrame?
  }

  lemma SessionsAreLeft(s: Surface, e: Event)
    requires LeavesSessions(e)
    ensures Unbound(s, e).sessions == s.sessions && Unbound(s, e).trackLocations == s.trackLocations
  {
    if e.EvAssignWindow? { AssignLeaves(s, e.target, e.raw); }
    hide FramesBelow, AssignWindow;
  }

  lemma AssignLeaves(s: Surface, t: Id, raw: int)
    ensures var v := AssignWindow(s, t, raw); v == s.(nextWindow := v.nextWindow, windows := v.windows, tabs := v.tabs)
  {
    hide HasTabOn;
  }

  /** What a step may make of a session: a new target under the same id, the beginning and the end
      of its initialization, and a place. */
  function Told(c: Session, e: Event, x: Id): Session {
    match e
    case EvUpdateTarget(t) => if c.target.id == t.id then c.(target := t) else c
    case EvBeginInit(id) => if id == x then c.(initializing := true) else c
    case EvCommitInit(id, _, _) => if id == x then c.(initializing := false, initialized := true) else c
    case _ => c
  }

  lemma SessionsAreTold(s: Surface, v: Surface, e: Event, x: Id)
    requires Owned(s) && Next(s, v, e) && x in s.sessions && x in v.sessions
    ensures Placed(Told(s.sessions[x], e, x), v.sessions[x], s.trackLocations)
  {
    NextPlaces(s, v, e);
    var u := Unbound(s, e);
    assert x in u.sessions && u.sessions[x] == Told(s.sessions[x], e, x) && u.trackLocations == s.trackLocations by {
      hide *;
      assert OnlyPlaced(u, v);
      TellsSession(s, e, x);
    }
    hide *;
  }

  lemma TellsSession(s: Surface, e: Event, x: Id)
    requires Owned(s) && x in s.sessions && x in Unbound(s, e).sessions
    ensures Unbound(s, e).sessions[x] == Told(s.sessions[x], e, x) && Unbound(s, e).trackLocations == s.trackLocations
  {
    if e.EvRemoveTarget? || e.EvRemoveSession? {
      SparesSession(s, e, x);
    } else {
      if e.EvCommitInit? && e.id in s.sessions { CommitTouches(s, e.id, e.copy, e.tree); }
      if LeavesSessions(e) { SessionsAreLeft(s, e); }
      hide CommitInit, FirstTab, AssignWindow, NavigateFrame, Register, AttachFrame, RemoveFrame, Owned;
    }
  }

  lemma SparesSession(s: Surface, e: Event, x: Id)
    requires TabsOk(s) && FramesOk(s) && (e.EvRemoveTarget? || e.EvRemoveSession?)
    requires x in s.sessions && x in Unbound(s, e).sessions
    ensures Unbound(s, e).sessions[x] == s.sessions[x] && Unbound(s, e).trackLocations == s.trackLocations
  {
    if e.EvRemoveTarget? { TargetGoes(s, e.target); } else { SessionGoes(s, e.id); }
    hide RemoveTarget, RemoveSession, GoneWith, Subtree, Untracks, FramesGone, WindowGone, TabsOk, FramesOk;
  }

  function OrElse(tab: nat, other: nat): nat {
    if tab != 0 then tab else other
  }

  function FrameTab(s: Surface, x: Id): nat {
    if x in s.frames then s.frames[x].tab else 0
  }

  function SessionTab(s: Surface, x: Id): nat {
    if x in s.sessions then s.sessions[x].tab else 0
  }

  /** The first of these that is known: the tab of the target, of the parent session, of the
      parent frame and of the frame of the same id. */
  function IFrameTab(s: Surface, parent: Id, t: Target): nat {
    var fromFrame := OrElse(if t.parentFrame != EMPTY then FrameTab(s, t.parentFrame) else 0, FrameTab(s, t.id));
    OrElse(TabOf(s, t.id), OrElse(SessionTab(s, parent), fromFrame))
  }

  /** A session starts with its target and the parent it was reported with. Its tab, when
      known at once, is the one above for an iframe and its target's for any other session. */
  lemma AdmittedAs(s: Surface, v: Surface, e: Event)
    requires Owned(s) && Next(s, v, e) && e.EvAddSession? && Admits(s, e, e.id)
    ensures e.id in v.sessions
    ensures var c, t := v.sessions[e.id], e.info;
      && c.target == t && !c.initializing && !c.initialized
      && (s.trackLocations ==> c.parent == if Inherits(t.kind) then e.parent else EMPTY)
      && (Inherits(t.kind) && e.parent != EMPTY ==> c.parent == e.parent)
      && var known := if t.kind.IFrame?
           then IFrameTab(s, e.parent, t)
           else TabOf(s, t.id);
         known != 0 ==> c.tab == known
  {
    var u := AddSession(s, e.id, e.parent, e.info);
    BoundPlaces(u, v);
    assert Placed(u.sessions[e.id], v.sessions[e.id], s.trackLocations);
    StartsOn(s, e.parent, e.info);
    hide Bound, FirstTab, Owned, IFrameTab;
  }

  lemma StartsOn(s: Surface, parent: Id, t: Target)
    requires Owned(s)
    ensures FirstTab(s, parent, t) == if t.kind.IFrame?
      then IFrameTab(s, parent, t)
      else TabOf(s, t.id)
  {
    assert EMPTY !in s.sessions;
    hide TabsOk, WindowsOk;
  }

  // ---- Tabs and windows ----

  /** The tab table after an event. */
  function TabsAfter(s: Surface, e: Event, window: nat): map<nat, Tab> {
    match e
    case EvRegister(t) =>
      if t.id in s.tabsByTarget then s.tabs else s.tabs[s.nextTab + 1 := Tab(t.id, 0, 0, EMPTY)]
    case EvAssignWindow(t, raw) =>
      map k | k in s.tabs :: if s.tabs[k].target == t then s.tabs[k].(window := window, rawWindow := raw) else s.tabs[k]
    case EvCommitInit(_, copy, tree) =>
      map k | k in s.tabs ::
        if copy.target.kind.Page? && copy.tab == k then s.tabs[k].(rootFrame := tree.id) else s.tabs[k]
    case EvRemoveTarget(t) => map k | k in s.tabs && s.tabs[k].target != t :: s.tabs[k]
    case _ => s.tabs
  }

  function WindowAssigned(v: Surface, e: Event): nat {
    if e.EvAssignWindow? && e.raw in v.windows then v.windows[e.raw] else 0
  }

  lemma MovedTo(s: Surface, t: Id, raw: int)
    requires TabsOk(s) && t in s.tabsByTarget
    ensures s.tabsByTarget[t] in s.tabs && s.tabs[s.tabsByTarget[t]].target == t
    ensures var k := s.tabsByTarget[t]; var u, v := Moved(s, k, raw), AssignWindow(s, t, raw);
      && v == u.(windows := v.windows) && raw in v.windows && v.windows[raw] == u.windows[raw]
      && (forall r :: r in v.windows <==> r in u.windows && (r == s.tabs[k].rawWindow ==> HasTabOn(v.tabs, r)))
      && (forall r :: r in v.windows ==> v.windows[r] == u.windows[r])
  {
    ListedTab(s, t);
    var k := s.tabsByTarget[t];
    var u := Moved(s, k, raw);
    assert HasTabOn(u.tabs, raw) by { assert u.tabs[k].rawWindow == raw; }
    hide HasTabOn, Moved;
    DropsOnlyWindow(u, s.tabs[k].rawWindow);
  }

  lemma AssignMoves(s: Surface, t: Id, raw: int)
    requires TabsOk(s)
    ensures var v, e := AssignWindow(s, t, raw), EvAssignWindow(t, raw); v.tabs == TabsAfter(s, e, WindowAssigned(v, e))
  {
    ListedTab(s, t);
    if t in s.tabsByTarget { MovedTo(s, t, raw); }
    hide AssignWindow, HasTabOn;
  }

  lemma TabsOfRemoval(s: Surface, e: Event)
    requires TabsOk(s) && FramesOk(s) && (e.EvRemoveTarget? || e.EvRemoveSession?)
    ensures Unbound(s, e).tabs == TabsAfter(s, e, 0)
  {
    if e.EvRemoveTarget? { TargetGoes(s, e.target); ListedTab(s, e.target); } else { SessionGoes(s, e.id); }
    assert 0 !in s.tabs;
    hide RemoveTarget, RemoveSession, GoneWith, Subtree, Untracks, FramesGone, WindowGone;
  }

  lemma TabsOfOthers(s: Surface, e: Event)
    requires TabsOk(s) && !e.EvRemoveTarget? && !e.EvRemoveSession? && !e.EvAssignWindow? && !e.EvCommitInit?
    ensures Unbound(s, e).tabs == TabsAfter(s, e, 0)
  {
    if e.EvRegister? { ListedTab(s, e.info.id); }
    hide TabsOk, FirstTab, FramesBelow;
  }

  lemma TabsOfUnbound(s: Surface, e: Event)
    requires Owned(s) && !e.EvCommitInit?
    ensures var u := Unbound(s, e); u.tabs == TabsAfter(s, e, WindowAssigned(u, e))
  {
    if e.EvRemoveTarget? || e.EvRemoveSession? {
      TabsOfRemoval(s, e);
    } else if e.EvAssignWindow? {
      AssignMoves(s, e.target, e.raw);
    } else {
      TabsOfOthers(s, e);
    }
    hide TabsOk, WindowsOk, SessionsOk, FramesOk, TabsAfter;
    if !e.EvAssignWindow? { hide Unbound; }
  }

  /** A page adds a tab, an assignment moves one to the window, a page session's initialization
      gives one its root, and the removal of a target takes its tab. */
  lemma TabsAre(s: Surface, v: Surface, e: Event)
    requires Owned(s) && Next(s, v, e)
    ensures v.tabs == TabsAfter(s, e, WindowAssigned(v, e))
  {
    NextPlaces(s, v, e);
    if e.EvCommitInit? { CommitTouches(s, e.id, e.copy, e.tree); } else { TabsOfUnbound(s, e); }
    hide Bound, CommitInit, Placed, Owned, Register, CanAdd, AddSession, BeginInit, AssignWindow, UpdateTarget,
      RemoveTarget, RemoveSession, AttachFrame, NavigateFrame, RemoveFrame;
  }

  ghost predicate WindowsFollow(s: Surface, v: Surface, e: Event) {
    && (forall r :: r in v.windows <==>
          (r in s.windows || (e.EvAssignWindow? && e.raw == r && e.target in s.tabsByTarget)) && HasTabOn(v.tabs, r))
    && (forall r :: r in v.windows ==> v.windows[r] == if r in s.windows then s.windows[r] else s.nextWindow + 1)
  }

  lemma WindowsStay(s: Surface, v: Surface, e: Event)
    requires WindowsOk(v) && v.windows == s.windows && !e.EvAssignWindow?
    ensures WindowsFollow(s, v, e)
  {
    hide Numbered, Agreed, HasTabOn;
  }

  lemma WindowIsLeft(s: Surface, v: Surface, e: Event, t: Id)
    requires WindowsOk(v) && TabsOk(s) && FramesOk(s) && v == RemoveTarget(s, t) && !e.EvAssignWindow?
    ensures WindowsFollow(s, v, e)
  {
    TargetGoes(s, t);
    assert WindowGone(s.(nonPages := s.nonPages - {t}), v, TabOf(s, t)) && Occupied(v.windows, v.tabs);
    hide Numbered, Agreed, HasTabOn, FramesGone, Untracks, RemoveTarget, GoneWith;
  }

  lemma WindowIsTaken(s: Surface, t: Id, raw: int)
    requires TabsOk(s) && WindowsOk(AssignWindow(s, t, raw)) && WindowsOk(s)
    ensures WindowsFollow(s, AssignWindow(s, t, raw), EvAssignWindow(t, raw))
  {
    ListedTab(s, t);
    if t in s.tabsByTarget {
      var k := s.tabsByTarget[t];
      MovedTo(s, t, raw);
      assert Moved(s, k, raw).windows == s.windows[raw := if raw in s.windows then s.windows[raw]
        else s.nextWindow + 1];
    }
    hide HasTabOn, AssignWindow, Moved, Numbered, Agreed;
  }

  /** A window is there exactly while a tab is on it, and keeps the id it was given: the next one
      when the first tab was assigned to it. */
  lemma WindowsAre(s: Surface, v: Surface, e: Event)
    requires Owned(s) && Next(s, v, e)
    ensures WindowsFollow(s, v, e)
  {
    NextPlaces(s, v, e);
    NextOwned(s, v, e);
    hide Bound, CommitInit, Placed, AssignWindow, FramesBelow, RemoveTarget, RemoveSession, FirstTab, WindowsFollow;
    if e.EvRemoveTarget? {
      WindowIsLeft(s, v, e, e.target);
    } else if e.EvAssignWindow? {
      WindowIsTaken(s, e.target, e.raw);
    } else {
      if e.EvCommitInit? { CommitTouches(s, e.id, e.copy, e.tree); }
      if e.EvRemoveSession? { assert v == RemoveSession(s, e.id); SessionWindows(s, e.id); }
      WindowsStay(s, v, e);
    }
  }

  lemma SessionWindows(s: Surface, id: Id)
    ensures RemoveSession(s, id).windows == s.windows
  {
    hide Subtree, PageTargets, OtherTargets, Untracked, Orphaned;
  }

  // ---- What is tracked ----

  ghost function Ended(s: Surface, v: Surface): set<Id> {
    s.sessions.Keys - v.sessions.Keys
  }

  predicate IsTabOf(s: Surface, t: Id, tab: nat) {
    t in s.tabsByTarget && s.tabsByTarget[t] == tab
  }

  /** A page is tracked from its registration until attaching to it fails, a session of it ends,
      or it is removed. */
  lemma TrackedUntil(s: Surface, v: Surface, e: Event, t: Id)
    requires Owned(s) && Next(s, v, e)
    ensures Tracked(v, t) <==>
              (e.EvRegister? && e.info.id == t) ||
              (Tracked(s, t) && !(e.EvAttachFailed? && e.target == t && IsTabOf(s, t, e.tab))
               && !Loses(s, Ended(s, v), t, true) && !(e.EvRemoveTarget? && e.target == t && t in s.tabsByTarget))
  {
    if e.EvRemoveTarget? || e.EvRemoveSession? {
      RemovalUntracks(s, v, e, t);
    } else {
      NextPlaces(s, v, e);
      NobodyEnds(s, v, e);
      TracksOthers(s, e, t);
    }
    hide Next, Owned, Placed, Unbound;
  }

  lemma NobodyEnds(s: Surface, v: Surface, e: Event)
    requires Owned(s) && Next(s, v, e) && !e.EvRemoveTarget? && !e.EvRemoveSession?
    ensures Ended(s, v) == {} && (forall t, page :: !Loses(s, Ended(s, v), t, page))
  {
    hide Next, Owned, Ends;
    forall x | x in s.sessions ensures x in v.sessions {
      NothingEnds(s, e, x);
      SessionsComeAndGo(s, v, e, x);
    }
  }

  lemma TracksOthers(s: Surface, e: Event, t: Id)
    requires Owned(s) && !e.EvRemoveTarget? && !e.EvRemoveSession?
    ensures Tracked(Unbound(s, e), t) <==>
              (e.EvRegister? && e.info.id == t) ||
              (Tracked(s, t) && !(e.EvAttachFailed? && e.target == t && IsTabOf(s, t, e.tab)))
    ensures t in Unbound(s, e).nonPages <==>
              (e.EvTrackNonPage? && e.target == t) || (t in s.nonPages && !(e.EvForgetNonPage? && e.target == t))
  {
    if LeavesTracking(e) {
      TrackingIsLeft(s, e);
    } else if e.EvAttachFailed? {
      ListedTab(s, e.target);
      assert 0 !in s.tabs;
    }
    hide CommitInit, FirstTab, AssignWindow, NavigateFrame, RemoveFrame, Owned;
  }

  predicate LeavesTracking(e: Event) {
    e.EvAssignWindow? || e.EvCommitInit? || e.EvNavigateFrame? || e.EvRemoveFrame? || e.EvAttachFrame?
      || e.EvAddSession?
  }

  lemma TrackingIsLeft(s: Surface, e: Event)
    requires LeavesTracking(e)
    ensures Unbound(s, e).tracking == s.tracking && Unbound(s, e).nonPages == s.nonPages
  {
    if e.EvAssignWindow? { AssignLeaves(s, e.target, e.raw); }
    if e.EvCommitInit? && e.id in s.sessions { CommitTouches(s, e.id, e.copy, e.tree); }
    hide CommitInit, FirstTab, AssignWindow, FramesBelow;
  }

  lemma RemovalUntracks(s: Surface, v: Surface, e: Event, t: Id)
    requires Owned(s) && Next(s, v, e) && (e.EvRemoveTarget? || e.EvRemoveSession?)
    ensures Tracked(v, t) <==>
      Tracked(s, t) && !Loses(s, Ended(s, v), t, true) && !(e.EvRemoveTarget? && e.target == t && t in s.tabsByTarget)
    ensures t in v.nonPages <==>
      t in s.nonPages && !Loses(s, Ended(s, v), t, false) && !(e.EvRemoveTarget? && e.target == t)
  {
    var gone, tab;
    if e.EvRemoveTarget? {
      TargetGoes(s, e.target);
      ListedTab(s, e.target);
      gone, tab := GoneWith(s, e.target), TabOf(s, e.target);
      assert Untracks(s.(nonPages := s.nonPages - {e.target}), v, gone, tab);
    } else {
      SessionGoes(s, e.id);
      gone, tab := Subtree(Parents(s.sessions), {e.id}) + {e.id}, 0;
      assert 0 !in s.tabs;
      assert Untracks(s, v, gone, tab);
    }
    assert v.sessions == s.sessions - gone;
    LosesTheSame(s, v, gone, t, true);
    LosesTheSame(s, v, gone, t, false);
    LosesUnlisted(s, e, gone, t);
    hide Subtree, GoneWith, Loses, RemoveTarget, RemoveSession, FramesGone, WindowGone, WindowsOk, SessionsOk,
      FramesOk, Ended;
  }

  lemma LosesTheSame(s: Surface, v: Surface, gone: set<Id>, t: Id, page: bool)
    requires v.sessions == s.sessions - gone
    ensures Loses(s, gone, t, page) <==> Loses(s, Ended(s, v), t, page)
  {}

  lemma LosesUnlisted(s: Surface, e: Event, gone: set<Id>, t: Id)
    ensures e.EvRemoveTarget? ==> forall page ::
      Loses(s.(nonPages := s.nonPages - {e.target}), gone, t, page) == Loses(s, gone, t, page)
  {}

  /** Any other target is tracked until it is forgotten or removed, or a session of it ends. */
  lemma ListedUntil(s: Surface, v: Surface, e: Event, t: Id)
    requires Owned(s) && Next(s, v, e)
    ensures t in v.nonPages <==>
              (e.EvTrackNonPage? && e.target == t) ||
              (t in s.nonPages && !(e.EvForgetNonPage? && e.target == t)
               && !Loses(s, Ended(s, v), t, false) && !(e.EvRemoveTarget? && e.target == t))
  {
    if e.EvRemoveTarget? || e.EvRemoveSession? {
      RemovalUntracks(s, v, e, t);
    } else {
      NextPlaces(s, v, e);
      NobodyEnds(s, v, e);
      TracksOthers(s, e, t);
    }
    hide Next, Owned, Placed, Unbound;
  }

  // ---- Frames ----

  /** Frame x is a child of id, or below one. */
  ghost predicate IsBelow(frames: map<Id, Frame>, x: Id, id: Id) {
    exists y :: y in frames && frames[y].parent == id && Leads(FrameParents(frames), x, {y})
  }

  lemma BelowIs(frames: map<Id, Frame>, x: Id, id: Id)
    requires x in frames
    ensures x in FramesBelow(frames, id) <==> IsBelow(frames, x, id)
  {
    var parents, roots := FrameParents(frames), set y | y in frames && frames[y].parent == id;
    if x in FramesBelow(frames, id) {
      var path :| IsPath(parents, path) && path[0] == x && path[|path| - 1] in roots;
      var y := path[|path| - 1];
      assert y in {y} && Leads(parents, x, {y});
    }
    if IsBelow(frames, x, id) {
      var y :| y in frames && frames[y].parent == id && Leads(parents, x, {y});
      var path :| IsPath(parents, path) && path[0] == x && path[|path| - 1] in {y};
      assert path[|path| - 1] in roots;
    }
  }

  /** The frames an event takes away. */
  ghost predicate Drops(s: Surface, e: Event, x: Id)
    requires x in s.frames
  {
    match e
    case EvRemoveFrame(id) => x == id || IsBelow(s.frames, x, id)
    case EvNavigateFrame(session, id, _) => Located(s, session) && IsBelow(s.frames, x, id)
    case EvRemoveTarget(t) => IsTabOf(s, t, s.frames[x].tab)
    case _ => false
  }

  /** The frames an event leaves, without the sessions that ended. */
  ghost function Kept(s: Surface, v: Surface, e: Event): map<Id, Frame> {
    map x | x in s.frames && !Drops(s, e, x) ::
      s.frames[x].(session := if s.frames[x].session in v.sessions then s.frames[x].session else EMPTY)
  }

  /** The root of an iframe's own tree keeps the parent known from elsewhere. */
  function KnownParent(s: Surface, t: Target, tree: FrameTree): Id {
    if tree.parent != EMPTY || !t.kind.IFrame? then tree.parent
    else if tree.id in s.frames && s.frames[tree.id].parent != EMPTY then s.frames[tree.id].parent
    else t.parentFrame
  }

  /** The frames an event reports: a frame an iframe session navigates keeps its parent. */
  ghost function Reported(s: Surface, e: Event): seq<Node> {
    match e
    case EvAttachFrame(session, id, parent) => if Located(s, session) then [Node(id, parent)] else []
    case EvNavigateFrame(session, id, parent) =>
      if !Located(s, session) then []
      else
        var keeps := parent == EMPTY && s.sessions[session].target.kind.IFrame? && id in s.frames && !Drops(s, e, id);
        [Node(id, if keeps then s.frames[id].parent else parent)]
    case EvCommitInit(_, copy, tree) => [Node(tree.id, KnownParent(s, copy.target, tree))] + PreorderAll(tree.children)
    case _ => []
  }

  function Reporter(e: Event): Id {
    match e
    case EvAttachFrame(session, _, _) => session
    case EvNavigateFrame(session, _, _) => session
    case EvCommitInit(id, _, _) => id
    case _ => EMPTY
  }

  /** The frame table after an event: the frames it reports, under the tab of the session that
      reports them, and the others it leaves. */
  lemma FramesAre(s: Surface, v: Surface, e: Event)
    requires Owned(s) && Next(s, v, e)
    ensures Recorded(Kept(s, v, e), v.frames, SessionTab(s, Reporter(e)), Reporter(e), Reported(s, e))
  {
    hide Recorded, Kept, Reported, Reporter, Owned, Next;
    if e.EvRemoveTarget? || e.EvRemoveSession? {
      FramesOfRemoval(s, v, e);
    } else if e.EvRemoveFrame? {
      FramesWithout(s, v, e);
    } else if e.EvNavigateFrame? {
      FramesOfNavigation(s, v, e);
    } else if e.EvCommitInit? {
      FramesOfCommit(s, v, e);
    } else {
      FramesOfOthers(s, v, e);
    }
  }

  lemma KeptAlive(s: Surface, v: Surface, e: Event)
    requires Owned(s) && s.sessions.Keys <= v.sessions.Keys && forall x :: x in s.frames ==> !Drops(s, e, x)
    ensures Kept(s, v, e) == s.frames
  {
    hide Drops;
    assert EMPTY !in s.sessions;
    forall x | x in s.frames ensures FrameOk(s, s.frames[x]) {}
    hide FramesOk, WindowsOk, TabsOk;
  }

  lemma NextFrames(s: Surface, v: Surface, e: Event)
    requires Owned(s) && Next(s, v, e) && !e.EvRemoveTarget? && !e.EvRemoveSession?
    ensures v.frames == Unbound(s, e).frames && s.sessions.Keys <= v.sessions.Keys
  {
    hide Next, Owned, Placed, Unbound, Loses;
    NextPlaces(s, v, e);
    NobodyEnds(s, v, e);
    forall x | x in s.sessions ensures x in v.sessions { assert x !in Ended(s, v); }
  }

  lemma FramesOfOthers(s: Surface, v: Surface, e: Event)
    requires Owned(s) && Next(s, v, e)
    requires !e.EvRemoveTarget? && !e.EvRemoveSession? && !e.EvRemoveFrame? && !e.EvNavigateFrame? && !e.EvCommitInit?
    ensures Recorded(Kept(s, v, e), v.frames, SessionTab(s, Reporter(e)), Reporter(e), Reported(s, e))
  {
    forall x | x in s.frames ensures !Drops(s, e, x) {}
    hide Next, Owned, Placed, Recorded, Kept, Drops, Unbound;
    NextFrames(s, v, e);
    KeptAlive(s, v, e);
    if e.EvAttachFrame? {
      FramesOfAttach(s, e);
    } else {
      FramesAreLeft(s, e);
      NothingIsRecorded(s.frames, SessionTab(s, Reporter(e)), Reporter(e));
    }
  }

  lemma FramesOfAttach(s: Surface, e: Event)
    requires e.EvAttachFrame?
    ensures Recorded(s.frames, Unbound(s, e).frames, SessionTab(s, e.session), e.session, Reported(s, e))
  {
    if Located(s, e.session) {
      OneIsRecorded(s, s.sessions[e.session].tab, e.session, e.frame, e.parent);
    } else {
      NothingIsRecorded(s.frames, SessionTab(s, e.session), e.session);
    }
    hide Recorded, Upsert;
  }

  lemma FramesAreLeft(s: Surface, e: Event)
    requires !e.EvRemoveTarget? && !e.EvRemoveSession? && !e.EvRemoveFrame? && !e.EvNavigateFrame? && !e.EvCommitInit?
    requires !e.EvAttachFrame?
    ensures Unbound(s, e).frames == s.frames
  {
    if e.EvAssignWindow? { AssignLeaves(s, e.target, e.raw); }
    hide AssignWindow, FirstTab;
  }

  lemma FramesOfCommit(s: Surface, v: Surface, e: Event)
    requires Owned(s) && Next(s, v, e) && e.EvCommitInit?
    ensures Recorded(Kept(s, v, e), v.frames, SessionTab(s, Reporter(e)), Reporter(e), Reported(s, e))
  {
    NextPlaces(s, v, e);
    NobodyEnds(s, v, e);
    KeptAlive(s, v, e);
    var root := Rooted(s, e.copy.target, e.tree);
    TreeIsRecorded(s, e.copy.tab, e.id, root);
    assert Preorder(root) == Reported(s, e);
    assert e.copy.tab == SessionTab(s, e.id);
    hide Owned, Placed, Recorded, Kept, Drops, UpsertTree, Rooted, Reported, Bound;
  }

  lemma KeptWithout(s: Surface, v: Surface, e: Event)
    requires Owned(s) && v.sessions == s.sessions && e.EvRemoveFrame?
    ensures Kept(s, v, e) == s.frames - FramesBelow(s.frames, e.frame) - {e.frame}
  {
    forall x | x in s.frames ensures x in FramesBelow(s.frames, e.frame) <==> IsBelow(s.frames, x, e.frame) {
      BelowIs(s.frames, x, e.frame);
    }
    assert EMPTY !in s.sessions;
    forall x | x in s.frames ensures FrameOk(s, s.frames[x]) {}
    hide FramesBelow, IsBelow, Owned, TabsOk, FramesOk, WindowsOk, SessionsOk;
  }

  lemma FramesWithout(s: Surface, v: Surface, e: Event)
    requires Owned(s) && Next(s, v, e) && e.EvRemoveFrame?
    ensures Recorded(Kept(s, v, e), v.frames, SessionTab(s, Reporter(e)), Reporter(e), Reported(s, e))
  {
    assert v.sessions == s.sessions by { hide FramesBelow; }
    KeptWithout(s, v, e);
    NothingIsRecorded(v.frames, SessionTab(s, Reporter(e)), Reporter(e));
    hide FramesBelow, Recorded, Kept, Owned;
  }

  lemma FramesOfNavigation(s: Surface, v: Surface, e: Event)
    requires Owned(s) && Next(s, v, e) && e.EvNavigateFrame?
    ensures Recorded(Kept(s, v, e), v.frames, SessionTab(s, Reporter(e)), Reporter(e), Reported(s, e))
  {
    var cut := s.(frames := if Located(s, e.session) then s.frames - FramesBelow(s.frames, e.frame) else s.frames);
    assert v.sessions == s.sessions by { hide FramesBelow; }
    assert cut.frames == Kept(s, v, e) by { hide NavigateFrame; KeptAbove(s, v, e); }
    hide FramesBelow, IsBelow, Recorded, Owned, Kept, Upsert;
    if Located(s, e.session) {
      assert e.frame in s.frames ==> (Drops(s, e, e.frame) <==> e.frame !in cut.frames) by {
        if e.frame in s.frames { BelowIs(s.frames, e.frame, e.frame); }
      }
      OneIsRecorded(cut, s.sessions[e.session].tab, e.session, e.frame, Reported(s, e)[0].parent);
    } else {
      NothingIsRecorded(v.frames, SessionTab(s, Reporter(e)), Reporter(e));
    }
  }

  lemma KeptAbove(s: Surface, v: Surface, e: Event)
    requires Owned(s) && v.sessions == s.sessions && e.EvNavigateFrame?
    ensures Kept(s, v, e) == if Located(s, e.session) then s.frames - FramesBelow(s.frames, e.frame) else s.frames
  {
    forall x | x in s.frames ensures x in FramesBelow(s.frames, e.frame) <==> IsBelow(s.frames, x, e.frame) {
      BelowIs(s.frames, x, e.frame);
    }
    assert EMPTY !in s.sessions;
    forall x | x in s.frames ensures FrameOk(s, s.frames[x]) {}
    hide FramesBelow, IsBelow, Owned, TabsOk, FramesOk, WindowsOk, SessionsOk;
  }

  lemma FramesOfRemoval(s: Surface, v: Surface, e: Event)
    requires Owned(s) && Next(s, v, e) && (e.EvRemoveTarget? || e.EvRemoveSession?)
    ensures Recorded(Kept(s, v, e), v.frames, SessionTab(s, Reporter(e)), Reporter(e), Reported(s, e))
  {
    var gone, tab;
    if e.EvRemoveTarget? {
      TargetGoes(s, e.target);
      ListedTab(s, e.target);
      gone, tab := GoneWith(s, e.target), TabOf(s, e.target);
    } else {
      SessionGoes(s, e.id);
      gone, tab := Subtree(Parents(s.sessions), {e.id}) + {e.id}, 0;
    }
    hide Subtree, GoneWith, RemoveTarget, RemoveSession, Untracks, WindowGone, FramesGone, Owned, Recorded, Next, Kept;
    assert v.sessions == s.sessions - gone && FramesGone(s.frames, v.frames, gone, tab);
    FramesLeft(s, v, e, gone, tab);
    NothingIsRecorded(v.frames, SessionTab(s, Reporter(e)), Reporter(e));
  }

  lemma FramesLeft(s: Surface, v: Surface, e: Event, gone: set<Id>, tab: nat)
    requires Owned(s) && v.sessions == s.sessions - gone && FramesGone(s.frames, v.frames, gone, tab)
    requires if e.EvRemoveTarget? then tab == TabOf(s, e.target) else e.EvRemoveSession? && tab == 0
    ensures v.frames == Kept(s, v, e)
  {
    assert 0 !in s.tabs && EMPTY !in s.sessions;
    forall x | x in s.frames ensures FrameOk(s, s.frames[x]) {}
    if e.EvRemoveTarget? { ListedTab(s, e.target); }
    hide Owned, TabsOk, WindowsOk, SessionsOk, FramesOk;
  }

  /** The public ids of frames are issued one after the other, and only to frames that lack one. */
  lemma NextNumber(s: Surface, v: Surface, e: Event)
    requires e.EvAttachFrame? && Next(s, v, e) && Located(s, e.session)
    ensures var lacks := e.parent != EMPTY && !HadId(s.frames, e.frame);
      && v.nextFrame == s.nextFrame + (if lacks then 1 else 0)
      && e.frame in v.frames && (lacks ==> v.frames[e.frame].publicId == v.nextFrame)
  {
    NextPlaces(s, v, e);
    hide Bound, Placed;
  }

  // ---- Whole runs ----

  ghost predicate IsTrace(run: seq<Surface>, events: seq<Event>) {
    && IsRun(run) && |events| == |run| - 1
    && forall k :: 0 <= k < |events| ==> Next(run[k], run[k + 1], events[k])
  }

  ghost predicate EndsAt(run: seq<Surface>, events: seq<Event>, k: nat, x: Id)
    requires k < |events| < |run|
  {
    Ends(run[k], events[k], x)
  }

  ghost predicate EndsBetween(run: seq<Surface>, events: seq<Event>, i: nat, j: nat, x: Id)
    requires IsTrace(run, events) && j < |run|
  {
    exists k :: i <= k < j && EndsAt(run, events, k, x)
  }

  lemma {:induction false} OwnedAt(run: seq<Surface>, n: nat)
    requires IsRun(run) && n < |run|
    ensures Owned(run[n])
  {
    hide Owned, Next;
    if n == 0 {
      var trackLocations, additional :| run[0] == Start(trackLocations, additional);
      StartOwned(trackLocations, additional);
    } else {
      OwnedAt(run, n - 1);
      assert Follows(run[n - 1], run[n]);
      var e :| Next(run[n - 1], run[n], e);
      NextOwned(run[n - 1], run[n], e);
    }
  }

  /** In any run a session that is there lasts exactly until it, a session above it, or the target
      one of them goes with is removed. */
  lemma {:induction false} SessionLastsIff(run: seq<Surface>, events: seq<Event>, i: nat, j: nat, x: Id)
    requires IsTrace(run, events) && i <= j < |run| && x in run[i].sessions
    ensures LastsThrough(run, i, j, x) <==> !EndsBetween(run, events, i, j, x)
    decreases j - i
  {
    hide IsRun, Owned, Ends, Next;
    if i < j {
      SessionLastsIff(run, events, i, j - 1, x);
      OwnedAt(run, j - 1);
      assert Next(run[j - 1], run[j - 1 + 1], events[j - 1]);
      SessionsComeAndGo(run[j - 1], run[j], events[j - 1], x);
      if LastsThrough(run, i, j - 1, x) {
        assert x in run[j - 1].sessions && !Admits(run[j - 1], events[j - 1], x);
        assert EndsAt(run, events, j - 1, x) <==> x !in run[j].sessions;
      }
    }
  }
}
