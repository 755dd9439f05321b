/**
  What the tracker's tables keep in every run: cross references never dangle, windows are
  exactly those some tab is on, and public ids are never reused.
*/
module SurfaceOwnership {
  import opened ParentClosure
  import opened SurfaceModel

  /** tabs and tabsByTarget are inverse to each other. */
  predicate Inverse(tabs: map<nat, Tab>, byTarget: map<Id, nat>, nextTab: nat) {
    && (forall t :: t in byTarget ==> byTarget[t] in tabs && tabs[byTarget[t]].target == t)
    && (forall k :: k in tabs ==>
          0 < k <= nextTab && tabs[k].target in byTarget && byTarget[tabs[k].target] == k)
  }

  predicate TabsOk(s: Surface) {
    Inverse(s.tabs, s.tabsByTarget, s.nextTab)
  }

  /** Every window has a tab on its raw id. */
  predicate Occupied(windows: map<int, nat>, tabs: map<nat, Tab>) {
    forall r :: r in windows ==> HasTabOn(tabs, r)
  }

  predicate Numbered(windows: map<int, nat>, nextWindow: nat) {
    && (forall r :: r in windows ==> 0 < windows[r] <= nextWindow)
    && (forall r, q :: r in windows && q in windows && windows[r] == windows[q] ==> r == q)
  }

  /** An assigned tab agrees with the window table. */
  predicate Agreed(windows: map<int, nat>, tabs: map<nat, Tab>) {
    forall k :: k in tabs && tabs[k].window != 0 ==>
      tabs[k].rawWindow in windows && windows[tabs[k].rawWindow] == tabs[k].window
  }

  predicate WindowsOk(s: Surface) {
    Occupied(s.windows, s.tabs) && Numbered(s.windows, s.nextWindow) && Agreed(s.windows, s.tabs)
  }

  predicate SessionOk(s: Surface, c: Session) {
    && (c.tab != 0 ==> c.tab in s.tabs)
    && (c.parent != EMPTY ==> c.parent in s.sessions)
    && (c.initializing || c.initialized ==>
          s.trackLocations && c.tab != 0 && (c.parent in s.sessions ==> s.sessions[c.parent].initialized))
  }

  /** Tabs and parents named by a session are live; a parent is initialized before its children. */
  predicate SessionsOk(s: Surface) {
    EMPTY !in s.sessions && forall x :: x in s.sessions ==> SessionOk(s, s.sessions[x])
  }

  /** The tab and the session of a frame are live, and a frame that has a parent has a public id. */
  predicate FrameOk(s: Surface, f: Frame) {
    && f.tab in s.tabs && (f.session != EMPTY ==> f.session in s.sessions)
    && f.publicId <= s.nextFrame && (f.parent != EMPTY ==> f.publicId != 0)
  }

  predicate FramesOk(s: Surface) {
    && (forall x :: x in s.frames ==> FrameOk(s, s.frames[x]))
    && (forall x, y :: x in s.frames && y in s.frames && s.frames[x].publicId == s.frames[y].publicId != 0 ==> x == y)
  }

  predicate Owned(s: Surface) {
    TabsOk(s) && WindowsOk(s) && SessionsOk(s) && FramesOk(s)
  }

  lemma StartOwned(trackLocations: bool, additional: set<Kind>)
    ensures Owned(Start(trackLocations, additional))
  {}

  // ---- Binding ----

  /** Zero wherever possible, the tab of a live tab elsewhere. */
  lemma RuleIsLive(s: Surface, f: Assignment, x: Id)
    requires TabsOk(s) && SessionsOk(s) && FramesOk(s) && x in s.sessions && f.Keys == s.sessions.Keys
    requires forall y :: y in f && f[y] != 0 ==> f[y] in s.tabs
    ensures Rule(s, f, x) != 0 ==> Rule(s, f, x) in s.tabs
  {
    assert SessionOk(s, s.sessions[x]);
  }

  /** Solutions found by filling in one tab after another exist and are least. */
  lemma {:induction false} LeastFrom(s: Surface, f: Assignment, empty: set<Id>) returns (g: Assignment)
    requires f.Keys == s.sessions.Keys && empty == set x | x in f && f[x] == 0
    requires forall x :: x in f && f[x] != 0 ==> f[x] == Rule(s, f, x)
    requires forall h :: IsSolution(s, h) ==> Below(f, h)
    requires TabsOk(s) && SessionsOk(s) && FramesOk(s) && forall x :: x in f && f[x] != 0 ==> f[x] in s.tabs
    ensures IsLeast(s, g) && forall x :: x in g && g[x] != 0 ==> g[x] in s.tabs
    decreases empty
  {
    if x :| x in s.sessions && f[x] != Rule(s, f, x) {
      var better := f[x := Rule(s, f, x)];
      RuleIsLive(s, f, x);
      forall h | IsSolution(s, h) ensures Below(better, h) {
        assert Below(f, h);
        assert h[x] == Rule(s, h, x);
      }
      assert empty - {x} == set y | y in better && better[y] == 0;
      g := LeastFrom(s, better, empty - {x});
    } else {
      g := f;
    }
  }

  lemma CurrentIsBelow(s: Surface, h: Assignment)
    requires IsSolution(s, h)
    ensures Below(Tabs(s), h)
  {
    forall x | x in Tabs(s) && Tabs(s)[x] != 0 ensures h[x] == Tabs(s)[x] {
      assert h[x] == Rule(s, h, x);
    }
  }

  lemma LeastExists(s: Surface) returns (f: Assignment)
    requires TabsOk(s) && SessionsOk(s) && FramesOk(s)
    ensures IsLeast(s, f) && forall x :: x in f && f[x] != 0 ==> f[x] in s.tabs
  {
    forall h | IsSolution(s, h) ensures Below(Tabs(s), h) { CurrentIsBelow(s, h); }
    forall x | x in s.sessions && s.sessions[x].tab != 0 ensures s.sessions[x].tab in s.tabs {
      assert SessionOk(s, s.sessions[x]);
    }
    f := LeastFrom(s, Tabs(s), set x | x in Tabs(s) && Tabs(s)[x] == 0);
  }

  lemma LeastIsUnique(s: Surface, f: Assignment, g: Assignment)
    requires IsLeast(s, f) && IsLeast(s, g)
    ensures f == g
  {
    assert Below(f, g) && Below(g, f);
    forall x | x in f ensures f[x] == g[x] {}
  }

  lemma NothingRecovered(a: Surface, r: Surface)
    requires a.trackLocations && Recovered(a, r)
    ensures r == a
  {
    forall x | x in a.sessions ensures r.sessions[x] == a.sessions[x] { assert !IsLost(a, x); }
    assert r.sessions == a.sessions;
  }

  /** With locations tracked, the outcome does not depend on the order of visits. */
  lemma BindingIsConfluent(a: Surface, b: Surface, c: Surface)
    requires a.trackLocations && Bound(a, b) && Bound(a, c)
    ensures b == c
  {
    var r, f :| Recovered(a, r) && IsLeast(r, f) && b == Assigned(r, f);
    var q, g :| Recovered(a, q) && IsLeast(q, g) && c == Assigned(q, g);
    NothingRecovered(a, r);
    NothingRecovered(a, q);
    hide Recovered, IsLeast;
    LeastIsUnique(a, f, g);
  }

  lemma RecoveredOwned(s: Surface, r: Surface)
    requires Owned(s) && Recovered(s, r)
    ensures Owned(r)
  {
    assert SessionsOk(r) by {
      forall x | x in r.sessions ensures SessionOk(r, r.sessions[x]) {
        assert SessionOk(s, s.sessions[x]);
        if IsLost(s, x) && Candidates(s, x) != {} { assert r.sessions[x].parent in Candidates(s, x); }
      }
    }
    forall x | x in r.frames ensures FrameOk(r, r.frames[x]) { assert FrameOk(s, s.frames[x]); }
  }

  lemma AssignedOwned(r: Surface, f: Assignment)
    requires Owned(r) && f.Keys == r.sessions.Keys && forall x :: x in f && f[x] != 0 ==> f[x] in r.tabs
    requires forall x :: x in f && r.sessions[x].tab != 0 ==> f[x] != 0
    ensures Owned(Assigned(r, f))
  {
    var v := Assigned(r, f);
    hide Inverse, Occupied, Numbered, Agreed;
    forall x | x in v.sessions ensures SessionOk(v, v.sessions[x]) { assert SessionOk(r, r.sessions[x]); }
    forall x | x in v.frames ensures FrameOk(v, v.frames[x]) { assert FrameOk(r, r.frames[x]); }
  }

  lemma BoundOwned(s: Surface, v: Surface)
    requires Owned(s) && Bound(s, v)
    ensures Owned(v)
  {
    var r, f :| Recovered(s, r) && IsLeast(r, f) && v == Assigned(r, f);
    hide Recovered, Assigned;
    RecoveredOwned(s, r);
    var g := LeastExists(r);
    LeastIsUnique(r, f, g);
    assert IsSolution(r, f);
    hide IsLeast, TabsOk, WindowsOk, SessionsOk, FramesOk;
    forall x | x in f && r.sessions[x].tab != 0 ensures f[x] != 0 { assert f[x] == Rule(r, f, x); }
    AssignedOwned(r, f);
  }

  // ---- Pages and windows ----

  lemma SameReferences(s: Surface, v: Surface)
    requires SessionsOk(s) && FramesOk(s)
    requires v.sessions == s.sessions && v.frames == s.frames && v.nextFrame == s.nextFrame
    requires v.trackLocations == s.trackLocations && s.tabs.Keys <= v.tabs.Keys
    ensures SessionsOk(v) && FramesOk(v)
  {
    forall x | x in v.sessions ensures SessionOk(v, v.sessions[x]) { assert SessionOk(s, s.sessions[x]); }
    forall x | x in v.frames ensures FrameOk(v, v.frames[x]) { assert FrameOk(s, s.frames[x]); }
  }

  lemma StillOccupied(windows: map<int, nat>, tabs: map<nat, Tab>, later: map<nat, Tab>)
    requires Occupied(windows, tabs)
    requires forall k :: k in tabs ==> k in later && later[k].rawWindow == tabs[k].rawWindow
    ensures Occupied(windows, later)
  {
    forall r | r in windows ensures HasTabOn(later, r) {
      assert HasTabOn(tabs, r);
      var k :| k in tabs && tabs[k].rawWindow == r;
      assert k in later && later[k].rawWindow == r;
    }
  }

  lemma NewTabFits(tabs: map<nat, Tab>, byTarget: map<Id, nat>, nextTab: nat, target: Id)
    requires Inverse(tabs, byTarget, nextTab) && target !in byTarget
    ensures Inverse(tabs[nextTab + 1 := Tab(target, 0, 0, EMPTY)], byTarget[target := nextTab + 1], nextTab + 1)
  {}

  lemma NewTabAgrees(windows: map<int, nat>, tabs: map<nat, Tab>, k: nat, target: Id)
    requires Agreed(windows, tabs)
    ensures Agreed(windows, tabs[k := Tab(target, 0, 0, EMPTY)])
  {}

  lemma RegisterOwned(s: Surface, t: Target)
    requires Owned(s)
    ensures Owned(Register(s, t))
  {
    var v := Register(s, t);
    hide SessionsOk, FramesOk, Inverse, Occupied, Numbered, Agreed;
    SameReferences(s, v);
    if TabOf(s, t.id) == 0 {
      assert t.id !in s.tabsByTarget by { ListedTab(s, t.id); }
      assert s.nextTab + 1 !in s.tabs by { FreshTab(s); }
      NewTabFits(s.tabs, s.tabsByTarget, s.nextTab, t.id);
      NewTabAgrees(s.windows, s.tabs, s.nextTab + 1, t.id);
      StillOccupied(s.windows, s.tabs, v.tabs);
    }
  }

  lemma ListedTab(s: Surface, t: Id)
    requires TabsOk(s)
    ensures t in s.tabsByTarget <==> TabOf(s, t) != 0
    ensures t in s.tabsByTarget ==> TabOf(s, t) in s.tabs
  {}

  lemma FreshTab(s: Surface)
    requires TabsOk(s)
    ensures s.nextTab + 1 !in s.tabs && 0 !in s.tabs
  {}

  /** A window table that is right but for a window that may have lost its last tab. */
  predicate WindowsFit(s: Surface, loose: int) {
    && Occupied(s.windows - {loose}, s.tabs) && Numbered(s.windows, s.nextWindow) && Agreed(s.windows, s.tabs)
  }

  lemma DropEmptyOwned(s: Surface, raw: int)
    requires WindowsFit(s, raw)
    ensures WindowsOk(DropEmptyWindow(s, raw))
    ensures DropEmptyWindow(s, raw) == s.(windows := DropEmptyWindow(s, raw).windows)
  {
    if HasTabOn(s.tabs, raw) {
      forall r | r in s.windows ensures HasTabOn(s.tabs, r) {
        if r != raw { assert r in s.windows - {raw}; }
      }
    } else {
      forall k | k in s.tabs ensures s.tabs[k].rawWindow != raw {}
      hide HasTabOn;
    }
  }

  /** Putting tab k on a window leaves at most the window it came from without a tab. */
  lemma MovedFits(s: Surface, k: nat, raw: int)
    requires WindowsOk(s) && k in s.tabs
    ensures WindowsFit(Moved(s, k, raw), s.tabs[k].rawWindow)
    ensures HasTabOn(Moved(s, k, raw).tabs, raw)
  {
    var v := Moved(s, k, raw);
    var from := s.tabs[k].rawWindow;
    assert k in v.tabs && v.tabs[k].rawWindow == raw;
    forall r | r in v.windows - {from} ensures HasTabOn(v.tabs, r) {
      if r != raw {
        assert HasTabOn(s.tabs, r);
        var j :| j in s.tabs && s.tabs[j].rawWindow == r;
        assert j in v.tabs && v.tabs[j].rawWindow == r;
      }
    }
    hide HasTabOn;
    assert Agreed(v.windows, v.tabs);
    assert Numbered(v.windows, v.nextWindow);
  }

  lemma MovedKeepsTabs(s: Surface, k: nat, raw: int)
    requires TabsOk(s) && k in s.tabs
    ensures TabsOk(Moved(s, k, raw))
  {}

  lemma MovedOwned(s: Surface, k: nat, raw: int)
    requires Owned(s) && k in s.tabs
    ensures var v := Moved(s, k, raw); TabsOk(v) && SessionsOk(v) && FramesOk(v)
    ensures var v := Moved(s, k, raw); v.sessions == s.sessions && v.frames == s.frames && v.nextFrame == s.nextFrame
  {
    MovedKeepsTabs(s, k, raw);
    hide TabsOk, WindowsOk, SessionsOk, FramesOk;
    SameReferences(s, Moved(s, k, raw));
  }

  lemma AssignWindowOwned(s: Surface, target: Id, raw: int)
    requires Owned(s)
    ensures Owned(AssignWindow(s, target, raw))
  {
    hide TabsOk, WindowsOk, SessionsOk, FramesOk, HasTabOn, WindowsFit, Moved, DropEmptyWindow, TabOf;
    var k := TabOf(s, target);
    if k in s.tabs {
      var moved := Moved(s, k, raw);
      MovedFits(s, k, raw);
      MovedOwned(s, k, raw);
      if s.tabs[k].rawWindow == raw {
        StaysOccupied(moved, raw);
      } else {
        DropEmptyOwned(moved, s.tabs[k].rawWindow);
        var v := DropEmptyWindow(moved, s.tabs[k].rawWindow);
        SameReferences(moved, v);
        TabsStay(moved, v);
      }
    }
  }

  lemma StaysOccupied(moved: Surface, raw: int)
    requires WindowsFit(moved, raw) && HasTabOn(moved.tabs, raw)
    ensures WindowsOk(moved)
  {
    forall r | r in moved.windows ensures HasTabOn(moved.tabs, r) {
      if r != raw { assert r in moved.windows - {raw}; }
    }
  }

  lemma UpdateTargetOwned(s: Surface, t: Target)
    requires Owned(s)
    ensures Owned(UpdateTarget(s, t))
  {
    var v := UpdateTarget(s, t);
    hide Inverse, Occupied, Numbered, Agreed;
    forall x | x in v.sessions ensures SessionOk(v, v.sessions[x]) { assert SessionOk(s, s.sessions[x]); }
    forall x | x in v.frames ensures FrameOk(v, v.frames[x]) { assert FrameOk(s, s.frames[x]); }
  }

  // ---- Sessions ----

  lemma AddSessionOwned(s: Surface, id: Id, parent: Id, t: Target)
    requires Owned(s) && CanAdd(s, id, parent, t) && id != EMPTY
    ensures Owned(AddSession(s, id, parent, t))
  {
    var v := AddSession(s, id, parent, t);
    assert FirstTab(s, parent, t) != 0 ==> FirstTab(s, parent, t) in s.tabs by {
      if parent in s.sessions { assert SessionOk(s, s.sessions[parent]); }
    }
    hide Inverse, Occupied, Numbered, Agreed, FirstTab;
    forall x | x in v.sessions ensures SessionOk(v, v.sessions[x]) {
      if x != id { assert SessionOk(s, s.sessions[x]); }
    }
    forall x | x in v.frames ensures FrameOk(v, v.frames[x]) { assert FrameOk(s, s.frames[x]); }
  }

  lemma BeginInitOwned(s: Surface, id: Id)
    requires Owned(s) && CanBeginInit(s, id)
    ensures Owned(BeginInit(s, id))
  {
    var v := BeginInit(s, id);
    hide Inverse, Occupied, Numbered, Agreed;
    forall x | x in v.sessions ensures SessionOk(v, v.sessions[x]) { assert SessionOk(s, s.sessions[x]); }
    forall x | x in v.frames ensures FrameOk(v, v.frames[x]) { assert FrameOk(s, s.frames[x]); }
  }

  /** Dropping sessions keeps the tables sound when nobody keeps a parent that goes. */
  lemma DropSessionsOwned(s: Surface, gone: set<Id>)
    requires Owned(s)
    requires forall x :: x in s.sessions && x !in gone && s.sessions[x].parent != EMPTY ==>
      s.sessions[x].parent !in gone
    ensures Owned(DropSessions(s, gone))
  {
    var v := DropSessions(s, gone);
    hide Inverse, Occupied, Numbered, Agreed;
    forall x | x in v.sessions ensures SessionOk(v, v.sessions[x]) { assert SessionOk(s, s.sessions[x]); }
    forall x | x in v.frames ensures FrameOk(v, v.frames[x]) { assert FrameOk(s, s.frames[x]); }
  }

  lemma NobodyLeftBehind(s: Surface, roots: set<Id>)
    ensures var gone := Subtree(Parents(s.sessions), roots);
      forall x :: x in s.sessions && x !in gone ==> s.sessions[x].parent !in gone && s.sessions[x].parent !in roots
  {
    var parents := Parents(s.sessions);
    forall x | x in s.sessions && x !in Subtree(parents, roots)
      ensures s.sessions[x].parent !in Subtree(parents, roots) && s.sessions[x].parent !in roots
    {
      RestKeepsParents(parents, roots, x);
    }
  }

  lemma RemoveSessionOwned(s: Surface, id: Id)
    requires Owned(s)
    ensures Owned(RemoveSession(s, id))
  {
    NobodyLeftBehind(s, {id});
    hide Subtree, Owned;
    DropSessionsOwned(s, Subtree(Parents(s.sessions), {id}) + {id});
  }

  lemma RemoveTabOwned(s: Surface, k: nat)
    requires Owned(s)
    ensures Owned(RemoveTab(s, k))
  {
    if k in s.tabs {
      var roots := OfTab(s, k);
      var gone := Subtree(Parents(s.sessions), roots);
      NobodyLeftBehind(s, roots);
      DropSessionsOwned(s, gone);
      var left := DropSessions(s, gone);
      forall x | x in left.sessions ensures left.sessions[x].tab != k {
        if s.sessions[x].tab == k { RootIsBelow(Parents(s.sessions), roots, x); }
      }
      hide Subtree, DropSessions;
      TabGone(left, k);
      assert left.tabs == s.tabs && left.tabsByTarget == s.tabsByTarget;
    }
  }

  function WithoutTab(s: Surface, k: nat): Surface
    requires k in s.tabs
  {
    s.(frames := map x | x in s.frames && s.frames[x].tab != k :: s.frames[x],
       tabsByTarget := s.tabsByTarget - {s.tabs[k].target}, tracking := s.tracking - {s.tabs[k].target},
       tabs := s.tabs - {k})
  }

  lemma TabGone(s: Surface, k: nat)
    requires Owned(s) && k in s.tabs && forall x :: x in s.sessions ==> s.sessions[x].tab != k
    ensures Owned(DropEmptyWindow(WithoutTab(s, k), s.tabs[k].rawWindow))
  {
    var v, raw := WithoutTab(s, k), s.tabs[k].rawWindow;
    assert WindowsFit(v, raw) by {
      hide SessionsOk, FramesOk, TabsOk;
      forall r | r in v.windows - {raw} ensures HasTabOn(v.tabs, r) {
        assert HasTabOn(s.tabs, r);
        var j :| j in s.tabs && s.tabs[j].rawWindow == r;
        assert j in v.tabs && v.tabs[j] == s.tabs[j];
      }
    }
    assert TabsOk(v);
    hide Inverse, Occupied, Numbered, Agreed;
    forall x | x in v.sessions ensures SessionOk(v, v.sessions[x]) { assert SessionOk(s, s.sessions[x]); }
    forall x | x in v.frames ensures FrameOk(v, v.frames[x]) { assert FrameOk(s, s.frames[x]); }
    DropEmptyOwned(v, raw);
    SameReferences(v, DropEmptyWindow(v, raw));
    TabsStay(v, DropEmptyWindow(v, raw));
  }

  lemma TabsStay(s: Surface, v: Surface)
    requires TabsOk(s) && v.tabs == s.tabs && v.tabsByTarget == s.tabsByTarget && v.nextTab == s.nextTab
    ensures TabsOk(v)
  {}

  lemma RemoveTargetOwned(s: Surface, target: Id)
    requires Owned(s)
    ensures Owned(RemoveTarget(s, target))
  {
    var known := s.(nonPages := s.nonPages - {target});
    assert Owned(known) by {
      SameReferences(s, known);
      hide SessionsOk, FramesOk;
    }
    assert TabOf(known, target) == TabOf(s, target);
    if TabOf(s, target) != 0 {
      hide Owned;
      RemoveTabOwned(known, TabOf(s, target));
    } else {
      NobodyLeftBehind(known, OfTarget(s, target));
      hide Subtree, Owned;
      DropSessionsOwned(known, Subtree(Parents(known.sessions), OfTarget(s, target)));
    }
  }

  // ---- Frames ----

  lemma UpsertOwned(s: Surface, tab: nat, session: Id, id: Id, parent: Id)
    requires Owned(s) && tab in s.tabs && session in s.sessions
    ensures Owned(Upsert(s, tab, session, id, parent))
    ensures Upsert(s, tab, session, id, parent).tabs == s.tabs
    ensures Upsert(s, tab, session, id, parent).sessions == s.sessions
  {
    var v := Upsert(s, tab, session, id, parent);
    hide Inverse, Occupied, Numbered, Agreed;
    forall x | x in v.sessions ensures SessionOk(v, v.sessions[x]) { assert SessionOk(s, s.sessions[x]); }
    forall x | x in v.frames ensures FrameOk(v, v.frames[x]) { if x in s.frames { assert FrameOk(s, s.frames[x]); } }
  }

  lemma {:induction false} UpsertTreeOwned(s: Surface, tab: nat, session: Id, tree: FrameTree)
    requires Owned(s) && tab in s.tabs && session in s.sessions
    ensures Owned(UpsertTree(s, tab, session, tree))
    ensures UpsertTree(s, tab, session, tree).tabs == s.tabs
    ensures UpsertTree(s, tab, session, tree).sessions == s.sessions
    decreases tree
  {
    hide Owned, Upsert;
    UpsertOwned(s, tab, session, tree.id, tree.parent);
    UpsertForestOwned(Upsert(s, tab, session, tree.id, tree.parent), tab, session, tree.children);
  }

  lemma {:induction false} UpsertForestOwned(s: Surface, tab: nat, session: Id, trees: seq<FrameTree>)
    requires Owned(s) && tab in s.tabs && session in s.sessions
    ensures Owned(UpsertForest(s, tab, session, trees))
    ensures UpsertForest(s, tab, session, trees).tabs == s.tabs
    ensures UpsertForest(s, tab, session, trees).sessions == s.sessions
    decreases trees
  {
    hide Owned;
    if trees != [] {
      UpsertTreeOwned(s, tab, session, trees[0]);
      UpsertForestOwned(UpsertTree(s, tab, session, trees[0]), tab, session, trees[1..]);
    }
  }

  lemma RootFrameKeeps(s: Surface, v: Surface, k: nat, root: Id)
    requires TabsOk(s) && WindowsOk(s) && k in s.tabs
    requires v.tabs == s.tabs || v.tabs == s.tabs[k := s.tabs[k].(rootFrame := root)]
    requires v.tabsByTarget == s.tabsByTarget && v.nextTab == s.nextTab
    requires v.windows == s.windows && v.nextWindow == s.nextWindow
    ensures TabsOk(v) && WindowsOk(v)
  {
    StillOccupied(s.windows, s.tabs, v.tabs);
    hide Occupied;
  }

  lemma CommitInitOwned(s: Surface, id: Id, copy: Session, tree: FrameTree)
    requires Owned(s) && id in s.sessions && s.sessions[id].initializing && copy.tab == s.sessions[id].tab
    ensures Owned(CommitInit(s, id, copy, tree))
  {
    var root := Rooted(s, copy.target, tree);
    assert SessionOk(s, s.sessions[id]);
    UpsertTreeOwned(s, copy.tab, id, root);
    var grown := UpsertTree(s, copy.tab, id, root);
    var v := CommitInit(s, id, copy, tree);
    hide UpsertTree, Rooted;
    RootFrameKeeps(grown, v, copy.tab, root.id);
    hide Inverse, Occupied, Numbered, Agreed;
    forall x | x in v.sessions ensures SessionOk(v, v.sessions[x]) { assert SessionOk(grown, grown.sessions[x]); }
    forall x | x in v.frames ensures FrameOk(v, v.frames[x]) { assert FrameOk(grown, grown.frames[x]); }
  }

  lemma AttachFrameOwned(s: Surface, session: Id, id: Id, parent: Id)
    requires Owned(s) && Located(s, session)
    ensures Owned(AttachFrame(s, session, id, parent))
  {
    assert SessionOk(s, s.sessions[session]);
    hide Owned;
    UpsertOwned(s, s.sessions[session].tab, session, id, parent);
  }

  lemma FewerFramesOwned(s: Surface, gone: set<Id>)
    requires Owned(s)
    ensures Owned(s.(frames := s.frames - gone))
  {
    var v := s.(frames := s.frames - gone);
    hide Inverse, Occupied, Numbered, Agreed;
    forall x | x in v.sessions ensures SessionOk(v, v.sessions[x]) { assert SessionOk(s, s.sessions[x]); }
    forall x | x in v.frames ensures FrameOk(v, v.frames[x]) { assert FrameOk(s, s.frames[x]); }
  }

  lemma NavigateFrameOwned(s: Surface, session: Id, id: Id, parent: Id)
    requires Owned(s)
    ensures Owned(NavigateFrame(s, session, id, parent))
  {
    if Located(s, session) {
      assert SessionOk(s, s.sessions[session]);
      var gone := FramesBelow(s.frames, id);
      hide Owned, FramesBelow;
      FewerFramesOwned(s, gone);
      var cut := s.(frames := s.frames - gone);
      var above := if parent == EMPTY && s.sessions[session].target.kind.IFrame? && id in cut.frames
                   then cut.frames[id].parent else parent;
      UpsertOwned(cut, s.sessions[session].tab, session, id, above);
    }
  }

  // ---- Whole runs ----

  lemma NextOwned(s: Surface, v: Surface, e: Event)
    requires Owned(s) && Next(s, v, e)
    ensures Owned(v)
  {
    hide Owned, Bound, Register, AssignWindow, UpdateTarget, AddSession, BeginInit, CommitInit, RemoveTarget,
      RemoveSession, AttachFrame, NavigateFrame, RemoveFrame, FramesBelow;
    match e
    case EvRegister(t) => RegisterOwned(s, t); BoundOwned(Register(s, t), v);
    case EvAttachFailed(_, _) => TrackingOwned(s, v);
    case EvTrackNonPage(_) => TrackingOwned(s, v);
    case EvForgetNonPage(_) => TrackingOwned(s, v);
    case EvAddSession(id, parent, t) =>
      if CanAdd(s, id, parent, t) {
        AddSessionOwned(s, id, parent, t);
        BoundOwned(AddSession(s, id, parent, t), v);
      }
    case EvBind => BoundOwned(s, v);
    case EvBeginInit(id) => BeginInitOwned(s, id);
    case EvCommitInit(id, copy, tree) =>
      CommitInitOwned(s, id, copy, tree);
      BoundOwned(CommitInit(s, id, copy, tree), v);
    case EvAssignWindow(t, raw) => AssignWindowOwned(s, t, raw);
    case EvUpdateTarget(t) => UpdateTargetOwned(s, t);
    case EvRemoveTarget(t) => RemoveTargetOwned(s, t);
    case EvRemoveSession(id) => RemoveSessionOwned(s, id);
    case EvAttachFrame(session, id, parent) =>
      if Located(s, session) {
        AttachFrameOwned(s, session, id, parent);
        BoundOwned(AttachFrame(s, session, id, parent), v);
      }
    case EvNavigateFrame(session, id, parent) => NavigateFrameOwned(s, session, id, parent);
    case EvRemoveFrame(id) => FewerFramesOwned(s, FramesBelow(s.frames, id) + {id}); MinusTwice(s, id);
  }

  lemma TrackingOwned(s: Surface, v: Surface)
    requires Owned(s) && v == s.(tracking := v.tracking, nonPages := v.nonPages)
    ensures Owned(v)
  {
    SameReferences(s, v);
    hide SessionsOk, FramesOk;
  }

  lemma MinusTwice(s: Surface, id: Id)
    ensures RemoveFrame(s, id) == s.(frames := s.frames - (FramesBelow(s.frames, id) + {id}))
  {
    hide FramesBelow;
    assert s.frames - FramesBelow(s.frames, id) - {id} == s.frames - (FramesBelow(s.frames, id) + {id});
  }

  /** No reference dangles in any run. */
  lemma {:induction false} RunOwned(run: seq<Surface>)
    requires IsRun(run)
    ensures Owned(run[|run| - 1])
  {
    var last := |run| - 1;
    if last == 0 {
      var trackLocations, additional :| run[0] == Start(trackLocations, additional);
      StartOwned(trackLocations, additional);
    } else {
      assert IsRun(run[..last]) by {
        forall i | 0 < i < last ensures Follows(run[..last][i - 1], run[..last][i]) {
          assert Follows(run[i - 1], run[i]);
        }
      }
      RunOwned(run[..last]);
      assert Follows(run[last - 1], run[last]);
      var e :| Next(run[last - 1], run[last], e);
      NextOwned(run[last - 1], run[last], e);
    }
  }

  // ---- Public ids ----

  predicate FreshTabs(s: Surface, v: Surface) {
    s.nextTab <= v.nextTab && forall k :: k in v.tabs ==> k in s.tabs || k > s.nextTab
  }

  predicate FreshWindows(s: Surface, v: Surface) {
    && s.nextWindow <= v.nextWindow
    && forall r :: r in v.windows ==> v.windows[r] > s.nextWindow || (r in s.windows && v.windows[r] == s.windows[r])
  }

  predicate FreshFrames(s: Surface, v: Surface) {
    && s.nextFrame <= v.nextFrame
    && forall x :: x in v.frames ==>
         v.frames[x].publicId == 0 || v.frames[x].publicId > s.nextFrame
         || (x in s.frames && v.frames[x].publicId == s.frames[x].publicId)
  }

  /** Every id in v is one of s, for the same thing, or was issued since. */
  predicate OnlyFresh(s: Surface, v: Surface) {
    FreshTabs(s, v) && FreshWindows(s, v) && FreshFrames(s, v)
  }

  lemma FreshTransitive(s: Surface, v: Surface, w: Surface)
    requires OnlyFresh(s, v) && OnlyFresh(v, w)
    ensures OnlyFresh(s, w)
  {}

  lemma UpsertFresh(s: Surface, tab: nat, session: Id, id: Id, parent: Id)
    ensures OnlyFresh(s, Upsert(s, tab, session, id, parent))
  {}

  lemma {:induction false} UpsertTreeFresh(s: Surface, tab: nat, session: Id, tree: FrameTree)
    ensures OnlyFresh(s, UpsertTree(s, tab, session, tree))
    decreases tree
  {
    hide OnlyFresh, Upsert;
    var first := Upsert(s, tab, session, tree.id, tree.parent);
    UpsertFresh(s, tab, session, tree.id, tree.parent);
    UpsertForestFresh(first, tab, session, tree.children);
    FreshTransitive(s, first, UpsertTree(s, tab, session, tree));
  }

  lemma {:induction false} UpsertForestFresh(s: Surface, tab: nat, session: Id, trees: seq<FrameTree>)
    ensures OnlyFresh(s, UpsertForest(s, tab, session, trees))
    decreases trees
  {
    if trees == [] {
    } else {
      hide OnlyFresh;
      var first := UpsertTree(s, tab, session, trees[0]);
      UpsertTreeFresh(s, tab, session, trees[0]);
      UpsertForestFresh(first, tab, session, trees[1..]);
      FreshTransitive(s, first, UpsertForest(s, tab, session, trees));
    }
  }

  lemma SessionsFresh(s: Surface, u: Surface, v: Surface)
    requires OnlyFresh(s, u) && v == u.(sessions := v.sessions)
    ensures OnlyFresh(s, v)
  {}

  lemma BoundFresh(s: Surface, u: Surface, v: Surface)
    requires OnlyFresh(s, u) && Bound(u, v)
    ensures OnlyFresh(s, v)
  {
    hide OnlyFresh;
    var r, f :| Recovered(u, r) && IsLeast(r, f) && v == Assigned(r, f);
    assert r == u.(sessions := r.sessions) && v == r.(sessions := v.sessions);
    SessionsFresh(s, u, v);
  }

  lemma CommitFresh(s: Surface, id: Id, copy: Session, tree: FrameTree)
    requires id in s.sessions
    ensures OnlyFresh(s, CommitInit(s, id, copy, tree))
  {
    var root := Rooted(s, copy.target, tree);
    hide Rooted;
    UpsertTreeFresh(s, copy.tab, id, root);
  }

  lemma NavigateFresh(s: Surface, session: Id, id: Id, parent: Id)
    ensures OnlyFresh(s, NavigateFrame(s, session, id, parent))
  {
    if Located(s, session) {
      var cut := s.(frames := s.frames - FramesBelow(s.frames, id));
      var above := if parent == EMPTY && s.sessions[session].target.kind.IFrame? && id in cut.frames
                   then cut.frames[id].parent else parent;
      hide FramesBelow;
      assert OnlyFresh(s, cut);
      UpsertFresh(cut, s.sessions[session].tab, session, id, above);
      hide OnlyFresh, Upsert;
      FreshTransitive(s, cut, Upsert(cut, s.sessions[session].tab, session, id, above));
    }
  }

  lemma DropEmptyFresh(s: Surface, v: Surface, raw: int)
    requires OnlyFresh(s, v)
    ensures OnlyFresh(s, DropEmptyWindow(v, raw))
  {
    hide HasTabOn;
  }

  lemma MovedFresh(s: Surface, k: nat, raw: int)
    requires k in s.tabs
    ensures OnlyFresh(s, Moved(s, k, raw))
  {}

  lemma AssignFresh(s: Surface, target: Id, raw: int)
    ensures OnlyFresh(s, AssignWindow(s, target, raw))
  {
    hide OnlyFresh, Moved, DropEmptyWindow, TabOf;
    SameFresh(s, s);
    var k := TabOf(s, target);
    if k in s.tabs {
      MovedFresh(s, k, raw);
      DropEmptyFresh(s, Moved(s, k, raw), s.tabs[k].rawWindow);
    }
  }

  lemma DropSessionsFresh(s: Surface, gone: set<Id>)
    ensures OnlyFresh(s, DropSessions(s, gone))
  {
    hide Untracked, PageTargets, OtherTargets;
  }

  lemma WithoutTabFresh(s: Surface, k: nat)
    requires k in s.tabs
    ensures OnlyFresh(s, WithoutTab(s, k))
  {}

  lemma RemoveTabFresh(s: Surface, k: nat)
    ensures OnlyFresh(s, RemoveTab(s, k))
  {
    SameFresh(s, s);
    if k in s.tabs {
      var left := DropSessions(s, Subtree(Parents(s.sessions), OfTab(s, k)));
      DropSessionsFresh(s, Subtree(Parents(s.sessions), OfTab(s, k)));
      assert left.tabs == s.tabs && left.tabsByTarget == s.tabsByTarget;
      hide OnlyFresh, Subtree, DropSessions, DropEmptyWindow;
      WithoutTabFresh(left, k);
      FreshTransitive(s, left, WithoutTab(left, k));
      DropEmptyFresh(s, WithoutTab(left, k), s.tabs[k].rawWindow);
    }
  }

  lemma RemoveTargetFresh(s: Surface, target: Id)
    ensures OnlyFresh(s, RemoveTarget(s, target))
  {
    hide OnlyFresh, RemoveTab, DropSessions, Subtree, TabOf;
    var known := s.(nonPages := s.nonPages - {target});
    SameFresh(s, known);
    RemoveTabFresh(known, TabOf(s, target));
    FreshTransitive(s, known, RemoveTab(known, TabOf(s, target)));
    var gone := Subtree(Parents(s.sessions), OfTarget(s, target));
    DropSessionsFresh(known, gone);
    FreshTransitive(s, known, DropSessions(known, gone));
  }

  lemma NextFresh(s: Surface, v: Surface, e: Event)
    requires Next(s, v, e)
    ensures OnlyFresh(s, v)
  {
    hide OnlyFresh, Bound, Register, AssignWindow, UpdateTarget, AddSession, CommitInit, RemoveTarget, RemoveSession,
      AttachFrame, NavigateFrame, RemoveFrame, BeginInit;
    match e
    case EvRegister(t) =>
      assert OnlyFresh(s, Register(s, t)) by { RegisterFresh(s, t); }
      BoundFresh(s, Register(s, t), v);
    case EvAddSession(id, parent, t) =>
      SameFresh(s, s);
      if CanAdd(s, id, parent, t) {
        AddFresh(s, id, parent, t);
        BoundFresh(s, AddSession(s, id, parent, t), v);
      }
    case EvBind => SameFresh(s, s); BoundFresh(s, s, v);
    case EvCommitInit(id, copy, tree) =>
      CommitFresh(s, id, copy, tree);
      BoundFresh(s, CommitInit(s, id, copy, tree), v);
    case EvAssignWindow(t, raw) => AssignFresh(s, t, raw);
    case EvRemoveTarget(t) => RemoveTargetFresh(s, t);
    case EvRemoveSession(id) => RemoveSessionFresh(s, id);
    case EvAttachFrame(session, id, parent) =>
      SameFresh(s, s);
      if Located(s, session) {
        AttachFresh(s, session, id, parent);
        BoundFresh(s, AttachFrame(s, session, id, parent), v);
      }
    case EvNavigateFrame(session, id, parent) => NavigateFresh(s, session, id, parent);
    case EvRemoveFrame(id) => RemoveFrameFresh(s, id);
    case EvUpdateTarget(t) => UpdateFresh(s, t);
    case EvBeginInit(id) => BeginFresh(s, id);
    case _ => SameFresh(s, v);
  }

  lemma SameFresh(s: Surface, v: Surface)
    requires v == s.(tracking := v.tracking, nonPages := v.nonPages)
    ensures OnlyFresh(s, v)
  {}

  lemma RegisterFresh(s: Surface, t: Target)
    ensures OnlyFresh(s, Register(s, t))
  {}

  lemma AddFresh(s: Surface, id: Id, parent: Id, t: Target)
    ensures OnlyFresh(s, AddSession(s, id, parent, t))
  {}

  lemma AttachFresh(s: Surface, session: Id, id: Id, parent: Id)
    requires Located(s, session)
    ensures OnlyFresh(s, AttachFrame(s, session, id, parent))
  {}

  lemma UpdateFresh(s: Surface, t: Target)
    ensures OnlyFresh(s, UpdateTarget(s, t))
  {}

  lemma BeginFresh(s: Surface, id: Id)
    requires id in s.sessions
    ensures OnlyFresh(s, BeginInit(s, id))
  {}

  lemma RemoveFrameFresh(s: Surface, id: Id)
    ensures OnlyFresh(s, RemoveFrame(s, id))
  {
    hide FramesBelow;
  }

  lemma RemoveSessionFresh(s: Surface, id: Id)
    ensures OnlyFresh(s, RemoveSession(s, id))
  {
    hide Subtree, Untracked, PageTargets, OtherTargets;
  }

  lemma GoneForGood(s: Surface, v: Surface)
    requires OnlyFresh(s, v)
    ensures forall k :: k !in s.tabs && k <= s.nextTab ==> k !in v.tabs
  {}

  /** In any run an id names the same tab, window or frame wherever it appears, and once the
      thing it names is gone the id does not come back. */
  lemma {:induction false} IdsAreNeverReused(run: seq<Surface>, i: nat, j: nat)
    requires IsRun(run) && i <= j < |run|
    ensures OnlyFresh(run[i], run[j])
    ensures forall k :: k <= run[i].nextTab && k !in run[i].tabs ==> k !in run[j].tabs
    decreases j - i
  {
    hide OnlyFresh, Next;
    if i == j {
      SameFresh(run[i], run[i]);
    } else {
      IdsAreNeverReused(run, i, j - 1);
      assert Follows(run[j - 1], run[j]);
      var e :| Next(run[j - 1], run[j], e);
      NextFresh(run[j - 1], run[j], e);
      FreshTransitive(run[i], run[j - 1], run[j]);
    }
    GoneForGood(run[i], run[j]);
  }

  // ---- Where a session belongs ----

  /** Sessions that belong to a tab and are still there belong to the same tab. */
  predicate KeepsTabs(s: Surface, v: Surface) {
    forall x :: Located(s, x) && x in v.sessions ==> v.sessions[x].tab == s.sessions[x].tab
  }

  lemma BoundKeepsTabs(s: Surface, u: Surface, v: Surface)
    requires KeepsTabs(s, u) && u.sessions.Keys >= s.sessions.Keys && Bound(u, v)
    ensures KeepsTabs(s, v)
  {
    var r, f :| Recovered(u, r) && IsLeast(r, f) && v == Assigned(r, f);
    forall x | Located(s, x) && x in v.sessions ensures v.sessions[x].tab == s.sessions[x].tab {
      assert Located(u, x) && r.sessions[x].tab == u.sessions[x].tab && f[x] == Rule(r, f, x);
    }
  }

  lemma RemovingKeepsTabs(s: Surface, e: Event, v: Surface)
    requires e.EvRemoveTarget? || e.EvRemoveSession?
    requires Next(s, v, e)
    ensures KeepsTabs(s, v)
  {
    hide Subtree, Orphaned, Untracked, PageTargets, OtherTargets;
  }

  lemma CommitKeepsTabs(s: Surface, id: Id, copy: Session, tree: FrameTree)
    requires id in s.sessions
    ensures KeepsTabs(s, CommitInit(s, id, copy, tree))
      && CommitInit(s, id, copy, tree).sessions.Keys == s.sessions.Keys
  {
    hide UpsertTree, Rooted;
  }

  lemma NextKeepsTabs(s: Surface, v: Surface, e: Event)
    requires Next(s, v, e)
    ensures KeepsTabs(s, v)
  {
    hide Bound, CommitInit, RemoveTarget, RemoveSession, FramesBelow, FirstTab;
    match e
    case EvRegister(t) => BoundKeepsTabs(s, Register(s, t), v);
    case EvAddSession(id, parent, t) =>
      if CanAdd(s, id, parent, t) { BoundKeepsTabs(s, AddSession(s, id, parent, t), v); }
    case EvBind => BoundKeepsTabs(s, s, v);
    case EvCommitInit(id, copy, tree) =>
      CommitKeepsTabs(s, id, copy, tree);
      BoundKeepsTabs(s, CommitInit(s, id, copy, tree), v);
    case EvRemoveTarget(_) => RemovingKeepsTabs(s, e, v);
    case EvRemoveSession(_) => RemovingKeepsTabs(s, e, v);
    case EvAttachFrame(session, id, parent) =>
      if Located(s, session) { BoundKeepsTabs(s, AttachFrame(s, session, id, parent), v); }
    case _ =>
  }

  lemma StepKeepsTabs(run: seq<Surface>, j: nat)
    requires IsRun(run) && 0 < j < |run|
    ensures KeepsTabs(run[j - 1], run[j])
  {
    hide Next, KeepsTabs;
    assert Follows(run[j - 1], run[j]);
    var e :| Next(run[j - 1], run[j], e);
    NextKeepsTabs(run[j - 1], run[j], e);
  }

  ghost predicate LastsThrough(run: seq<Surface>, i: nat, j: nat, x: Id)
    requires j < |run|
  {
    forall k :: i <= k <= j ==> x in run[k].sessions
  }

  /** Once a session belongs to a tab it belongs to that tab for as long as it lasts, so the tab
      an initialization copied when it began is still the session's when it ends. */
  lemma {:induction false} OwnTabLasts(run: seq<Surface>, i: nat, j: nat, x: Id)
    requires IsRun(run) && i <= j < |run| && Located(run[i], x) && LastsThrough(run, i, j, x)
    ensures x in run[j].sessions && run[j].sessions[x].tab == run[i].sessions[x].tab
    decreases j - i
  {
    hide Next, Follows, IsRun;
    assert x in run[j].sessions;
    if i < j {
      OwnTabLasts(run, i, j - 1, x);
      StepKeepsTabs(run, j);
      assert Located(run[j - 1], x);
    }
  }
}
