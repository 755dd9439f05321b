/**
  The tracker's critical sections as they run, over maps visited in any order, each against
  what SurfaceModel says it does (server/lib/browsersurface: frames.go, targets.go).
*/
module SurfaceTracker {
  import opened ParentClosure
  import opened SurfaceModel
  import opened SurfaceOwnership

  // ---- One visit of bindSessionsLocked ----

  function Adopt(s: Surface, x: Id, p: Id): Surface
    requires x in s.sessions
  {
    s.(sessions := s.sessions[x := s.sessions[x].(parent := p)])
  }

  function Fill(s: Surface, x: Id): Surface
    requires x in s.sessions
  {
    s.(sessions := s.sessions[x := s.sessions[x].(tab := Rule(s, Tabs(s), x))])
  }

  /** The parents the visit may give session x. */
  predicate MayGet(s: Surface, x: Id, p: Id)
    requires x in s.sessions
  {
    if IsLost(s, x) && Candidates(s, x) != {} then p in Candidates(s, x) else p == s.sessions[x].parent
  }

  /** cur is a with some parents recovered and some tabs filled in. */
  ghost predicate Partly(a: Surface, cur: Surface) {
    && cur == a.(sessions := cur.sessions) && cur.sessions.Keys == a.sessions.Keys && EMPTY !in a.sessions
    && forall x :: x in a.sessions ==>
         && cur.sessions[x] == a.sessions[x].(parent := cur.sessions[x].parent, tab := cur.sessions[x].tab)
         && (cur.sessions[x].parent == a.sessions[x].parent
           || (IsLost(a, x) && cur.sessions[x].parent in Candidates(a, x)))
         && (a.sessions[x].tab != 0 ==> cur.sessions[x].tab == a.sessions[x].tab)
  }

  /** Session x has the parent it will keep. */
  ghost predicate Settled(a: Surface, cur: Surface, x: Id)
    requires x in a.sessions && x in cur.sessions
  {
    IsLost(a, x) && Candidates(a, x) != {} ==> cur.sessions[x].parent != EMPTY
  }

  /** cur with the tabs of a: the problem whose solution is being built. */
  function Problem(a: Surface, cur: Surface): Surface
    requires cur.sessions.Keys == a.sessions.Keys
  {
    a.(sessions := map x | x in a.sessions :: a.sessions[x].(parent := cur.sessions[x].parent))
  }

  /** Every tab found so far is the one the rule gives. */
  ghost predicate Justified(a: Surface, cur: Surface)
    requires cur.sessions.Keys == a.sessions.Keys
  {
    forall x :: x in a.sessions && cur.sessions[x].tab != 0 && a.sessions[x].tab == 0 ==>
      Settled(a, cur, x) && cur.sessions[x].tab == Rule(Problem(a, cur), Tabs(cur), x)
  }

  ghost predicate Extends(cur: Surface, r: Surface)
    requires cur.sessions.Keys == r.sessions.Keys
  {
    forall x :: x in cur.sessions && cur.sessions[x].parent != EMPTY ==> r.sessions[x].parent == cur.sessions[x].parent
  }

  /** Every tab found so far is in every solution still possible. */
  ghost predicate Forced(a: Surface, cur: Surface)
    requires cur.sessions.Keys == a.sessions.Keys
  {
    forall r, g :: Recovered(a, r) && Extends(cur, r) && IsSolution(r, g) ==> Below(Tabs(cur), g)
  }

  ghost predicate Progress(a: Surface, cur: Surface) {
    Partly(a, cur) && Justified(a, cur) && Forced(a, cur)
  }

  lemma ProgressStarts(a: Surface)
    requires EMPTY !in a.sessions
    ensures Progress(a, a)
  {
    forall r, g | Recovered(a, r) && Extends(a, r) && IsSolution(r, g) ensures Below(Tabs(a), g) {
      forall x | x in Tabs(a) && Tabs(a)[x] != 0 ensures g[x] == Tabs(a)[x] { assert g[x] == Rule(r, g, x); }
    }
  }

  /** The rule gives a tab no smaller assignment can contradict. */
  lemma RuleAgrees(s: Surface, r: Surface, f: Assignment, g: Assignment, x: Id)
    requires r == s.(sessions := r.sessions) && r.sessions.Keys == s.sessions.Keys && x in s.sessions
    requires r.sessions[x] == s.sessions[x] && f.Keys == s.sessions.Keys == g.Keys && Below(f, g)
    ensures Rule(s, f, x) != 0 ==> Rule(r, g, x) == Rule(s, f, x)
  {}

  /** A session without a tab yet looks the same in the problem to solve. */
  lemma SameInProblem(a: Surface, cur: Surface, r: Surface, x: Id)
    requires Partly(a, cur) && Recovered(a, r) && Extends(cur, r) && x in a.sessions && Settled(a, cur, x)
    requires cur.sessions[x].tab == 0
    ensures r.sessions[x] == cur.sessions[x] && r == cur.(sessions := r.sessions)
  {}

  lemma ProblemAt(a: Surface, cur: Surface, x: Id)
    requires Partly(a, cur) && x in a.sessions
    ensures Problem(a, cur) == cur.(sessions := Problem(a, cur).sessions)
    ensures Problem(a, cur).sessions.Keys == cur.sessions.Keys
    ensures Problem(a, cur).sessions[x] == cur.sessions[x].(tab := a.sessions[x].tab)
    ensures a.sessions[x].tab != 0 ==> cur.sessions[x].tab == a.sessions[x].tab
  {}

  lemma AdoptFits(a: Surface, cur: Surface, x: Id, p: Id)
    requires Partly(a, cur) && x in cur.sessions && MayGet(cur, x, p)
    ensures Partly(a, Adopt(cur, x, p)) && Settled(a, Adopt(cur, x, p), x)
    ensures cur.sessions[x].parent != p ==> cur.sessions[x].parent == EMPTY && !Settled(a, cur, x)
    ensures Tabs(Adopt(cur, x, p)) == Tabs(cur)
  {
    assert Candidates(cur, x) == Candidates(a, x);
  }

  lemma AdoptJustified(a: Surface, cur: Surface, x: Id, p: Id)
    requires cur.sessions.Keys == a.sessions.Keys && Justified(a, cur) && x in cur.sessions
    requires cur == a.(sessions := cur.sessions) && !Settled(a, cur, x) && Tabs(Adopt(cur, x, p)) == Tabs(cur)
    ensures Adopt(cur, x, p).sessions.Keys == a.sessions.Keys && Justified(a, Adopt(cur, x, p))
  {
    var v := Adopt(cur, x, p);
    hide IsLost, Candidates;
    forall y | y in a.sessions && v.sessions[y].tab != 0 && a.sessions[y].tab == 0
      ensures Settled(a, v, y) && v.sessions[y].tab == Rule(Problem(a, v), Tabs(v), y)
    {
      assert y != x;
      OtherParents(a, cur, x, p, y);
      hide Rule, Tabs, Problem, Adopt;
      assert cur.sessions[y].tab == Rule(Problem(a, cur), Tabs(cur), y);
      RuleReads(Problem(a, cur), Problem(a, v), Tabs(cur), y);
    }
  }

  lemma OtherParents(a: Surface, cur: Surface, x: Id, p: Id, y: Id)
    requires cur.sessions.Keys == a.sessions.Keys && x in cur.sessions && y in cur.sessions && y != x
    ensures var v := Adopt(cur, x, p);
      && v.sessions.Keys == a.sessions.Keys && v.sessions[y] == cur.sessions[y]
      && Problem(a, v).sessions[y] == Problem(a, cur).sessions[y]
      && Problem(a, v).sessions.Keys == Problem(a, cur).sessions.Keys == a.sessions.Keys
      && Problem(a, v) == Problem(a, cur).(sessions := Problem(a, v).sessions)
  {}

  lemma RuleReads(s: Surface, r: Surface, f: Assignment, x: Id)
    requires r == s.(sessions := r.sessions) && r.sessions.Keys == s.sessions.Keys == f.Keys && x in s.sessions
    requires r.sessions[x] == s.sessions[x]
    ensures Rule(s, f, x) == Rule(r, f, x)
  {}

  lemma AdoptForced(a: Surface, cur: Surface, x: Id, p: Id)
    requires cur.sessions.Keys == a.sessions.Keys && Forced(a, cur) && x in cur.sessions
    requires cur.sessions[x].parent == EMPTY && Tabs(Adopt(cur, x, p)) == Tabs(cur)
    ensures Adopt(cur, x, p).sessions.Keys == a.sessions.Keys && Forced(a, Adopt(cur, x, p))
  {
    var v := Adopt(cur, x, p);
    hide Recovered, IsSolution, Tabs, Below;
    forall r, g | Recovered(a, r) && Extends(v, r) && IsSolution(r, g) ensures Below(Tabs(v), g) {
      assert r.sessions.Keys == a.sessions.Keys by { RecoveredKeys(a, r); }
      assert Extends(cur, r);
    }
  }

  lemma AdoptProgresses(a: Surface, cur: Surface, x: Id, p: Id)
    requires Progress(a, cur) && x in cur.sessions && MayGet(cur, x, p)
    ensures Progress(a, Adopt(cur, x, p)) && Settled(a, Adopt(cur, x, p), x)
  {
    AdoptFits(a, cur, x, p);
    hide MayGet, Settled, Forced, Justified;
    if cur.sessions[x].parent == p {
      assert Adopt(cur, x, p) == cur;
    } else {
      AdoptJustified(a, cur, x, p);
      AdoptForced(a, cur, x, p);
    }
  }

  lemma RecoveredKeys(a: Surface, r: Surface)
    requires Recovered(a, r)
    ensures r == a.(sessions := r.sessions) && r.sessions.Keys == a.sessions.Keys
  {}

  lemma RuleKeeps(s: Surface, f: Assignment, x: Id)
    requires f.Keys == s.sessions.Keys && x in s.sessions && s.sessions[x].tab != 0
    ensures Rule(s, f, x) == s.sessions[x].tab
  {}

  lemma FillGrows(cur: Surface, x: Id)
    requires x in cur.sessions
    ensures Below(Tabs(cur), Tabs(Fill(cur, x)))
    ensures Tabs(Fill(cur, x)) == Tabs(cur)[x := Rule(cur, Tabs(cur), x)]
    ensures cur.sessions[x].tab != 0 ==> Fill(cur, x) == cur
  {
    hide Rule;
    if cur.sessions[x].tab != 0 {
      RuleKeeps(cur, Tabs(cur), x);
      assert cur.sessions[x := cur.sessions[x].(tab := cur.sessions[x].tab)] == cur.sessions;
    }
  }

  /** Filling in a tab changes nothing else. */
  lemma FillOnlyTab(cur: Surface, x: Id)
    requires x in cur.sessions
    ensures Fill(cur, x) == cur.(sessions := Fill(cur, x).sessions)
    ensures Fill(cur, x).sessions.Keys == cur.sessions.Keys
    ensures forall y :: y in cur.sessions ==>
      Fill(cur, x).sessions[y] == cur.sessions[y].(tab := Fill(cur, x).sessions[y].tab)
    ensures forall y :: y in cur.sessions && (y != x || cur.sessions[y].tab != 0) ==>
      Fill(cur, x).sessions[y] == cur.sessions[y]
  {
    var t := Rule(cur, Tabs(cur), x);
    if cur.sessions[x].tab != 0 { RuleKeeps(cur, Tabs(cur), x); }
    hide Rule, Tabs;
    assert Fill(cur, x).sessions == cur.sessions[x := cur.sessions[x].(tab := t)];
  }

  lemma FillFits(a: Surface, cur: Surface, x: Id)
    requires Partly(a, cur) && x in cur.sessions
    ensures Partly(a, Fill(cur, x)) && Problem(a, Fill(cur, x)) == Problem(a, cur)
    ensures forall y :: y in a.sessions && Settled(a, cur, y) ==> Settled(a, Fill(cur, x), y)
    ensures forall r: Surface :: r.sessions.Keys == a.sessions.Keys && Extends(Fill(cur, x), r) ==> Extends(cur, r)
  {
    hide IsLost, Candidates, Rule;
    FillOnlyTab(cur, x);
    hide Fill;
    assert Problem(a, Fill(cur, x)).sessions == Problem(a, cur).sessions;
  }

  lemma FillStaysJustified(a: Surface, cur: Surface, x: Id)
    requires Partly(a, cur) && Justified(a, cur) && x in cur.sessions && Settled(a, cur, x)
    ensures Fill(cur, x).sessions.Keys == a.sessions.Keys && Justified(a, Fill(cur, x))
  {
    var v, q := Fill(cur, x), Problem(a, cur);
    FillGrows(cur, x);
    FillFits(a, cur, x);
    hide Rule, Tabs, Below, Partly, Settled, Problem;
    forall y | y in a.sessions && v.sessions[y].tab != 0 && a.sessions[y].tab == 0
      ensures Settled(a, v, y) && v.sessions[y].tab == Rule(q, Tabs(v), y)
    {
      ProblemAt(a, cur, y);
      if cur.sessions[y].tab != 0 {
        RuleAgrees(q, q, Tabs(cur), Tabs(v), y);
        assert v.sessions[y] == cur.sessions[y];
      } else {
        RuleAgrees(cur, q, Tabs(cur), Tabs(v), y);
      }
    }
  }

  lemma FillStaysForced(a: Surface, cur: Surface, x: Id)
    requires Partly(a, cur) && Forced(a, cur) && x in cur.sessions && Settled(a, cur, x)
    ensures Fill(cur, x).sessions.Keys == a.sessions.Keys && Forced(a, Fill(cur, x))
  {
    var v := Fill(cur, x);
    FillGrows(cur, x);
    FillFits(a, cur, x);
    assert v.sessions.Keys == a.sessions.Keys;
    hide Fill, Rule, Tabs, Below, Partly, Settled, Problem, Recovered, IsSolution;
    if cur.sessions[x].tab == 0 {
      forall r, g | Recovered(a, r) && Extends(v, r) && IsSolution(r, g) ensures Below(Tabs(v), g) {
        RecoveredKeys(a, r);
        SolutionHolds(a, cur, r, g, x);
      }
    }
  }

  lemma SolutionHolds(a: Surface, cur: Surface, r: Surface, g: Assignment, x: Id)
    requires Partly(a, cur) && Forced(a, cur) && x in cur.sessions && Settled(a, cur, x) && cur.sessions[x].tab == 0
    requires Recovered(a, r) && r.sessions.Keys == cur.sessions.Keys && Extends(cur, r) && IsSolution(r, g)
    ensures Below(Tabs(cur)[x := Rule(cur, Tabs(cur), x)], g)
  {
    assert Below(Tabs(cur), g);
    SameInProblem(a, cur, r, x);
    hide Partly, Recovered, Forced, Extends, Settled;
    RuleAgrees(cur, r, Tabs(cur), g, x);
    assert g[x] == Rule(r, g, x);
  }

  lemma FillProgresses(a: Surface, cur: Surface, x: Id)
    requires Progress(a, cur) && x in cur.sessions && Settled(a, cur, x)
    ensures Progress(a, Fill(cur, x)) && Settled(a, Fill(cur, x), x)
  {
    assert cur.sessions.Keys == a.sessions.Keys;
    hide Partly, Justified, Forced, Fill, Settled;
    FillFits(a, cur, x);
    FillStaysJustified(a, cur, x);
    FillStaysForced(a, cur, x);
  }

  /** Nothing a visit could change is left. */
  ghost predicate Still(a: Surface, cur: Surface, x: Id)
    requires x in a.sessions && cur.sessions.Keys == a.sessions.Keys
  {
    Settled(a, cur, x) && cur.sessions[x].tab == Rule(cur, Tabs(cur), x)
  }

  lemma StillRecovered(a: Surface, cur: Surface)
    requires Partly(a, cur) && forall x :: x in a.sessions ==> Settled(a, cur, x)
    ensures Recovered(a, Problem(a, cur)) && Extends(cur, Problem(a, cur))
  {
    var r := Problem(a, cur);
    forall x | x in a.sessions
      ensures if IsLost(a, x) && Candidates(a, x) != {} then r.sessions[x].parent in Candidates(a, x)
              else r.sessions[x].parent == a.sessions[x].parent
    {
      assert Settled(a, cur, x);
    }
  }

  lemma StillSolves(a: Surface, cur: Surface, x: Id)
    requires Partly(a, cur) && Justified(a, cur) && x in a.sessions && Still(a, cur, x)
    ensures Tabs(cur)[x] == Rule(Problem(a, cur), Tabs(cur), x)
  {
    ProblemAt(a, cur, x);
    hide Partly, Settled;
  }

  /** When nothing is left to visit, sessions are bound. */
  lemma StillIsBound(a: Surface, cur: Surface)
    requires Progress(a, cur) && forall x :: x in a.sessions ==> Still(a, cur, x)
    ensures Bound(a, cur)
  {
    var r, f := Problem(a, cur), Tabs(cur);
    forall x | x in a.sessions ensures Settled(a, cur, x) && f[x] == Rule(r, f, x) {
      assert Still(a, cur, x);
      StillSolves(a, cur, x);
    }
    StillRecovered(a, cur);
    assert cur == Assigned(r, f) by { SameAssigned(a, cur); }
    hide Partly, Justified, Recovered, Rule, Tabs, Settled, Problem, Still, Assigned;
    assert IsSolution(r, f);
    assert IsLeast(r, f);
  }

  lemma SameAssigned(a: Surface, cur: Surface)
    requires Partly(a, cur)
    ensures cur == Assigned(Problem(a, cur), Tabs(cur))
  {
    assert cur.sessions == Assigned(Problem(a, cur), Tabs(cur)).sessions;
  }

  /** Sessions still without a parent, and without a tab. */
  function Parentless(s: Surface): set<Id> {
    set x | x in s.sessions && s.sessions[x].parent == EMPTY
  }

  function Tabless(s: Surface): set<Id> {
    set x | x in s.sessions && s.sessions[x].tab == 0
  }

  /** A visit changes nothing, or there is less left to fill in. */
  lemma AdoptShrinks(s: Surface, x: Id, p: Id)
    requires x in s.sessions && MayGet(s, x, p) && EMPTY !in s.sessions
    ensures p == s.sessions[x].parent ==> Adopt(s, x, p) == s
    ensures p != s.sessions[x].parent ==> Parentless(Adopt(s, x, p)) < Parentless(s)
    ensures Tabless(Adopt(s, x, p)) == Tabless(s)
  {
    if p == s.sessions[x].parent {
      assert s.sessions[x := s.sessions[x].(parent := p)] == s.sessions;
    } else {
      assert p in s.sessions && p != EMPTY && s.sessions[x].parent == EMPTY;
      assert x in Parentless(s) && x !in Parentless(Adopt(s, x, p));
    }
  }

  lemma FillShrinks(s: Surface, x: Id)
    requires x in s.sessions
    ensures Rule(s, Tabs(s), x) == s.sessions[x].tab ==> Fill(s, x) == s
    ensures Rule(s, Tabs(s), x) != s.sessions[x].tab ==> Tabless(Fill(s, x)) < Tabless(s)
    ensures Parentless(Fill(s, x)) == Parentless(s)
  {
    var t := Rule(s, Tabs(s), x);
    if s.sessions[x].tab != 0 { RuleKeeps(s, Tabs(s), x); }
    hide Rule, Tabs;
    assert Fill(s, x).sessions == s.sessions[x := s.sessions[x].(tab := t)];
    hide Fill;
    if t == s.sessions[x].tab {
      assert s.sessions[x := s.sessions[x].(tab := t)] == s.sessions;
    } else {
      assert x in Tabless(s) && x !in Tabless(Fill(s, x));
    }
  }

  /** Parents are found before tabs are counted. */
  predicate Advanced(s: Surface, v: Surface) {
    && Parentless(v) <= Parentless(s)
    && (Parentless(v) == Parentless(s) ==> Tabless(v) < Tabless(s))
  }

  lemma UnboundIsStill(a: Surface, cur: Surface, x: Id)
    requires Progress(a, cur) && x in cur.sessions && !Binds(cur.sessions[x].target.kind)
    ensures cur.sessions.Keys == a.sessions.Keys && Still(a, cur, x)
  {}

  /** The list holds exactly these ids, each once. */
  ghost predicate Lists(ids: seq<Id>, all: set<Id>) {
    && (forall x :: x in ids <==> x in all)
    && forall i, j :: 0 <= i < j < |ids| ==> ids[i] != ids[j]
  }

  predicate Ascends(ids: seq<Id>) {
    forall i, j :: 0 <= i < j < |ids| ==> ids[i] < ids[j]
  }

  function Insert(ids: seq<Id>, x: Id): seq<Id> {
    if ids == [] || x <= ids[0] then [x] + ids else [ids[0]] + Insert(ids[1..], x)
  }

  /** sort.Strings; the order of the numbers stands for the order of the identifiers. */
  function Sort(ids: seq<Id>): seq<Id> {
    if ids == [] then [] else Insert(Sort(ids[1..]), ids[0])
  }

  lemma {:induction false} InsertHolds(ids: seq<Id>, x: Id, y: Id)
    ensures y in Insert(ids, x) <==> y == x || y in ids
  {
    if ids != [] && x > ids[0] {
      InsertHolds(ids[1..], x, y);
      assert y in ids <==> y == ids[0] || y in ids[1..];
    }
  }

  lemma {:induction false} InsertAscends(ids: seq<Id>, x: Id)
    requires Ascends(ids) && x !in ids
    ensures Ascends(Insert(ids, x))
  {
    if ids == [] {
    } else if x <= ids[0] {
      assert ids[0] in ids;
    } else {
      var rest := Insert(ids[1..], x);
      InsertAscends(ids[1..], x);
      forall y | y in rest ensures ids[0] < y {
        InsertHolds(ids[1..], x, y);
        if y in ids[1..] { assert exists j :: 0 < j < |ids| && ids[j] == y; }
      }
      forall i, j | 0 <= i < j < |rest| + 1 ensures ([ids[0]] + rest)[i] < ([ids[0]] + rest)[j] {
        assert rest[j - 1] in rest;
      }
    }
  }

  lemma {:induction false} SortLists(ids: seq<Id>, all: set<Id>)
    requires Lists(ids, all)
    ensures Lists(Sort(ids), all) && Ascends(Sort(ids))
  {
    if ids != [] {
      var rest := all - {ids[0]};
      assert Lists(ids[1..], rest) by {
        assert forall x :: x in ids <==> x == ids[0] || x in ids[1..];
      }
      SortLists(ids[1..], rest);
      InsertAscends(Sort(ids[1..]), ids[0]);
      forall x ensures x in Sort(ids) <==> x in all { InsertHolds(Sort(ids[1..]), ids[0], x); }
    }
  }

  lemma ListsJoin(a: seq<Id>, these: set<Id>, b: seq<Id>, those: set<Id>)
    requires Lists(a, these) && Lists(b, those) && these !! those
    ensures Lists(a + b, these + those)
  {
    forall i, j | 0 <= i < j < |a + b| ensures (a + b)[i] != (a + b)[j] {
      if i < |a| <= j { assert a[i] in these && b[j - |a|] in those; }
    }
  }

  /** A frame whose parent is the given one, or is below it, is below it. */
  lemma OneMoreBelow(frames: map<Id, Frame>, parent: Id, gone: set<Id>, x: Id)
    requires x in frames && gone <= FramesBelow(frames, parent)
    requires frames[x].parent == parent || frames[x].parent in gone
    ensures x in FramesBelow(frames, parent)
  {
    var parents := FrameParents(frames);
    var roots := set y | y in frames && frames[y].parent == parent;
    if frames[x].parent == parent { RootIsBelow(parents, roots, x); } else { ChildIsBelow(parents, roots, x); }
  }

  lemma AllBelow(frames: map<Id, Frame>, parent: Id, gone: set<Id>)
    requires gone <= FramesBelow(frames, parent)
    requires forall x :: x in frames && x !in gone ==> frames[x].parent != parent && frames[x].parent !in gone
    ensures gone == FramesBelow(frames, parent)
  {
    SubtreeIsLeast(FrameParents(frames), (set y | y in frames && frames[y].parent == parent), gone);
  }

  lemma UpsertKeeps(s: Surface, tab: nat, session: Id, id: Id, parent: Id)
    ensures var v := Upsert(s, tab, session, id, parent); v == s.(frames := v.frames, nextFrame := v.nextFrame)
  {}

  lemma {:induction false} UpsertTreeKeeps(s: Surface, tab: nat, session: Id, tree: FrameTree)
    ensures var v := UpsertTree(s, tab, session, tree); v == s.(frames := v.frames, nextFrame := v.nextFrame)
    decreases tree
  {
    UpsertForestKeeps(Upsert(s, tab, session, tree.id, tree.parent), tab, session, tree.children);
  }

  lemma {:induction false} UpsertForestKeeps(s: Surface, tab: nat, session: Id, trees: seq<FrameTree>)
    ensures var v := UpsertForest(s, tab, session, trees); v == s.(frames := v.frames, nextFrame := v.nextFrame)
    decreases trees
  {
    if trees != [] {
      UpsertTreeKeeps(s, tab, session, trees[0]);
      UpsertForestKeeps(UpsertTree(s, tab, session, trees[0]), tab, session, trees[1..]);
    }
  }

  lemma DroppedOnly(s: Surface, gone: set<Id>)
    ensures var v := DropSessions(s, gone);
      v == s.(sessions := v.sessions, frames := v.frames, tracking := v.tracking, nonPages := v.nonPages)
  {}

  /** What one more dropped session adds to the targets that are no longer tracked. */
  lemma TargetsAdd(s: Surface, done: set<Id>, x: Id)
    ensures PageTargets(s, done + {x}) ==
      if x in s.sessions && s.sessions[x].target.kind.Page? then PageTargets(s, done) + {s.sessions[x].target.id}
      else PageTargets(s, done)
    ensures OtherTargets(s, done + {x}) ==
      if x in s.sessions && !s.sessions[x].target.kind.Page? then OtherTargets(s, done) + {s.sessions[x].target.id}
      else OtherTargets(s, done)
  {}

  lemma UntrackedAdd(tracking: map<Id, bool>, targets: set<Id>, t: Id)
    ensures Untracked(tracking, targets + {t}) == Untracked(tracking, targets)[t := false]
    ensures Untracked(tracking, {}) == tracking
    ensures targets + {} == targets
  {}

  lemma NoTargets(s: Surface)
    ensures PageTargets(s, {}) == {} && OtherTargets(s, {}) == {}
  {}

  lemma NoneDropped(s: Surface)
    ensures DropSessions(s, {}) == s
  {
    NoTargets(s);
    UntrackedAdd(s.tracking, {}, EMPTY);
    assert s.sessions - {} == s.sessions && Orphaned(s.frames, {}) == s.frames && s.nonPages - {} == s.nonPages;
  }

  lemma DroppedKeys(s: Surface, gone: set<Id>)
    ensures DropSessions(s, gone).sessions == s.sessions - gone
  {}

  lemma TargetsTwice(s: Surface, gone: set<Id>, more: set<Id>)
    ensures PageTargets(s, gone + more) == PageTargets(s, gone) + PageTargets(DropSessions(s, gone), more)
    ensures OtherTargets(s, gone + more) == OtherTargets(s, gone) + OtherTargets(DropSessions(s, gone), more)
  {}

  lemma UntrackedTwice(tracking: map<Id, bool>, targets: set<Id>, more: set<Id>)
    ensures Untracked(Untracked(tracking, targets), more) == Untracked(tracking, targets + more)
  {}

  lemma OrphanedTwice(frames: map<Id, Frame>, gone: set<Id>, more: set<Id>)
    requires EMPTY !in more
    ensures Orphaned(Orphaned(frames, gone), more) == Orphaned(frames, gone + more)
  {}

  lemma DroppedTwice(s: Surface, gone: set<Id>, more: set<Id>)
    requires EMPTY !in more
    ensures DropSessions(DropSessions(s, gone), more) == DropSessions(s, gone + more)
  {
    TargetsTwice(s, gone, more);
    OrphanedTwice(s.frames, gone, more);
    UntrackedTwice(s.tracking, PageTargets(s, gone), PageTargets(DropSessions(s, gone), more));
    assert s.sessions - gone - more == s.sessions - (gone + more);
    assert s.nonPages - OtherTargets(s, gone) - OtherTargets(DropSessions(s, gone), more) ==
      s.nonPages - OtherTargets(s, gone + more);
    hide PageTargets, OtherTargets, Untracked, Orphaned;
  }

  /** A path among the sessions left is a path among all. */
  lemma LeadsMore(parents: map<Id, Id>, gone: set<Id>, x: Id, roots: set<Id>)
    requires Leads(parents - gone, x, roots)
    ensures Leads(parents, x, roots)
  {
    var path :| IsPath(parents - gone, path) && path[0] == x && path[|path| - 1] in roots;
    assert IsPath(parents, path);
  }

  lemma MoreRoots(parents: map<Id, Id>, x: Id, root: Id, roots: set<Id>)
    requires Leads(parents, x, {root}) && root in roots
    ensures Leads(parents, x, roots)
  {}

  /** Removing a root that is still there removes nothing but what is below the roots, and
      again leaves nobody without its parent. */
  lemma RemovesMore(s: Surface, gone: set<Id>, roots: set<Id>, x: Id)
    requires EMPTY !in s.sessions && x in roots && x in s.sessions && x !in gone
    requires IsClosed(Parents(s.sessions), gone) && gone <= Subtree(Parents(s.sessions), roots)
    ensures var rest := DropSessions(s, gone); var more := Subtree(Parents(rest.sessions), {x}) + {x};
      && RemoveSession(rest, x) == DropSessions(s, gone + more) && more <= rest.sessions.Keys
      && IsClosed(Parents(s.sessions), gone + more) && gone + more <= Subtree(Parents(s.sessions), roots)
      && more !! gone
  {
    var parents, rest := Parents(s.sessions), DropSessions(s, gone);
    var left := Parents(rest.sessions);
    assert left == parents - gone;
    var more := Subtree(left, {x}) + {x};
    DroppedTwice(s, gone, more);
    hide DropSessions;
    forall y | y in more ensures y in Subtree(parents, roots) {
      if y == x { RootIsBelow(parents, roots, x); } else {
        LeadsMore(parents, gone, y, {x});
        MoreRoots(parents, y, x, roots);
      }
    }
    forall y | y in parents && parents[y] in gone + more ensures y in gone + more {
      if y !in gone {
        assert parents[y] in more && y in left;
        if parents[y] == x { RootIsBelow(left, {x}, x); }
        ChildIsBelow(left, {x}, y);
      }
    }
  }

  // ---- The tracker ----

  class Tracker {
    const trackLocations: bool
    const additional: set<Kind>
    var nextWindow: nat
    var nextTab: nat
    var nextFrame: nat
    var windows: map<int, nat>
    var tabs: map<nat, Tab>
    var tabsByTarget: map<Id, nat>
    var frames: map<Id, Frame>
    var sessions: map<Id, Session>
    var tracking: map<Id, bool>
    var nonPages: set<Id>

    function View(): Surface
      reads this
    {
      Surface(trackLocations, additional, nextWindow, nextTab, nextFrame, windows, tabs, tabsByTarget, frames,
              sessions, tracking, nonPages)
    }

    constructor (trackLocations: bool, additional: set<Kind>)
      ensures View() == Start(trackLocations, additional)
    {
      this.trackLocations, this.additional := trackLocations, additional;
      nextWindow, nextTab, nextFrame := 0, 0, 0;
      windows, tabs, tabsByTarget, frames, sessions, tracking := map[], map[], map[], map[], map[], map[];
      nonPages := {};
    }

    /** The first session found that can be the parent of session x. */
    method FindParent(x: Id) returns (p: Id)
      requires EMPTY !in sessions && x in sessions
      ensures if Candidates(View(), x) != {} then p in Candidates(View(), x) else p == EMPTY
    {
      p := EMPTY;
      var todo := sessions.Keys;
      while todo != {} && p == EMPTY
        invariant todo <= sessions.Keys
        invariant p == EMPTY ==> Candidates(View(), x) <= todo
        invariant p != EMPTY ==> p in Candidates(View(), x)
        decreases todo
      {
        var id :| id in todo;
        todo := todo - {id};
        if id != x && sessions[id].target.id == sessions[x].target.parentFrame { p := id; }
      }
    }

    /** A session of a tracker without locations may find its parent now. */
    method RecoverParent(x: Id, ghost a: Surface) returns (changed: bool)
      requires Progress(a, View()) && x in sessions
      modifies this`sessions
      ensures Progress(a, View()) && Settled(a, View(), x) && x in sessions
      ensures sessions[x].target == old(sessions[x].target)
      ensures !changed ==> View() == old(View())
      ensures changed ==> Parentless(View()) < Parentless(old(View()))
      ensures Tabless(View()) == Tabless(old(View()))
    {
      changed := false;
      var p := sessions[x].parent;
      assert EMPTY !in sessions && sessions.Keys == a.sessions.Keys;
      hide Progress, Settled, Parentless, Tabless, Candidates;
      if !trackLocations && Inherits(sessions[x].target.kind) && p == EMPTY {
        p := FindParent(x);
      }
      AdoptProgresses(a, View(), x, p);
      AdoptShrinks(View(), x, p);
      if p != sessions[x].parent {
        sessions := sessions[x := sessions[x].(parent := p)];
        changed := true;
      }
    }

    method TabFor(x: Id) returns (tab: nat)
      requires x in sessions && Binds(sessions[x].target.kind)
      ensures tab == Rule(View(), Tabs(View()), x)
    {
      var c := sessions[x];
      if c.tab != 0 { return c.tab; }
      tab := 0;
      if c.target.id in tabsByTarget && tabsByTarget[c.target.id] != 0 {
        tab := tabsByTarget[c.target.id];
      } else if c.parent in sessions {
        tab := sessions[c.parent].tab;
      } else if c.target.parentFrame in frames {
        tab := frames[c.target.parentFrame].tab;
      } else if c.target.id in frames {
        tab := frames[c.target.id].tab;
      }
    }

    method FillTab(x: Id, ghost a: Surface) returns (changed: bool)
      requires Progress(a, View()) && x in sessions && Settled(a, View(), x) && Binds(sessions[x].target.kind)
      modifies this`sessions
      ensures Progress(a, View()) && sessions.Keys == old(sessions.Keys)
      ensures !changed ==> View() == old(View()) && Still(a, View(), x)
      ensures changed ==> Tabless(View()) < Tabless(old(View()))
      ensures Parentless(View()) == Parentless(old(View()))
    {
      assert sessions.Keys == a.sessions.Keys;
      FillProgresses(a, View(), x);
      FillShrinks(View(), x);
      hide Progress, Settled, Rule, Tabs, Parentless, Tabless;
      var tab := TabFor(x);
      changed := tab != sessions[x].tab;
      if changed {
        sessions := sessions[x := sessions[x].(tab := tab)];
        assert View() == Fill(old(View()), x);
      }
    }

    /** Every session has one turn. */
    method BindRound(ghost a: Surface) returns (changed: bool)
      requires Progress(a, View()) && sessions.Keys == a.sessions.Keys
      modifies this`sessions
      ensures Progress(a, View()) && sessions.Keys == a.sessions.Keys
      ensures !changed ==> View() == old(View()) && forall x :: x in sessions ==> Still(a, View(), x)
      ensures changed ==> Advanced(old(View()), View())
    {
      changed := false;
      var todo := sessions.Keys;
      while todo != {}
        invariant todo <= sessions.Keys == a.sessions.Keys && Progress(a, View())
        invariant !changed ==> View() == old(View()) && forall x :: x in sessions && x !in todo ==> Still(a, View(), x)
        invariant changed ==> Advanced(old(View()), View())
        decreases todo
      {
        var x :| x in todo;
        todo := todo - {x};
        ghost var before := View();
        if Binds(sessions[x].target.kind) {
          var adopted := RecoverParent(x, a);
          var filled := FillTab(x, a);
          if adopted || filled { changed := true; }
        } else {
          UnboundIsStill(a, View(), x);
        }
      }
    }

    /** Every session has its turn, in any order, until a round changes nothing. */
    method BindSessions()
      requires EMPTY !in sessions
      modifies this`sessions
      ensures Bound(old(View()), View())
    {
      ghost var a := View();
      ProgressStarts(a);
      hide Progress, Still, Settled, Parentless, Tabless, Bound;
      var changed := true;
      while changed
        invariant Progress(a, View()) && sessions.Keys == a.sessions.Keys
        invariant !changed ==> forall x :: x in sessions ==> Still(a, View(), x)
        decreases Parentless(View()), Tabless(View()), changed
      {
        changed := BindRound(a);
      }
      StillIsBound(a, View());
    }

    // ---- Pages and windows ----

    method RegisterPage(t: Target) returns (tab: nat, attach: bool)
      requires EMPTY !in sessions
      modifies this
      ensures Bound(Register(old(View()), t), View())
      ensures tab == TabOf(Register(old(View()), t), t.id)
      ensures attach == (TabOf(old(View()), t.id) == 0 || t.id !in old(tracking) || !old(tracking)[t.id])
    {
      hide Bound;
      if t.id in tabsByTarget && tabsByTarget[t.id] != 0 {
        tab := tabsByTarget[t.id];
        attach := t.id !in tracking || !tracking[t.id];
        tracking := tracking[t.id := true];
      } else {
        nextTab := nextTab + 1;
        tab, attach := nextTab, true;
        tabs := tabs[tab := Tab(t.id, 0, 0, EMPTY)];
        tabsByTarget := tabsByTarget[t.id := tab];
        tracking := tracking[t.id := true];
      }
      assert View() == Register(old(View()), t);
      BindSessions();
    }

    method RemoveEmptyWindow(raw: int)
      modifies this`windows
      ensures View() == DropEmptyWindow(old(View()), raw)
    {
      var todo := tabs.Keys;
      while todo != {}
        invariant todo <= tabs.Keys && windows == old(windows)
        invariant forall k :: k in tabs && k !in todo ==> tabs[k].rawWindow != raw
        decreases todo
      {
        var k :| k in todo;
        todo := todo - {k};
        if tabs[k].rawWindow == raw { return; }
      }
      windows := windows - {raw};
    }

    method AssignPageWindow(target: Id, raw: int)
      modifies this`windows, this`tabs, this`nextWindow
      ensures View() == AssignWindow(old(View()), target, raw)
    {
      var k := if target in tabsByTarget then tabsByTarget[target] else 0;
      if k !in tabs { return; }
      var from := tabs[k].rawWindow;
      if raw !in windows {
        nextWindow := nextWindow + 1;
        windows := windows[raw := nextWindow];
      }
      assert windows == old(windows)[raw := windows[raw]];
      tabs := tabs[k := tabs[k].(window := windows[raw], rawWindow := raw)];
      assert View() == Moved(old(View()), k, raw);
      hide Moved;
      if from != raw { RemoveEmptyWindow(from); }
    }

    method UpdateTargetInfo(t: Target)
      modifies this`sessions
      ensures View() == UpdateTarget(old(View()), t)
    {
      var todo := sessions.Keys;
      while todo != {}
        invariant todo <= sessions.Keys == old(sessions.Keys)
        invariant forall x :: x in todo ==> sessions[x] == old(sessions)[x]
        invariant forall x :: x in sessions && x !in todo ==>
          sessions[x] == if old(sessions)[x].target.id == t.id then old(sessions)[x].(target := t) else old(sessions)[x]
        decreases todo
      {
        var x :| x in todo;
        todo := todo - {x};
        if sessions[x].target.id == t.id { sessions := sessions[x := sessions[x].(target := t)]; }
      }
      assert sessions == UpdateTarget(old(View()), t).sessions;
    }

    // ---- Sessions ----

    method Add(id: Id, parent: Id, t: Target)
      requires EMPTY !in sessions && id != EMPTY
      modifies this`sessions
      ensures if CanAdd(old(View()), id, parent, t) then Bound(AddSession(old(View()), id, parent, t), View())
              else View() == old(View())
    {
      hide Bound;
      if !(t.kind.Page? || t.kind.IFrame? || t.kind in additional) || id in sessions { return; }
      if Inherits(t.kind) && parent != EMPTY && parent !in sessions { return; }
      var tab := if t.id in tabsByTarget then tabsByTarget[t.id] else 0;
      if tab == 0 && t.kind.IFrame? && parent != EMPTY && parent in sessions { tab := sessions[parent].tab; }
      if tab == 0 && t.kind.IFrame? && t.parentFrame != EMPTY && t.parentFrame in frames {
        tab := frames[t.parentFrame].tab;
      }
      if tab == 0 && t.kind.IFrame? && t.id in frames { tab := frames[t.id].tab; }
      sessions := sessions[id := Session(if Inherits(t.kind) then parent else EMPTY, t, tab, false, false)];
      assert View() == AddSession(old(View()), id, parent, t);
      BindSessions();
    }

    /** One round over the table: who has a parent among those found? */
    method Widen(found: set<Id>, ghost root: Id) returns (gone: set<Id>, changed: bool)
      requires forall x :: x in found ==> Leads(Parents(sessions), x, {root})
      ensures found <= gone <= found + sessions.Keys
      ensures forall x :: x in gone ==> Leads(Parents(sessions), x, {root})
      ensures changed ==> found < gone
      ensures !changed ==> gone == found && IsClosed(Parents(sessions), gone)
    {
      gone, changed := found, false;
      var todo := sessions.Keys;
      hide Leads;
      while todo != {}
        invariant todo <= sessions.Keys && found <= gone <= found + sessions.Keys
        invariant forall x :: x in gone ==> Leads(Parents(sessions), x, {root})
        invariant changed ==> found < gone
        invariant !changed ==> gone == found
        invariant !changed ==> forall x :: x in sessions && x !in todo && sessions[x].parent in gone ==> x in gone
        decreases todo
      {
        var x :| x in todo;
        todo := todo - {x};
        if sessions[x].parent in gone && x !in gone {
          ChildIsBelow(Parents(sessions), {root}, x);
          gone := gone + {x};
          changed := true;
        }
      }
    }

    /** The session and everything below it, found by rounds over the table. */
    method Descendants(id: Id) returns (gone: set<Id>)
      ensures gone == Subtree(Parents(sessions), {id}) + {id}
    {
      gone := {id};
      RootIsBelow(Parents(sessions), {id}, id);
      hide Leads, IsClosed;
      var changed := true;
      while changed
        invariant id in gone && gone <= sessions.Keys + {id}
        invariant forall x :: x in gone ==> Leads(Parents(sessions), x, {id})
        invariant !changed ==> IsClosed(Parents(sessions), gone)
        decreases (sessions.Keys + {id}) - gone, changed
      {
        gone, changed := Widen(gone, id);
      }
      SubtreeIs(Parents(sessions), {id}, gone);
      hide Subtree;
    }

    /** Deletes sessions; reports each one deleted once. */
    method DeleteSessions(gone: set<Id>) returns (removed: seq<Id>)
      modifies this`sessions, this`tracking, this`nonPages
      ensures View() == DropSessions(old(View()), gone).(frames := old(frames))
      ensures Lists(removed, gone * old(sessions.Keys))
    {
      removed := [];
      var todo := gone;
      ghost var s := View();
      ghost var done: set<Id> := {};
      NoTargets(s);
      UntrackedAdd(tracking, {}, EMPTY);
      hide PageTargets, OtherTargets, Untracked;
      while todo != {}
        invariant done == gone - todo && todo <= gone
        invariant sessions == s.sessions - done
        invariant tracking == Untracked(s.tracking, PageTargets(s, done))
        invariant nonPages == s.nonPages - OtherTargets(s, done)
        invariant forall x :: x in removed <==> x in done && x in s.sessions
        invariant forall i, j :: 0 <= i < j < |removed| ==> removed[i] != removed[j]
        decreases todo
      {
        var x :| x in todo;
        todo := todo - {x};
        TargetsAdd(s, done, x);
        if x in sessions {
          var t := sessions[x].target;
          UntrackedAdd(s.tracking, PageTargets(s, done), t.id);
          if t.kind.Page? { tracking := tracking[t.id := false]; } else { nonPages := nonPages - {t.id}; }
          sessions := sessions - {x};
          removed := removed + [x];
        }
        done := done + {x};
      }
      assert done == gone;
    }

    method OrphanFrames(gone: set<Id>)
      modifies this`frames
      ensures View() == old(View()).(frames := Orphaned(old(frames), gone))
    {
      var todo := frames.Keys;
      while todo != {}
        invariant todo <= frames.Keys == old(frames.Keys)
        invariant forall x :: x in todo ==> frames[x] == old(frames)[x]
        invariant forall x :: x in frames && x !in todo ==> frames[x] == Orphaned(old(frames), gone)[x]
        decreases todo
      {
        var x :| x in todo;
        todo := todo - {x};
        if frames[x].session in gone { frames := frames[x := frames[x].(session := EMPTY)]; }
      }
      assert frames == Orphaned(old(frames), gone);
    }

    method RemoveSessionTree(id: Id) returns (removed: seq<Id>)
      modifies this`sessions, this`tracking, this`nonPages, this`frames
      ensures View() == RemoveSession(old(View()), id)
      ensures Lists(removed, (Subtree(Parents(old(sessions)), {id}) + {id}) * old(sessions.Keys)) && Ascends(removed)
    {
      var gone := Descendants(id);
      removed := DeleteSessions(gone);
      OrphanFrames(gone);
      SortLists(removed, (Subtree(Parents(old(sessions)), {id}) + {id}) * old(sessions.Keys));
      removed := Sort(removed);
    }

    method RemoveOne(x: Id, before: seq<Id>, ghost s: Surface, ghost gone: set<Id>, ghost roots: set<Id>)
      returns (removed: seq<Id>, ghost more: set<Id>)
      requires x in roots && x in s.sessions && EMPTY !in s.sessions && x in sessions
      requires View() == DropSessions(s, gone) && Lists(before, gone)
      requires IsClosed(Parents(s.sessions), gone) && gone <= Subtree(Parents(s.sessions), roots)
      modifies this`sessions, this`tracking, this`nonPages, this`frames
      ensures View() == DropSessions(s, more) && Lists(removed, more)
      ensures IsClosed(Parents(s.sessions), more) && gone + {x} <= more <= Subtree(Parents(s.sessions), roots)
    {
      DroppedKeys(s, gone);
      hide DropSessions, Subtree, IsClosed, RemoveSession, Parents, Lists, IsPath, Leads;
      ghost var below := Subtree(Parents(sessions), {x}) + {x};
      RemovesMore(s, gone, roots, x);
      assert below * sessions.Keys == below;
      var also := RemoveSessionTree(x);
      ListsJoin(before, gone, also, below);
      removed, more := before + also, gone + below;
    }

    /** Removes the given sessions one by one, each with everything still below it. */
    method RemoveEach(roots: set<Id>) returns (removed: seq<Id>)
      requires roots <= sessions.Keys && EMPTY !in sessions
      modifies this`sessions, this`tracking, this`nonPages, this`frames
      ensures View() == DropSessions(old(View()), Subtree(Parents(old(sessions)), roots))
      ensures Lists(removed, Subtree(Parents(old(sessions)), roots))
    {
      removed := [];
      ghost var s := View();
      ghost var gone: set<Id> := {};
      var todo := roots;
      NoneDropped(s);
      assert IsClosed(Parents(s.sessions), gone) && Lists(removed, gone);
      hide DropSessions, Subtree, IsClosed, RemoveSession, Parents, Lists, IsPath, Leads;
      while todo != {}
        invariant todo <= roots && gone <= Subtree(Parents(s.sessions), roots)
        invariant View() == DropSessions(s, gone)
        invariant IsClosed(Parents(s.sessions), gone) && forall x :: x in roots && x !in todo ==> x in gone
        invariant Lists(removed, gone)
        decreases todo
      {
        var x :| x in todo;
        todo := todo - {x};
        DroppedKeys(s, gone);
        if x in sessions {
          removed, gone := RemoveOne(x, removed, s, gone, roots);
        }
      }
      SubtreeIsLeast(Parents(s.sessions), roots, gone);
      assert gone == Subtree(Parents(s.sessions), roots);
    }

    method DeleteTabFrames(k: nat)
      modifies this`frames
      ensures View() == old(View()).(frames := map x | x in old(frames) && old(frames)[x].tab != k :: old(frames)[x])
    {
      var todo := frames.Keys;
      while todo != {}
        invariant todo <= frames.Keys <= old(frames.Keys)
        invariant forall x :: x in frames ==> frames[x] == old(frames)[x]
        invariant forall x :: x in old(frames) && x !in todo ==> (x in frames <==> old(frames)[x].tab != k)
        decreases todo
      {
        var x :| x in todo;
        todo := todo - {x};
        if frames[x].tab == k { frames := frames - {x}; }
      }
      assert frames == map x | x in old(frames) && old(frames)[x].tab != k :: old(frames)[x];
    }

    method RemoveTabTree(k: nat) returns (removed: seq<Id>)
      requires EMPTY !in sessions
      modifies this
      ensures View() == RemoveTab(old(View()), k)
      ensures Lists(removed, if k in old(tabs) then Subtree(Parents(old(sessions)), OfTab(old(View()), k)) else {})
    {
      removed := [];
      if k !in tabs { return; }
      var tab := tabs[k];
      removed := RemoveEach(set x | x in sessions && sessions[x].tab == k);
      hide DropSessions, Subtree, Lists, Parents;
      DeleteTabFrames(k);
      tabsByTarget := tabsByTarget - {tab.target};
      tracking := tracking - {tab.target};
      tabs := tabs - {k};
      DroppedOnly(old(View()), Subtree(Parents(old(sessions)), OfTab(old(View()), k)));
      RemoveEmptyWindow(tab.rawWindow);
    }

    method RemoveTargetInfo(t: Id) returns (removed: seq<Id>)
      requires EMPTY !in sessions
      modifies this
      ensures View() == RemoveTarget(old(View()), t)
      ensures var k := TabOf(old(View()), t);
        Lists(removed,
          if k == 0 then Subtree(Parents(old(sessions)), OfTarget(old(View()), t))
          else if k in old(tabs) then Subtree(Parents(old(sessions)), OfTab(old(View()), k))
          else {})
    {
      nonPages := nonPages - {t};
      hide DropSessions, Subtree, Lists, Parents, RemoveTab;
      if t in tabsByTarget && tabsByTarget[t] != 0 {
        removed := RemoveTabTree(tabsByTarget[t]);
      } else {
        removed := RemoveEach(set x | x in sessions && sessions[x].target.id == t);
      }
    }

    // ---- Frames ----

    /** Deletes everything below a frame while going round the table. */
    method RemoveFrameChildren(parent: Id) returns (removed: seq<Id>)
      modifies this`frames
      ensures frames == old(frames) - FramesBelow(old(frames), parent)
      ensures Lists(removed, FramesBelow(old(frames), parent))
    {
      removed := [];
      ghost var was := frames;
      ghost var gone: set<Id> := {};
      var changed := true;
      assert Lists(removed, gone);
      hide FramesBelow;
      while changed
        invariant frames == was - gone && Lists(removed, gone) && gone <= FramesBelow(was, parent)
        invariant !changed ==> forall x :: x in frames ==> frames[x].parent != parent && frames[x].parent !in gone
        decreases was.Keys - gone, changed
      {
        ghost var before := gone;
        changed := false;
        var todo := frames.Keys;
        while todo != {}
          invariant frames == was - gone && Lists(removed, gone) && gone <= FramesBelow(was, parent)
          invariant before <= gone && todo <= frames.Keys
          invariant changed ==> before < gone
          invariant !changed ==> gone == before && forall x :: x in frames && x !in todo ==>
                                   frames[x].parent != parent && frames[x].parent !in gone
          decreases todo
        {
          var x :| x in todo;
          todo := todo - {x};
          if frames[x].parent == parent || frames[x].parent in removed {
            OneMoreBelow(was, parent, gone, x);
            ListsJoin(removed, gone, [x], {x});
            removed := removed + [x];
            frames := frames - {x};
            gone := gone + {x};
            changed := true;
          }
        }
      }
      forall x | x in was && x !in gone ensures was[x].parent != parent && was[x].parent !in gone {
        assert x in frames && frames[x] == was[x];
      }
      AllBelow(was, parent, gone);
    }

    method UpsertFrame(tab: nat, session: Id, id: Id, parent: Id)
      modifies this`frames, this`nextFrame
      ensures View() == Upsert(old(View()), tab, session, id, parent)
    {
      var publicId := 0;
      if id !in frames {
        if parent != EMPTY {
          nextFrame := nextFrame + 1;
          publicId := nextFrame;
        }
      } else {
        publicId := frames[id].publicId;
        if publicId == 0 && parent != EMPTY {
          nextFrame := nextFrame + 1;
          publicId := nextFrame;
        }
      }
      frames := frames[id := Frame(publicId, parent, tab, session)];
    }

    method AddFrameTree(tab: nat, session: Id, tree: FrameTree)
      modifies this`frames, this`nextFrame
      ensures View() == UpsertTree(old(View()), tab, session, tree)
      decreases tree
    {
      UpsertFrame(tab, session, tree.id, tree.parent);
      AddFrameForest(tab, session, tree.children);
    }

    method AddFrameForest(tab: nat, session: Id, trees: seq<FrameTree>)
      modifies this`frames, this`nextFrame
      ensures View() == UpsertForest(old(View()), tab, session, trees)
      decreases trees
    {
      hide Upsert;
      var i := 0;
      while i < |trees|
        invariant i <= |trees|
        invariant UpsertForest(View(), tab, session, trees[i..]) == UpsertForest(old(View()), tab, session, trees)
      {
        assert trees[i..][0] == trees[i] && trees[i..][1..] == trees[i + 1..];
        AddFrameTree(tab, session, trees[i]);
        i := i + 1;
      }
    }

    /** copy is what the initialization copied of the session when it began. */
    method FinishInit(id: Id, copy: Session, tree: FrameTree)
      requires EMPTY !in sessions
      modifies this
      ensures if id in old(sessions) then Bound(CommitInit(old(View()), id, copy, tree), View())
        else View() == old(View())
    {
      hide Bound, UpsertTree;
      if id !in sessions { return; }
      var root := tree;
      if tree.parent == EMPTY && copy.target.kind.IFrame? {
        root := tree.(parent := copy.target.parentFrame);
        if tree.id in frames && frames[tree.id].parent != EMPTY {
          root := tree.(parent := frames[tree.id].parent);
        }
      }
      assert root == Rooted(View(), copy.target, tree);
      hide Rooted;
      UpsertTreeKeeps(View(), copy.tab, id, root);
      AddFrameTree(copy.tab, id, root);
      if copy.target.kind.Page? && copy.tab in tabs {
        tabs := tabs[copy.tab := tabs[copy.tab].(rootFrame := root.id)];
      }
      sessions := sessions[id := sessions[id].(initializing := false, initialized := true)];
      assert View() == CommitInit(old(View()), id, copy, tree);
      BindSessions();
    }

    method FrameAttached(session: Id, id: Id, parent: Id)
      requires EMPTY !in sessions
      modifies this
      ensures if Located(old(View()), session) then Bound(AttachFrame(old(View()), session, id, parent), View())
              else View() == old(View())
    {
      hide Bound, Upsert;
      if session in sessions && sessions[session].tab != 0 {
        UpsertFrame(sessions[session].tab, session, id, parent);
        UpsertKeeps(old(View()), sessions[session].tab, session, id, parent);
        BindSessions();
      }
    }

    method FrameNavigated(session: Id, id: Id, parent: Id) returns (removed: seq<Id>)
      modifies this
      ensures View() == NavigateFrame(old(View()), session, id, parent)
      ensures Lists(removed, if Located(old(View()), session) then FramesBelow(old(frames), id) else {})
    {
      removed := [];
      if session in sessions && sessions[session].tab != 0 {
        hide Upsert, FramesBelow, Lists;
        removed := RemoveFrameChildren(id);
        var above := parent;
        if parent == EMPTY && sessions[session].target.kind.IFrame? && id in frames { above := frames[id].parent; }
        UpsertFrame(sessions[session].tab, session, id, above);
      }
    }

    method FrameDetached(id: Id) returns (removed: seq<Id>)
      modifies this
      ensures View() == RemoveFrame(old(View()), id)
      ensures Lists(removed, FramesBelow(old(frames), id) + {id} * old(frames.Keys))
    {
      removed := RemoveFrameChildren(id);
      ghost var below := FramesBelow(old(frames), id);
      hide FramesBelow;
      if id in frames {
        ListsJoin(removed, below, [id], {id});
        removed := removed + [id];
        frames := frames - {id};
        assert below + {id} * old(frames.Keys) == below + {id};
      } else {
        assert frames - {id} == frames;
        assert below + {id} * old(frames.Keys) == below by { assert id in old(frames) ==> id in below; }
      }
    }
  }
}
