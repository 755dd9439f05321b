/**
  What becomes of frames: a reported tree is recorded node by node, and a frame keeps the
  public id it was given for as long as it lasts.
*/
module SurfaceFrames {
  import opened ParentClosure
  import opened SurfaceModel

  datatype Node = Node(id: Id, parent: Id)

  /** The frames of a tree as reported, from the root down. */
  function Preorder(tree: FrameTree): seq<Node>
    decreases tree
  {
    [Node(tree.id, tree.parent)] + PreorderAll(tree.children)
  }

  function PreorderAll(trees: seq<FrameTree>): seq<Node>
    decreases trees
  {
    if trees == [] then [] else Preorder(trees[0]) + PreorderAll(trees[1..])
  }

  ghost predicate Mentions(nodes: seq<Node>, x: Id) {
    exists i :: 0 <= i < |nodes| && nodes[i].id == x
  }

  ghost predicate MentionsChild(nodes: seq<Node>, x: Id) {
    exists i :: 0 <= i < |nodes| && nodes[i].id == x && nodes[i].parent != EMPTY
  }

  predicate HadId(s: map<Id, Frame>, x: Id) {
    x in s && s[x].publicId != 0
  }

  /** The last report of an id is the one that counts. */
  predicate IsLast(nodes: seq<Node>, i: int) {
    0 <= i < |nodes| && forall j :: i < j < |nodes| ==> nodes[j].id != nodes[i].id
  }

  /** Frames that were there and still are keep the id they had. */
  predicate KeepsIds(s: map<Id, Frame>, v: map<Id, Frame>) {
    forall x :: x in s && x in v && s[x].publicId != 0 ==> v[x].publicId == s[x].publicId
  }

  /** v has the reported nodes under the given tab and session, each with its own parent and,
      unless it is a root, with a public id; all other frames as they were in s; and no other ids. */
  ghost predicate Recorded(s: map<Id, Frame>, v: map<Id, Frame>, tab: nat, session: Id, nodes: seq<Node>) {
    && (forall x :: x in v <==> x in s || Mentions(nodes, x))
    && (forall i :: IsLast(nodes, i) ==>
          && nodes[i].id in v && v[nodes[i].id].parent == nodes[i].parent
          && v[nodes[i].id].tab == tab && v[nodes[i].id].session == session)
    && (forall i :: 0 <= i < |nodes| && nodes[i].parent != EMPTY ==> nodes[i].id in v && v[nodes[i].id].publicId != 0)
    && (forall x :: x in s && !Mentions(nodes, x) ==> x in v && v[x] == s[x])
    && (forall x :: x in v && v[x].publicId != 0 ==> HadId(s, x) || MentionsChild(nodes, x))
    && KeepsIds(s, v)
  }

  lemma OneIsRecorded(s: Surface, tab: nat, session: Id, id: Id, parent: Id)
    ensures Recorded(s.frames, Upsert(s, tab, session, id, parent).frames, tab, session, [Node(id, parent)])
  {
    forall x ensures Mentions([Node(id, parent)], x) <==> x == id { OneIsMentioned(Node(id, parent), x); }
    OneIsMentioned(Node(id, parent), id);
    hide Mentions, MentionsChild;
  }

  lemma OneIsMentioned(n: Node, x: Id)
    ensures Mentions([n], x) <==> x == n.id
    ensures MentionsChild([n], x) <==> x == n.id && n.parent != EMPTY
  {
    assert [n][0] == n;
  }

  lemma NothingIsRecorded(s: map<Id, Frame>, tab: nat, session: Id)
    ensures Recorded(s, s, tab, session, [])
  {}

  lemma MentionsEither(a: seq<Node>, b: seq<Node>, x: Id)
    ensures Mentions(a + b, x) <==> Mentions(a, x) || Mentions(b, x)
  {
    if Mentions(a, x) {
      var i :| 0 <= i < |a| && a[i].id == x;
      assert (a + b)[i].id == x;
    }
    if Mentions(b, x) {
      var i :| 0 <= i < |b| && b[i].id == x;
      assert (a + b)[|a| + i].id == x;
    }
    if Mentions(a + b, x) {
      var i :| 0 <= i < |a + b| && (a + b)[i].id == x;
      assert if i < |a| then a[i].id == x else b[i - |a|].id == x;
    }
  }

  lemma ChildOfEither(a: seq<Node>, b: seq<Node>, x: Id)
    requires MentionsChild(a, x) || MentionsChild(b, x)
    ensures MentionsChild(a + b, x)
  {
    if MentionsChild(a, x) {
      var i :| 0 <= i < |a| && a[i].id == x && a[i].parent != EMPTY;
      assert (a + b)[i] == a[i];
    } else {
      var i :| 0 <= i < |b| && b[i].id == x && b[i].parent != EMPTY;
      assert (a + b)[|a| + i] == b[i];
    }
  }

  lemma LastOfEither(a: seq<Node>, b: seq<Node>, i: int)
    requires IsLast(a + b, i)
    ensures if i < |a| then IsLast(a, i) && !Mentions(b, a[i].id) else IsLast(b, i - |a|)
  {
    if i < |a| {
      forall j | i < j < |a| ensures a[j].id != a[i].id { assert (a + b)[j] == a[j]; }
      forall j | 0 <= j < |b| ensures b[j].id != a[i].id { assert (a + b)[|a| + j] == b[j]; }
    } else {
      forall j | i - |a| < j < |b| ensures b[j].id != b[i - |a|].id { assert (a + b)[|a| + j] == b[j]; }
    }
  }

  lemma LastIsRecorded(s: map<Id, Frame>, u: map<Id, Frame>, v: map<Id, Frame>, tab: nat, session: Id,
      a: seq<Node>, b: seq<Node>, i: int)
    requires Recorded(s, u, tab, session, a) && Recorded(u, v, tab, session, b) && IsLast(a + b, i)
    ensures var n := (a + b)[i];
      n.id in v && v[n.id].parent == n.parent && v[n.id].tab == tab && v[n.id].session == session
  {
    LastOfEither(a, b, i);
    if i < |a| {
      assert (a + b)[i] == a[i] && u[a[i].id].parent == a[i].parent;
    } else {
      assert (a + b)[i] == b[i - |a|];
    }
  }

  lemma IdIsRecorded(s: map<Id, Frame>, u: map<Id, Frame>, v: map<Id, Frame>, tab: nat, session: Id,
      a: seq<Node>, b: seq<Node>, i: int)
    requires Recorded(s, u, tab, session, a) && Recorded(u, v, tab, session, b)
    requires 0 <= i < |a + b| && (a + b)[i].parent != EMPTY
    ensures (a + b)[i].id in v && v[(a + b)[i].id].publicId != 0
  {
    if i < |a| {
      assert (a + b)[i] == a[i] && a[i].id in u;
    } else {
      assert (a + b)[i] == b[i - |a|];
    }
  }

  lemma RecordedTwice(s: map<Id, Frame>, u: map<Id, Frame>, v: map<Id, Frame>, tab: nat, session: Id,
      a: seq<Node>, b: seq<Node>)
    requires Recorded(s, u, tab, session, a) && Recorded(u, v, tab, session, b)
    ensures Recorded(s, v, tab, session, a + b)
  {
    forall i | IsLast(a + b, i)
      ensures (a + b)[i].id in v && v[(a + b)[i].id].parent == (a + b)[i].parent
      ensures v[(a + b)[i].id].tab == tab && v[(a + b)[i].id].session == session
    {
      LastIsRecorded(s, u, v, tab, session, a, b, i);
    }
    forall i | 0 <= i < |a + b| && (a + b)[i].parent != EMPTY
      ensures (a + b)[i].id in v && v[(a + b)[i].id].publicId != 0
    {
      IdIsRecorded(s, u, v, tab, session, a, b, i);
    }
    forall x ensures Mentions(a + b, x) <==> Mentions(a, x) || Mentions(b, x) { MentionsEither(a, b, x); }
    forall x | MentionsChild(a, x) || MentionsChild(b, x) ensures MentionsChild(a + b, x) { ChildOfEither(a, b, x); }
    hide IsLast, Mentions, MentionsChild;
    assert forall x :: x in s ==> x in u;
  }

  /** After a frame tree is added every node of it is a frame, with the parent, the tab and the
      session it was last reported with, and all other frames are as before. */
  lemma {:induction false} TreeIsRecorded(s: Surface, tab: nat, session: Id, tree: FrameTree)
    ensures Recorded(s.frames, UpsertTree(s, tab, session, tree).frames, tab, session, Preorder(tree))
    decreases tree
  {
    var u := Upsert(s, tab, session, tree.id, tree.parent);
    OneIsRecorded(s, tab, session, tree.id, tree.parent);
    ForestIsRecorded(u, tab, session, tree.children);
    hide Recorded, Upsert;
    RecordedTwice(s.frames, u.frames, UpsertTree(s, tab, session, tree).frames, tab, session,
      [Node(tree.id, tree.parent)], PreorderAll(tree.children));
  }

  lemma {:induction false} ForestIsRecorded(s: Surface, tab: nat, session: Id, trees: seq<FrameTree>)
    ensures Recorded(s.frames, UpsertForest(s, tab, session, trees).frames, tab, session, PreorderAll(trees))
    decreases trees
  {
    if trees == [] {
      NothingIsRecorded(s.frames, tab, session);
    } else {
      var u := UpsertTree(s, tab, session, trees[0]);
      TreeIsRecorded(s, tab, session, trees[0]);
      ForestIsRecorded(u, tab, session, trees[1..]);
      hide Recorded, UpsertTree;
      RecordedTwice(s.frames, u.frames, UpsertForest(s, tab, session, trees).frames, tab, session,
        Preorder(trees[0]), PreorderAll(trees[1..]));
    }
  }

  // ---- Public ids over runs ----

  /** A frame that is below itself, through a cycle of parents. */
  ghost predicate IsOwnDescendant(s: Surface, x: Id) {
    x in FramesBelow(s.frames, x)
  }

  lemma SameFrames(s: Surface, v: Surface)
    requires v.frames == s.frames
    ensures KeepsIds(s.frames, v.frames)
  {}

  lemma BoundKeepsFrames(u: Surface, v: Surface)
    requires Bound(u, v)
    ensures v.frames == u.frames
  {
    var r, f :| Recovered(u, r) && IsLeast(r, f) && v == Assigned(r, f);
  }

  lemma RemovalKeepsIds(s: Surface, v: Surface, e: Event)
    requires Next(s, v, e) && (e.EvRemoveTarget? || e.EvRemoveSession? || e.EvRemoveFrame?)
    ensures KeepsIds(s.frames, v.frames)
  {
    hide Subtree, Untracked, PageTargets, OtherTargets, FramesBelow;
  }

  lemma UpsertKeepsIds(s: Surface, tab: nat, session: Id, id: Id, parent: Id)
    ensures var v := Upsert(s, tab, session, id, parent);
      && KeepsIds(s.frames, v.frames) && v.frames.Keys == s.frames.Keys + {id}
      && (forall y :: y in s.frames && y != id ==> v.frames[y] == s.frames[y])
  {}

  lemma NavigationKeepsId(s: Surface, session: Id, id: Id, parent: Id, x: Id)
    requires x in s.frames && s.frames[x].publicId != 0 && (x == id ==> !IsOwnDescendant(s, x))
    ensures var v := NavigateFrame(s, session, id, parent);
      x in v.frames ==> v.frames[x].publicId == s.frames[x].publicId
  {
    if Located(s, session) {
      var below := FramesBelow(s.frames, id);
      var cut := s.(frames := s.frames - below);
      var above := if parent == EMPTY && s.sessions[session].target.kind.IFrame? && id in cut.frames
                   then cut.frames[id].parent else parent;
      UpsertKeepsIds(cut, s.sessions[session].tab, session, id, above);
      hide FramesBelow, Upsert;
    }
  }

  /** A navigated frame keeps its id exactly when it is not below itself: otherwise it is dropped
      with everything below it and made anew. */
  lemma NavigationKeepsIdIff(s: Surface, session: Id, x: Id, parent: Id)
    requires Located(s, session) && x in s.frames && 0 < s.frames[x].publicId <= s.nextFrame
    ensures var v := NavigateFrame(s, session, x, parent);
      && x in v.frames && v.frames[x].session == session && v.frames[x].tab == s.sessions[session].tab
      && (v.frames[x].publicId == s.frames[x].publicId <==> !IsOwnDescendant(s, x))
  {
    NavigationKeepsIdUnlessBelow(s, session, x, parent);
    hide FramesBelow;
  }

  lemma NavigationKeepsIdUnlessBelow(s: Surface, session: Id, x: Id, parent: Id)
    requires Located(s, session) && x in s.frames && s.frames[x].publicId != 0
    ensures x in NavigateFrame(s, session, x, parent).frames
    ensures !IsOwnDescendant(s, x) ==>
      NavigateFrame(s, session, x, parent).frames[x].publicId == s.frames[x].publicId
  {
    if !IsOwnDescendant(s, x) { NavigationKeepsId(s, session, x, parent, x); }
    hide FramesBelow;
  }

  lemma CommitKeepsIds(s: Surface, id: Id, copy: Session, tree: FrameTree)
    requires id in s.sessions
    ensures KeepsIds(s.frames, CommitInit(s, id, copy, tree).frames)
  {
    var root := Rooted(s, copy.target, tree);
    TreeIsRecorded(s, copy.tab, id, root);
    hide UpsertTree, Rooted, Preorder;
  }

  /** One step takes no id away from a frame that stays; only the navigation of a frame that is
      below itself drops it and makes it anew. */
  lemma NextKeepsId(s: Surface, v: Surface, e: Event, x: Id)
    requires Next(s, v, e) && x in s.frames && x in v.frames && s.frames[x].publicId != 0
    requires e.EvNavigateFrame? && e.frame == x ==> !IsOwnDescendant(s, x)
    ensures v.frames[x].publicId == s.frames[x].publicId
  {
    hide Bound, CommitInit, RemoveTarget, RemoveSession, FramesBelow, NavigateFrame, IsOwnDescendant, AssignWindow,
      FirstTab;
    match e
    case EvRegister(t) => BoundKeepsFrames(Register(s, t), v);
    case EvAddSession(id, parent, t) =>
      if CanAdd(s, id, parent, t) { BoundKeepsFrames(AddSession(s, id, parent, t), v); }
    case EvBind => BoundKeepsFrames(s, v);
    case EvCommitInit(id, copy, tree) =>
      CommitKeepsIds(s, id, copy, tree);
      BoundKeepsFrames(CommitInit(s, id, copy, tree), v);
    case EvAssignWindow(t, raw) => AssignKeepsFrames(s, t, raw);
    case EvRemoveTarget(_) => RemovalKeepsIds(s, v, e);
    case EvRemoveSession(_) => RemovalKeepsIds(s, v, e);
    case EvRemoveFrame(_) => RemovalKeepsIds(s, v, e);
    case EvAttachFrame(session, id, parent) =>
      if Located(s, session) {
        UpsertKeepsIds(s, s.sessions[session].tab, session, id, parent);
        BoundKeepsFrames(AttachFrame(s, session, id, parent), v);
      }
    case EvNavigateFrame(session, id, parent) => NavigationKeepsId(s, session, id, parent, x);
    case _ =>
  }

  lemma AssignKeepsFrames(s: Surface, t: Id, raw: int)
    ensures AssignWindow(s, t, raw).frames == s.frames
  {
    hide HasTabOn;
  }

  /** The frame is there, and not below itself, in every state from i to j. */
  ghost predicate LivesThrough(run: seq<Surface>, i: nat, j: nat, x: Id)
    requires j < |run|
  {
    forall k :: i <= k <= j ==> x in run[k].frames && !IsOwnDescendant(run[k], x)
  }

  lemma StepKeepsId(run: seq<Surface>, j: nat, x: Id)
    requires IsRun(run) && 0 < j < |run| && x in run[j - 1].frames && x in run[j].frames
    requires run[j - 1].frames[x].publicId != 0 && !IsOwnDescendant(run[j - 1], x)
    ensures run[j].frames[x].publicId == run[j - 1].frames[x].publicId
  {
    hide Next, IsOwnDescendant;
    assert Follows(run[j - 1], run[j]);
    var e :| Next(run[j - 1], run[j], e);
    NextKeepsId(run[j - 1], run[j], e, x);
  }

  /** In any run a frame keeps its public id for as long as it lasts. */
  lemma {:induction false} FrameKeepsId(run: seq<Surface>, i: nat, j: nat, x: Id)
    requires IsRun(run) && i <= j < |run| && LivesThrough(run, i, j, x) && run[i].frames[x].publicId != 0
    ensures x in run[j].frames && run[j].frames[x].publicId == run[i].frames[x].publicId
    decreases j - i
  {
    hide Next, Follows, IsRun, IsOwnDescendant;
    assert x in run[j].frames;
    if i < j {
      assert x in run[j - 1].frames && !IsOwnDescendant(run[j - 1], x);
      FrameKeepsId(run, i, j - 1, x);
      StepKeepsId(run, j, x);
    }
  }
}
