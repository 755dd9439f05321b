/**
  What is below a node of a forest given by parent links (server/lib/browsersurface/frames.go).
  Links may dangle and may form cycles.
*/
module ParentClosure {
  type Id = nat

  /** Every node of the path but the last has the next one as its parent. */
  ghost predicate IsPath(parents: map<Id, Id>, path: seq<Id>) {
    path != [] && forall i :: 0 <= i < |path| - 1 ==> path[i] in parents && parents[path[i]] == path[i + 1]
  }

  ghost predicate Leads(parents: map<Id, Id>, x: Id, roots: set<Id>) {
    exists path :: IsPath(parents, path) && path[0] == x && path[|path| - 1] in roots
  }

  /** The nodes that are roots or lead to one. */
  ghost function Subtree(parents: map<Id, Id>, roots: set<Id>): set<Id> {
    set x | x in parents && Leads(parents, x, roots)
  }

  ghost predicate IsClosed(parents: map<Id, Id>, inside: set<Id>) {
    forall x :: x in parents && parents[x] in inside ==> x in inside
  }

  lemma {:induction false} ClosedHoldsPath(parents: map<Id, Id>, inside: set<Id>, path: seq<Id>)
    requires IsClosed(parents, inside) && IsPath(parents, path) && path[|path| - 1] in inside
    ensures path[0] in inside
  {
    if |path| > 1 {
      assert path[0] in parents && parents[path[0]] == path[1];
      assert IsPath(parents, path[1..]) by {
        forall i | 0 <= i < |path| - 2 ensures path[1..][i] in parents && parents[path[1..][i]] == path[1..][i + 1] {
          assert path[1..][i] == path[i + 1];
        }
      }
      ClosedHoldsPath(parents, inside, path[1..]);
    }
  }

  /** The subtree is the least closed set that holds the roots. */
  lemma SubtreeIsLeast(parents: map<Id, Id>, roots: set<Id>, inside: set<Id>)
    requires IsClosed(parents, inside) && forall r :: r in roots ==> r in inside
    ensures Subtree(parents, roots) <= inside
  {
    forall x | x in Subtree(parents, roots) ensures x in inside {
      var path :| IsPath(parents, path) && path[0] == x && path[|path| - 1] in roots;
      ClosedHoldsPath(parents, inside, path);
    }
  }

  lemma RootIsBelow(parents: map<Id, Id>, roots: set<Id>, x: Id)
    requires x in roots
    ensures Leads(parents, x, roots)
  {
    assert IsPath(parents, [x]) && [x][|[x]| - 1] == x;
  }

  lemma ChildIsBelow(parents: map<Id, Id>, roots: set<Id>, x: Id)
    requires x in parents && Leads(parents, parents[x], roots)
    ensures Leads(parents, x, roots)
  {
    var path :| IsPath(parents, path) && path[0] == parents[x] && path[|path| - 1] in roots;
    var longer := [x] + path;
    assert IsPath(parents, longer) by {
      forall i | 0 <= i < |longer| - 1 ensures longer[i] in parents && parents[longer[i]] == longer[i + 1] {
        if i > 0 { assert longer[i] == path[i - 1] && longer[i + 1] == path[i]; }
      }
    }
    assert longer[|longer| - 1] == path[|path| - 1];
  }

  /** Removing a subtree leaves no dangling link that was not there before. */
  lemma RestKeepsParents(parents: map<Id, Id>, roots: set<Id>, x: Id)
    requires x in parents && x !in Subtree(parents, roots)
    ensures parents[x] !in Subtree(parents, roots) && parents[x] !in roots
  {
    if parents[x] in roots { RootIsBelow(parents, roots, parents[x]); ChildIsBelow(parents, roots, x); }
    if parents[x] in Subtree(parents, roots) { ChildIsBelow(parents, roots, x); }
  }

  lemma SubtreeIs(parents: map<Id, Id>, roots: set<Id>, inside: set<Id>)
    requires IsClosed(parents, inside) && roots <= inside
    requires forall x :: x in inside ==> Leads(parents, x, roots)
    ensures Subtree(parents, roots) == inside * parents.Keys
  {
    SubtreeIsLeast(parents, roots, inside);
  }
}
