/** Reachability in a directed graph by explicit walks. */
module Reachability {
  ghost predicate Walk<T(!new)>(g: T -> set<T>, roots: set<T>, path: seq<T>) {
    && path != [] && path[0] in roots
    && forall i :: 0 < i < |path| ==> path[i] in g(path[i - 1])
  }

  ghost predicate Reached<T(!new)>(g: T -> set<T>, roots: set<T>, x: T) {
    exists path :: Walk(g, roots, path) && path[|path| - 1] == x
  }

  ghost predicate Closed<T(!new)>(g: T -> set<T>, s: set<T>) {
    forall x, y :: x in s && y in g(x) ==> y in s
  }

  lemma RootReached<T(!new)>(g: T -> set<T>, roots: set<T>, x: T)
    requires x in roots
    ensures Reached(g, roots, x)
  {
    assert Walk(g, roots, [x]) && [x][|[x]| - 1] == x;
  }

  lemma ChildReached<T(!new)>(g: T -> set<T>, roots: set<T>, x: T, y: T)
    requires Reached(g, roots, x) && y in g(x)
    ensures Reached(g, roots, y)
  {
    var path :| Walk(g, roots, path) && path[|path| - 1] == x;
    var longer := path + [y];
    assert Walk(g, roots, longer) && longer[|longer| - 1] == y;
  }

  lemma {:induction false} WalkStaysInside<T(!new)>(g: T -> set<T>, roots: set<T>, path: seq<T>, s: set<T>)
    requires Walk(g, roots, path) && Closed(g, s) && roots <= s
    ensures path[|path| - 1] in s
    decreases |path|
  {
    if |path| > 1 {
      var shorter := path[..|path| - 1];
      WalkStaysInside(g, roots, shorter, s);
      assert shorter[|shorter| - 1] == path[|path| - 2] && path[|path| - 1] in g(path[|path| - 2]);
    }
  }

  /** A closed set of reached nodes that holds the roots is the set of all reached nodes. */
  lemma ReachedExactly<T(!new)>(g: T -> set<T>, roots: set<T>, s: set<T>, x: T)
    requires Closed(g, s) && roots <= s && forall y :: y in s ==> Reached(g, roots, y)
    ensures x in s <==> Reached(g, roots, x)
  {
    if Reached(g, roots, x) {
      var path :| Walk(g, roots, path) && path[|path| - 1] == x;
      WalkStaysInside(g, roots, path, s);
    }
  }
}
