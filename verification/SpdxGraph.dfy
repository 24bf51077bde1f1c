/** The dependency-graph check of `inspect_spdx` in `tools/firmware_sbom.py`. */
module SpdxGraph {
  import opened Basics
  import opened Reachability

  type Edges = map<string, set<string>>

  function ChildrenOf(edges: Edges, parent: string): set<string> {
    if parent in edges then edges[parent] else {}
  }

  /** The graph of the listed DEPENDS_ON pairs. */
  function Listed(pairs: seq<(string, string)>, parent: string): set<string> {
    set i | 0 <= i < |pairs| && pairs[i].0 == parent :: pairs[i].1
  }

  predicate Known(pairs: seq<(string, string)>, packages: set<string>) {
    forall i :: 0 <= i < |pairs| ==> pairs[i].0 in packages && pairs[i].1 in packages
  }

  /** The edge table, unless a pair names an unknown package. */
  method CollectEdges(pairs: seq<(string, string)>, packages: set<string>) returns (r: Option<Edges>)
    ensures r.Some? <==> Known(pairs, packages)
    ensures r.Some? ==> forall parent :: ChildrenOf(r.value, parent) == Listed(pairs, parent)
  {
    var edges: Edges := map[];
    for i := 0 to |pairs|
      invariant Known(pairs[..i], packages)
      invariant forall parent :: ChildrenOf(edges, parent) == Listed(pairs[..i], parent)
    {
      var (parent, child) := pairs[i];
      if parent !in packages || child !in packages { return None; }
      var grown := edges[parent := ChildrenOf(edges, parent) + {child}];
      forall p ensures ChildrenOf(grown, p) == Listed(pairs[..i + 1], p) { ListedNext(pairs, i, p); }
      edges := grown;
    }
    assert pairs[..|pairs|] == pairs;
    r := Some(edges);
  }

  lemma ListedNext(pairs: seq<(string, string)>, i: nat, parent: string)
    requires i < |pairs|
    ensures Listed(pairs[..i + 1], parent) ==
            Listed(pairs[..i], parent) + (if pairs[i].0 == parent then {pairs[i].1} else {})
  {
    var longer := pairs[..i + 1];
    assert longer[i] == pairs[i] && longer[..i] == pairs[..i];
    forall c | c in Listed(pairs[..i], parent) ensures c in Listed(longer, parent) {
      var j :| 0 <= j < i && pairs[..i][j].0 == parent && pairs[..i][j].1 == c;
      assert longer[j].0 == parent && longer[j].1 == c;
    }
    forall c | c in Listed(longer, parent) && (pairs[i].0 != parent || c != pairs[i].1)
      ensures c in Listed(pairs[..i], parent)
    {
      var j :| 0 <= j < i + 1 && longer[j].0 == parent && longer[j].1 == c;
      assert pairs[..i][j].0 == parent && pairs[..i][j].1 == c;
    }
  }

  /** The inner loop: children not found yet are recorded and queued. */
  method Enqueue(children: set<string>, found: set<string>, pending: seq<string>)
    returns (found': set<string>, pending': seq<string>)
    ensures found' == found + children
    ensures forall x :: x in pending' <==> x in pending || x in children - found
    ensures children <= found ==> pending' == pending
  {
    found', pending' := found, pending;
    var todo := children;
    while todo != {}
      invariant todo <= children && found' == found + (children - todo)
      invariant forall x :: x in pending' <==> x in pending || x in (children - todo) - found
      invariant children <= found ==> pending' == pending
    {
      var child :| child in todo;
      todo := todo - {child};
      if child !in found' { found', pending' := found' + {child}, pending' + [child]; }
    }
  }

  /**
   The worklist. Everything found is due to a property that the project has and that children inherit, and the children
   of everything found are found.
   */
  method DrainPending(edges: Edges, project: string, ghost g: string -> set<string>, ghost packages: set<string>,
                      ghost inherited: string -> bool) returns (found: set<string>)
    requires forall x :: g(x) == ChildrenOf(edges, x)
    requires forall x, y :: y in g(x) ==> y in packages
    requires inherited(project) && forall x, y :: inherited(x) && y in g(x) ==> inherited(y)
    ensures project in found && Closed(g, found) && forall x :: x in found ==> inherited(x)
  {
    found := {project};
    var pending := [project];
    ghost var universe := packages + {project};
    while pending != []
      invariant project in found && found <= universe
      invariant forall x :: x in pending ==> x in found
      invariant forall x :: x in found ==> inherited(x)
      invariant forall x, y :: x in found && y in g(x) ==> y in found || x in pending
      decreases universe - found, |pending|
    {
      var parent, rest := pending[|pending| - 1], pending[..|pending| - 1];
      assert pending == rest + [parent];
      assert g(parent) == ChildrenOf(edges, parent);
      found, pending := Enqueue(ChildrenOf(edges, parent), found, rest);
    }
  }

  /** It terminates, and finds exactly the IDs that dependency paths lead to from the project. */
  method FindReachable(edges: Edges, project: string, ghost g: string -> set<string>, ghost packages: set<string>)
    returns (found: set<string>)
    requires forall x :: g(x) == ChildrenOf(edges, x)
    requires forall x, y :: y in g(x) ==> y in packages
    ensures forall x :: x in found <==> Reached(g, {project}, x)
  {
    ghost var inherited: string -> bool := x => Reached(g, {project}, x);
    RootReached(g, {project}, project);
    forall x, y | inherited(x) && y in g(x) ensures inherited(y) { ChildReached(g, {project}, x, y); }
    found := DrainPending(edges, project, g, packages, inherited);
    forall x ensures x in found <==> Reached(g, {project}, x) { ReachedExactly(g, {project}, found, x); }
  }

  /** The check passes exactly when dependency paths lead from the project to every package. */
  method CheckDependencyGraph(pairs: seq<(string, string)>, packages: set<string>, project: string,
                              ghost g: string -> set<string>) returns (ok: bool)
    requires forall x :: g(x) == Listed(pairs, x)
    ensures ok <==> Known(pairs, packages) && forall x :: x in packages ==> Reached(g, {project}, x)
  {
    var edges := CollectEdges(pairs, packages);
    if edges.None? { return false; }
    var found := FindReachable(edges.value, project, g, packages);
    ok := packages <= found;
  }
}
