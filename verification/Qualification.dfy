/**
 The control flow of `tools/kubernetes_admission_qualification.py` over a cluster store: owned creation, probes and
 owned cleanup. Any client call may fail, before or after it took effect, and between calls other parties may change
 anything, or, where they are respectful, anything that does not carry this run's qualification ID.
 */
module Qualification {
  import opened Basics

  datatype Key =
    | PolicyKey(name: string)
    | BindingKey(name: string)
    | NamespaceKey(name: string)
    | ClaimKey(namespace: string, name: string)

  /** An object and the qualification ID in its ownership annotation, if any. */
  datatype Object = Object(owner: Option<string>, content: string)

  function BindingKeys(names: seq<string>): seq<Key> {
    seq(|names|, i requires 0 <= i < |names| => BindingKey(names[i]))
  }

  function PolicyKeys(names: seq<string>): seq<Key> {
    seq(|names|, i requires 0 <= i < |names| => PolicyKey(names[i]))
  }

  /** Every name a run may create or delete directly, in the order of the final sweep. */
  function Scope(policies: seq<string>, bindings: seq<string>, namespace: string): seq<Key> {
    BindingKeys(bindings) + PolicyKeys(policies) + [NamespaceKey(namespace)]
  }

  lemma ScopeParts(policies: seq<string>, bindings: seq<string>, namespace: string)
    ensures forall k :: k in BindingKeys(bindings) ==> k.BindingKey?
    ensures forall k :: k in PolicyKeys(policies) ==> k.PolicyKey?
    ensures forall k :: k in Scope(policies, bindings, namespace) <==>
              k in BindingKeys(bindings) || k in PolicyKeys(policies) || k == NamespaceKey(namespace)
  {
  }

  function PolicyNames(items: seq<Key>): seq<string> {
    if items == [] then [] else (if items[0].PolicyKey? then [items[0].name] else []) + PolicyNames(items[1..])
  }

  function BindingNames(items: seq<Key>): seq<string> {
    if items == [] then [] else (if items[0].BindingKey? then [items[0].name] else []) + BindingNames(items[1..])
  }

  /** The two name lists cover the admission document. */
  lemma {:induction false} NamesCover(items: seq<Key>, namespace: string)
    requires forall k :: k in items ==> k.PolicyKey? || k.BindingKey?
    ensures forall k :: k in items ==> k in Scope(PolicyNames(items), BindingNames(items), namespace)
  {
    forall k | k in items
      ensures k.PolicyKey? ==> k.name in PolicyNames(items)
      ensures k.BindingKey? ==> k.name in BindingNames(items)
    {
      NameListed(items, k);
    }
    forall k | k in items ensures k in Scope(PolicyNames(items), BindingNames(items), namespace) {
      if k.PolicyKey? {
        var i :| 0 <= i < |PolicyNames(items)| && PolicyNames(items)[i] == k.name;
        assert PolicyKeys(PolicyNames(items))[i] == k;
      } else {
        var i :| 0 <= i < |BindingNames(items)| && BindingNames(items)[i] == k.name;
        assert BindingKeys(BindingNames(items))[i] == k;
      }
    }
  }

  lemma {:induction false} NameListed(items: seq<Key>, k: Key)
    requires k in items
    ensures k.PolicyKey? ==> k.name in PolicyNames(items)
    ensures k.BindingKey? ==> k.name in BindingNames(items)
  {
    if k != items[0] { NameListed(items[1..], k); }
  }

  predicate Inside(k: Key, namespace: Key) {
    k.ClaimKey? && namespace == NamespaceKey(k.namespace)
  }

  /** Deleting a namespace takes its contents along. */
  function Without(m: map<Key, Object>, k: Key): map<Key, Object> {
    map j | j in m && j != k && !Inside(j, k) :: m[j]
  }

  /** Namespaced objects live in namespaces that exist. */
  ghost predicate Placed(m: map<Key, Object>) {
    forall k :: k in m && k.ClaimKey? ==> NamespaceKey(k.namespace) in m
  }

  /** `m` is what is left of `was` after removals. */
  ghost predicate Remains(m: map<Key, Object>, was: map<Key, Object>) {
    m.Keys <= was.Keys && forall k :: k in m ==> m[k] == was[k]
  }

  /** Nothing without the given ID was removed, other than the contents of a removed namespace. */
  ghost predicate Spares(m: map<Key, Object>, was: map<Key, Object>, id: string) {
    forall k :: k in was && was[k].owner != Some(id) && !k.ClaimKey? ==> k in m
  }

  /** Only the names in `scope` and the contents of its namespace may differ. */
  ghost predicate SameOutside(m: map<Key, Object>, was: map<Key, Object>, scope: seq<Key>, namespace: Key) {
    forall k :: k !in scope && !Inside(k, namespace) ==> (k in m <==> k in was) && (k in m ==> m[k] == was[k])
  }

  /** `m` is `was` and some further objects of this run. */
  ghost predicate Grown(m: map<Key, Object>, was: map<Key, Object>, scope: seq<Key>, namespace: Key, id: string) {
    && Remains(was, m)
    && forall k :: k in m && k !in was ==> (k in scope || Inside(k, namespace)) && m[k].owner == Some(id)
  }

  ghost predicate Untouched(m: map<Key, Object>, scope: seq<Key>, namespace: Key) {
    namespace in scope && Placed(m) && forall k :: k in scope ==> k !in m
  }

  /** Removing this run's objects from a grown cluster leaves what was there: all of it once the scope is empty. */
  lemma Restored(m: map<Key, Object>, mid: map<Key, Object>, was: map<Key, Object>, scope: seq<Key>, namespace: Key,
                 id: string)
    requires Untouched(was, scope, namespace) && namespace.NamespaceKey?
    requires Grown(mid, was, scope, namespace, id) && Remains(m, mid) && SameOutside(m, mid, scope, namespace)
    requires Placed(m)
    ensures Grown(m, was, scope, namespace, id)
    ensures (forall k :: k in scope ==> k !in m) ==> m == was
  {
    assert forall k :: k in was ==> k !in scope && !Inside(k, namespace);
    if forall k :: k in scope ==> k !in m {
      assert forall k :: k in m ==> !Inside(k, namespace);
      assert m.Keys == was.Keys;
    }
  }

  // ----- One owned deletion, with others at work -----

  /** A deletion by name: the object that was looked up, and the object that was deleted. */
  datatype Deletion = Deletion(key: Key, seen: Object, gone: Object)

  /** While both stand, no namespace can be deleted. */
  datatype Guard = Guard(policy: Key, binding: Key)

  predicate Guarded(g: Guard, m: map<Key, Object>, k: Key) {
    k.NamespaceKey? && g.policy in m && g.binding in m
  }

  /** What `delete_owned` deletes when the cluster is as in `views` at its three calls: exists, get, delete. */
  function Struck(id: string, g: Guard, k: Key, views: seq<map<Key, Object>>): (d: Option<Deletion>)
    requires |views| == 3
  {
    if k !in views[0] || k !in views[1] || views[1][k].owner != Some(id) then None
    else if k !in views[2] || Guarded(g, views[2], k) then None
    else Some(Deletion(k, views[1][k], views[2][k]))
  }

  /** Others leave the objects with this ID as they are, and make none. */
  predicate Respects(id: string, m: map<Key, Object>, n: map<Key, Object>) {
    && (forall k :: k in m && m[k].owner == Some(id) ==> k in n && n[k] == m[k])
    && (forall k :: k in n && n[k].owner == Some(id) ==> k in m && m[k] == n[k])
  }

  /**
   A deleted object carried the ID when it was looked up. It lacks the ID exactly when others put an object without
   the ID in its place between lookup and deletion, which respectful others do not do.
   */
  lemma StruckWhenReplaced(id: string, g: Guard, k: Key, views: seq<map<Key, Object>>)
    requires |views| == 3 && Struck(id, g, k, views).Some?
    ensures var d := Struck(id, g, k, views).value;
            && d.seen.owner == Some(id)
            && (d.gone.owner != Some(id) <==>
                k in views[2] && views[2][k] != views[1][k] && views[2][k].owner != Some(id))
            && (Respects(id, views[1], views[2]) ==> d.gone == d.seen)
  {
  }

  /** Whatever is put in place of an own object in that moment is deleted, unless the guard stands. */
  lemma ReplacementIsStruck(id: string, g: Guard, k: Key, m: map<Key, Object>, other: Object)
    requires k in m && m[k].owner == Some(id) && !Guarded(g, m[k := other], k)
    ensures Struck(id, g, k, [m, m, m[k := other]]) == Some(Deletion(k, m[k], other))
  {
  }

  /** What the live probes find, in the order in which they are made. */
  datatype Probes = Probes(typeChecks: bool, dryRunsPass: bool, claimPends: bool, denialsSeen: bool) {
    predicate Pass() {
      typeChecks && dryRunsPass && claimPends && denialsSeen
    }
  }

  predicate Distinct(items: seq<Key>) {
    forall i, j :: 0 <= i < j < |items| ==> items[i] != items[j]
  }

  /** How a qualification run ends. */
  datatype Outcome = Refused | ProbesFailed(cleaned: bool) | CleanupFailed | Qualified

  class Cluster {
    const id: string
    const guard: Guard        // the policy and binding that deny deletion of the workload namespace
    const quiet: bool         // nobody else changes the cluster
    const respectful: bool    // others leave objects with this run's ID alone
    const reliable: bool      // no call fails on its own
    var objects: map<Key, Object>
    ghost var deletions: seq<Deletion>
    ghost var seenAbsent: set<Key>    // looked up and found absent since this run last tried to change anything

    constructor (id: string, guard: Guard, quiet: bool, respectful: bool, reliable: bool, objects: map<Key, Object>)
      ensures this.id == id && this.guard == guard && this.quiet == quiet && this.respectful == respectful
      ensures this.reliable == reliable && this.objects == objects && deletions == [] && seenAbsent == {}
    {
      this.id, this.guard, this.quiet, this.respectful := id, guard, quiet, respectful;
      this.reliable, this.objects, this.deletions, this.seenAbsent := reliable, objects, [], {};
    }

    predicate Owned(k: Key)
      reads this
    {
      k in objects && objects[k].owner == Some(id)
    }

    function Mine(): set<Key>
      reads this
    {
      set k | k in objects && objects[k].owner == Some(id)
    }

    /**
     Every object this run ever deleted by name carried its ID when it was looked up and, unless others alter such
     objects, was the one deleted.
     */
    ghost predicate Honest()
      reads this
    {
      forall i :: 0 <= i < |deletions| ==>
        deletions[i].seen.owner == Some(id) && (quiet || respectful ==> deletions[i].gone == deletions[i].seen)
    }

    /** While the guard is installed no namespace can be deleted. */
    predicate Denied(k: Key)
      reads this
    {
      Guarded(guard, objects, k)
    }

    ghost predicate NoneMine(keys: seq<Key>)
      reads this
    {
      forall k :: k in keys ==> k !in Mine()
    }

    ghost predicate Absent(keys: seq<Key>)
      reads this
    {
      forall k :: k in keys ==> k !in objects
    }

    /** Each of these names was looked up and found absent after this run's last attempt to change anything. */
    ghost predicate Swept(keys: seq<Key>)
      reads this
    {
      forall k :: k in keys ==> k in seenAbsent
    }

    /** Everything present under these names carries this run's ID. */
    ghost predicate AllOwned(keys: seq<Key>)
      reads this
    {
      forall k :: k in keys && k in objects ==> Owned(k)
    }

    method Interfere()
      modifies this`objects
      ensures respectful ==> Respects(id, old(objects), objects)
      ensures quiet ==> objects == old(objects)
    {
      if !quiet {
        var m: map<Key, Object> := *;
        if !respectful || Respects(id, objects, m) { objects := m; }
      }
    }

    method Exists(k: Key) returns (r: Option<bool>)
      modifies this`objects, this`seenAbsent
      ensures (respectful ==> Respects(id, old(objects), objects)) && (quiet ==> objects == old(objects))
      ensures r.Some? ==> r.value == (k in objects)
      ensures seenAbsent == old(seenAbsent) + if r == Some(false) then {k} else {}
      ensures reliable ==> r.Some?
    {
      Interfere();
      var fails := *;
      r := if fails && !reliable then None else Some(k in objects);
      if r == Some(false) { seenAbsent := seenAbsent + {k}; }
    }

    method Get(k: Key) returns (r: Option<Object>)
      modifies this`objects
      ensures (respectful ==> Respects(id, old(objects), objects)) && (quiet ==> objects == old(objects))
      ensures r.Some? ==> k in objects && r.value == objects[k]
      ensures reliable && k in objects ==> r.Some?
    {
      Interfere();
      var fails := *;
      r := if k !in objects || (fails && !reliable) then None else Some(objects[k]);
    }

    /** The object is absent, and the namespace of a claim is there. */
    predicate Possible(k: Key)
      reads this`objects
    {
      k !in objects && (k.ClaimKey? ==> NamespaceKey(k.namespace) in objects)
    }

    /** Creates an absent object, with this run's ID; a failed call may still have created it. */
    method Create(k: Key, content: string) returns (ok: bool)
      modifies this`objects, this`seenAbsent
      ensures seenAbsent == {}
      ensures respectful ==> Mine() <= old(Mine()) + {k} && old(Mine()) <= Mine()
      ensures ok ==> Owned(k) && objects[k].content == content
      ensures quiet && ok ==> k !in old(objects)
      ensures quiet && reliable && old(Possible(k)) ==> ok
      ensures quiet ==> objects == old(objects)
                        || (k !in old(objects) && objects == old(objects)[k := Object(Some(id), content)])
      ensures quiet && old(Placed(objects)) ==> Placed(objects)
    {
      Interfere();
      var fails, lands := *, *;
      var possible := Possible(k);
      ok := possible && !(fails && !reliable);
      if ok || (possible && lands) { objects := objects[k := Object(Some(id), content)]; }
      seenAbsent := {};
    }

    /** Deletes whatever has this name; a failed call may still have deleted it, unless admission denied it. */
    method Delete(k: Key, ghost seen: Object) returns (ok: bool, ghost view: map<Key, Object>)
      modifies this
      ensures seenAbsent == {}
      ensures (respectful ==> Respects(id, old(objects), view)) && (quiet ==> view == old(objects))
      ensures || (objects == view && deletions == old(deletions))
              || (k in view && !Guarded(guard, view, k) && objects == Without(view, k) &&
                  deletions == old(deletions) + [Deletion(k, seen, view[k])])
      ensures ok ==> k !in objects
      ensures reliable && !Guarded(guard, view, k) ==> ok
      ensures Guarded(guard, view, k) && k in view ==> !ok
    {
      Interfere();
      view := objects;
      var fails, lands := *, *;
      ok := !(k in objects && Denied(k)) && !(fails && !reliable);
      if k in objects && !Denied(k) && (ok || lands) {
        deletions := deletions + [Deletion(k, seen, objects[k])];
        objects := Without(objects, k);
      }
      seenAbsent := {};
    }

    /**
     The source's `delete_owned`: look up, compare the annotation, delete. `views` is the cluster at the three calls,
     or when it returned; when no call fails, what is deleted is exactly `Struck` of them.
     */
    method DeleteOwned(k: Key) returns (ok: bool, ghost views: seq<map<Key, Object>>)
      requires Honest()
      modifies this
      ensures Honest() && old(deletions) <= deletions
      ensures |views| == 3 && (objects == views[2] || objects == Without(views[2], k))
      ensures quiet ==> views == [old(objects), old(objects), old(objects)]
      ensures respectful ==> Respects(id, old(objects), views[0]) && Respects(id, views[0], views[1])
                             && Respects(id, views[1], views[2])
      ensures deletions == old(deletions) ||
              (Struck(id, guard, k, views).Some? &&
               deletions == old(deletions) + [Struck(id, guard, k, views).value])
      ensures reliable && Struck(id, guard, k, views).Some? ==> deletions != old(deletions)
      ensures respectful ==> Mine() <= old(Mine()) && (ok ==> k !in Mine())
      ensures quiet ==> objects == old(objects) || (old(Owned(k)) && objects == Without(old(objects), k))
      ensures quiet && ok ==> k !in objects
      ensures quiet && reliable && (k in old(objects) ==> old(Owned(k)) && !old(Denied(k))) ==> ok
      ensures quiet && old(Denied(k)) && k in old(objects) ==> !ok && objects == old(objects)
    {
      var present := Exists(k);
      views := [objects, objects, objects];
      if present.None? { return false, views; }
      if !present.value { return true, views; }
      var item := Get(k);
      views := [views[0], objects, objects];
      if item.None? || item.value.owner != Some(id) { return false, views; }
      assert Owned(k);
      ghost var view;
      ok, view := Delete(k, item.value);
      views := [views[0], views[1], view];
    }

    /** Deletes the named objects, last first, carrying on past errors. */
    method DeleteAll(keys: seq<Key>) returns (ok: bool)
      requires Honest()
      requires forall k :: k in keys ==> !k.NamespaceKey?
      modifies this
      ensures Honest() && old(deletions) <= deletions
      ensures (respectful ==> Mine() <= old(Mine()) && (ok ==> NoneMine(keys)))
      ensures quiet ==> Remains(objects, old(objects)) && Spares(objects, old(objects), id)
      ensures quiet ==> forall k :: k in old(objects) && k !in keys ==> k in objects
      ensures quiet && ok ==> Absent(keys)
      ensures quiet && reliable && old(AllOwned(keys)) ==> ok
    {
      ok := true;
      var i := |keys|;
      while i > 0
        invariant 0 <= i <= |keys| && Honest() && old(deletions) <= deletions
        invariant respectful ==> Mine() <= old(Mine()) && (ok ==> NoneMine(keys[i..]))
        invariant quiet ==> Remains(objects, old(objects)) && Spares(objects, old(objects), id)
        invariant quiet ==> forall k :: k in old(objects) && k !in keys ==> k in objects
        invariant quiet && ok ==> Absent(keys[i..])
        invariant quiet && reliable && old(AllOwned(keys)) ==> ok
      {
        i := i - 1;
        var done, _ := DeleteOwned(keys[i]);
        ok := ok && done;
        assert keys[i..] == [keys[i]] + keys[i + 1..];
      }
      assert keys[0..] == keys;
    }

    /** The final sweep: every name is looked up once more. */
    method ConfirmAbsent(keys: seq<Key>) returns (ok: bool)
      modifies this`objects, this`seenAbsent
      ensures (respectful ==> Mine() == old(Mine())) && (quiet ==> objects == old(objects))
      ensures ok ==> (respectful ==> NoneMine(keys)) && Swept(keys)
      ensures quiet && ok ==> Absent(keys)
      ensures quiet && reliable && old(Absent(keys)) ==> ok
    {
      ok := true;
      for i := 0 to |keys|
        invariant (respectful ==> Mine() == old(Mine())) && (quiet ==> objects == old(objects))
        invariant ok ==> (respectful ==> NoneMine(keys[..i])) && Swept(keys[..i])
        invariant quiet && ok ==> Absent(keys[..i])
        invariant quiet && reliable && old(Absent(keys)) ==> ok
      {
        var present := Exists(keys[i]);
        if present.None? || present.value { ok := false; }
        assert keys[..i + 1] == keys[..i] + [keys[i]];
      }
      assert keys[..|keys|] == keys;
    }

    /**
     Bindings, then policies, then the namespace, then the sweep. With nobody else at work and no failing calls it
     succeeds exactly when nothing under the names belongs to somebody else, although the guard denies namespace
     deletion as long as its policy and binding stand.
     */
    method Cleanup(policies: seq<string>, bindings: seq<string>, namespace: string) returns (ok: bool)
      requires Honest()
      modifies this
      ensures Honest() && old(deletions) <= deletions
      ensures respectful ==> Mine() <= old(Mine()) && (ok ==> NoneMine(Scope(policies, bindings, namespace)))
      ensures ok ==> Swept(Scope(policies, bindings, namespace))
      ensures quiet ==> Remains(objects, old(objects)) && Spares(objects, old(objects), id)
      ensures quiet ==> SameOutside(objects, old(objects), Scope(policies, bindings, namespace),
                                    NamespaceKey(namespace))
      ensures quiet && ok ==> Absent(Scope(policies, bindings, namespace))
      ensures quiet && old(Placed(objects)) ==> Placed(objects)
      ensures quiet && reliable && guard.binding in BindingKeys(bindings)
              ==> (ok <==> old(AllOwned(Scope(policies, bindings, namespace))))
    {
      ghost var scope := Scope(policies, bindings, namespace);
      ghost var bs, ps, ns := BindingKeys(bindings), PolicyKeys(policies), NamespaceKey(namespace);
      ScopeParts(policies, bindings, namespace);
      ghost var was := objects;
      var first := DeleteAll(BindingKeys(bindings));
      var second := DeleteAll(PolicyKeys(policies));
      assert quiet && reliable && old(AllOwned(scope)) ==> first && second;
      assert quiet ==> Remains(objects, was) && Spares(objects, was, id) && (ns in objects <==> ns in was);
      ghost var mid := objects;
      var third, _ := DeleteOwned(NamespaceKey(namespace));
      assert quiet ==> objects == mid || objects == Without(mid, ns);
      var swept := ConfirmAbsent(Scope(policies, bindings, namespace));
      ok := first && second && third && swept;
    }

    /** Creates the admission objects, one after the other, until one fails. */
    method InstallAdmission(items: seq<Key>, ghost scope: seq<Key>, ghost namespace: Key) returns (made: bool)
      requires forall k :: k in items ==> k in scope && !k.ClaimKey?
      modifies this`objects, this`seenAbsent
      ensures quiet ==> Grown(objects, old(objects), scope, namespace, id)
      ensures quiet && old(Placed(objects)) ==> Placed(objects)
      ensures quiet ==> forall k :: k in objects ==> k in old(objects) || k in items
      ensures quiet && made ==> forall k :: k in items ==> k in objects && k !in old(objects)
      ensures quiet && reliable && Distinct(items) && old(Absent(items)) ==> made
    {
      for i := 0 to |items|
        invariant quiet ==> Grown(objects, old(objects), scope, namespace, id)
        invariant quiet && old(Placed(objects)) ==> Placed(objects)
        invariant quiet ==> forall k :: k in objects ==> k in old(objects) || k in items[..i]
        invariant quiet ==> forall k :: k in items[..i] ==> k in objects && k !in old(objects)
      {
        var created := Create(items[i], "admission");
        if !created { return false; }
        assert items[..i + 1] == items[..i] + [items[i]];
      }
      assert items[..|items|] == items;
      return true;
    }

    /** The installation part of a run: admission objects, probes, namespace, probes, one claim, probes. */
    method Install(items: seq<Key>, namespace: string, claim: string, probes: Probes, ghost scope: seq<Key>)
      returns (passed: bool)
      requires NamespaceKey(namespace) in scope && forall k :: k in items ==> k in scope
      requires forall k :: k in items ==> k.PolicyKey? || k.BindingKey?
      modifies this`objects, this`seenAbsent
      ensures quiet ==> Grown(objects, old(objects), scope, NamespaceKey(namespace), id)
      ensures quiet && old(Placed(objects)) ==> Placed(objects)
      ensures passed ==> probes.Pass()
      ensures quiet && passed ==> forall k :: k in items + [NamespaceKey(namespace), ClaimKey(namespace, claim)] ==>
                                    k !in old(objects) && Owned(k)
      ensures quiet && reliable && Distinct(items) && old(Placed(objects)) && old(Absent(scope))
              ==> (passed <==> probes.Pass())
    {
      var made := InstallAdmission(items, scope, NamespaceKey(namespace));
      if !made || !probes.typeChecks { return false; }
      made := Create(NamespaceKey(namespace), "namespace");
      if !made || !probes.dryRunsPass { return false; }
      made := Create(ClaimKey(namespace, claim), "claim");
      return made && probes.claimPends && probes.denialsSeen;
    }

    /**
     A qualification run. Whatever fails, only objects with this run's ID are deleted, a receipt means that each
     name was seen absent after the last deletion and none of the run's objects is left, and an undisturbed cluster
     ends exactly as it was whenever the cleanup succeeds, which it does when calls are reliable. A receipt also means
     that every probe passed; with nobody else at work and no failing calls it is issued exactly then.
     */
    method Qualify(items: seq<Key>, namespace: string, claim: string, identityMatches: bool, dryRunPasses: bool,
                   probes: Probes)
      returns (r: Outcome)
      requires Honest()
      requires forall k :: k in items ==> k.PolicyKey? || k.BindingKey?
      modifies this
      ensures Honest() && old(deletions) <= deletions
      ensures r.Refused? ==> deletions == old(deletions) && (respectful ==> Mine() == old(Mine()))
      ensures r == Qualified || r == ProbesFailed(true)
              ==> (respectful ==> NoneMine(Scope(PolicyNames(items), BindingNames(items), namespace)))
                  && Swept(Scope(PolicyNames(items), BindingNames(items), namespace))
      ensures quiet && old(Placed(objects))
              ==> Grown(objects, old(objects), Scope(PolicyNames(items), BindingNames(items), namespace),
                        NamespaceKey(namespace), id)
      ensures quiet && old(Placed(objects)) && (r == Qualified || r == ProbesFailed(true) || r == Refused)
              ==> objects == old(objects)
      ensures quiet && r == Qualified ==> old(Absent(Scope(PolicyNames(items), BindingNames(items), namespace)))
      ensures quiet && reliable && guard.binding in BindingKeys(BindingNames(items))
              ==> r == Refused || r == ProbesFailed(true) || r == Qualified
      ensures r == Qualified ==> identityMatches && dryRunPasses && probes.Pass()
      ensures r != Refused ==> identityMatches && dryRunPasses && |PolicyNames(items)| == |BindingNames(items)| == 10
      ensures quiet && reliable && guard.binding in BindingKeys(BindingNames(items)) && Distinct(items)
              && old(Placed(objects))
              ==> var ready := && |PolicyNames(items)| == |BindingNames(items)| == 10 && identityMatches && dryRunPasses
                               && old(Absent(Scope(PolicyNames(items), BindingNames(items), namespace)));
                  r == if !ready then Refused else if probes.Pass() then Qualified else ProbesFailed(true)
    {
      var policies, bindings := PolicyNames(items), BindingNames(items);
      if |policies| != 10 || |bindings| != 10 || !identityMatches { return Refused; }
      var scope := Scope(policies, bindings, namespace);
      var vacant := ConfirmAbsent(scope);
      if !vacant || !dryRunPasses { return Refused; }
      ghost var was := objects;
      NamesCover(items, namespace);
      var passed := Install(items, namespace, claim, probes, scope);
      ghost var mid := objects;
      assert quiet ==> AllOwned(scope);
      var cleaned := Cleanup(policies, bindings, namespace);
      if quiet && Placed(was) { Restored(objects, mid, was, scope, NamespaceKey(namespace), id); }
      r := if !passed then ProbesFailed(cleaned) else if cleaned then Qualified else CleanupFailed;
    }

    /** Recovery after an interrupted run: the identity check, then the same cleanup. */
    method RecoverCleanup(items: seq<Key>, namespace: string, identityMatches: bool) returns (absent: bool)
      requires Honest()
      modifies this
      ensures Honest() && old(deletions) <= deletions
      ensures !identityMatches ==> !absent && deletions == old(deletions) && objects == old(objects)
      ensures absent ==> (respectful ==> NoneMine(Scope(PolicyNames(items), BindingNames(items), namespace)))
                         && Swept(Scope(PolicyNames(items), BindingNames(items), namespace))
      ensures quiet ==> Remains(objects, old(objects)) && Spares(objects, old(objects), id)
      ensures quiet && absent ==> Absent(Scope(PolicyNames(items), BindingNames(items), namespace))
      ensures quiet && reliable && identityMatches && guard.binding in BindingKeys(BindingNames(items))
              ==> (absent <==> old(AllOwned(Scope(PolicyNames(items), BindingNames(items), namespace))))
    {
      if !identityMatches { return false; }
      absent := Cleanup(PolicyNames(items), BindingNames(items), namespace);
    }
  }
}
