/** What holds along every run of admitted requests, and which states runs can reach. */
module AdmissionRuns {
  import opened Basics
  import opened Admission

  // ----- What never changes -----

  /** A name whose object is under the rules for signed items or prerequisites, not a pod or the namespace. */
  predicate Managed(n: Name) {
    n.kind != Text("Pod") && n.kind != Text("Namespace")
  }

  /** Only pods can disappear. */
  lemma {:induction false} OnlyPodsDisappear(c: Contract, s: State, requests: seq<Request>, n: Name)
    requires n in s && n.kind != Text("Pod")
    ensures n in Run(c, s, requests)
    decreases |requests|
  {
    if requests != [] { OnlyPodsDisappear(c, Step(c, s, requests[0]), requests[1..], n); }
  }

  /** A signed object keeps its specification, up to Python's equality. */
  lemma {:induction false} SpecsAreFrozen(c: Contract, s: State, requests: seq<Request>, n: Name)
    requires n in s && Managed(n) && Signed(c.items, n.kind, n.name).Some?
    ensures n in Run(c, s, requests) && Norm(Spec(Run(c, s, requests)[n])) == Norm(Spec(s[n]))
    decreases |requests|
  {
    if requests != [] {
      NormGet(s[n], "spec");
      NormGet(requests[0].v, "spec");
      SpecsAreFrozen(c, Step(c, s, requests[0]), requests[1..], n);
    }
  }

  /** An external ConfigMap or Secret keeps its data, up to Python's equality. */
  lemma {:induction false} DataIsFrozen(c: Contract, s: State, requests: seq<Request>, n: Name)
    requires n in s && n.kind in HELD && Signed(c.items, n.kind, n.name).None?
    ensures n in Run(c, s, requests) && Norm(Get(Run(c, s, requests)[n], "data")) == Norm(Get(s[n], "data"))
    decreases |requests|
  {
    if requests != [] {
      NormGet(s[n], "data");
      NormGet(requests[0].v, "data");
      DataIsFrozen(c, Step(c, s, requests[0]), requests[1..], n);
    }
  }

  function VolumeOf(v: Value): Value {
    Volume(Norm(v))
  }

  lemma VolumeStep(c: Contract, s: State, q: Request, n: Name)
    requires n in s && n.kind == CLAIM && Signed(c.items, n.kind, n.name).None?
    ensures n in Step(c, s, q)
    ensures VolumeOf(Step(c, s, q)[n]) == VolumeOf(s[n])
            || (!Truthy(VolumeOf(s[n])) && Truthy(VolumeOf(Step(c, s, q)[n])))
  {
  }

  /** A claim's volume changes only from unset to set. */
  lemma {:induction false} VolumeIsSetOnce(c: Contract, s: State, requests: seq<Request>, n: Name)
    requires n in s && n.kind == CLAIM && Signed(c.items, n.kind, n.name).None?
    ensures n in Run(c, s, requests)
    ensures VolumeOf(Run(c, s, requests)[n]) == VolumeOf(s[n])
            || (!Truthy(VolumeOf(s[n])) && Truthy(VolumeOf(Run(c, s, requests)[n])))
    decreases |requests|
  {
    if requests != [] {
      VolumeStep(c, s, requests[0], n);
      VolumeIsSetOnce(c, Step(c, s, requests[0]), requests[1..], n);
    }
  }

  lemma {:induction false} RunSplits(c: Contract, s: State, first: seq<Request>, second: seq<Request>)
    ensures Run(c, s, first + second) == Run(c, Run(c, s, first), second)
    decreases |first|
  {
    if first == [] {
      assert first + second == second;
    } else {
      assert (first + second)[1..] == first[1..] + second;
      RunSplits(c, Step(c, s, first[0]), first[1..], second);
    }
  }

  /** So along a whole run it changes at most once. */
  lemma VolumeChangesAtMostOnce(c: Contract, s: State, first: seq<Request>, second: seq<Request>, n: Name)
    requires n in s && n.kind == CLAIM && Signed(c.items, n.kind, n.name).None?
    requires n in Run(c, s, first) && VolumeOf(Run(c, s, first)[n]) != VolumeOf(s[n])
    ensures n in Run(c, s, first + second)
    ensures VolumeOf(Run(c, s, first + second)[n]) == VolumeOf(Run(c, s, first)[n])
  {
    RunSplits(c, s, first, second);
    VolumeIsSetOnce(c, s, first, n);
    VolumeIsSetOnce(c, Run(c, s, first), second, n);
  }

  // ----- Which states can be reached -----

  /** Every signed item belongs to the workload namespace. */
  ghost predicate InNamespace(c: Contract) {
    forall item :: item in c.items ==> Get(Metadata(Norm(item)), "namespace") == Text(c.namespace)
  }

  lemma {:induction false} SignedIsListed(items: seq<Value>, kind: Value, name: Value)
    ensures var r := Signed(items, kind, name);
            r.Some? ==> Kind(r.value) == kind && Get(Metadata(r.value), "name") == name
                        && exists item :: item in items && r.value == Norm(item)
  {
    if items != [] {
      assert items[|items| - 1] in items;
      SignedIsListed(items[..|items| - 1], kind, name);
    }
  }

  /** A ConfigMap or Secret as it must have been created. */
  function HeldOrigin(v: Value, p: Prerequisite): Value
    requires v.Fields?
  {
    var m := v.entries["immutable" := Flag(true)]["type" := p.secretType];
    Fields(if Get(v, "data").Null? then m - {"data"} else m)
  }

  /** A claim as it must have been created. */
  function ClaimOrigin(v: Value): Value
    requires v.Fields? && Spec(v).Fields?
  {
    Fields(v.entries["spec" := Dropped(Spec(v))])
  }

  /** The object from which an update yields `v`. */
  function Origin(c: Contract, v: Value): Value
    requires Fits(c, Norm(v))
  {
    var n := Address(v);
    if !Managed(n) then v
    else if Signed(c.items, n.kind, n.name).Some? then Signed(c.items, n.kind, n.name).value
    else if n.kind in HELD then HeldOrigin(v, Required(c.objects, n).value)
    else NormGet(v, "spec"); ClaimOrigin(v)
  }

  lemma HeldFields(v: Value, p: Prerequisite)
    requires v.Fields?
    ensures var u := HeldOrigin(v, p);
            && Get(u, "kind") == Get(v, "kind") && Get(u, "metadata") == Get(v, "metadata") &&
               Get(u, "data") == Get(v, "data")
            && Get(u, "immutable") == Flag(true) && Has(u, "type") && Get(u, "type") == p.secretType
            && (Has(u, "data") <==> !Get(v, "data").Null?)
  {
  }

  lemma HeldStarts(v: Value, p: Prerequisite)
    requires v.Fields? && HeldFits(Norm(v), p)
    ensures Address(HeldOrigin(v, p)) == Address(v)
    ensures Get(Norm(HeldOrigin(v, p)), "data") == Get(Norm(v), "data")
    ensures HeldCreate(Norm(HeldOrigin(v, p)), p, true) && Get(HeldOrigin(v, p), "immutable") == Flag(true)
  {
    HeldFields(v, p);
    OriginCreates(v, HeldOrigin(v, p), p);
  }

  lemma OriginCreates(v: Value, u: Value, p: Prerequisite)
    requires HeldFits(Norm(v), p) && Has(u, "type") && Get(u, "type") == p.secretType
    requires Get(u, "kind") == Get(v, "kind") && Get(u, "metadata") == Get(v, "metadata") &&
             Get(u, "data") == Get(v, "data")
    requires Has(u, "data") <==> !Get(v, "data").Null?
    ensures Address(u) == Address(v) && Get(Norm(u), "data") == Get(Norm(v), "data") && HeldCreate(Norm(u), p, true)
  {
    SameParts(v, u, "data");
    NormGet(u, "type");
    NormGet(v, "data");
    NormGet(u, "data");
    DataKept(Norm(v), Norm(u), p);
  }

  lemma DataKept(v: Value, u: Value, p: Prerequisite)
    requires HeldFits(v, p) && Get(u, "data") == Get(v, "data") && (Has(u, "data") <==> !Get(v, "data").Null?)
    ensures HeldKeys(u, p)
  {
    NoNames(p);
  }

  /** Documents that agree in kind, metadata and one more field. */
  lemma SameParts(v: Value, u: Value, key: string)
    requires Get(u, "kind") == Get(v, "kind") && Get(u, "metadata") == Get(v, "metadata") && Get(u, key) == Get(v, key)
    ensures Address(u) == Address(v) && Get(Norm(u), key) == Get(Norm(v), key)
  {
    NormGet(u, "kind");
    NormGet(v, "kind");
    NormGet(u, "metadata");
    NormGet(v, "metadata");
    NormGet(u, key);
    NormGet(v, key);
  }

  /** A specification without the fields a new claim must not have. */
  function Dropped(spec: Value): Value
    requires spec.Fields?
  {
    Fields(spec.entries - {"dataSource", "dataSourceRef", "volumeName"})
  }

  lemma DroppedAt(spec: Value, key: string)
    requires spec.Fields?
    ensures key !in {"dataSource", "dataSourceRef", "volumeName"} ==>
            Get(Norm(Dropped(spec)), key) == Get(Norm(spec), key)
    ensures key in {"dataSource", "dataSourceRef", "volumeName"} ==> !Has(Norm(Dropped(spec)), key)
  {
    NormGet(spec, key);
    NormGet(Dropped(spec), key);
  }

  lemma DroppedStable(spec: Value, i: nat)
    requires spec.Fields? && Get(Norm(spec), "dataSource") == Null && Get(Norm(spec), "dataSourceRef") == Null
    requires i < |STABLE|
    ensures Get(Norm(spec), STABLE[i]) == Get(Norm(Dropped(spec)), STABLE[i])
  {
    assert STABLE[i] != "volumeName";
    DroppedAt(spec, STABLE[i]);
  }

  lemma DroppedCreates(u: Value, v: Value, spec: Value)
    requires spec.Fields? && Spec(v) == Norm(spec) && Spec(u) == Norm(Dropped(spec)) && ClaimFits(v)
    ensures ClaimCreate(u) && Volume(u) == Text("")
  {
    DroppedAt(spec, "accessModes");
    DroppedAt(spec, "resources");
    DroppedAt(spec, "dataSource");
    DroppedAt(spec, "dataSourceRef");
    DroppedAt(spec, "volumeName");
  }

  lemma DroppedUpdates(u: Value, v: Value, spec: Value)
    requires spec.Fields? && Spec(v) == Norm(spec) && Spec(u) == Norm(Dropped(spec)) && ClaimFits(v)
    requires Volume(u) == Text("")
    ensures ClaimUpdate(v, u)
  {
    forall i | 0 <= i < |STABLE| ensures Get(Spec(v), STABLE[i]) == Get(Spec(u), STABLE[i]) { DroppedStable(spec, i); }
  }

  lemma ClaimStarts(v: Value)
    requires v.Fields? && Spec(v).Fields? && ClaimFits(Norm(v))
    ensures Address(ClaimOrigin(v)) == Address(v)
    ensures ClaimCreate(Norm(ClaimOrigin(v))) && ClaimUpdate(Norm(v), Norm(ClaimOrigin(v)))
  {
    var u := ClaimOrigin(v);
    SameParts(v, u, "kind");
    NormGet(u, "spec");
    NormGet(v, "spec");
    DroppedCreates(Norm(u), Norm(v), Spec(v));
    DroppedUpdates(Norm(u), Norm(v), Spec(v));
  }

  /** Two requests bring about any fitting object: its creation and one update. */
  lemma FittingIsReachable(c: Contract, v: Value)
    requires InNamespace(c) && Fits(c, Norm(v))
    ensures Address(Origin(c, v)) == Address(v)
    ensures Allows(c, Create, Origin(c, v)) && Allows(c, Update(Origin(c, v)), v)
  {
    var n := Address(v);
    if Managed(n) {
      var signed := Signed(c.items, n.kind, n.name);
      NormGet(v, "spec");
      if signed.Some? {
        SignedIsListed(c.items, n.kind, n.name);
        var item :| item in c.items && signed.value == Norm(item);
        NormTwice(item);
        assert NameOf(signed.value) == n;
      } else if n.kind in HELD {
        HeldStarts(v, Required(c.objects, n).value);
      } else {
        ClaimStarts(v);
      }
    }
  }

  ghost predicate Reachable(c: Contract, s: State) {
    Reaches(c, map[], s)
  }

  lemma RunOfTwo(c: Contract, s: State, first: Request, second: Request)
    ensures Run(c, s, [first, second]) == Step(c, Step(c, s, first), second)
  {
    var made := Step(c, s, first);
    assert [first, second][1..] == [second] && [second][1..] == [];
    assert Run(c, made, [second]) == Step(c, made, second);
  }

  lemma ObjectAdded(c: Contract, s: State, v: Value) returns (requests: seq<Request>)
    requires InNamespace(c) && Fits(c, Norm(v)) && Address(v) !in s
    ensures Run(c, s, requests) == s[Address(v) := v]
  {
    var n, u := Address(v), Origin(c, v);
    FittingIsReachable(c, v);
    requests := [CreateRequest(u), UpdateRequest(v)];
    RunOfTwo(c, s, CreateRequest(u), UpdateRequest(v));
    var made := s[n := u];
    assert Step(c, s, CreateRequest(u)) == made;
    assert made[n] == u && made[n := v] == s[n := v];
  }

  /** Requests bring about this object in every state that lacks its name. */
  ghost predicate Makeable(c: Contract, n: Name, v: Value) {
    forall s: State :: n !in s ==> Reaches(c, s, s[n := v])
  }

  ghost predicate Reaches(c: Contract, s: State, t: State) {
    exists requests :: Run(c, s, requests) == t
  }

  lemma FittingIsMakeable(c: Contract, v: Value)
    requires InNamespace(c) && Fits(c, Norm(v))
    ensures Makeable(c, Address(v), v)
  {
    forall s: State | Address(v) !in s ensures Reaches(c, s, s[Address(v) := v]) {
      var requests := ObjectAdded(c, s, v);
    }
  }

  lemma ReachesOn(c: Contract, r: State, s: State, t: State)
    requires Reaches(c, r, s) && Reaches(c, s, t)
    ensures Reaches(c, r, t)
  {
    var first :| Run(c, r, first) == s;
    var second :| Run(c, s, second) == t;
    RunSplits(c, r, first, second);
  }

  lemma {:induction false} MakeableIsReachable(c: Contract, s: State)
    requires forall n :: n in s ==> Makeable(c, n, s[n])
    ensures Reaches(c, map[], s)
    decreases |s|
  {
    if s == map[] {
      assert Run(c, map[], []) == s;
    } else {
      var n :| n in s;
      var rest := s - {n};
      assert s.Keys == rest.Keys + {n};
      MakeableIsReachable(c, rest);
      assert rest[n := s[n]] == s;
      assert Makeable(c, n, s[n]);
      ReachesOn(c, map[], rest, s);
    }
  }

  /**
   The states that runs reach from an empty cluster are exactly those in which every object has the shape `Fits`
   allows: nothing outside the signed inventory and the listed prerequisites, and nothing in them ruled out but what
   `Fits` rules out.
   */
  lemma ReachableExactly(c: Contract, s: State)
    requires InNamespace(c)
    ensures Reachable(c, s) <==> Inv(c, s)
  {
    if Reachable(c, s) {
      var requests :| Run(c, map[], requests) == s;
      RunKeeps(c, map[], requests);
    }
    if Inv(c, s) {
      forall n | n in s ensures Makeable(c, n, s[n]) { FittingIsMakeable(c, s[n]); }
      MakeableIsReachable(c, s);
    }
  }
}
