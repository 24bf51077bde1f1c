/** External egress CIDRs of `tools/kubernetes_deployment.py`: disjoint within a class and across the five classes. */
module EgressCidrs {
  import opened Basics
  import opened Bits

  datatype Version = V4 | V6
  datatype Address = Address(version: Version, value: nat)

  /** A parsed network; strict parsing leaves no host bits in the base address. */
  datatype Network = Network(version: Version, base: nat, prefix: nat)

  datatype Class = Speech | Provider | Identity | Database | Signer

  const CLASSES: seq<Class> := [Speech, Provider, Identity, Database, Signer]

  function Width(v: Version): nat {
    if v == V4 then 32 else 128
  }

  function Broadcast(n: Network): (last: nat)
    requires n.prefix <= Width(n.version)
    ensures last >= n.base
  {
    n.base + Pow2(Width(n.version) - n.prefix) - 1
  }

  predicate Contains(n: Network, a: Address) {
    n.prefix <= Width(n.version) && a.version == n.version && n.base <= a.value <= Broadcast(n)
  }

  /** The library's test: either network holds an end of the other. */
  predicate Overlaps(m: Network, n: Network)
    requires m.prefix <= Width(m.version) && n.prefix <= Width(n.version)
  {
    || Contains(n, Address(m.version, m.base)) || Contains(n, Address(m.version, Broadcast(m)))
    || Contains(m, Address(n.version, n.base)) || Contains(m, Address(n.version, Broadcast(n)))
  }

  /** Testing the four ends decides whether any address at all is shared. */
  lemma OverlapIsSharedAddress(m: Network, n: Network)
    requires m.prefix <= Width(m.version) && n.prefix <= Width(n.version)
    ensures Overlaps(m, n) <==> exists a :: Contains(m, a) && Contains(n, a)
  {
    if Overlaps(m, n) {
      var a := if n.base <= m.base then Address(m.version, m.base) else Address(n.version, n.base);
      assert Contains(m, a) && Contains(n, a);
    }
    if a :| Contains(m, a) && Contains(n, a) {
      assert Overlaps(m, n);
    }
  }

  /** What the parser of one CIDR string yields, or nothing if it is malformed or unsafe. */
  type Parser = string -> Option<Network>

  predicate Narrow(n: Network) {
    n.prefix <= Width(n.version) && n.prefix >= if n.version == V4 then 8 else 32
  }

  ghost predicate Disjoint(networks: seq<Network>) {
    forall i, j, a :: 0 <= i < j < |networks| && Contains(networks[i], a) ==> !Contains(networks[j], a)
  }

  ghost predicate AllNarrow(networks: seq<Network>) {
    forall i :: 0 <= i < |networks| ==> Narrow(networks[i])
  }

  method OverlapsAny(n: Network, networks: seq<Network>) returns (found: bool)
    requires Narrow(n) && AllNarrow(networks)
    ensures found <==> exists i, a :: 0 <= i < |networks| && Contains(networks[i], a) && Contains(n, a)
  {
    for i := 0 to |networks|
      invariant forall j, a :: 0 <= j < i && Contains(networks[j], a) ==> !Contains(n, a)
    {
      OverlapIsSharedAddress(n, networks[i]);
      if Overlaps(n, networks[i]) {
        ghost var a :| Contains(n, a) && Contains(networks[i], a);
        return true;
      }
    }
    return false;
  }

  lemma DisjointSnoc(networks: seq<Network>, n: Network)
    requires Disjoint(networks)
    ensures Disjoint(networks + [n]) <==>
            !exists i, a :: 0 <= i < |networks| && Contains(networks[i], a) && Contains(n, a)
  {
    var all := networks + [n];
    if Disjoint(all) {
      forall i, a | 0 <= i < |networks| && Contains(networks[i], a) ensures !Contains(n, a) {
        assert all[i] == networks[i] && all[|networks|] == n;
      }
    }
  }

  lemma DisjointPrefix(networks: seq<Network>, k: nat)
    requires k <= |networks| && Disjoint(networks)
    ensures Disjoint(networks[..k])
  {
    forall i, j, a | 0 <= i < j < k && Contains(networks[..k][i], a) ensures !Contains(networks[..k][j], a) {
      assert networks[..k][i] == networks[i] && networks[..k][j] == networks[j];
    }
  }

  function Parsed(parse: Parser, raw: seq<string>): (r: Option<seq<Network>>)
    ensures r.Some? ==> |r.value| == |raw| && AllNarrow(r.value)
  {
    if raw == [] then Some([])
    else
      match (Parsed(parse, raw[..|raw| - 1]), parse(raw[|raw| - 1]))
      case (Some(front), Some(n)) => if Narrow(n) then Some(front + [n]) else None
      case _ => None
  }

  predicate InOrder(raw: seq<string>) {
    forall i, j :: 0 <= i < j < |raw| ==> !Less(raw[j], raw[i])
  }

  /** What is asked of one class. */
  ghost predicate ClassValid(parse: Parser, raw: seq<string>) {
    1 <= |raw| <= 32 && Parsed(parse, raw).Some? && Disjoint(Parsed(parse, raw).value) && InOrder(raw)
  }

  /** One class of CIDRs: 1 to 32 well-formed narrow networks in order, no two of which share an address. */
  method Cidrs(parse: Parser, raw: seq<string>) returns (r: Option<seq<Network>>)
    ensures r.Some? <==> ClassValid(parse, raw)
    ensures r.Some? ==> r == Parsed(parse, raw)
  {
    if !(1 <= |raw| <= 32) { return None; }
    var networks: seq<Network> := [];
    for i := 0 to |raw|
      invariant Parsed(parse, raw[..i]) == Some(networks) && Disjoint(networks) && AllNarrow(networks)
    {
      assert raw[..i + 1][..i] == raw[..i];
      var n := parse(raw[i]);
      if n.None? || !Narrow(n.value) {
        ParsedPrefix(parse, raw, i + 1);
        return None;
      }
      var found := OverlapsAny(n.value, networks);
      DisjointSnoc(networks, n.value);
      if found {
        ParsedPrefix(parse, raw, i + 1);
        if Parsed(parse, raw).Some? && Disjoint(Parsed(parse, raw).value) {
          DisjointPrefix(Parsed(parse, raw).value, i + 1);
        }
        return None;
      }
      networks := networks + [n.value];
    }
    assert raw[..|raw|] == raw;
    if !InOrder(raw) { return None; }
    return Some(networks);
  }

  lemma {:induction false} ParsedPrefix(parse: Parser, raw: seq<string>, k: nat)
    requires k <= |raw|
    ensures Parsed(parse, raw).Some? ==> Parsed(parse, raw[..k]) == Some(Parsed(parse, raw).value[..k])
    decreases |raw|
  {
    if k == |raw| {
      assert raw[..k] == raw;
      if Parsed(parse, raw).Some? { assert Parsed(parse, raw).value[..k] == Parsed(parse, raw).value; }
    } else {
      var front := raw[..|raw| - 1];
      ParsedPrefix(parse, front, k);
      assert front[..k] == raw[..k];
      if Parsed(parse, raw).Some? {
        assert Parsed(parse, raw).value[..k] == Parsed(parse, front).value[..k];
      }
    }
  }

  // ---- Across classes.

  function Flatten(external: map<Class, seq<Network>>, k: nat): (r: seq<Network>)
    requires k <= |CLASSES| && forall c: Class :: c in external
  {
    if k == 0 then [] else Flatten(external, k - 1) + external[CLASSES[k - 1]]
  }

  /** The source's pass over all classes: each network is compared with every one classified before it. */
  method CheckClasses(external: map<Class, seq<Network>>) returns (ok: bool)
    requires forall c: Class :: c in external && AllNarrow(external[c])
    ensures ok <==> Disjoint(Flatten(external, |CLASSES|))
  {
    var classified: seq<Network> := [];
    for k := 0 to |CLASSES|
      invariant classified == Flatten(external, k) && Disjoint(classified) && AllNarrow(classified)
    {
      var networks := external[CLASSES[k]];
      for i := 0 to |networks|
        invariant classified == Flatten(external, k) + networks[..i] && Disjoint(classified) && AllNarrow(classified)
      {
        var found := OverlapsAny(networks[i], classified);
        DisjointSnoc(classified, networks[i]);
        assert Flatten(external, k) + networks[..i + 1] == classified + [networks[i]];
        if found {
          FlattenPrefix(external, k, i + 1);
          return false;
        }
        classified := classified + [networks[i]];
      }
      assert networks[..|networks|] == networks;
    }
    return true;
  }

  lemma FlattenPrefix(external: map<Class, seq<Network>>, k: nat, i: nat)
    requires forall c: Class :: c in external
    requires k < |CLASSES| && i <= |external[CLASSES[k]]|
    ensures |Flatten(external, k)| + i <= |Flatten(external, |CLASSES|)|
    ensures Flatten(external, |CLASSES|)[..|Flatten(external, k)| + i] ==
            Flatten(external, k) + external[CLASSES[k]][..i]
  {
    FlattenGrows(external, k + 1, |CLASSES|);
  }

  lemma {:induction false} FlattenGrows(external: map<Class, seq<Network>>, k: nat, n: nat)
    requires k <= n <= |CLASSES| && forall c: Class :: c in external
    ensures |Flatten(external, k)| <= |Flatten(external, n)|
    ensures Flatten(external, n)[..|Flatten(external, k)|] == Flatten(external, k)
    decreases n - k
  {
    if k < n { FlattenGrows(external, k, n - 1); }
  }

  ghost predicate ClassesValid(parse: Parser, raw: map<Class, seq<string>>) {
    forall c: Class :: c in raw && ClassValid(parse, raw[c])
  }

  ghost function ParsedClasses(parse: Parser, raw: map<Class, seq<string>>): (r: map<Class, seq<Network>>)
    requires ClassesValid(parse, raw)
  {
    map c | c in raw :: Parsed(parse, raw[c]).value
  }

  lemma EveryClassListed(c: Class)
    ensures c in CLASSES
  {
    assert CLASSES[0] == Speech && CLASSES[1] == Provider && CLASSES[2] == Identity && CLASSES[3] == Database;
    assert CLASSES[4] == Signer;
  }

  lemma AllParsed(parse: Parser, raw: map<Class, seq<string>>, external: map<Class, seq<Network>>)
    requires forall c :: c in external <==> c in CLASSES[..|CLASSES|]
    requires forall c :: c in external ==> c in raw && ClassValid(parse, raw[c])
    requires forall c :: c in external ==> Parsed(parse, raw[c]) == Some(external[c])
    ensures (forall c: Class :: c in external && AllNarrow(external[c]))
    ensures ClassesValid(parse, raw) && external == ParsedClasses(parse, raw)
  {
    forall c: Class ensures c in external && AllNarrow(external[c]) { EveryClassListed(c); }
  }

  /** The external-egress part of profile validation: every class in itself, then all of them together. */
  method ValidateExternal(parse: Parser, raw: map<Class, seq<string>>) returns (r: Option<map<Class, seq<Network>>>)
    ensures r.Some? <==>
            ClassesValid(parse, raw) && Disjoint(Flatten(ParsedClasses(parse, raw), |CLASSES|))
    ensures r.Some? ==> r.value == ParsedClasses(parse, raw) && forall c: Class :: AllNarrow(r.value[c])
  {
    var external: map<Class, seq<Network>> := map[];
    for k := 0 to |CLASSES|
      invariant forall c :: c in external <==> c in CLASSES[..k]
      invariant forall c :: c in external ==> c in raw && ClassValid(parse, raw[c])
      invariant forall c :: c in external ==> Parsed(parse, raw[c]) == Some(external[c])
    {
      if CLASSES[k] !in raw { return None; }
      var networks := Cidrs(parse, raw[CLASSES[k]]);
      if networks.None? { return None; }
      external := external[CLASSES[k] := networks.value];
    }
    AllParsed(parse, raw, external);
    var ok := CheckClasses(external);
    if !ok { return None; }
    return Some(external);
  }

  predicate InClass(external: map<Class, seq<Network>>, c: Class, a: Address) {
    c in external && exists i :: 0 <= i < |external[c]| && Contains(external[c][i], a)
  }

  lemma {:induction false} FlattenHolds(external: map<Class, seq<Network>>, k: nat, j: nat, i: nat) returns (at: nat)
    requires j < k <= |CLASSES| && (forall c: Class :: c in external) && i < |external[CLASSES[j]]|
    ensures at == |Flatten(external, j)| + i < |Flatten(external, j + 1)| <= |Flatten(external, k)|
    ensures Flatten(external, k)[at] == external[CLASSES[j]][i]
  {
    at := |Flatten(external, j)| + i;
    FlattenGrows(external, j + 1, k);
    assert Flatten(external, k)[at] == Flatten(external, k)[..|Flatten(external, j + 1)|][at];
  }

  lemma AddressHasOneClass(external: map<Class, seq<Network>>, a: Address, j: nat, k: nat)
    requires (forall c: Class :: c in external) && Disjoint(Flatten(external, |CLASSES|))
    requires j < k < |CLASSES|
    ensures !(InClass(external, CLASSES[j], a) && InClass(external, CLASSES[k], a))
  {
    if InClass(external, CLASSES[j], a) && InClass(external, CLASSES[k], a) {
      var x :| 0 <= x < |external[CLASSES[j]]| && Contains(external[CLASSES[j]][x], a);
      var y :| 0 <= y < |external[CLASSES[k]]| && Contains(external[CLASSES[k]][y], a);
      var p := FlattenHolds(external, |CLASSES|, j, x);
      var q := FlattenHolds(external, |CLASSES|, k, y);
      FlattenGrows(external, j + 1, k);
    }
  }

  lemma ClassIsDisjoint(external: map<Class, seq<Network>>, j: nat)
    requires (forall c: Class :: c in external) && Disjoint(Flatten(external, |CLASSES|)) && j < |CLASSES|
    ensures Disjoint(external[CLASSES[j]])
  {
    var own := external[CLASSES[j]];
    forall x, y, a | 0 <= x < y < |own| && Contains(own[x], a) ensures !Contains(own[y], a) {
      var p := FlattenHolds(external, |CLASSES|, j, x);
      var q := FlattenHolds(external, |CLASSES|, j, y);
    }
  }

  /** Where an entry of the flattened list comes from. */
  lemma {:induction false} FlattenSource(external: map<Class, seq<Network>>, k: nat, at: nat) returns (j: nat, i: nat)
    requires k <= |CLASSES| && (forall c: Class :: c in external) && at < |Flatten(external, k)|
    ensures j < k && i < |external[CLASSES[j]]| && at == |Flatten(external, j)| + i
    ensures Flatten(external, k)[at] == external[CLASSES[j]][i]
  {
    if at < |Flatten(external, k - 1)| {
      j, i := FlattenSource(external, k - 1, at);
    } else {
      j, i := k - 1, at - |Flatten(external, k - 1)|;
    }
  }

  /** Every class is free of overlaps, and no address belongs to two classes. */
  ghost predicate Apart(external: map<Class, seq<Network>>)
    requires forall c: Class :: c in external
  {
    && (forall c: Class :: Disjoint(external[c]))
    && forall c: Class, d: Class, a :: InClass(external, c, a) && InClass(external, d, a) ==> c == d
  }

  lemma ClassesDiffer(j: nat, k: nat)
    requires j < k < |CLASSES|
    ensures CLASSES[j] != CLASSES[k]
  {
  }

  lemma ApartIsDisjoint(external: map<Class, seq<Network>>)
    requires (forall c: Class :: c in external) && Apart(external)
    ensures Disjoint(Flatten(external, |CLASSES|))
  {
    var all := Flatten(external, |CLASSES|);
    forall p, q, a | 0 <= p < q < |all| && Contains(all[p], a) ensures !Contains(all[q], a) {
      var j, x := FlattenSource(external, |CLASSES|, p);
      var k, y := FlattenSource(external, |CLASSES|, q);
      if j < k {
        ClassesDiffer(j, k);
        assert InClass(external, CLASSES[j], a);
        assert Contains(all[q], a) ==> InClass(external, CLASSES[k], a);
      } else if k < j {
        FlattenGrows(external, k + 1, j);
      }
    }
  }

  /** The pass over all classes decides whether every class is free of overlaps and no address has two classes. */
  lemma ApartExactly(external: map<Class, seq<Network>>)
    requires forall c: Class :: c in external
    ensures Disjoint(Flatten(external, |CLASSES|)) <==> Apart(external)
  {
    if Apart(external) { ApartIsDisjoint(external); }
    if Disjoint(Flatten(external, |CLASSES|)) {
      forall c: Class ensures Disjoint(external[c]) {
        EveryClassListed(c);
        var j :| 0 <= j < |CLASSES| && CLASSES[j] == c;
        ClassIsDisjoint(external, j);
      }
      forall c: Class, d: Class, a | InClass(external, c, a) && InClass(external, d, a) ensures c == d {
        EveryClassListed(c);
        EveryClassListed(d);
        var j :| 0 <= j < |CLASSES| && CLASSES[j] == c;
        var k :| 0 <= k < |CLASSES| && CLASSES[k] == d;
        if j < k { AddressHasOneClass(external, a, j, k); }
        if k < j { AddressHasOneClass(external, a, k, j); }
      }
    }
  }

  /** The networks of a class, one for each string, no wider than /8 or /32. */
  lemma {:induction false} ParsedExactly(parse: Parser, raw: seq<string>, networks: seq<Network>)
    ensures Parsed(parse, raw) == Some(networks) <==>
            && |networks| == |raw|
            && forall i :: 0 <= i < |raw| ==> parse(raw[i]) == Some(networks[i]) && Safe(networks[i])
    decreases |raw|
  {
    if raw != [] && |networks| == |raw| {
      var n := |raw| - 1;
      ParsedExactly(parse, raw[..n], networks[..n]);
      assert networks[..n] + [networks[n]] == networks;
      if Parsed(parse, raw) == Some(networks) { assert networks[..n] == Parsed(parse, raw[..n]).value; }
    }
  }

  predicate Safe(n: Network) {
    match n.version
    case V4 => 8 <= n.prefix <= 32
    case V6 => 32 <= n.prefix <= 128
  }
}
