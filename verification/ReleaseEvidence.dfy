/**
 The evidence a product release needs, after `tools/product_release.py`: the policy's slots, the attestations that fill
 them, and the loop that collects them. Times are seconds.
 */
module ReleaseEvidence {
  import opened Basics

  const DAY: int := 86400
  const MAX_SEQUENCE: int := 2147483647

  const EVIDENCE_TYPES: seq<string> := [
    "agent_security_privacy", "alpha_fleet", "backend_supply_chain", "companion_apps", "device_soak_power_acoustic",
    "factory_boot_storage_onboarding", "firmware_supply_chain", "kubernetes_live_admission", "legal_market",
    "managed_postgresql_resilience", "ota_release_chain", "push_provider_delivery", "reset_resale_hardware",
    "speech_backup_adapter", "speech_primary_adapter"]

  /** The predecessor named by a genesis record. */
  function ZeroSha(): (s: string) {
    seq(64, _ => '0')
  }

  datatype Trust = Trust(kind: string, keyId: string, keySha: string, maxAge: int)

  datatype Policy = Policy(recordId: string, sequence: int, previousSha: string, subject: string, validFrom: int,
                           validUntil: int, required: seq<Trust>, signingKeyId: string, releaseKeySha: string)

  datatype Attestation = Attestation(kind: string, subject: string, production: bool, passed: bool, observed: int,
                                     validUntil: int, evidenceSha: string, keyId: string, signature: Bytes)

  /** What a record says about one piece of evidence. */
  datatype Summary = Summary(kind: string, attestationSha: string, evidenceSha: string, observed: int, validUntil: int,
                             keyId: string, keySha: string)

  datatype Record = Record(recordId: string, policySha: string, sequence: int, previousSha: string, subject: string,
                           issued: int, validUntil: int, evidence: seq<Summary>, signingKeyId: string,
                           signature: Bytes)

  /** `keys` and `objects` are the public key and the detailed evidence object supplied for each type. */
  datatype World = World(
    sha: Bytes -> string,
    attestation: Bytes -> Option<Attestation>,
    policy: Bytes -> Option<Policy>,
    record: Bytes -> Option<Record>,
    encodeRecord: Record -> Bytes,
    keys: string -> Bytes,
    objects: string -> Bytes,
    releaseKey: Bytes,
    fingerprint: Bytes -> string,
    attested: (Bytes, Attestation) -> bool,
    sealed: (Bytes, Record) -> bool)

  ghost predicate CollisionFree(w: World) {
    forall a, b :: w.sha(a) == w.sha(b) ==> a == b
  }

  // ---- Policies.

  predicate PolicyValid(types: seq<string>, p: Policy) {
    && 1 <= p.sequence <= MAX_SEQUENCE
    && (p.sequence == 1 <==> p.previousSha == ZeroSha())
    && p.validFrom < p.validUntil <= p.validFrom + 90 * DAY
    && SlotsValid(types, p.required)
  }

  /** One slot for each evidence type, in the fixed order. */
  predicate SlotsValid(types: seq<string>, required: seq<Trust>) {
    |required| == |types| &&
    forall i :: 0 <= i < |types| ==> required[i].kind == types[i] && 3600 <= required[i].maxAge <= 180 * DAY
  }

  /** The trust index: the slot under a type. */
  function Slot(required: seq<Trust>, kind: string): (t: Option<Trust>)
    ensures t.Some? ==> t.value in required && t.value.kind == kind
    ensures t.None? ==> forall i :: 0 <= i < |required| ==> required[i].kind != kind
  {
    if required == [] then None
    else if required[|required| - 1].kind == kind then Some(required[|required| - 1])
    else Slot(required[..|required| - 1], kind)
  }

  predicate Unique(types: seq<string>) {
    forall i, j :: 0 <= i < j < |types| ==> types[i] != types[j]
  }

  lemma SlotAt(types: seq<string>, required: seq<Trust>, i: nat)
    requires SlotsValid(types, required) && Unique(types) && i < |types|
    ensures Slot(required, types[i]) == Some(required[i])
  {
    var t := Slot(required, types[i]);
    if t.Some? {
      var k :| 0 <= k < |required| && required[k] == t.value;
      assert types[k] == types[i];
    }
  }

  // ---- Attestations.

  predicate AttestationValid(w: World, p: Policy, t: Trust, a: Attestation) {
    && a.kind == t.kind && a.subject == p.subject && a.production && a.passed
    && a.observed <= p.validFrom <= a.observed + t.maxAge
    && p.validUntil <= a.validUntil
    && a.keyId == t.keyId && w.fingerprint(w.keys(a.kind)) == t.keySha && w.attested(w.keys(a.kind), a)
    && w.sha(w.objects(a.kind)) == a.evidenceSha
  }

  /** The document is a valid attestation for its slot. */
  predicate Fills(w: World, p: Policy, a: Attestation) {
    Slot(p.required, a.kind).Some? && AttestationValid(w, p, Slot(p.required, a.kind).value, a)
  }

  type Reader = Bytes -> Option<Attestation>
  type Judge = Attestation -> bool

  predicate Attests(read: Reader, fills: Judge, types: seq<string>, data: Bytes) {
    read(data).Some? && read(data).value.kind in types && fills(read(data).value)
  }

  function KindOf(read: Reader, data: Bytes): (k: Option<string>) {
    if read(data).Some? then Some(read(data).value.kind) else None
  }

  /** One valid attestation for each type, in any order. */
  ghost predicate CompleteSet(read: Reader, fills: Judge, types: seq<string>, data: seq<Bytes>) {
    && |data| == |types|
    && (forall i :: 0 <= i < |data| ==> Attests(read, fills, types, data[i]))
    && (forall i, j :: 0 <= i < j < |data| ==> KindOf(read, data[i]) != KindOf(read, data[j]))
  }

  /** The attestation file of a type. */
  function FileOf(read: Reader, data: seq<Bytes>, kind: string): (r: Option<Bytes>)
    ensures r.Some? ==> r.value in data && KindOf(read, r.value) == Some(kind)
    ensures r.None? ==> forall i :: 0 <= i < |data| ==> KindOf(read, data[i]) != Some(kind)
  {
    if data == [] then None
    else if KindOf(read, data[|data| - 1]) == Some(kind) then Some(data[|data| - 1])
    else FileOf(read, data[..|data| - 1], kind)
  }

  function Kinds(types: seq<string>): (s: set<string>) {
    set k | k in types
  }

  lemma {:induction false} KindsBounded(types: seq<string>)
    ensures |Kinds(types)| <= |types|
  {
    if types != [] {
      var n := |types| - 1;
      KindsBounded(types[..n]);
      assert Kinds(types) == Kinds(types[..n]) + {types[n]};
    }
  }

  lemma FullSubset<T>(a: set<T>, b: set<T>)
    requires a <= b && |b| <= |a|
    ensures a == b
  {
    if a != b {
      var x :| x in b && x !in a;
      SubsetSize(a, b - {x});
    }
  }

  lemma {:induction false} SubsetSize<T>(a: set<T>, b: set<T>)
    requires a <= b
    ensures |a| <= |b|
    decreases a
  {
    if a != {} {
      var x :| x in a;
      SubsetSize(a - {x}, b - {x});
    }
  }

  // ---- The collecting loop.

  /** The dictionary of raw attestations after the first `n` files. */
  ghost predicate Collected(read: Reader, fills: Judge, types: seq<string>, data: seq<Bytes>, n: nat,
                            raws: map<string, Bytes>)
  {
    && n <= |data| && |raws| == n && Differ(read, data, n)
    && (forall j :: 0 <= j < n ==> Attests(read, fills, types, data[j]) && Kept(read, raws, data[j]))
    && (forall k :: k in raws ==> Filed(read, types, data[..n], k, raws[k]))
  }

  predicate Kept(read: Reader, raws: map<string, Bytes>, file: Bytes) {
    read(file).Some? && read(file).value.kind in raws && raws[read(file).value.kind] == file
  }

  predicate Filed(read: Reader, types: seq<string>, files: seq<Bytes>, kind: string, file: Bytes) {
    kind in types && FileOf(read, files, kind) == Some(file)
  }

  /** The first `n` files have different kinds. */
  ghost predicate Differ(read: Reader, data: seq<Bytes>, n: nat)
    requires n <= |data|
  {
    forall j, k :: 0 <= j < k < n ==> KindOf(read, data[j]) != KindOf(read, data[k])
  }

  lemma DifferSnoc(read: Reader, data: seq<Bytes>, n: nat)
    requires n < |data| && Differ(read, data, n)
    requires forall j :: 0 <= j < n ==> KindOf(read, data[j]) != KindOf(read, data[n])
    ensures Differ(read, data, n + 1)
  {
  }

  lemma FiledSnoc(read: Reader, types: seq<string>, data: seq<Bytes>, n: nat, k: string, file: Bytes)
    requires n < |data| && Filed(read, types, data[..n], k, file) && KindOf(read, data[n]) != Some(k)
    ensures Filed(read, types, data[..n + 1], k, file)
  {
    LastFile(read, data, n, k);
  }

  lemma CollectStep(read: Reader, fills: Judge, types: seq<string>, data: seq<Bytes>, n: nat, raws: map<string, Bytes>)
    requires Collected(read, fills, types, data, n, raws) && n < |data|
    requires Attests(read, fills, types, data[n]) && read(data[n]).value.kind !in raws
    ensures Collected(read, fills, types, data, n + 1, raws[read(data[n]).value.kind := data[n]])
  {
    var kind := read(data[n]).value.kind;
    var more := raws[kind := data[n]];
    forall j | 0 <= j < n ensures KindOf(read, data[j]) != KindOf(read, data[n]) && Kept(read, more, data[j]) {
      assert Kept(read, raws, data[j]);
    }
    DifferSnoc(read, data, n);
    LastFile(read, data, n, kind);
    forall k | k in more ensures Filed(read, types, data[..n + 1], k, more[k]) {
      if k != kind { FiledSnoc(read, types, data, n, k, raws[k]); }
    }
    assert |more| == n + 1;
  }

  lemma LastFile(read: Reader, data: seq<Bytes>, n: nat, kind: string)
    requires n < |data|
    ensures FileOf(read, data[..n + 1], kind) ==
            if KindOf(read, data[n]) == Some(kind) then Some(data[n]) else FileOf(read, data[..n], kind)
  {
    assert data[..n + 1][..n] == data[..n];
  }

  lemma CollectedAll(read: Reader, fills: Judge, types: seq<string>, data: seq<Bytes>, raws: map<string, Bytes>)
    requires |data| == |types| && Collected(read, fills, types, data, |data|, raws)
    ensures CompleteSet(read, fills, types, data) && raws.Keys == Kinds(types)
    ensures forall k :: k in types ==> Some(raws[k]) == FileOf(read, data, k)
  {
    assert data[..|data|] == data;
    CollectedKeys(types, raws);
    forall k | k in types ensures Some(raws[k]) == FileOf(read, data, k) { assert k in raws; }
  }

  lemma CollectedKeys(types: seq<string>, raws: map<string, Bytes>)
    requires |raws| == |types| && forall k :: k in raws ==> k in types
    ensures raws.Keys == Kinds(types)
  {
    KindsBounded(types);
    assert |raws.Keys| == |raws|;
    FullSubset(raws.Keys, Kinds(types));
  }

  /**
   The source's loop: it fills a dictionary by type and rejects a second attestation of a type. Acceptance means
   exactly one valid attestation of every type, so the completeness test after the loop never fails.
   */
  method CollectAttestations(read: Reader, fills: Judge, types: seq<string>, data: seq<Bytes>)
    returns (r: Option<map<string, Bytes>>)
    ensures r.Some? <==> CompleteSet(read, fills, types, data)
    ensures r.Some? ==> r.value.Keys == Kinds(types) && forall k :: k in types ==>
              Some(r.value[k]) == FileOf(read, data, k)
  {
    if |data| != |types| { return None; }
    var raws: map<string, Bytes> := map[];
    for i := 0 to |data|
      invariant Collected(read, fills, types, data, i, raws)
    {
      var a := read(data[i]);
      if a.None? || a.value.kind !in types || !fills(a.value) {
        assert !Attests(read, fills, types, data[i]);
        return None;
      }
      if a.value.kind in raws {
        SeenTwice(read, data, i, a.value.kind, raws[a.value.kind]);
        return None;
      }
      CollectStep(read, fills, types, data, i, raws);
      raws := raws[a.value.kind := data[i]];
    }
    CollectedAll(read, fills, types, data, raws);
    return Some(raws);
  }

  lemma SeenTwice(read: Reader, data: seq<Bytes>, i: nat, kind: string, file: Bytes)
    requires i < |data| && KindOf(read, data[i]) == Some(kind) && FileOf(read, data[..i], kind) == Some(file)
    ensures exists j, k :: 0 <= j < k < |data| && KindOf(read, data[j]) == KindOf(read, data[k])
  {
    var j :| 0 <= j < i && data[..i][j] == file;
    assert KindOf(read, data[j]) == KindOf(read, data[i]);
  }

  lemma {:induction false} Gather(read: Reader, fills: Judge, types: seq<string>, data: seq<Bytes>, n: nat)
    returns (raws: map<string, Bytes>)
    requires CompleteSet(read, fills, types, data) && n <= |data|
    ensures Collected(read, fills, types, data, n, raws)
  {
    raws := map[];
    if n > 0 {
      raws := Gather(read, fills, types, data, n - 1);
      var kind := read(data[n - 1]).value.kind;
      assert Attests(read, fills, types, data[n - 1]);
      if kind in raws { AlreadySeen(read, data, n - 1, kind, raws[kind]); }
      CollectStep(read, fills, types, data, n - 1, raws);
      raws := raws[kind := data[n - 1]];
    }
  }

  lemma AlreadySeen(read: Reader, data: seq<Bytes>, n: nat, kind: string, file: Bytes)
    requires n < |data| && FileOf(read, data[..n], kind) == Some(file)
    ensures exists j :: 0 <= j < n && KindOf(read, data[j]) == Some(kind)
  {
    var j :| 0 <= j < n && data[..n][j] == file;
  }

  lemma EveryKindPresent(read: Reader, fills: Judge, types: seq<string>, data: seq<Bytes>, kind: string)
    requires CompleteSet(read, fills, types, data) && kind in types
    ensures FileOf(read, data, kind).Some? && Attests(read, fills, types, FileOf(read, data, kind).value)
  {
    var raws := Gather(read, fills, types, data, |data|);
    CollectedAll(read, fills, types, data, raws);
    var file := FileOf(read, data, kind).value;
    var j :| 0 <= j < |data| && data[j] == file;
  }

  // ---- What a complete set is, type by type.

  /**
   A file that holds evidence for slot `i`: of the right type, about this release, passed in production, fresh for its
   window, and signed with the slot's key over the supplied object.
   */
  predicate Proves(w: World, types: seq<string>, p: Policy, i: nat, file: Bytes)
    requires i < |types| && i < |p.required|
  {
    match w.attestation(file)
    case None => false
    case Some(a) =>
      && a.kind == types[i] && a.subject == p.subject && a.production && a.passed
      && 0 <= p.validFrom - a.observed <= p.required[i].maxAge && a.validUntil >= p.validUntil
      && a.keyId == p.required[i].keyId && p.required[i].keySha == w.fingerprint(w.keys(types[i]))
      && w.attested(w.keys(types[i]), a) && a.evidenceSha == w.sha(w.objects(types[i]))
  }

  ghost predicate AllProved(w: World, types: seq<string>, p: Policy, data: seq<Bytes>)
    requires |types| == |p.required|
  {
    |data| == |types| && forall i :: 0 <= i < |types| ==> Proved(w, types, p, i, data)
  }

  predicate Proved(w: World, types: seq<string>, p: Policy, i: nat, data: seq<Bytes>)
    requires i < |types| && i < |p.required|
  {
    exists j :: 0 <= j < |data| && Proves(w, types, p, i, data[j])
  }

  predicate FileProves(w: World, types: seq<string>, p: Policy, i: nat, data: seq<Bytes>)
    requires i < |types| && i < |p.required|
  {
    var file := FileOf(w.attestation, data, types[i]);
    file.Some? && Proves(w, types, p, i, file.value)
  }

  lemma FillsIsProves(w: World, types: seq<string>, p: Policy, i: nat, file: Bytes)
    requires SlotsValid(types, p.required) && Unique(types) && i < |types|
    ensures Proves(w, types, p, i, file) <==>
            KindOf(w.attestation, file) == Some(types[i]) && Attests(w.attestation, a => Fills(w, p, a), types, file)
  {
    SlotAt(types, p.required, i);
  }

  lemma CompleteIsProved(w: World, types: seq<string>, p: Policy, data: seq<Bytes>)
    requires SlotsValid(types, p.required) && Unique(types)
    requires CompleteSet(w.attestation, a => Fills(w, p, a), types, data)
    ensures AllProved(w, types, p, data)
    ensures forall i :: 0 <= i < |types| ==> FileProves(w, types, p, i, data)
  {
    forall i | 0 <= i < |types|
      ensures FileProves(w, types, p, i, data) && Proved(w, types, p, i, data)
    {
      EveryKindPresent(w.attestation, a => Fills(w, p, a), types, data, types[i]);
      var file := FileOf(w.attestation, data, types[i]).value;
      FillsIsProves(w, types, p, i, file);
      var j :| 0 <= j < |data| && data[j] == file;
    }
  }

  /** Picks for each type a file that has it. */
  lemma {:induction false} Choose(w: World, types: seq<string>, p: Policy, data: seq<Bytes>, n: nat)
    returns (at: seq<nat>)
    requires |types| == |p.required| && n <= |types| && forall i :: 0 <= i < n ==> Proved(w, types, p, i, data)
    ensures |at| == n && forall i :: 0 <= i < n ==> at[i] < |data| && Proves(w, types, p, i, data[at[i]])
  {
    if n == 0 { return []; }
    var front := Choose(w, types, p, data, n - 1);
    assert Proved(w, types, p, n - 1, data);
    var j :| 0 <= j < |data| && Proves(w, types, p, n - 1, data[j]);
    at := front + [j];
  }

  /** Different numbers below `n`, as many as there are, are all of them. */
  lemma {:induction false} Distinct(at: seq<nat>, n: nat)
    requires (forall i :: 0 <= i < |at| ==> at[i] < n) && (forall i, j :: 0 <= i < j < |at| ==> at[i] != at[j])
    ensures |SetOf(at)| == |at|
  {
    if at != [] {
      var m := |at| - 1;
      Distinct(at[..m], n);
      assert SetOf(at) == SetOf(at[..m]) + {at[m]};
    }
  }

  function SetOf(at: seq<nat>): set<nat> {
    set x | x in at
  }

  lemma {:induction false} Below(n: nat) returns (s: set<nat>)
    ensures |s| == n && forall x: nat :: x in s <==> x < n
  {
    s := {};
    if n > 0 {
      var t := Below(n - 1);
      s := t + {n - 1};
    }
  }

  lemma AllTaken(at: seq<nat>, j: nat)
    requires forall i :: 0 <= i < |at| ==> at[i] < |at|
    requires (forall i, k :: 0 <= i < k < |at| ==> at[i] != at[k]) && j < |at|
    ensures exists i :: 0 <= i < |at| && at[i] == j
  {
    Distinct(at, |at|);
    var all := Below(|at|);
    FullSubset(SetOf(at), all);
    assert j in SetOf(at);
  }

  lemma ProvedIsComplete(w: World, types: seq<string>, p: Policy, data: seq<Bytes>)
    requires SlotsValid(types, p.required) && Unique(types) && AllProved(w, types, p, data)
    ensures CompleteSet(w.attestation, a => Fills(w, p, a), types, data)
  {
    var at := Choose(w, types, p, data, |types|);
    forall i, k | 0 <= i < k < |at| ensures at[i] != at[k] {
      FillsIsProves(w, types, p, i, data[at[i]]);
      FillsIsProves(w, types, p, k, data[at[k]]);
    }
    forall j | 0 <= j < |data|
      ensures Attests(w.attestation, a => Fills(w, p, a), types, data[j])
      ensures exists i :: 0 <= i < |at| && at[i] == j && KindOf(w.attestation, data[j]) == Some(types[i])
    {
      AllTaken(at, j);
      var i :| 0 <= i < |at| && at[i] == j;
      FillsIsProves(w, types, p, i, data[j]);
    }
  }

  /** The collecting loop accepts exactly the sets with a file that proves each type, and as many files as types. */
  lemma EvidenceExactly(w: World, types: seq<string>, p: Policy, data: seq<Bytes>)
    requires SlotsValid(types, p.required) && Unique(types)
    ensures CompleteSet(w.attestation, a => Fills(w, p, a), types, data) <==> AllProved(w, types, p, data)
  {
    if CompleteSet(w.attestation, a => Fills(w, p, a), types, data) { CompleteIsProved(w, types, p, data); }
    if AllProved(w, types, p, data) { ProvedIsComplete(w, types, p, data); }
  }

  /** The fifteen types are different and in order, so sorting the dictionary's keys gives this list again. */
  lemma TypesAreSorted(i: nat, j: nat)
    requires i < j < |EVIDENCE_TYPES|
    ensures |EVIDENCE_TYPES| == 15 && Less(EVIDENCE_TYPES[i], EVIDENCE_TYPES[j])
  {
    forall k | 0 <= k < |EVIDENCE_TYPES| - 1 ensures Less(EVIDENCE_TYPES[k], EVIDENCE_TYPES[k + 1]) { Adjacent(k); }
    LessFrom(EVIDENCE_TYPES, i, j);
  }

  lemma Adjacent(k: nat)
    requires k < 14
    ensures Less(EVIDENCE_TYPES[k], EVIDENCE_TYPES[k + 1])
  {
    LessAt(EVIDENCE_TYPES[k], EVIDENCE_TYPES[k + 1], if k == 0 || k == 5 then 1 else if k == 13 then 7 else 0);
  }

  /** The first difference decides. */
  lemma {:induction false} LessAt(a: string, b: string, n: nat)
    requires n < |a| && n < |b| && (forall i :: 0 <= i < n ==> a[i] == b[i]) && a[n] < b[n]
    ensures Less(a, b)
    decreases n
  {
    if n > 0 { LessAt(a[1..], b[1..], n - 1); }
  }

  lemma {:induction false} LessFrom(types: seq<string>, i: nat, j: nat)
    requires i < j < |types| && forall k :: 0 <= k < |types| - 1 ==> Less(types[k], types[k + 1])
    ensures Less(types[i], types[j])
    decreases j
  {
    if i < j - 1 {
      LessFrom(types, i, j - 1);
      LessChains(types[i], types[j - 1], types[j]);
    }
  }

  lemma {:induction false} LessChains(a: string, b: string, c: string)
    requires Less(a, b) && Less(b, c)
    ensures Less(a, c)
  {
    if a != [] && a[0] == b[0] == c[0] { LessChains(a[1..], b[1..], c[1..]); }
  }
}
