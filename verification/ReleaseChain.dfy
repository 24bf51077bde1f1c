/**
 Product release records of `tools/product_release.py`: what a record says about its policy and its evidence, the
 validator of one bundle, and the hash chain of records.
 */
module ReleaseChain {
  import opened Basics
  import opened ReleaseEvidence

  /** The summary of one type: its file's digest and claims, and the slot's key. */
  function SummaryOf(w: World, p: Policy, files: seq<Bytes>, kind: string): (s: Summary) {
    match (FileOf(w.attestation, files, kind), Slot(p.required, kind))
    case (Some(file), Some(t)) =>
      var a := w.attestation(file).value;
      Summary(a.kind, w.sha(file), a.evidenceSha, a.observed, a.validUntil, t.keyId, t.keySha)
    case _ => Summary(kind, "", "", 0, 0, "", "")
  }

  function Summaries(w: World, types: seq<string>, p: Policy, files: seq<Bytes>): (s: seq<Summary>)
    ensures |s| == |types|
  {
    seq(|types|, i requires 0 <= i < |types| => SummaryOf(w, p, files, types[i]))
  }

  function RecordFrom(w: World, p: Policy, policyData: Bytes, evidence: seq<Summary>, signature: Bytes): (r: Record) {
    Record(p.recordId, w.sha(policyData), p.sequence, p.previousSha, p.subject, p.validFrom, p.validUntil, evidence,
           p.signingKeyId, signature)
  }

  predicate PreviousOk(w: World, p: Policy, previous: Option<Bytes>) {
    if p.sequence == 1 then previous.None?
    else
      match previous
      case None => false
      case Some(data) =>
        match w.record(data)
        case None => false
        case Some(r) => w.sha(data) == p.previousSha && r.sequence + 1 == p.sequence
  }

  datatype Release = Release(policy: Bytes, files: seq<Bytes>, record: Bytes)

  /** One release validated against the record it follows. */
  ghost predicate ReleaseValid(w: World, types: seq<string>, release: Release, previous: Option<Bytes>) {
    match (w.policy(release.policy), w.record(release.record))
    case (Some(p), Some(r)) =>
      && PolicyValid(types, p) && PreviousOk(w, p, previous)
      && CompleteSet(w.attestation, a => Fills(w, p, a), types, release.files)
      && r == RecordFrom(w, p, release.policy, Summaries(w, types, p, release.files), r.signature)
      && w.fingerprint(w.releaseKey) == p.releaseKeySha && w.sealed(w.releaseKey, r)
    case _ => false
  }

  /** The same at an evaluation time. */
  ghost predicate BundleValid(w: World, types: seq<string>, release: Release, previous: Option<Bytes>, now: int) {
    && ReleaseValid(w, types, release, previous)
    && w.policy(release.policy).value.validFrom <= now <= w.policy(release.policy).value.validUntil
  }

  // ---- What an accepted bundle shows.

  /** What the record says, against the policy it was made under. */
  predicate Records(w: World, p: Policy, policyData: Bytes, r: Record) {
    && r.recordId == p.recordId && r.subject == p.subject && r.signingKeyId == p.signingKeyId
    && r.policySha == w.sha(policyData) && r.sequence == p.sequence && r.previousSha == p.previousSha
    && r.issued == p.validFrom && r.validUntil == p.validUntil
    && w.sealed(w.releaseKey, r) && w.fingerprint(w.releaseKey) == p.releaseKeySha
  }

  /** The record's entry for slot `i` cites the file that proves it. */
  predicate Cites(w: World, types: seq<string>, p: Policy, files: seq<Bytes>, r: Record, i: nat)
    requires i < |types| == |p.required|
  {
    && FileProves(w, types, p, i, files) && i < |r.evidence|
    && var file := FileOf(w.attestation, files, types[i]).value;
       var a := w.attestation(file).value;
       r.evidence[i] == Summary(types[i], w.sha(file), a.evidenceSha, a.observed, a.validUntil,
                                p.required[i].keyId, p.required[i].keySha)
  }

  /** Windows and ages are within the fixed bounds. */
  predicate Bounded(p: Policy) {
    && 1 <= p.sequence < 0x8000_0000 && 0 < p.validUntil - p.validFrom <= 7_776_000
    && forall i :: 0 <= i < |p.required| ==> 3600 <= p.required[i].maxAge <= 15_552_000
  }

  lemma SummaryCites(w: World, types: seq<string>, p: Policy, files: seq<Bytes>, i: nat)
    requires SlotsValid(types, p.required) && Unique(types) && i < |types| && FileProves(w, types, p, i, files)
    ensures var file := FileOf(w.attestation, files, types[i]).value;
            var a := w.attestation(file).value;
            SummaryOf(w, p, files, types[i]) == Summary(types[i], w.sha(file), a.evidenceSha, a.observed, a.validUntil,
                                                        p.required[i].keyId, p.required[i].keySha)
  {
    SlotAt(types, p.required, i);
  }

  /** The policy's slots are for the types, one by one, and only the first release has no predecessor. */
  predicate Rooted(types: seq<string>, p: Policy) {
    && |p.required| == |types| && (forall i :: 0 <= i < |types| ==> p.required[i].kind == types[i])
    && (p.sequence == 1 <==> Zeros(p.previousSha))
  }

  predicate Zeros(s: string) {
    |s| == 64 && forall i :: 0 <= i < 64 ==> s[i] == '0'
  }

  /** The release follows the previous record: none before the first, else the one it names, with the number before. */
  predicate Continues(w: World, p: Policy, previous: Option<Bytes>) {
    match previous
    case None => p.sequence == 1
    case Some(data) =>
      && p.sequence > 1 && p.previousSha == w.sha(data)
      && w.record(data).Some? && w.record(data).value.sequence == p.sequence - 1
  }

  lemma ZerosExactly(s: string)
    ensures Zeros(s) <==> s == ZeroSha()
  {
    if Zeros(s) { assert forall i :: 0 <= i < 64 ==> s[i] == ZeroSha()[i]; }
  }

  lemma PolicyExactly(w: World, types: seq<string>, p: Policy, previous: Option<Bytes>)
    ensures PolicyValid(types, p) && PreviousOk(w, p, previous) <==>
            Bounded(p) && Rooted(types, p) && Continues(w, p, previous)
  {
    ZerosExactly(p.previousSha);
  }

  /** The record states the policy's terms, and cites for each type a file of the bundle that proves that type. */
  ghost predicate Substantiated(w: World, types: seq<string>, p: Policy, release: Release, r: Record) {
    && Records(w, p, release.policy, r) && |p.required| == |types| == |release.files| == |r.evidence|
    && forall i :: 0 <= i < |types| ==> Cites(w, types, p, release.files, r, i)
  }

  lemma CitedIsRecorded(w: World, types: seq<string>, p: Policy, release: Release, r: Record)
    requires Unique(types) && SlotsValid(types, p.required) && Substantiated(w, types, p, release, r)
    ensures CompleteSet(w.attestation, a => Fills(w, p, a), types, release.files)
    ensures r == RecordFrom(w, p, release.policy, Summaries(w, types, p, release.files), r.signature)
  {
    forall i | 0 <= i < |types|
      ensures Proved(w, types, p, i, release.files)
      ensures r.evidence[i] == Summaries(w, types, p, release.files)[i]
    {
      assert Cites(w, types, p, release.files, r, i);
      SummaryCites(w, types, p, release.files, i);
      var file := FileOf(w.attestation, release.files, types[i]).value;
      var j :| 0 <= j < |release.files| && release.files[j] == file;
      assert Proves(w, types, p, i, release.files[j]);
    }
    ProvedIsComplete(w, types, p, release.files);
    assert r.evidence == Summaries(w, types, p, release.files);
  }

  /**
   A release is accepted exactly when its policy is within the bounds and follows its predecessor, and its record states
   the policy's terms, is signed with the release key, and cites for each type a file of the bundle that proves it.
   */
  lemma AcceptedExactly(w: World, types: seq<string>, release: Release, previous: Option<Bytes>, p: Policy, r: Record)
    requires Unique(types) && w.policy(release.policy) == Some(p) && w.record(release.record) == Some(r)
    ensures ReleaseValid(w, types, release, previous) <==>
            && Bounded(p) && Rooted(types, p) && Continues(w, p, previous)
            && Substantiated(w, types, p, release, r)
  {
    PolicyExactly(w, types, p, previous);
    if ReleaseValid(w, types, release, previous) {
      CompleteIsProved(w, types, p, release.files);
      forall i | 0 <= i < |types| ensures Cites(w, types, p, release.files, r, i) {
        SummaryCites(w, types, p, release.files, i);
      }
    }
    if PolicyValid(types, p) && Substantiated(w, types, p, release, r) { CitedIsRecorded(w, types, p, release, r); }
  }

  /** What an accepted release shows. */
  lemma AcceptedMeans(w: World, types: seq<string>, release: Release, previous: Option<Bytes>)
    requires Unique(types) && ReleaseValid(w, types, release, previous)
    ensures var p, r := w.policy(release.policy).value, w.record(release.record).value;
            Bounded(p) && Substantiated(w, types, p, release, r)
  {
    var p, r := w.policy(release.policy).value, w.record(release.record).value;
    AcceptedExactly(w, types, release, previous, p, r);
  }

  /** The evidence of an accepted bundle is unexpired then, and at most its maximum age plus ninety days old. */
  lemma EvidenceIsFresh(w: World, release: Release, previous: Option<Bytes>, now: int, i: nat)
    requires BundleValid(w, EVIDENCE_TYPES, release, previous, now) && i < |EVIDENCE_TYPES|
    ensures var p, file := w.policy(release.policy).value, FileOf(w.attestation, release.files, EVIDENCE_TYPES[i]);
            && i < |p.required| && file.Some? && Proves(w, EVIDENCE_TYPES, p, i, file.value)
            && var a := w.attestation(file.value).value;
               a.observed <= now <= a.validUntil && now - a.observed <= p.required[i].maxAge + 90 * DAY
  {
    TypesAreUnique();
    FreshIn(w, EVIDENCE_TYPES, release, previous, now, i);
  }

  lemma TypesAreUnique()
    ensures Unique(EVIDENCE_TYPES)
  {
    forall i, j | 0 <= i < j < |EVIDENCE_TYPES| ensures EVIDENCE_TYPES[i] != EVIDENCE_TYPES[j] {
      TypesAreSorted(i, j);
      LessIsTotal(EVIDENCE_TYPES[i], EVIDENCE_TYPES[j]);
    }
  }

  lemma FreshIn(w: World, types: seq<string>, release: Release, previous: Option<Bytes>, now: int, i: nat)
    requires Unique(types) && BundleValid(w, types, release, previous, now) && i < |types|
    ensures var p, file := w.policy(release.policy).value, FileOf(w.attestation, release.files, types[i]);
            && i < |p.required| && file.Some? && Proves(w, types, p, i, file.value)
            && var a := w.attestation(file.value).value;
               a.observed <= now <= a.validUntil && now - a.observed <= p.required[i].maxAge + 90 * DAY
  {
    AcceptedMeans(w, types, release, previous);
    assert Cites(w, types, w.policy(release.policy).value, release.files, w.record(release.record).value, i);
  }

  // ---- Building a bundle.

  /** The record that the builder writes, given its signature. */
  function Built(w: World, types: seq<string>, p: Policy, policyData: Bytes, files: seq<Bytes>, signature: Bytes)
    : Release
  {
    Release(policyData, files, w.encodeRecord(RecordFrom(w, p, policyData, Summaries(w, types, p, files), signature)))
  }

  /**
   A bundle with the record the builder writes, signed with the release key that the policy names, is accepted exactly
   when the policy is valid and continues the previous record, every type is proved by one of as many files as types,
   and the time is within the policy's window.
   */
  lemma BuiltIsAccepted(w: World, types: seq<string>, p: Policy, policyData: Bytes, files: seq<Bytes>,
                        signature: Bytes, previous: Option<Bytes>, now: int)
    requires Unique(types) && w.policy(policyData) == Some(p) && w.fingerprint(w.releaseKey) == p.releaseKeySha
    requires var r := RecordFrom(w, p, policyData, Summaries(w, types, p, files), signature);
             w.record(w.encodeRecord(r)) == Some(r) && w.sealed(w.releaseKey, r)
    ensures BundleValid(w, types, Built(w, types, p, policyData, files, signature), previous, now) <==>
            && PolicyValid(types, p) && PreviousOk(w, p, previous) && AllProved(w, types, p, files)
            && p.validFrom <= now <= p.validUntil
  {
    if PolicyValid(types, p) { EvidenceExactly(w, types, p, files); }
  }

  // ---- The order of the files.

  /** The same files, in any order. */
  predicate SameFiles(a: seq<Bytes>, b: seq<Bytes>) {
    |a| == |b| && (forall f :: f in a ==> f in b) && (forall f :: f in b ==> f in a)
  }

  lemma SameProofs(w: World, types: seq<string>, p: Policy, a: seq<Bytes>, b: seq<Bytes>)
    requires SlotsValid(types, p.required) && Unique(types) && SameFiles(a, b)
    requires CompleteSet(w.attestation, x => Fills(w, p, x), types, a)
    ensures CompleteSet(w.attestation, x => Fills(w, p, x), types, b)
    ensures Summaries(w, types, p, a) == Summaries(w, types, p, b)
  {
    CompleteIsProved(w, types, p, a);
    forall i | 0 <= i < |types| ensures Proved(w, types, p, i, b) {
      assert FileProves(w, types, p, i, a);
      var file := FileOf(w.attestation, a, types[i]).value;
      var j :| 0 <= j < |b| && b[j] == file;
      assert Proves(w, types, p, i, b[j]);
    }
    ProvedIsComplete(w, types, p, b);
    forall i | 0 <= i < |types| ensures FileOf(w.attestation, a, types[i]) == FileOf(w.attestation, b, types[i]) {
      OneFile(w.attestation, x => Fills(w, p, x), types, a, b, types[i]);
    }
  }

  lemma OneFile(read: Reader, fills: Judge, types: seq<string>, a: seq<Bytes>, b: seq<Bytes>, kind: string)
    requires CompleteSet(read, fills, types, a) && CompleteSet(read, fills, types, b) && SameFiles(a, b)
    requires kind in types
    ensures FileOf(read, a, kind) == FileOf(read, b, kind)
  {
    EveryKindPresent(read, fills, types, a, kind);
    EveryKindPresent(read, fills, types, b, kind);
    var i :| 0 <= i < |a| && a[i] == FileOf(read, a, kind).value;
    var j :| 0 <= j < |a| && a[j] == FileOf(read, b, kind).value;
  }

  /** Whether a release is accepted does not depend on which evidence file is found under which name. */
  lemma FilesInAnyOrder(w: World, types: seq<string>, release: Release, files: seq<Bytes>, previous: Option<Bytes>)
    requires Unique(types) && SameFiles(release.files, files)
    ensures ReleaseValid(w, types, release, previous) <==> ReleaseValid(w, types, release.(files := files), previous)
  {
    if ReleaseValid(w, types, release, previous) {
      SameProofs(w, types, w.policy(release.policy).value, release.files, files);
    }
    if ReleaseValid(w, types, release.(files := files), previous) {
      SameProofs(w, types, w.policy(release.policy).value, files, release.files);
    }
  }

  // ---- Chains.

  function Previous(chain: seq<Release>, i: nat): (r: Option<Bytes>)
    requires i < |chain|
  {
    if i == 0 then None else Some(chain[i - 1].record)
  }

  ghost predicate LinkValid(w: World, types: seq<string>, chain: seq<Release>, i: nat)
    requires i < |chain|
  {
    ReleaseValid(w, types, chain[i], Previous(chain, i))
  }

  ghost predicate ChainValid(w: World, types: seq<string>, chain: seq<Release>) {
    forall i :: 0 <= i < |chain| ==> LinkValid(w, types, chain, i)
  }

  /** In a chain validated step by step from its genesis, sequence numbers are positions. */
  lemma {:induction false} SequenceIsPosition(w: World, types: seq<string>, chain: seq<Release>, i: nat)
    requires ChainValid(w, types, chain) && i < |chain|
    ensures w.record(chain[i].record).Some? && w.record(chain[i].record).value.sequence == i + 1
    ensures w.record(chain[i].record).value.previousSha == ZeroSha() <==> i == 0
    ensures i > 0 ==> w.record(chain[i].record).value.previousSha == w.sha(chain[i - 1].record)
    ensures w.record(chain[i].record).value.policySha == w.sha(chain[i].policy)
  {
    assert LinkValid(w, types, chain, i);
    if i > 0 { SequenceIsPosition(w, types, chain, i - 1); }
  }

  /** Releases with the same policy and record, and the same evidence files up to their order. */
  predicate SameRelease(a: Release, b: Release) {
    a.policy == b.policy && a.record == b.record && SameFiles(a.files, b.files)
  }

  /** Every file of a complete set is the file of its type. */
  lemma FileIsFileOf(read: Reader, fills: Judge, types: seq<string>, data: seq<Bytes>, f: Bytes) returns (i: nat)
    requires CompleteSet(read, fills, types, data) && f in data
    ensures i < |types| && FileOf(read, data, types[i]) == Some(f)
  {
    var j :| 0 <= j < |data| && data[j] == f;
    assert Attests(read, fills, types, data[j]);
    i :| 0 <= i < |types| && types[i] == read(f).value.kind;
    var g := FileOf(read, data, types[i]).value;
    var k :| 0 <= k < |data| && data[k] == g;
    assert KindOf(read, data[j]) == KindOf(read, data[k]);
  }

  /** Two files cited by the same entry are the same. */
  lemma CitedSame(w: World, types: seq<string>, p: Policy, a: seq<Bytes>, b: seq<Bytes>, r: Record, i: nat)
    requires CollisionFree(w) && i < |types| == |p.required|
    requires Cites(w, types, p, a, r, i) && Cites(w, types, p, b, r, i)
    ensures FileOf(w.attestation, a, types[i]) == FileOf(w.attestation, b, types[i])
  {
    var f, g := FileOf(w.attestation, a, types[i]).value, FileOf(w.attestation, b, types[i]).value;
    assert w.sha(f) == w.sha(g);
  }

  lemma CitedFiles(w: World, types: seq<string>, a: Release, b: Release, x: Option<Bytes>, y: Option<Bytes>, f: Bytes)
    requires CollisionFree(w) && Unique(types) && ReleaseValid(w, types, a, x) && ReleaseValid(w, types, b, y)
    requires a.record == b.record && a.policy == b.policy && f in a.files
    ensures f in b.files
  {
    var p, r := w.policy(a.policy).value, w.record(a.record).value;
    AcceptedMeans(w, types, a, x);
    AcceptedMeans(w, types, b, y);
    var i := FileIsFileOf(w.attestation, x => Fills(w, p, x), types, a.files, f);
    CitedSame(w, types, p, a.files, b.files, r, i);
  }

  /** A record fixes the policy and the evidence of its release. */
  lemma RecordFixesRelease(w: World, types: seq<string>, a: Release, b: Release, x: Option<Bytes>, y: Option<Bytes>)
    requires CollisionFree(w) && Unique(types) && ReleaseValid(w, types, a, x) && ReleaseValid(w, types, b, y)
    requires a.record == b.record
    ensures SameRelease(a, b)
  {
    assert a.policy == b.policy;
    forall f | f in a.files ensures f in b.files { CitedFiles(w, types, a, b, x, y, f); }
    forall f | f in b.files ensures f in a.files { CitedFiles(w, types, b, a, y, x, f); }
  }

  /** Two validated chains that end in the same record bytes are the same chain, up to the order of evidence files. */
  lemma {:induction false} HeadFixesHistory(w: World, types: seq<string>, a: seq<Release>, b: seq<Release>)
    requires CollisionFree(w) && Unique(types) && ChainValid(w, types, a) && ChainValid(w, types, b)
    requires |a| > 0 && |b| > 0 && a[|a| - 1].record == b[|b| - 1].record
    ensures |a| == |b| && forall i :: 0 <= i < |a| ==> SameRelease(a[i], b[i])
    decreases |a|
  {
    var n := |a| - 1;
    SequenceIsPosition(w, types, a, n);
    SequenceIsPosition(w, types, b, |b| - 1);
    if n > 0 {
      ChainPrefix(w, types, a);
      ChainPrefix(w, types, b);
      HeadFixesHistory(w, types, a[..n], b[..n]);
    }
    assert LinkValid(w, types, a, n) && LinkValid(w, types, b, n);
    RecordFixesRelease(w, types, a[n], b[n], Previous(a, n), Previous(b, n));
    forall i | 0 <= i < n ensures SameRelease(a[i], b[i]) { assert a[..n][i] == a[i] && b[..n][i] == b[i]; }
  }

  /** The files of both releases have the same types, name by name. */
  predicate SameNames(w: World, a: Release, b: Release) {
    && |a.files| == |b.files|
    && forall j :: 0 <= j < |a.files| ==> KindOf(w.attestation, a.files[j]) == KindOf(w.attestation, b.files[j])
  }

  lemma NamesFixFiles(w: World, types: seq<string>, a: Release, b: Release, y: Option<Bytes>)
    requires ReleaseValid(w, types, b, y) && SameRelease(a, b) && SameNames(w, a, b)
    ensures a == b
  {
    forall j | 0 <= j < |a.files| ensures a.files[j] == b.files[j] {
      assert a.files[j] in b.files;
      var k :| 0 <= k < |b.files| && b.files[k] == a.files[j];
      assert KindOf(w.attestation, b.files[k]) == KindOf(w.attestation, b.files[j]);
    }
  }

  /**
   Such chains are equal exactly when their evidence files are under the same names throughout, as they are in bundles
   that the builder wrote, each under the name of its own type.
   */
  lemma HistoryIsEqual(w: World, types: seq<string>, a: seq<Release>, b: seq<Release>)
    requires CollisionFree(w) && Unique(types) && ChainValid(w, types, a) && ChainValid(w, types, b)
    requires |a| > 0 && |b| > 0 && a[|a| - 1].record == b[|b| - 1].record
    ensures a == b <==> |a| == |b| && forall i :: 0 <= i < |a| ==> SameNames(w, a[i], b[i])
  {
    if |a| == |b| && forall i :: 0 <= i < |a| ==> SameNames(w, a[i], b[i]) {
      HeadFixesHistory(w, types, a, b);
      forall i | 0 <= i < |a| ensures a[i] == b[i] {
        assert LinkValid(w, types, b, i);
        NamesFixFiles(w, types, a[i], b[i], Previous(b, i));
      }
    }
  }

  lemma ChainPrefix(w: World, types: seq<string>, chain: seq<Release>)
    requires ChainValid(w, types, chain) && |chain| > 0
    ensures ChainValid(w, types, chain[..|chain| - 1])
  {
    var p := chain[..|chain| - 1];
    forall i | 0 <= i < |p| ensures LinkValid(w, types, p, i) {
      assert LinkValid(w, types, chain, i);
      assert Previous(p, i) == Previous(chain, i);
    }
  }
}
