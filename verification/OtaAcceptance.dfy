/** Promotion and the bundle validator, each as an equivalence over the fields of what they read. */
module OtaAcceptance {
  import opened Basics
  import opened Patterns
  import opened OtaRollout
  import opened OtaEvidence

  /** A request for one legal step, with all fields in range. */
  predicate Asked(q: Request) {
    && Named(q.generationId, 64) && Named(q.parentId, 64) && Named(q.releaseId, 64)
    && Digest(q.parentSha) && Digest(q.imageSha) && Digest(q.keyringSha)
    && 1 <= q.sequence <= 2_147_483_647 && q.parentSequence == q.sequence - 1
    && 1 <= q.releaseSequence <= 2_147_483_647 && 60 <= q.retry <= 86_400
    && 0 <= q.parentBasis <= 10_000 && 0 <= q.basis <= 10_000
    && (q.parentEnabled <==> q.parentBasis != 0) && (q.enabled <==> q.basis != 0)
    && 1_609_459_200 <= q.created < q.expires <= 4_102_444_800 && q.expires - q.created <= 86_400
    && match q.action
       case Expand => q.basis > q.parentBasis && (q.parentBasis > 0 || q.sequence == 1)
       case EmergencyStop => q.parentBasis > 0 && q.basis == 0
       case Resume => q.parentBasis == 0 && q.sequence > 1 && q.basis > 0
  }

  /** The manifest names a release, and its window is one. */
  predicate Current(m: Manifest) {
    && Named(m.releaseId, 64) && 1 <= m.releaseSequence <= 2_147_483_647 && Digest(m.imageSha)
    && 1_609_459_200 <= m.notBefore < m.expires <= 4_102_444_800
  }

  /** The request names the parent with these receipt bytes, and its state. */
  predicate Follows(w: World, q: Request, parent: Receipt, parentData: Bytes) {
    && q.parentSha == w.sha(parentData) && q.retry == parent.retry && q.releaseId == parent.release.releaseId
    && q.releaseSequence == parent.release.releaseSequence && q.imageSha == parent.release.imageSha
    && match parent
       case Staging(_, _) => q.parentId == "staging" && q.parentSequence == 0 && q.parentBasis == 0
       case Promoted(g, _, _, enabled, basis) =>
         && q.parentId == g.id && q.parentSequence == g.sequence >= 1
         && q.parentBasis == basis && q.parentEnabled == enabled
  }

  /** A genuine approval with all fields in range, dated in the request's window and not after `now`. */
  ghost predicate Vouched(w: World, ring: Keyring, q: Request, request: Bytes, p: Paper, now: int) {
    && Genuine(w, ring, request, p.data, p.approval) && Dated(q, p.approval, now)
    && Digest(p.approval.requestSha) && Named(p.approval.approverId, 64) && Named(p.approval.keyId, 64)
    && |p.approval.signature| == 64
  }

  /** Two approvals by different people with different keys, under the ring that the request names. */
  ghost predicate BothVouched(w: World, ring: Keyring, q: Request, request: Bytes, p: Paper, o: Paper, now: int) {
    && q.keyringSha == ring.sha && Vouched(w, ring, q, request, p, now) && Vouched(w, ring, q, request, o, now)
    && p.approval.approverId != o.approval.approverId && p.approval.keyId != o.approval.keyId
  }

  /** The request may be carried out at `now` over this parent, for the manifest's release. */
  ghost predicate Due(w: World, q: Request, m: Manifest, parent: Receipt, parentData: Bytes, now: int) {
    && Asked(q) && Current(m) && Follows(w, q, parent, parentData) && q.generationId != q.parentId
    && q.releaseId == m.releaseId && m.notBefore <= q.created <= now <= q.expires <= m.expires
  }

  lemma AskedExactly(q: Request)
    ensures RequestValid(q) <==> Asked(q)
  {
  }

  lemma CurrentExactly(m: Manifest)
    ensures ManifestValid(m) <==> Current(m)
  {
  }

  lemma FollowsExactly(w: World, q: Request, parent: Receipt, parentData: Bytes)
    requires Asked(q)
    ensures MatchesParent(w, q, parent, parentData) <==> Follows(w, q, parent, parentData)
  {
  }

  lemma VouchedExactly(w: World, ring: Keyring, q: Request, request: Bytes, p: Paper, now: int)
    requires Asked(q) && w.approval(p.data) == Some(p.approval) && now <= q.expires
    ensures Vouched(w, ring, q, request, p, now) <==>
            Approves(w, q, request, ring, p.data) && p.approval.signedAt <= now
  {
  }

  lemma BothExactly(w: World, ring: Keyring, q: Request, request: Bytes, p: Paper, o: Paper, now: int)
    requires Asked(q) && w.request(request) == Some(q) && now <= q.expires
    requires w.approval(p.data) == Some(p.approval) && w.approval(o.data) == Some(o.approval)
    ensures var v := VerifyApprovals(w, request, [p.data, o.data], ring);
            && (v.Some? && p.approval.signedAt <= now && o.approval.signedAt <= now <==>
                BothVouched(w, ring, q, request, p, o, now))
            && (v.Some? ==> v.value == Pair(p, o))
  {
    AskedExactly(q);
    VouchedExactly(w, ring, q, request, p, now);
    VouchedExactly(w, ring, q, request, o, now);
    assert [p.data, o.data][0] == p.data && [p.data, o.data][1] == o.data;
  }

  lemma InWindowExactly(q: Request, p: Paper, o: Paper, now: int)
    ensures InWindow(now, q, Pair(p, o)) <==>
            p.approval.signedAt <= now && o.approval.signedAt <= now && q.created <= now <= q.expires
  {
    var v := Pair(p, o);
    assert v[0].approval in [p.approval, o.approval] && v[1].approval in [p.approval, o.approval];
    if InWindow(now, q, v) { assert v[0].approval.signedAt <= now && v[1].approval.signedAt <= now; }
  }

  /** Both approvals, in the order of their names. */
  function Pair(p: Paper, o: Paper): seq<Verified> {
    if Less(o.approval.approverId, p.approval.approverId)
    then [Verified(o.approval, o.data), Verified(p.approval, p.data)]
    else [Verified(p.approval, p.data), Verified(o.approval, o.data)]
  }

  /**
   Promotion writes a bundle exactly when the request asks for a legal step from this parent, two people vouch for it
   under the ring it names, and the time is inside the windows of the request and the manifest.
   */
  lemma PromotesExactly(w: World, parent: Bundle, request: Bytes, p: Paper, o: Paper, ring: Keyring, authority: string,
                        now: int, was: Receipt, q: Request, m: Manifest)
    requires w.decodeReceipt(parent.receipt) == Some(was) && w.manifest(parent.artifacts.manifest) == Some(m)
    requires w.request(request) == Some(q)
    requires w.approval(p.data) == Some(p.approval) && w.approval(o.data) == Some(o.approval)
    ensures Promote(w, parent, request, [p.data, o.data], ring, authority, now).Some? <==>
            Due(w, q, m, was, parent.receipt, now) && BothVouched(w, ring, q, request, p, o, now)
  {
    AskedExactly(q);
    CurrentExactly(m);
    if Asked(q) {
      FollowsExactly(w, q, was, parent.receipt);
      InWindowExactly(q, p, o, now);
      if now <= q.expires { BothExactly(w, ring, q, request, p, o, now); }
    }
  }

  /** Whatever cannot be read, and any other number of approvals, is refused. */
  lemma UnreadIsRefused(w: World, parent: Bundle, request: Bytes, approvals: seq<Bytes>, ring: Keyring,
                        authority: string, now: int)
    requires Promote(w, parent, request, approvals, ring, authority, now).Some?
    ensures w.decodeReceipt(parent.receipt).Some? && w.manifest(parent.artifacts.manifest).Some?
    ensures w.request(request).Some? && |approvals| == 2
    ensures w.approval(approvals[0]).Some? && w.approval(approvals[1]).Some?
  {
  }

  /** The receipt reports the request and both approvals. */
  ghost predicate Reports(w: World, b: Bundle, r: Receipt, q: Request, p: Paper, o: Paper) {
    && r.Promoted? && r.generation.id == q.generationId && r.generation.sequence == q.sequence
    && r.generation.parentId == q.parentId && r.generation.parentSequence == q.parentSequence
    && r.generation.parentSha == q.parentSha && r.generation.action == q.action
    && r.generation.keyringSha == q.keyringSha && r.generation.requestSha == w.sha(b.request)
    && r.generation.evidence == (if Less(o.approval.approverId, p.approval.approverId) then [Cited(w, o), Cited(w, p)]
                                 else [Cited(w, p), Cited(w, o)])
    && r.retry == q.retry && r.enabledNow == q.enabled && r.basisNow == q.basis
  }

  lemma ReportedIsValid(w: World, b: Bundle, r: Receipt, q: Request, p: Paper, o: Paper, m: Manifest, was: Receipt,
                        parentData: Bytes, ring: Keyring, authority: string)
    requires Digests(w) && w.manifest(b.artifacts.manifest) == Some(m) && Reports(w, b, r, q, p, o)
    requires Releases(w, b, r, authority) && Due(w, q, m, was, parentData, r.generation.promotedAt)
    requires BothVouched(w, ring, q, b.request, p, o, r.generation.promotedAt)
    ensures ReceiptValid(r)
  {
    LessIsTotal(p.approval.approverId, o.approval.approverId);
    assert Digest(w.sha(b.request)) && Digest(w.sha(p.data)) && Digest(w.sha(o.data));
    assert Digest(w.sha(b.artifacts.manifest)) && Digest(w.sha(b.artifacts.publicKey));
    assert Digest(w.sha(b.artifacts.config)) && Digest(w.sha(b.control)) && Digest(w.sha(b.origin));
  }

  /** The receipt that the validator expects, by its fields. */
  lemma ExpectedExactly(w: World, b: Bundle, r: Receipt, q: Request, p: Paper, o: Paper, m: Manifest, authority: string)
    requires w.manifest(b.artifacts.manifest) == Some(m) && r.Promoted?
    ensures var expected := PromotionReceipt(w, m, b.artifacts, authority, q, b.request, Pair(p, o),
                                             r.generation.promotedAt);
            && r == expected && b.control == w.control(m, q.retry, q.enabled, q.basis) && b.origin == w.origin(m)
            && w.released(m, b.artifacts, authority) && m.authority == authority
            && b.ready == w.readyMarker(w.sha(b.receipt)) <==>
            Reports(w, b, r, q, p, o) && Releases(w, b, r, authority)
  {
    var expected := PromotionReceipt(w, m, b.artifacts, authority, q, b.request, Pair(p, o), r.generation.promotedAt);
    if Reports(w, b, r, q, p, o) && Releases(w, b, r, authority) {
      assert r.generation == expected.generation && r.release == expected.release;
    }
  }

  /**
   A promoted bundle is accepted exactly when its request was due over this parent at the time of promotion, two people
   vouched for it by then, its receipt is canonical and reports all that, and it puts out the release it names.
   */
  lemma BundleExactly(w: World, b: Bundle, parentData: Bytes, ring: Keyring, authority: string, was: Receipt,
                      r: Receipt, q: Request, p: Paper, o: Paper, m: Manifest)
    requires Digests(w) && w.decodeReceipt(parentData) == Some(was) && w.decodeReceipt(b.receipt) == Some(r)
    requires w.request(b.request) == Some(q) && w.manifest(b.artifacts.manifest) == Some(m)
    requires p.data == b.approval1 && w.approval(p.data) == Some(p.approval)
    requires o.data == b.approval2 && w.approval(o.data) == Some(o.approval)
    ensures ValidateBundle(w, b, parentData, ring, authority).Some? <==>
            && Reports(w, b, r, q, p, o) && Releases(w, b, r, authority) && b.receipt == w.encodeReceipt(r)
            && Due(w, q, m, was, parentData, r.generation.promotedAt)
            && BothVouched(w, ring, q, b.request, p, o, r.generation.promotedAt)
  {
    AskedExactly(q);
    CurrentExactly(m);
    if Asked(q) && r.Promoted? {
      var at := r.generation.promotedAt;
      FollowsExactly(w, q, was, parentData);
      InWindowExactly(q, p, o, at);
      if at <= q.expires { BothExactly(w, ring, q, b.request, p, o, at); }
      ExpectedExactly(w, b, r, q, p, o, m, authority);
      if && Reports(w, b, r, q, p, o) && Releases(w, b, r, authority) && Due(w, q, m, was, parentData, at)
         && BothVouched(w, ring, q, b.request, p, o, at)
      {
        ReportedIsValid(w, b, r, q, p, o, m, was, parentData, ring, authority);
      }
    }
  }

  /** A staging bundle is accepted exactly when its receipt is canonical and it puts out, disabled, what it names. */
  lemma StagingExactly(w: World, b: Bundle, authority: string, r: Receipt, m: Manifest)
    requires w.decodeReceipt(b.receipt) == Some(r) && w.manifest(b.artifacts.manifest) == Some(m)
    ensures ValidateStaging(w, b, authority).Some? <==>
            && r.Staging? && Current(m) && 60 <= r.retry <= 86_400 && b.receipt == w.encodeReceipt(r)
            && Releases(w, b, r, authority)
  {
    CurrentExactly(m);
  }
}
