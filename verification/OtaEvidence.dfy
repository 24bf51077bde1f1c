/** What an accepted lineage proves about each of its bundles: who approved it, when, and what it releases. */
module OtaEvidence {
  import opened Basics
  import opened Patterns
  import opened OtaRollout
  import opened OtaLineage

  /** An approval of these request bytes, signed with a key that the ring has enabled for this approver. */
  ghost predicate Genuine(w: World, ring: Keyring, request: Bytes, data: Bytes, a: Approval) {
    && w.approval(data) == Some(a) && a.requestSha == w.sha(request)
    && a.keyId in ring.byKeyId && ring.byKeyId[a.keyId].enabled && ring.byKeyId[a.keyId].approverId == a.approverId
    && w.signed(ring.byKeyId[a.keyId].publicKey, a)
  }

  /** Dated inside the request's window and not after the promotion, which is inside it too. */
  predicate Dated(q: Request, a: Approval, promotedAt: int) {
    q.created <= a.signedAt <= promotedAt <= q.expires
  }

  /** An approval and the bytes it was read from. */
  datatype Paper = Paper(approval: Approval, data: Bytes)

  /** Two genuine approvals by different people with different keys, in the order of their names. */
  ghost predicate TwoApproved(w: World, ring: Keyring, b: Bundle, q: Request, first: Paper, second: Paper,
                              promotedAt: int)
  {
    && w.request(b.request) == Some(q)
    && (first.data, second.data) in {(b.approval1, b.approval2), (b.approval2, b.approval1)}
    && Genuine(w, ring, b.request, first.data, first.approval)
    && Genuine(w, ring, b.request, second.data, second.approval)
    && first.approval.keyId != second.approval.keyId && Less(first.approval.approverId, second.approval.approverId)
    && Dated(q, first.approval, promotedAt) && Dated(q, second.approval, promotedAt)
  }

  function Cited(w: World, p: Paper): Evidence {
    Evidence(p.approval.approverId, p.approval.keyId, w.sha(p.data))
  }

  /** The receipt names the approvals, the request and the ring they were checked with. */
  ghost predicate Attests(w: World, ring: Keyring, b: Bundle, r: Receipt, first: Paper, second: Paper) {
    && r.Promoted? && r.generation.keyringSha == ring.sha && r.generation.requestSha == w.sha(b.request)
    && r.generation.evidence == [Cited(w, first), Cited(w, second)]
  }

  /** What the bundle puts out: the manifest's release, with control and origin documents of the receipt's rollout. */
  ghost predicate Releases(w: World, b: Bundle, r: Receipt, authority: string) {
    && w.manifest(b.artifacts.manifest).Some?
    && var m := w.manifest(b.artifacts.manifest).value;
       && m.authority == authority && w.released(m, b.artifacts, authority)
       && r.release.releaseId == m.releaseId && r.release.releaseSequence == m.releaseSequence
       && r.release.imageSha == m.imageSha && r.release.authority == authority && r.release.identity == m.identity
       && r.release.manifestSha == w.sha(b.artifacts.manifest) && r.release.keySha == w.sha(b.artifacts.publicKey)
       && r.release.configSha == w.sha(b.artifacts.config)
       && r.release.controlSha == w.sha(b.control) && r.release.originSha == w.sha(b.origin)
       && b.control == (if r.Promoted? then w.control(m, r.retry, r.enabledNow, r.basisNow)
                        else w.control(m, r.retry, false, 0))
       && b.origin == w.origin(m) && b.ready == w.readyMarker(w.sha(b.receipt))
  }

  /** The generation the request asked for, of the parent with these receipt bytes, while the manifest is valid. */
  ghost predicate Continues(w: World, b: Bundle, r: Receipt, q: Request, parentData: Bytes) {
    && r.Promoted? && w.manifest(b.artifacts.manifest).Some?
    && r.generation.id == q.generationId != r.generation.parentId
    && r.generation.sequence == r.generation.parentSequence + 1
    && r.generation.parentSha == w.sha(parentData) && r.generation.action == q.action
    && r.basisNow == q.basis && r.enabledNow == q.enabled && r.retry == q.retry
    && var m := w.manifest(b.artifacts.manifest).value;
       m.notBefore <= q.created <= r.generation.promotedAt <= q.expires <= m.expires
  }

  lemma AcceptedApprovals(w: World, request: Bytes, one: Bytes, two: Bytes, ring: Keyring)
    returns (q: Request, first: Paper, second: Paper)
    requires VerifyApprovals(w, request, [one, two], ring).Some?
    ensures w.request(request) == Some(q) && q.keyringSha == ring.sha
    ensures (first.data, second.data) in {(one, two), (two, one)}
    ensures Genuine(w, ring, request, first.data, first.approval)
    ensures Genuine(w, ring, request, second.data, second.approval)
    ensures first.approval.keyId != second.approval.keyId && Less(first.approval.approverId, second.approval.approverId)
    ensures q.created <= first.approval.signedAt <= q.expires && q.created <= second.approval.signedAt <= q.expires
    ensures VerifyApprovals(w, request, [one, two], ring)
         == Some([Verified(first.approval, first.data), Verified(second.approval, second.data)])
  {
    q := w.request(request).value;
    var v := VerifyApprovals(w, request, [one, two], ring).value;
    first, second := Paper(v[0].approval, v[0].data), Paper(v[1].approval, v[1].data);
    LessIsTotal(w.approval(one).value.approverId, w.approval(two).value.approverId);
  }

  lemma BundleIsApproved(w: World, b: Bundle, parentData: Bytes, ring: Keyring, authority: string)
    returns (q: Request, first: Paper, second: Paper)
    requires ValidateBundle(w, b, parentData, ring, authority).Some?
    ensures var r := ValidateBundle(w, b, parentData, ring, authority).value;
            && TwoApproved(w, ring, b, q, first, second, r.generation.promotedAt)
            && Attests(w, ring, b, r, first, second) && Continues(w, b, r, q, parentData)
  {
    q, first, second := AcceptedApprovals(w, b.request, b.approval1, b.approval2, ring);
  }

  lemma BundleReleases(w: World, b: Bundle, parentData: Bytes, ring: Keyring, authority: string)
    requires ValidateBundle(w, b, parentData, ring, authority).Some?
    ensures Releases(w, b, ValidateBundle(w, b, parentData, ring, authority).value, authority)
  {
  }

  lemma StagingReleases(w: World, b: Bundle, authority: string)
    requires ValidateStaging(w, b, authority).Some?
    ensures var r := ValidateStaging(w, b, authority).value;
            r.Staging? && w.decodeReceipt(b.receipt) == Some(r) && Releases(w, b, r, authority)
  {
  }

  /**
   Every promoted bundle of an accepted lineage was approved by two people with keys that the named ring enables: each
   signed these request bytes, inside the request's window and before the promotion. Its receipt attests that, and it
   puts out the release it names.
   */
  lemma ChainIsApproved(w: World, head: Bundle, parents: seq<Bundle>, rings: map<string, Keyring>, authority: string,
                        i: nat)
    returns (r: Receipt, ring: Keyring, q: Request, first: Paper, second: Paper)
    requires ChainAccepted(w, head, parents, rings, authority) && i < |parents|
    ensures var b, parent := At(head, parents, i), At(head, parents, i + 1);
            && w.decodeReceipt(b.receipt) == Some(r) && r.Promoted?
            && r.generation.keyringSha in rings && ring == rings[r.generation.keyringSha]
            && TwoApproved(w, ring, b, q, first, second, r.generation.promotedAt)
            && Attests(w, ring, b, r, first, second) && Continues(w, b, r, q, parent.receipt)
            && Releases(w, b, r, authority)
  {
    var b, data := At(head, parents, i), At(head, parents, i + 1).receipt;
    assert LinkValid(w, head, parents, rings, authority, i);
    r := CheckLink(w, b, data, rings, authority).value;
    ring := rings[r.generation.keyringSha];
    q, first, second := BundleIsApproved(w, b, data, ring, authority);
    BundleReleases(w, b, data, ring, authority);
  }

  /** What promotion writes carries the same evidence, whoever validates it later. */
  lemma PromotionIsApproved(w: World, parent: Bundle, requestData: Bytes, approvals: seq<Bytes>, ring: Keyring,
                            authority: string, now: int)
    returns (r: Receipt, q: Request, first: Paper, second: Paper)
    requires Canonical(w) && Digests(w)
    requires Promote(w, parent, requestData, approvals, ring, authority, now).Some?
    ensures var b := Promote(w, parent, requestData, approvals, ring, authority, now).value;
            && |approvals| == 2 && (b.approval1, b.approval2) == (first.data, second.data)
            && (first.data, second.data) in {(approvals[0], approvals[1]), (approvals[1], approvals[0])}
            && b.request == requestData && w.decodeReceipt(b.receipt) == Some(r)
            && r.Promoted? && r.generation.promotedAt == now
            && TwoApproved(w, ring, b, q, first, second, now)
            && Attests(w, ring, b, r, first, second) && Continues(w, b, r, q, parent.receipt)
  {
    var b := Promote(w, parent, requestData, approvals, ring, authority, now).value;
    PromotedDecodes(w, parent, requestData, approvals, ring, authority, now);
    ApprovalsAgain(w, requestData, approvals, ring);
    r := w.decodeReceipt(b.receipt).value;
    q, first, second := AcceptedApprovals(w, requestData, b.approval1, b.approval2, ring);
  }
}
