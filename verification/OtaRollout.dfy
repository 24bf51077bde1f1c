/**
 OTA rollout generations of `tools/ota_rollout.py`: requests, two-person approval, the bundle and lineage
 validators, and promotion. JSON codecs, SHA-256, Ed25519 and the release-artifact check are functions of a `World`.
 */
module OtaRollout {
  import opened Basics
  import opened Patterns

  const MAX_SEQUENCE: int := 0x7FFF_FFFF
  const MIN_TIME: int := 1609459200
  const MAX_TIME: int := 4102444800
  const MAX_WINDOW: int := 86400

  datatype Action = Expand | EmergencyStop | Resume

  datatype Request = Request(
    generationId: string, sequence: int, parentId: string, parentSequence: int, parentSha: string,
    parentEnabled: bool, parentBasis: int, releaseId: string, releaseSequence: int, imageSha: string,
    action: Action, enabled: bool, basis: int, retry: int, created: int, expires: int, keyringSha: string)

  datatype Approval = Approval(requestSha: string, approverId: string, keyId: string, signedAt: int, signature: Bytes)

  datatype Evidence = Evidence(approverId: string, keyId: string, approvalSha: string)

  datatype Manifest = Manifest(releaseId: string, releaseSequence: int, imageSha: string, notBefore: int, expires: int,
                               authority: string, identity: string)

  /** What a receipt says about the released artifacts. */
  datatype Release = Release(releaseId: string, releaseSequence: int, imageSha: string, authority: string,
                             identity: string, manifestSha: string, keySha: string, configSha: string,
                             controlSha: string, originSha: string)

  datatype Generation = Generation(
    id: string, sequence: int, parentId: string, parentSequence: int, parentSha: string, action: Action,
    keyringSha: string, requestSha: string, evidence: seq<Evidence>, promotedAt: int)

  datatype Receipt =
    | Staging(release: Release, retry: int)
    | Promoted(generation: Generation, release: Release, retry: int, enabledNow: bool, basisNow: int)

  datatype Artifacts = Artifacts(manifest: Bytes, publicKey: Bytes, config: Bytes, image: Bytes)

  datatype Bundle = Bundle(artifacts: Artifacts, control: Bytes, origin: Bytes, request: Bytes,
                           approval1: Bytes, approval2: Bytes, receipt: Bytes, ready: Bytes)

  datatype Approver = Approver(approverId: string, publicKey: Bytes, enabled: bool)
  datatype Keyring = Keyring(byKeyId: map<string, Approver>, sha: string)

  datatype World = World(
    sha: Bytes -> string,
    request: Bytes -> Option<Request>,
    approval: Bytes -> Option<Approval>,
    encodeReceipt: Receipt -> Bytes,
    decodeReceipt: Bytes -> Option<Receipt>,
    manifest: Bytes -> Option<Manifest>,
    signed: (Bytes, Approval) -> bool,
    released: (Manifest, Artifacts, string) -> bool,
    control: (Manifest, int, bool, int) -> Bytes,
    origin: Manifest -> Bytes,
    readyMarker: string -> Bytes)

  predicate Identifier(s: string) {
    Named(s, 64)
  }

  predicate Timely(t: int) {
    MIN_TIME <= t <= MAX_TIME
  }

  /** SHA-256 digests are written as 64 hexadecimal digits. */
  ghost predicate Digests(w: World) {
    forall b :: Digest(w.sha(b))
  }

  /** The manifest loader's checks on the modelled fields. */
  predicate ManifestValid(m: Manifest) {
    && Identifier(m.releaseId) && 1 <= m.releaseSequence <= MAX_SEQUENCE && Digest(m.imageSha)
    && Timely(m.notBefore) && Timely(m.expires) && m.notBefore < m.expires
  }

  function LoadManifest(w: World, data: Bytes): (r: Option<Manifest>) {
    match w.manifest(data)
    case Some(m) => if ManifestValid(m) then Some(m) else None
    case None => None
  }

  // ---- Requests.

  predicate ActionValid(q: Request) {
    match q.action
    case Expand => q.enabled && q.basis > q.parentBasis && (q.parentEnabled || q.parentSequence == 0)
    case EmergencyStop => q.parentEnabled && !q.enabled && q.basis == 0
    case Resume => !q.parentEnabled && q.parentSequence != 0 && q.enabled
  }

  predicate RequestValid(q: Request) {
    && Identifier(q.generationId) && Identifier(q.parentId) && Identifier(q.releaseId)
    && Digest(q.parentSha) && Digest(q.imageSha) && Digest(q.keyringSha)
    && 1 <= q.sequence <= MAX_SEQUENCE && 0 <= q.parentSequence <= MAX_SEQUENCE - 1
    && q.sequence == q.parentSequence + 1
    && 1 <= q.releaseSequence <= MAX_SEQUENCE
    && 0 <= q.parentBasis <= 10000 && 0 <= q.basis <= 10000
    && 60 <= q.retry <= 86400
    && Timely(q.created) && Timely(q.expires)
    && q.created < q.expires <= q.created + MAX_WINDOW
    && ActionValid(q)
    && q.parentEnabled == (q.parentBasis > 0) && q.enabled == (q.basis > 0)
  }

  function ParseRequest(w: World, data: Bytes): (r: Option<Request>) {
    match w.request(data)
    case Some(q) => if RequestValid(q) then Some(q) else None
    case None => None
  }

  // ---- Approvals.

  datatype Verified = Verified(approval: Approval, data: Bytes)

  /** The checks on the signed fields of an approval. */
  predicate Signable(a: Approval) {
    Digest(a.requestSha) && Identifier(a.approverId) && Identifier(a.keyId) && Timely(a.signedAt)
  }

  predicate ApprovalValid(a: Approval) {
    Signable(a) && |a.signature| == 64
  }

  /** One approval of this request by an enabled key of the keyring. */
  predicate Approves(w: World, request: Request, requestData: Bytes, keyring: Keyring, data: Bytes) {
    match w.approval(data)
    case None => false
    case Some(a) =>
      && ApprovalValid(a) && a.requestSha == w.sha(requestData)
      && request.created <= a.signedAt <= request.expires
      && a.keyId in keyring.byKeyId
      && keyring.byKeyId[a.keyId].enabled && keyring.byKeyId[a.keyId].approverId == a.approverId
      && w.signed(keyring.byKeyId[a.keyId].publicKey, a)
  }

  function Sorted(a: Verified, b: Verified): (r: seq<Verified>)
    ensures |r| == 2
  {
    if Less(b.approval.approverId, a.approval.approverId) then [b, a] else [a, b]
  }

  /** Exactly two approvals, of distinct approvers and keys, in approver order. */
  function VerifyApprovals(w: World, requestData: Bytes, data: seq<Bytes>, keyring: Keyring): (r: Option<seq<Verified>>)
    ensures r.Some? ==> |r.value| == 2
  {
    match ParseRequest(w, requestData)
    case None => None
    case Some(q) =>
      if q.keyringSha != keyring.sha || |data| != 2 then None
      else if !Approves(w, q, requestData, keyring, data[0]) || !Approves(w, q, requestData, keyring, data[1]) then None
      else
        var a, b := w.approval(data[0]).value, w.approval(data[1]).value;
        if a.approverId == b.approverId || a.keyId == b.keyId then None
        else Some(Sorted(Verified(a, data[0]), Verified(b, data[1])))
  }

  /** The source's loop over the approvals with its sets of seen approvers and keys. */
  method VerifyRolloutApprovals(w: World, requestData: Bytes, data: seq<Bytes>, keyring: Keyring)
    returns (r: Option<seq<Verified>>)
    ensures r == VerifyApprovals(w, requestData, data, keyring)
  {
    var parsed := ParseRequest(w, requestData);
    if parsed.None? || parsed.value.keyringSha != keyring.sha || |data| != 2 { return None; }
    var request := parsed.value;
    var verified: seq<Verified> := [];
    var seenApprovers: set<string>, seenKeys: set<string> := {}, {};
    for i := 0 to |data|
      invariant |verified| == i
      invariant forall j :: 0 <= j < i ==>
        Approves(w, request, requestData, keyring, data[j]) &&
          verified[j] == Verified(w.approval(data[j]).value, data[j])
      invariant seenApprovers == set j | 0 <= j < i :: verified[j].approval.approverId
      invariant seenKeys == set j | 0 <= j < i :: verified[j].approval.keyId
      invariant forall j, k :: 0 <= j < k < i ==>
        verified[j].approval.approverId != verified[k].approval.approverId &&
          verified[j].approval.keyId != verified[k].approval.keyId
    {
      if !Approves(w, request, requestData, keyring, data[i]) { return None; }
      var a := w.approval(data[i]).value;
      if a.approverId in seenApprovers || a.keyId in seenKeys { return None; }
      seenApprovers, seenKeys := seenApprovers + {a.approverId}, seenKeys + {a.keyId};
      verified := verified + [Verified(a, data[i])];
    }
    return Some(Sorted(verified[0], verified[1]));
  }

  /** The order in which the two approvals are supplied does not matter. */
  lemma ApprovalsCommute(w: World, requestData: Bytes, a: Bytes, b: Bytes, keyring: Keyring)
    ensures VerifyApprovals(w, requestData, [a, b], keyring) == VerifyApprovals(w, requestData, [b, a], keyring)
  {
    if VerifyApprovals(w, requestData, [a, b], keyring).Some? {
      LessIsTotal(w.approval(a).value.approverId, w.approval(b).value.approverId);
    }
  }

  // ---- Parents.

  datatype ParentState = ParentState(id: string, sequence: int, enabled: bool, basis: int)

  function StateOf(r: Receipt): (s: Option<ParentState>) {
    match r
    case Staging(_, _) => Some(ParentState("staging", 0, false, 0))
    case Promoted(g, _, _, enabled, basis) =>
      if Identifier(g.id) && 1 <= g.sequence <= MAX_SEQUENCE - 1 && 0 <= basis <= 10000 && enabled == (basis > 0)
      then Some(ParentState(g.id, g.sequence, enabled, basis)) else None
  }

  predicate MatchesParent(w: World, q: Request, parent: Receipt, parentData: Bytes) {
    match StateOf(parent)
    case None => false
    case Some(s) =>
      && q.parentId == s.id && q.parentSequence == s.sequence && q.parentSha == w.sha(parentData)
      && q.parentEnabled == s.enabled && q.parentBasis == s.basis && q.sequence == s.sequence + 1
      && q.releaseId == parent.release.releaseId && q.releaseSequence == parent.release.releaseSequence
      && q.imageSha == parent.release.imageSha && q.retry == parent.retry
  }

  predicate WithinManifest(q: Request, m: Manifest) {
    q.releaseId == m.releaseId && m.notBefore <= q.created && q.expires <= m.expires
  }

  // ---- Receipts.

  function ReleaseOf(w: World, m: Manifest, a: Artifacts, authority: string, control: Bytes,
                     origin: Bytes): (r: Release)
  {
    Release(m.releaseId, m.releaseSequence, m.imageSha, authority, m.identity,
            w.sha(a.manifest), w.sha(a.publicKey), w.sha(a.config), w.sha(control), w.sha(origin))
  }

  function EvidenceOf(w: World, v: Verified): (e: Evidence) {
    Evidence(v.approval.approverId, v.approval.keyId, w.sha(v.data))
  }

  function PromotionReceipt(w: World, m: Manifest, a: Artifacts, authority: string, q: Request, requestData: Bytes,
                            approvals: seq<Verified>, promotedAt: int): (r: Receipt)
    requires |approvals| == 2
  {
    var control, origin := w.control(m, q.retry, q.enabled, q.basis), w.origin(m);
    Promoted(Generation(q.generationId, q.sequence, q.parentId, q.parentSequence, q.parentSha, q.action, q.keyringSha,
                        w.sha(requestData), [EvidenceOf(w, approvals[0]), EvidenceOf(w, approvals[1])], promotedAt),
             ReleaseOf(w, m, a, authority, control, origin), q.retry, q.enabled, q.basis)
  }

  predicate EvidenceValid(e: Evidence) {
    Identifier(e.approverId) && Identifier(e.keyId) && Digest(e.approvalSha)
  }

  predicate ReleaseValid(r: Release) {
    && Identifier(r.releaseId) && Digest(r.imageSha) && Digest(r.manifestSha) && Digest(r.keySha)
    && Digest(r.configSha) && Digest(r.controlSha) && Digest(r.originSha)
  }

  predicate GenerationValid(g: Generation) {
    && Identifier(g.id) && Identifier(g.parentId)
    && Digest(g.parentSha) && Digest(g.keyringSha) && Digest(g.requestSha)
    && 1 <= g.sequence <= MAX_SEQUENCE && 0 <= g.parentSequence <= MAX_SEQUENCE - 1
    && g.sequence == g.parentSequence + 1 && Timely(g.promotedAt)
    && |g.evidence| == 2 && EvidenceValid(g.evidence[0]) && EvidenceValid(g.evidence[1])
    && Less(g.evidence[0].approverId, g.evidence[1].approverId)
  }

  predicate ReceiptValid(r: Receipt) {
    && r.Promoted? && GenerationValid(r.generation) && ReleaseValid(r.release)
    && 0 <= r.basisNow <= 10000 && r.enabledNow == (r.basisNow > 0)
    && 60 <= r.retry <= 86400
  }

  /** A receipt that passes its checks is read back as it was written. */
  ghost predicate Canonical(w: World) {
    forall r :: ReceiptValid(r) ==> w.decodeReceipt(w.encodeReceipt(r)) == Some(r)
  }

  // ---- Validators.

  predicate InWindow(time: int, q: Request, approvals: seq<Verified>) {
    && (forall i :: 0 <= i < |approvals| ==> approvals[i].approval.signedAt <= time)
    && q.created <= time <= q.expires
  }

  function ValidateStaging(w: World, b: Bundle, authority: string): (r: Option<Receipt>)
    ensures r.Some? ==> r.value.Staging? && 60 <= r.value.retry <= 86400
  {
    match (w.decodeReceipt(b.receipt), LoadManifest(w, b.artifacts.manifest))
    case (Some(Staging(release, retry)), Some(m)) =>
      var control, origin := w.control(m, retry, false, 0), w.origin(m);
      var expected := Staging(ReleaseOf(w, m, b.artifacts, authority, control, origin), retry);
      if && 60 <= retry <= 86400
         && w.released(m, b.artifacts, authority) && m.authority == authority
         && b.receipt == w.encodeReceipt(expected) && Staging(release, retry) == expected
         && b.control == control && b.origin == origin && b.ready == w.readyMarker(w.sha(b.receipt))
      then Some(expected) else None
    case _ => None
  }

  function ValidateBundle(w: World, b: Bundle, parentData: Bytes, keyring: Keyring,
                          authority: string): (r: Option<Receipt>)
    ensures r.Some? ==> r.value.Promoted?
  {
    match (w.decodeReceipt(parentData), w.decodeReceipt(b.receipt), ParseRequest(w, b.request),
           VerifyApprovals(w, b.request, [b.approval1, b.approval2], keyring), LoadManifest(w, b.artifacts.manifest))
    case (Some(parent), Some(receipt), Some(q), Some(approvals), Some(m)) =>
      if !ReceiptValid(receipt) || b.receipt != w.encodeReceipt(receipt) then None
      else
        var expected := PromotionReceipt(w, m, b.artifacts, authority, q, b.request, approvals,
                                         receipt.generation.promotedAt);
        if && MatchesParent(w, q, parent, parentData) && WithinManifest(q, m) && q.generationId != q.parentId
           && InWindow(receipt.generation.promotedAt, q, approvals)
           && w.released(m, b.artifacts, authority) && m.authority == authority
           && receipt == expected
           && b.control == w.control(m, q.retry, q.enabled, q.basis) && b.origin == w.origin(m)
           && b.ready == w.readyMarker(w.sha(b.receipt))
        then Some(expected) else None
    case _ => None
  }

  // ---- Promotion.

  /** What promotion writes, before its own final validation. */
  function Promote(w: World, parent: Bundle, requestData: Bytes, approvalData: seq<Bytes>, keyring: Keyring,
                   authority: string, now: int): (r: Option<Bundle>)
  {
    match (w.decodeReceipt(parent.receipt), ParseRequest(w, requestData),
           VerifyApprovals(w, requestData, approvalData, keyring), LoadManifest(w, parent.artifacts.manifest))
    case (Some(parentReceipt), Some(q), Some(approvals), Some(m)) =>
      if && MatchesParent(w, q, parentReceipt, parent.receipt) && WithinManifest(q, m) && q.generationId != q.parentId
         && InWindow(now, q, approvals)
      then
        var promoted := PromotionReceipt(w, m, parent.artifacts, authority, q, requestData, approvals, now);
        var receipt := w.encodeReceipt(promoted);
        Some(Bundle(parent.artifacts, w.control(m, q.retry, q.enabled, q.basis), w.origin(m), requestData,
                    approvals[0].data, approvals[1].data, receipt, w.readyMarker(w.sha(receipt))))
      else None
    case _ => None
  }
}
