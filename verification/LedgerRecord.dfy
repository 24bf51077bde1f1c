/**
 The consumption record of `tools/sacrificial_attempt_ledger.py`: how it is built, how a published record is
 verified again, and what links the two through the claim protocol. SHA-256, Ed25519 and canonical JSON are
 functions of a `World`; times are seconds.
 */
module LedgerRecord {
  import opened Basics
  import opened Patterns
  import opened CrashDirectory
  import opened LedgerProtocol
  import opened LedgerSafety
  import opened LedgerRuns

  const MAX_RECORD_BYTES: nat := 256 * 1024
  const TIMEOUT_MS: nat := 5000
  const MINUTE: nat := 60
  const DAY: nat := 86400

  datatype Station = Station(id: string, fixtureId: string, fixtureVersion: string)
  datatype Transaction = Transaction(
    transactionId: string, attemptId: string, deviceId: string, serial: string, baseMac: string)

  datatype Policy = Policy(
    policyId: string, ledgerId: string, station: Station, authorizationKeyId: string,
    timeKeyId: string, timeKeySha: string, device: nat, inode: nat, created: int, expires: int)

  /** The release a plan is for: six digests of its evidence and images, and three Secure Boot digests. */
  datatype Release = Release(evidence: seq<string>, secureVersion: int, bootDigests: seq<string>)

  datatype Plan = Plan(
    planId: string, transaction: Transaction, release: Release, station: Station, operators: seq<string>,
    keyId: string, captureStarted: int, captureFinished: int, issued: int, expires: int)

  /** What a trusted-time request and its receipt are about. */
  datatype Subject = Subject(
    policySha: string, policyId: string, ledgerId: string, planSha: string, planId: string,
    issued: int, expires: int, attemptId: string, deviceId: string, baseMac: string, station: Station)

  datatype Request = Request(requestId: string, nonce: string, subject: Subject)

  datatype Receipt = Receipt(
    requestSha: string, requestId: string, nonce: string, subject: Subject,
    authorityKeyId: string, observed: int, expires: int, signature: string)

  datatype Record = Record(
    attemptKey: string, policySha: string, policyId: string, ledgerId: string, device: nat, inode: nat,
    planSha: string, planId: string, keyId: string, issued: int, expires: int,
    transaction: Transaction, release: Release, station: Station, operators: seq<string>,
    receipt: Receipt, roundTripMs: int, consumed: int)

  datatype Error = BadInputs | BadBindings | BadLedger | BadTime | BadRecord | Missing | WrongFile | WrongBinding

  /** Everything outside the ledger's own logic. */
  datatype World = World(
    sha: Bytes -> string,
    encodeRecord: Record -> Bytes,
    decodeRecord: Bytes -> Option<Record>,
    encodeRequest: Request -> Bytes,
    requestValid: Request -> bool,
    timeSigned: (Bytes, Receipt) -> bool,
    policyOf: (Bytes, Bytes) -> Option<Policy>,
    planOf: (Bytes, Bytes, Bytes, Bytes) -> Option<Plan>)

  datatype Inputs = Inputs(policyData: Bytes, planData: Bytes, authorizationKey: Bytes,
                           signingRequest: Bytes, signedArtifact: Bytes, timeKey: Bytes)

  // ---- Texts with a pattern.

  predicate Identifier(s: string) {
    Named(s, 128)
  }

  /** A whole second that `YYYY-MM-DDThh:mm:ssZ` can write: from the year 1000 to the year 9999. */
  predicate Stamp(t: int) {
    -30610224000 <= t <= 253402300799
  }

  /** A MAC address in upper case: six pairs of digits with colons between them. */
  predicate MacAddress(s: string) {
    |s| == 17 && forall i :: 0 <= i < 17 ==>
      if i % 3 == 2 then s[i] == ':' else '0' <= s[i] <= '9' || 'A' <= s[i] <= 'F'
  }

  /** The address without its colons, in lower case. */
  function Squeezed(s: string): string {
    if s == "" then ""
    else if s[0] == ':' then Squeezed(s[1..])
    else [if 'A' <= s[0] <= 'F' then s[0] - 'A' + 'a' else s[0]] + Squeezed(s[1..])
  }

  predicate DeviceNamed(deviceId: string, baseMac: string) {
    |deviceId| == 15 && MacAddress(baseMac) && deviceId == "xz-" + Squeezed(baseMac)
  }

  predicate StationNamed(s: Station) {
    Identifier(s.id) && Identifier(s.fixtureId) && Identifier(s.fixtureVersion)
  }

  predicate AllDigests(ds: seq<string>) {
    forall i :: 0 <= i < |ds| ==> Digest(ds[i])
  }

  predicate ReleaseValid(r: Release) {
    && |r.evidence| == 6 && AllDigests(r.evidence) && 1 <= r.secureVersion <= 16
    && |r.bootDigests| == 3 && AllDigests(r.bootDigests)
    && (forall i, j :: 0 <= i < j < 3 ==> r.bootDigests[i] != r.bootDigests[j])
  }

  predicate SubjectNamed(s: Subject) {
    && Digest(s.policySha) && Identifier(s.policyId) && Identifier(s.ledgerId) && Digest(s.planSha) &&
       Identifier(s.planId)
    && Stamp(s.issued) && Stamp(s.expires) && s.issued < s.expires
    && Identifier(s.attemptId) && DeviceNamed(s.deviceId, s.baseMac) && StationNamed(s.station)
  }

  predicate ReceiptNamed(r: Receipt) {
    && Digest(r.requestSha) && Identifier(r.requestId) && |r.nonce| == 43 && Each(r.nonce, Letter)
    && SubjectNamed(r.subject) && Identifier(r.authorityKeyId) && Stamp(r.observed) && Stamp(r.expires)
    && |r.signature| == 86 && Each(r.signature, Letter)
  }

  predicate TransactionNamed(t: Transaction) {
    && Identifier(t.transactionId) && Identifier(t.attemptId) && Identifier(t.serial)
    && DeviceNamed(t.deviceId, t.baseMac)
  }

  /** The fields of a record that `validate_record` compares with a pattern or a range. */
  predicate RecordNamed(r: Record) {
    && Digest(r.attemptKey) && Digest(r.policySha) && Identifier(r.policyId) && Identifier(r.ledgerId)
    && r.device < 0x8000_0000_0000_0000 && 1 <= r.inode < 0x1_0000_0000_0000_0000
    && Digest(r.planSha) && Identifier(r.planId) && Identifier(r.keyId)
    && TransactionNamed(r.transaction) && StationNamed(r.station)
    && 2 <= |r.operators| <= 4 && (forall i :: 0 <= i < |r.operators| ==> Identifier(r.operators[i]))
    && Stamp(r.issued) && Stamp(r.expires) && Stamp(r.consumed)
    && ReceiptNamed(r.receipt) && 0 <= r.roundTripMs <= TIMEOUT_MS
  }

  // ---- What is expected of the outside.

  /** Canonical JSON: decoding inverts encoding, for records whose fields match their patterns and ranges. */
  ghost predicate Canonical(w: World) {
    forall r :: RecordNamed(r) && ReleaseValid(r.release) ==> w.decodeRecord(w.encodeRecord(r)) == Some(r)
  }

  ghost predicate CollisionFree(w: World) {
    forall a, b :: w.sha(a) == w.sha(b) ==> a == b
  }

  function Total(texts: seq<string>): (n: nat) {
    if texts == [] then 0 else Total(texts[..|texts| - 1]) + |texts[|texts| - 1]|
  }

  /** All texts in a record that are not constants or times. */
  function Texts(r: Record): seq<string> {
    [r.attemptKey, r.policySha, r.policyId, r.ledgerId, r.planSha, r.planId, r.keyId] +
    [r.transaction.transactionId, r.transaction.attemptId, r.transaction.deviceId, r.transaction.serial] +
    [r.transaction.baseMac, r.station.id, r.station.fixtureId, r.station.fixtureVersion] +
    [r.receipt.requestSha, r.receipt.requestId, r.receipt.nonce, r.receipt.authorityKeyId, r.receipt.signature] +
    [r.receipt.subject.policySha, r.receipt.subject.policyId, r.receipt.subject.ledgerId, r.receipt.subject.planSha] +
    [r.receipt.subject.planId, r.receipt.subject.attemptId, r.receipt.subject.deviceId, r.receipt.subject.baseMac] +
    [r.receipt.subject.station.id, r.receipt.subject.station.fixtureId, r.receipt.subject.station.fixtureVersion] +
    r.operators + r.release.evidence + r.release.bootDigests
  }

  const FRAME: nat := 16 * 1024

  /**
   JSON adds member names, punctuation, numbers, times and constants to a record's texts, no more than `FRAME` bytes
   of them; texts that match their patterns need no escapes.
   */
  ghost predicate Frugal(w: World) {
    forall r :: RecordNamed(r) && ReleaseValid(r.release) ==> 1 <= |w.encodeRecord(r)| <= FRAME + Total(Texts(r))
  }

  lemma {:induction false} TotalBounded(texts: seq<string>, most: nat)
    requires forall i :: 0 <= i < |texts| ==> |texts[i]| <= most
    ensures Total(texts) <= most * |texts|
  {
    if texts != [] { TotalBounded(texts[..|texts| - 1], most); }
  }

  lemma TextsBounded(r: Record)
    requires RecordNamed(r) && ReleaseValid(r.release)
    ensures |Texts(r)| <= 44 && forall i :: 0 <= i < |Texts(r)| ==> |Texts(r)[i]| <= 128
  {
  }

  /** No record with valid fields comes near the size limit. */
  lemma NamedIsSmall(w: World, r: Record)
    requires Frugal(w) && RecordNamed(r) && ReleaseValid(r.release)
    ensures 1 <= |w.encodeRecord(r)| <= MAX_RECORD_BYTES
  {
    TextsBounded(r);
    TotalBounded(Texts(r), 128);
  }

  // ---- Checks.

  predicate PolicyValid(p: Policy) {
    Stamp(p.created) && Stamp(p.expires) && p.created < p.expires <= p.created + 30 * DAY
  }

  predicate PlanValid(p: Plan) {
    && p.captureStarted <= p.captureFinished <= p.captureStarted + 10 * MINUTE
    && p.captureFinished <= p.issued <= p.captureFinished + 15 * MINUTE
    && p.issued < p.expires <= p.issued + 15 * MINUTE
    && Stamp(p.captureStarted) && Stamp(p.captureFinished) && Stamp(p.issued) && Stamp(p.expires)
    && ReleaseValid(p.release) && TransactionNamed(p.transaction)
  }

  /** Policy from the ledger root and plan from the caller, both authenticated, and bound to one station. */
  function LoadVerifiedInputs(w: World, i: Inputs): (r: Result<(Policy, Plan), Error>) {
    match (w.policyOf(i.policyData, i.authorizationKey),
           w.planOf(i.planData, i.authorizationKey, i.signingRequest, i.signedArtifact))
    case (Some(policy), Some(plan)) =>
      if !PolicyValid(policy) || !PlanValid(plan) then Err(BadInputs)
      else if policy.station != plan.station || policy.authorizationKeyId != plan.keyId then Err(BadBindings)
      else Ok((policy, plan))
    case _ => Err(BadInputs)
  }

  function SubjectOf(w: World, i: Inputs, policy: Policy, plan: Plan): (s: Subject) {
    Subject(w.sha(i.policyData), policy.policyId, policy.ledgerId, w.sha(i.planData), plan.planId,
            plan.issued, plan.expires, plan.transaction.attemptId, plan.transaction.deviceId,
            plan.transaction.baseMac, plan.station)
  }

  predicate ReceiptValid(r: Receipt) {
    && r.observed < r.expires <= r.observed + 10
    && r.subject.issued <= r.observed <= r.subject.expires
  }

  /** The request is rebuilt from the receipt, then the receipt is checked against it. */
  predicate TrustedTime(w: World, i: Inputs, policy: Policy, plan: Plan, receipt: Receipt) {
    var request := Request(receipt.requestId, receipt.nonce, SubjectOf(w, i, policy, plan));
    && w.sha(i.timeKey) == policy.timeKeySha
    && w.requestValid(request) && ReceiptValid(receipt)
    && receipt.requestSha == w.sha(w.encodeRequest(request))
    && receipt.subject == request.subject
    && receipt.authorityKeyId == policy.timeKeyId
    && w.timeSigned(i.timeKey, receipt)
    && policy.created <= receipt.observed <= policy.expires
    && plan.issued <= receipt.observed <= plan.expires
  }

  const DOMAIN := "xz-sacrificial-attempt-v1\0"

  predicate Ascii(s: string) {
    forall i :: 0 <= i < |s| ==> s[i] as int < 128
  }

  function Codes(s: string): (b: Bytes)
    requires Ascii(s)
  {
    seq(|s|, i requires 0 <= i < |s| => s[i] as int as Byte)
  }

  function AttemptKey(w: World, attemptId: string): (key: Key)
    requires Identifier(attemptId)
  {
    assert Ascii(DOMAIN);
    w.sha(Codes(DOMAIN + attemptId))
  }

  predicate RecordValid(w: World, r: Record) {
    && RecordNamed(r)
    && r.issued <= r.consumed <= r.expires
    && r.attemptKey == AttemptKey(w, r.transaction.attemptId)
    && (forall i, j :: 0 <= i < j < |r.operators| ==> r.operators[i] != r.operators[j])
    && ReceiptValid(r.receipt)
    && r.consumed == r.receipt.observed
  }

  function BuildRecord(w: World, i: Inputs, policy: Policy, plan: Plan, receipt: Receipt, roundTripMs: int)
    : (r: Result<Record, Error>)
    requires PlanValid(plan)
  {
    var record := Record(
      AttemptKey(w, plan.transaction.attemptId), w.sha(i.policyData), policy.policyId, policy.ledgerId,
      policy.device, policy.inode, w.sha(i.planData), plan.planId, plan.keyId, plan.issued, plan.expires,
      plan.transaction, plan.release, plan.station, plan.operators, receipt, roundTripMs, receipt.observed);
    if RecordValid(w, record) then Ok(record) else Err(BadRecord)
  }

  /** The part of a consumption that runs before the claim protocol; its record is the protocol's payload. */
  function Consume(w: World, i: Inputs, receipt: Receipt, roundTripMs: int): (r: Result<Record, Error>) {
    var (policy, plan) :- LoadVerifiedInputs(w, i);
    if !TrustedTime(w, i, policy, plan, receipt) then Err(BadTime)
    else BuildRecord(w, i, policy, plan, receipt, roundTripMs)
  }

  function ReadRegular(s: State, name: Name): (r: Result<Bytes, Error>)
    requires |s.dir.trail| > 0
  {
    if name !in s.dir.Live() || s.dir.Live()[name] !in s.files then Err(Missing)
    else
      var file := s.files[s.dir.Live()[name]];
      if file.mode != RECORD_MODE || !(1 <= |file.data| <= MAX_RECORD_BYTES) then Err(WrongFile) else Ok(file.data)
  }

  function ParseRecord(w: World, data: Bytes): (r: Result<Record, Error>) {
    match w.decodeRecord(data)
    case None => Err(BadRecord)
    case Some(record) =>
      if w.encodeRecord(record) != data || !RecordValid(w, record) then Err(BadRecord) else Ok(record)
  }

  /** The directory scan accepts every entry. */
  predicate ScanAccepts(s: State)
    requires |s.dir.trail| > 0
  {
    forall n :: n in s.dir.Live() ==> EntryAccepted(s, n)
  }

  function VerifyConsumption(w: World, i: Inputs, s: State): (r: Result<Record, Error>)
    requires |s.dir.trail| > 0
  {
    var (policy, plan) :- LoadVerifiedInputs(w, i);
    if !ScanAccepts(s) then Err(BadLedger)
    else
    var data :- ReadRegular(s, Final(AttemptKey(w, plan.transaction.attemptId)));
    var record :- ParseRecord(w, data);
    if !TrustedTime(w, i, policy, plan, record.receipt) then Err(BadTime)
    else
      var expected :- BuildRecord(w, i, policy, plan, record.receipt, record.roundTripMs);
      if record != expected then Err(WrongBinding)
      else if !(policy.created <= record.consumed <= policy.expires) then Err(BadTime)
      else Ok(record)
  }

  // ---- What a consumption means.

  /** A consumption happens inside both windows and within forty minutes of the start of the preflight capture. */
  lemma ConsumedInTime(w: World, i: Inputs, receipt: Receipt, roundTripMs: int)
    requires Consume(w, i, receipt, roundTripMs).Ok?
    ensures var record := Consume(w, i, receipt, roundTripMs).value;
            var (policy, plan) := LoadVerifiedInputs(w, i).value;
            && policy.created <= record.consumed <= policy.expires
            && plan.issued <= record.consumed <= plan.expires
            && plan.captureStarted <= record.consumed <= plan.captureStarted + 40 * MINUTE
            && record.attemptKey == AttemptKey(w, plan.transaction.attemptId)
  {
  }

  /** The record of a consumption is within the read limit. */
  lemma ConsumedIsSmall(w: World, i: Inputs, receipt: Receipt, roundTripMs: int)
    requires Frugal(w) && Consume(w, i, receipt, roundTripMs).Ok?
    ensures 1 <= |w.encodeRecord(Consume(w, i, receipt, roundTripMs).value)| <= MAX_RECORD_BYTES
  {
    NamedIsSmall(w, Consume(w, i, receipt, roundTripMs).value);
  }

  lemma VerifiesAgain(w: World, i: Inputs, receipt: Receipt, roundTripMs: int, s: State, ino: Ino)
    requires Canonical(w) && Frugal(w) && Consume(w, i, receipt, roundTripMs).Ok? && s.dir.Valid()
    requires ScanAccepts(s)
    requires var record := Consume(w, i, receipt, roundTripMs).value;
             && Shows(s.dir.Live(), Final(record.attemptKey), ino) && ino in s.files
             && s.files[ino].data == w.encodeRecord(record) && s.files[ino].mode == RECORD_MODE
    ensures VerifyConsumption(w, i, s) == Consume(w, i, receipt, roundTripMs)
  {
    var record := Consume(w, i, receipt, roundTripMs).value;
    ConsumedIsSmall(w, i, receipt, roundTripMs);
    assert w.decodeRecord(w.encodeRecord(record)) == Some(record);
  }

  /**
   A process that returned success with this consumption's record: in every later state of the ledger, verification
   of the same inputs returns that record.
   */
  lemma ConsumptionVerifiesForever(w: World, i: Inputs, receipt: Receipt, roundTripMs: int,
                                   s: State, p: Pid, events: seq<Event>)
    requires Canonical(w) && Frugal(w) && Consume(w, i, receipt, roundTripMs).Ok?
    requires var record := Consume(w, i, receipt, roundTripMs).value;
             Reachable(s) && Winner(s, p, record.attemptKey) && s.procs[p].payload == w.encodeRecord(record)
    requires Run(s, events)
    ensures End(s, events).dir.Valid()
    ensures VerifyConsumption(w, i, End(s, events)) == Consume(w, i, receipt, roundTripMs)
  {
    var record := Consume(w, i, receipt, roundTripMs).value;
    ConsumedForever(s, events, p, record.attemptKey);
    var t, ino := End(s, events), s.procs[p].pc.outcome.ino;
    BoundShows(t.dir, Final(record.attemptKey), ino);
    ReachableInv(s);
    RunKeeps(s, events);
    forall n | n in t.dir.Live() ensures EntryAccepted(t, n) { EntryIsAccepted(t, n); }
    VerifiesAgain(w, i, receipt, roundTripMs, t, ino);
  }

  lemma BoundShows(d: Directory<Name, Ino>, n: Name, ino: Ino)
    requires d.Valid() && d.Bound(n, ino)
    ensures Shows(d.Live(), n, ino)
  {
  }

  /** A published record verifies for one plan and one policy only. */
  lemma ClaimBindsPlan(w: World, i: Inputs, j: Inputs, s: State)
    requires CollisionFree(w) && s.dir.Valid()
    requires VerifyConsumption(w, i, s).Ok? && VerifyConsumption(w, j, s) == VerifyConsumption(w, i, s)
    ensures i.planData == j.planData && i.policyData == j.policyData
  {
    VerifiedShas(w, i, s);
    VerifiedShas(w, j, s);
  }

  lemma VerifiedShas(w: World, i: Inputs, s: State)
    requires s.dir.Valid() && VerifyConsumption(w, i, s).Ok?
    ensures var record := VerifyConsumption(w, i, s).value;
            record.planSha == w.sha(i.planData) && record.policySha == w.sha(i.policyData)
  {
  }

  /** Distinct attempts claim distinct final names. */
  lemma AttemptsDoNotCollide(w: World, a: string, b: string)
    requires Identifier(a) && Identifier(b)
    requires CollisionFree(w) && AttemptKey(w, a) == AttemptKey(w, b)
    ensures a == b
  {
    CodesInjective(DOMAIN + a, DOMAIN + b);
    assert a == (DOMAIN + a)[|DOMAIN|..] && b == (DOMAIN + b)[|DOMAIN|..];
  }

  lemma CodesInjective(a: string, b: string)
    requires Ascii(a) && Ascii(b) && Codes(a) == Codes(b)
    ensures a == b
  {
    forall i | 0 <= i < |a| ensures a[i] == b[i] { assert Codes(a)[i] == Codes(b)[i]; }
  }
}
