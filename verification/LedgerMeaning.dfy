/**
 What a consumption stands for, field by field: which inputs it accepts and what its record says, and which ledger
 states verify it.
 */
module LedgerMeaning {
  import opened Basics
  import opened Patterns
  import opened CrashDirectory
  import opened LedgerProtocol
  import opened LedgerSafety
  import opened LedgerRecord

  /** Policy and plan are authenticated with one key, for one station, and their windows are within the limits. */
  ghost predicate Authorised(w: World, i: Inputs, policy: Policy, plan: Plan) {
    && w.policyOf(i.policyData, i.authorizationKey) == Some(policy)
    && w.planOf(i.planData, i.authorizationKey, i.signingRequest, i.signedArtifact) == Some(plan)
    && policy.station == plan.station && policy.authorizationKeyId == plan.keyId
    && 0 < policy.expires - policy.created <= 2_592_000
    && 0 <= plan.captureFinished - plan.captureStarted <= 600 && 0 <= plan.issued - plan.captureFinished <= 900
    && 0 < plan.expires - plan.issued <= 900
    && Stamp(policy.created) && Stamp(policy.expires) && Stamp(plan.issued) && Stamp(plan.expires)
    && Stamp(plan.captureStarted) && Stamp(plan.captureFinished)
    && ReleaseValid(plan.release) && TransactionNamed(plan.transaction)
  }

  /** The subject of a time receipt is this policy, this plan and this device. */
  predicate AboutThis(w: World, i: Inputs, policy: Policy, plan: Plan, s: Subject) {
    && s.policySha == w.sha(i.policyData) && s.policyId == policy.policyId && s.ledgerId == policy.ledgerId
    && s.planSha == w.sha(i.planData) && s.planId == plan.planId && s.issued == plan.issued && s.expires == plan.expires
    && s.attemptId == plan.transaction.attemptId && s.deviceId == plan.transaction.deviceId
    && s.baseMac == plan.transaction.baseMac && s.station == plan.station
  }

  /** The time authority that the policy names signed a receipt about this, inside both windows. */
  ghost predicate TimeProved(w: World, i: Inputs, policy: Policy, plan: Plan, receipt: Receipt) {
    && w.sha(i.timeKey) == policy.timeKeySha && receipt.authorityKeyId == policy.timeKeyId
    && w.timeSigned(i.timeKey, receipt) && AboutThis(w, i, policy, plan, receipt.subject)
    && (var request := Request(receipt.requestId, receipt.nonce, receipt.subject);
        w.requestValid(request) && receipt.requestSha == w.sha(w.encodeRequest(request)))
    && 0 < receipt.expires - receipt.observed <= 10
    && policy.created <= receipt.observed <= policy.expires && plan.issued <= receipt.observed <= plan.expires
  }

  /** What the record says. */
  predicate Records(w: World, i: Inputs, policy: Policy, plan: Plan, receipt: Receipt, roundTripMs: int, r: Record) {
    && r.policySha == w.sha(i.policyData) && r.policyId == policy.policyId && r.ledgerId == policy.ledgerId
    && r.device == policy.device && r.inode == policy.inode
    && r.planSha == w.sha(i.planData) && r.planId == plan.planId && r.keyId == plan.keyId
    && r.issued == plan.issued && r.expires == plan.expires && r.transaction == plan.transaction
    && r.release == plan.release && r.station == plan.station && r.operators == plan.operators
    && r.receipt == receipt && r.roundTripMs == roundTripMs && r.consumed == receipt.observed
    && Identifier(plan.transaction.attemptId) && Keyed(w, plan.transaction.attemptId, r.attemptKey)
  }

  /** The digest of the domain's name, a zero byte and the attempt ID. */
  predicate Keyed(w: World, attemptId: string, key: Key) {
    Ascii("xz-sacrificial-attempt-v1\0" + attemptId) && key == w.sha(Codes("xz-sacrificial-attempt-v1\0" + attemptId))
  }

  /** The record's fields match their patterns, its operators are different, and the time came back in five seconds. */
  predicate WellFormed(r: Record) {
    && RecordNamed(r) && r.roundTripMs <= 5000
    && forall i, j :: 0 <= i < j < |r.operators| ==> r.operators[i] != r.operators[j]
  }

  lemma KeyedExactly(w: World, attemptId: string, key: Key)
    requires Identifier(attemptId)
    ensures Keyed(w, attemptId, key) <==> key == AttemptKey(w, attemptId)
  {
    assert Ascii(DOMAIN) && Ascii(attemptId);
    assert forall i :: 0 <= i < |DOMAIN + attemptId| ==>
      (DOMAIN + attemptId)[i] == if i < |DOMAIN| then DOMAIN[i] else attemptId[i - |DOMAIN|];
  }

  lemma AuthorisedExactly(w: World, i: Inputs, policy: Policy, plan: Plan)
    ensures Authorised(w, i, policy, plan) <==> LoadVerifiedInputs(w, i) == Ok((policy, plan))
  {
  }

  lemma TimeExactly(w: World, i: Inputs, policy: Policy, plan: Plan, receipt: Receipt)
    ensures TimeProved(w, i, policy, plan, receipt) <==> TrustedTime(w, i, policy, plan, receipt)
  {
    if AboutThis(w, i, policy, plan, receipt.subject) { assert receipt.subject == SubjectOf(w, i, policy, plan); }
  }

  lemma RecordExactly(w: World, i: Inputs, policy: Policy, plan: Plan, receipt: Receipt, roundTripMs: int, r: Record)
    requires Authorised(w, i, policy, plan) && TimeProved(w, i, policy, plan, receipt)
    ensures PlanValid(plan)
    ensures BuildRecord(w, i, policy, plan, receipt, roundTripMs) == Ok(r) <==>
            Records(w, i, policy, plan, receipt, roundTripMs, r) && WellFormed(r)
  {
    AuthorisedExactly(w, i, policy, plan);
    KeyedExactly(w, plan.transaction.attemptId, r.attemptKey);
  }

  /**
   A consumption succeeds with this record exactly when the inputs are authorised, the time authority vouches for them
   inside both windows, and the record states them.
   */
  lemma ConsumesExactly(w: World, i: Inputs, receipt: Receipt, roundTripMs: int, policy: Policy, plan: Plan, r: Record)
    ensures Consume(w, i, receipt, roundTripMs) == Ok(r) && LoadVerifiedInputs(w, i) == Ok((policy, plan)) <==>
            && Authorised(w, i, policy, plan) && TimeProved(w, i, policy, plan, receipt)
            && Records(w, i, policy, plan, receipt, roundTripMs, r) && WellFormed(r)
  {
    AuthorisedExactly(w, i, policy, plan);
    TimeExactly(w, i, policy, plan, receipt);
    if Authorised(w, i, policy, plan) && TimeProved(w, i, policy, plan, receipt) {
      RecordExactly(w, i, policy, plan, receipt, roundTripMs, r);
    }
  }

  /** Every name in the claims directory is a claim at mode 0400 or a temporary at mode 0600 or 0400. */
  ghost predicate Orderly(s: State)
    requires s.dir.Valid()
  {
    forall n :: n in s.dir.Live() ==>
      && s.dir.Live()[n] in s.files
      && (s.files[s.dir.Live()[n]].mode == 0x100 || (n.Temp? && s.files[s.dir.Live()[n]].mode == 0x180))
  }

  /** The claim of this key holds these bytes, of acceptable length, at mode 0400. */
  ghost predicate Holds(s: State, key: Key, data: Bytes)
    requires s.dir.Valid()
  {
    && Final(key) in s.dir.Live() && s.dir.Live()[Final(key)] in s.files
    && s.files[s.dir.Live()[Final(key)]].data == data && s.files[s.dir.Live()[Final(key)]].mode == 0x100
    && 0 < |data| <= 262_144
  }

  lemma OrderlyExactly(s: State)
    requires s.dir.Valid()
    ensures Orderly(s) <==> ScanAccepts(s)
  {
    if Orderly(s) {
      forall n | n in s.dir.Live() ensures EntryAccepted(s, n) {}
    }
    if ScanAccepts(s) {
      forall n | n in s.dir.Live()
        ensures s.dir.Live()[n] in s.files
        ensures s.files[s.dir.Live()[n]].mode == 0x100 || (n.Temp? && s.files[s.dir.Live()[n]].mode == 0x180)
      {
        assert EntryAccepted(s, n);
      }
    }
  }

  /**
   Verification returns this record exactly when the directory is in order, the claim of the record's key holds its
   encoding, and a consumption of the same inputs with the record's own time receipt gives that record.
   */
  lemma VerifiesExactly(w: World, i: Inputs, s: State, r: Record)
    requires s.dir.Valid()
    ensures VerifyConsumption(w, i, s) == Ok(r) <==>
            && Orderly(s) && Holds(s, r.attemptKey, w.encodeRecord(r)) && w.decodeRecord(w.encodeRecord(r)) == Some(r)
            && Consume(w, i, r.receipt, r.roundTripMs) == Ok(r)
  {
    OrderlyExactly(s);
    if Consume(w, i, r.receipt, r.roundTripMs) == Ok(r) {
      var (policy, plan) := LoadVerifiedInputs(w, i).value;
      ConsumesExactly(w, i, r.receipt, r.roundTripMs, policy, plan, r);
    }
  }

  // ---- Device names.

  function Lower(c: char): char {
    if 'A' <= c <= 'F' then c - 'A' + 'a' else c
  }

  /** Pairs of digits with colons between them. */
  predicate Pairs(s: string, n: nat) {
    n > 0 && |s| == 3 * n - 1 && forall i :: 0 <= i < |s| ==> (s[i] == ':' <==> i % 3 == 2)
  }

  lemma {:induction false} SqueezedPairs(s: string, n: nat)
    requires Pairs(s, n)
    ensures |Squeezed(s)| == 2 * n
    ensures forall i :: 0 <= i < n ==>
              Squeezed(s)[2 * i] == Lower(s[3 * i]) && Squeezed(s)[2 * i + 1] == Lower(s[3 * i + 1])
    decreases n
  {
    var t := s[1..];
    var u := t[1..];
    assert Squeezed(s) == [Lower(s[0])] + Squeezed(t) && Squeezed(t) == [Lower(s[1])] + Squeezed(u);
    if n == 1 {
      assert u == "";
    } else {
      var v := u[1..];
      assert u[0] == s[2] == ':' && Squeezed(u) == Squeezed(v);
      assert forall i :: 0 <= i < |v| ==> v[i] == s[i + 3];
      SqueezedPairs(v, n - 1);
      forall i | 0 <= i < n
        ensures Squeezed(s)[2 * i] == Lower(s[3 * i]) && Squeezed(s)[2 * i + 1] == Lower(s[3 * i + 1])
      {
        if i > 0 { assert v[3 * (i - 1)] == s[3 * i] && v[3 * (i - 1) + 1] == s[3 * i + 1]; }
      }
    }
  }

  /** A device ID is `xz-` and the twelve digits of its address, in lower case. */
  lemma DeviceNameDigits(deviceId: string, baseMac: string)
    requires DeviceNamed(deviceId, baseMac)
    ensures |deviceId| == 15 && deviceId[..3] == "xz-" && |baseMac| == 17
    ensures forall i :: 0 <= i < 6 ==>
              deviceId[3 + 2 * i] == Lower(baseMac[3 * i]) && deviceId[4 + 2 * i] == Lower(baseMac[3 * i + 1])
  {
    SqueezedPairs(baseMac, 6);
  }

  /** Every address has its device ID. */
  lemma AddressHasName(baseMac: string)
    requires MacAddress(baseMac)
    ensures DeviceNamed("xz-" + Squeezed(baseMac), baseMac)
  {
    SqueezedPairs(baseMac, 6);
  }
}
