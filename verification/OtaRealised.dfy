/**
 Every action word is the word of an accepted lineage: promotions by two approvers who sign what they are asked to,
 one after the other, over any accepted staging bundle.
 */
module OtaRealised {
  import opened Basics
  import opened Patterns
  import opened OtaRollout
  import opened OtaLineage
  import opened OtaWords

  /** Where promotions are made: how documents are written and signed, the IDs given out, two keys, and the time. */
  datatype Desk = Desk(
    encodeRequest: Request -> Bytes, encodeApproval: Approval -> Bytes, sign: Approval -> Bytes, id: nat -> string,
    keyring: Keyring, first: string, second: string, authority: string, time: int)

  /**
   Valid requests and approvals are read back as they were written, the IDs are different identifiers, and two keys
   of different approvers in the keyring can sign.
   */
  ghost predicate Staffed(w: World, d: Desk) {
    && Canonical(w) && Digests(w)
    && (forall q: Request :: RequestValid(q) ==> w.request(d.encodeRequest(q)) == Some(q))
    && Reads(w, d)
    && (forall k :: 1 <= k <= MAX_SEQUENCE ==> Identifier(d.id(k)) && d.id(k) != "staging")
    && (forall j, k :: 1 <= j < k <= MAX_SEQUENCE ==> d.id(j) != d.id(k))
    && Timely(d.time) && Timely(d.time + 1) && Digest(d.keyring.sha)
    && Signs(w, d, d.first) && Signs(w, d, d.second)
    && d.keyring.byKeyId[d.first].approverId != d.keyring.byKeyId[d.second].approverId
  }

  ghost predicate Reads(w: World, d: Desk) {
    forall a: Approval :: ApprovalValid(a) ==> w.approval(d.encodeApproval(a)) == Some(a)
  }

  /** The desk's signature under an approval that names this key is 64 bytes long and verifies. */
  ghost predicate Signs(w: World, d: Desk, keyId: string) {
    && keyId in d.keyring.byKeyId && d.keyring.byKeyId[keyId].enabled
    && Identifier(keyId) && Identifier(d.keyring.byKeyId[keyId].approverId)
    && forall a: Approval :: Signable(a) && a.keyId == keyId ==> |d.sign(a)| == 64 && Verifies(w, d, a)
  }

  ghost predicate Verifies(w: World, d: Desk, a: Approval)
    requires a.keyId in d.keyring.byKeyId
  {
    w.signed(d.keyring.byKeyId[a.keyId].publicKey, a.(signature := d.sign(a)))
  }

  /** The generation ID at a position of the lineage. */
  function IdAt(d: Desk, k: nat): string {
    if k == 0 then "staging" else d.id(k)
  }

  function Rings(d: Desk): map<string, Keyring> {
    map[d.keyring.sha := d.keyring]
  }

  /** The manifest admits promotions at this time. */
  predicate Open(d: Desk, m: Manifest) {
    m.notBefore <= d.time && d.time + 1 <= m.expires
  }

  /** A receipt about the release of this manifest. */
  predicate About(r: Receipt, m: Manifest) {
    && r.release.releaseId == m.releaseId && r.release.releaseSequence == m.releaseSequence
    && r.release.imageSha == m.imageSha && 60 <= r.retry <= 86400
  }

  // ----- One promotion -----

  function Ask(w: World, d: Desk, parent: Receipt, data: Bytes, s: ParentState, action: Action, basis: int): Request
    requires s.sequence >= 0
  {
    Request(IdAt(d, s.sequence + 1), s.sequence + 1, s.id, s.sequence, w.sha(data), s.enabled, s.basis,
            parent.release.releaseId, parent.release.releaseSequence, parent.release.imageSha, action, basis > 0, basis,
            parent.retry, d.time, d.time + 1, d.keyring.sha)
  }

  function Signed(w: World, d: Desk, keyId: string, requestData: Bytes): Bytes
    requires keyId in d.keyring.byKeyId
  {
    var a := Approval(w.sha(requestData), d.keyring.byKeyId[keyId].approverId, keyId, d.time, []);
    d.encodeApproval(a.(signature := d.sign(a)))
  }

  lemma AskIsValid(w: World, d: Desk, parent: Receipt, data: Bytes, s: ParentState, m: Manifest, action: Action,
                   basis: int)
    requires Staffed(w, d) && StateOf(parent) == Some(s) && About(parent, m) && Open(d, m)
    requires ManifestValid(m) && StepLegal(s, action, basis)
    ensures var q := Ask(w, d, parent, data, s, action, basis);
            RequestValid(q) && MatchesParent(w, q, parent, data) && WithinManifest(q, m)
  {
    StagingIsNamed();
  }

  lemma Approved(w: World, d: Desk, q: Request)
    requires Staffed(w, d) && RequestValid(q) && q.keyringSha == d.keyring.sha && q.created == d.time
    ensures var data := d.encodeRequest(q);
            var approvals := [Signed(w, d, d.first, data), Signed(w, d, d.second, data)];
            && ParseRequest(w, data) == Some(q)
            && VerifyApprovals(w, data, approvals, d.keyring).Some?
            && InWindow(d.time, q, VerifyApprovals(w, data, approvals, d.keyring).value)
  {
    var data := d.encodeRequest(q);
    ApprovesBy(w, d, q, data, d.first);
    ApprovesBy(w, d, q, data, d.second);
  }

  lemma ApprovesBy(w: World, d: Desk, q: Request, data: Bytes, keyId: string)
    requires Reads(w, d) && Digests(w) && Timely(d.time) && Signs(w, d, keyId) && q.created == d.time < q.expires
    ensures Approves(w, q, data, d.keyring, Signed(w, d, keyId, data))
  {
    assert Verifies(w, d, Approval(w.sha(data), d.keyring.byKeyId[keyId].approverId, keyId, d.time, []));
  }

  /** The receipt of a promotion from this state. */
  predicate Follows(d: Desk, r: Receipt, s: ParentState, action: Action, basis: int, m: Manifest)
    requires s.sequence >= 0
  {
    && r.Promoted? && r.generation.action == action && r.generation.id == IdAt(d, s.sequence + 1)
    && r.generation.sequence == s.sequence + 1 && r.basisNow == basis && r.enabledNow == (basis > 0) && About(r, m)
  }

  lemma StepPromotes(w: World, d: Desk, head: Bundle, parent: Receipt, s: ParentState, m: Manifest, action: Action,
                     basis: int) returns (data: Bytes, approvals: seq<Bytes>, b: Bundle)
    requires Staffed(w, d) && w.decodeReceipt(head.receipt) == Some(parent) &&
             LoadManifest(w, head.artifacts.manifest) == Some(m)
    requires StateOf(parent) == Some(s) && About(parent, m) && Open(d, m) && StepLegal(s, action, basis)
    requires IdAt(d, s.sequence + 1) != s.id
    ensures Promote(w, head, data, approvals, d.keyring, d.authority, d.time) == Some(b)
    ensures b.artifacts == head.artifacts && w.decodeReceipt(b.receipt).Some?
    ensures Follows(d, w.decodeReceipt(b.receipt).value, s, action, basis, m)
    ensures GenerationId(w, b) == Some(IdAt(d, s.sequence + 1))
  {
    var q := Ask(w, d, parent, head.receipt, s, action, basis);
    AskIsValid(w, d, parent, head.receipt, s, m, action, basis);
    Approved(w, d, q);
    data := d.encodeRequest(q);
    approvals := [Signed(w, d, d.first, data), Signed(w, d, d.second, data)];
    b := Promote(w, head, data, approvals, d.keyring, d.authority, d.time).value;
    PromotedDecodes(w, head, data, approvals, d.keyring, d.authority, d.time);
  }

  // ----- Whole lineages -----

  function ActionOf(w: World, b: Bundle): Option<Action> {
    match w.decodeReceipt(b.receipt)
    case Some(Promoted(g, _, _, _, _)) => Some(g.action)
    case _ => None
  }

  /** The actions of a chain, staging end first. */
  ghost predicate Spells(w: World, head: Bundle, parents: seq<Bundle>, word: seq<Action>) {
    && |word| == |parents|
    && forall i :: 0 <= i < |parents| ==> ActionOf(w, At(head, parents, i)) == Some(word[|parents| - 1 - i])
  }

  ghost predicate Numbered(w: World, d: Desk, head: Bundle, parents: seq<Bundle>) {
    forall i :: 0 <= i < |parents| ==> GenerationId(w, At(head, parents, i)) == Some(IdAt(d, |parents| - i))
  }

  /** The head of a chain of this length, in state `s` apart from the ID. */
  ghost predicate HeadAt(w: World, d: Desk, head: Bundle, s: ParentState, k: nat) {
    var m, r := LoadManifest(w, head.artifacts.manifest), w.decodeReceipt(head.receipt);
    && m.Some? && r.Some? && Open(d, m.value) && About(r.value, m.value)
    && s.sequence == k && StateOf(r.value) == Some(s.(id := IdAt(d, k)))
  }

  /** An accepted chain whose head is in state `s`, with the IDs of the positions. */
  ghost predicate Stands(w: World, d: Desk, head: Bundle, parents: seq<Bundle>, s: ParentState) {
    && ParentChain(w, head, parents, Rings(d), d.authority) && Numbered(w, d, head, parents)
    && HeadAt(w, d, head, s, |parents|)
  }

  lemma NewId(w: World, d: Desk, head: Bundle, parents: seq<Bundle>)
    requires Staffed(w, d) && Numbered(w, d, head, parents) && |parents| + 1 <= MAX_SEQUENCE
    ensures IdAt(d, |parents| + 1) != IdAt(d, |parents|)
    ensures Some(IdAt(d, |parents| + 1)) !in PromotedIds(w, head, parents)
  {
  }

  lemma NextNumbered(w: World, d: Desk, b: Bundle, head: Bundle, parents: seq<Bundle>, word: seq<Action>,
                     action: Action)
    requires Numbered(w, d, head, parents) && GenerationId(w, b) == Some(IdAt(d, |parents| + 1))
    requires Spells(w, head, parents, word) && ActionOf(w, b) == Some(action)
    ensures Numbered(w, d, b, [head] + parents) && Spells(w, b, [head] + parents, word + [action])
  {
    var all := [head] + parents;
    forall i | 0 <= i < |all| ensures GenerationId(w, At(b, all, i)) == Some(IdAt(d, |all| - i)) {
      if i > 0 { assert At(b, all, i) == At(head, parents, i - 1); }
    }
    NextSpelled(w, b, head, parents, word, action);
  }

  lemma NextSpelled(w: World, b: Bundle, head: Bundle, parents: seq<Bundle>, word: seq<Action>, action: Action)
    requires Spells(w, head, parents, word) && ActionOf(w, b) == Some(action)
    ensures Spells(w, b, [head] + parents, word + [action])
  {
    var all := [head] + parents;
    forall i | 0 <= i < |all| ensures ActionOf(w, At(b, all, i)) == Some((word + [action])[|all| - 1 - i]) {
      if i > 0 { assert At(b, all, i) == At(head, parents, i - 1); }
    }
  }

  lemma FollowsHead(w: World, d: Desk, head: Bundle, b: Bundle, s: ParentState, k: nat, m: Manifest, action: Action,
                    basis: int)
    requires Staffed(w, d) && HeadAt(w, d, head, s, k) && StepLegal(s, action, basis) && k + 1 < MAX_SEQUENCE
    requires b.artifacts == head.artifacts && LoadManifest(w, head.artifacts.manifest) == Some(m)
    requires w.decodeReceipt(b.receipt).Some?
    requires Follows(d, w.decodeReceipt(b.receipt).value, s.(id := IdAt(d, k)), action, basis, m)
    ensures HeadAt(w, d, b, Moved(s, basis), k + 1)
    ensures GenerationId(w, b) == Some(IdAt(d, k + 1)) && ActionOf(w, b) == Some(action)
  {
  }

  lemma NextIdDiffers(w: World, d: Desk, k: nat)
    requires Staffed(w, d) && k + 1 <= MAX_SEQUENCE
    ensures IdAt(d, k + 1) != IdAt(d, k)
  {
  }

  lemma LinkExtends(w: World, d: Desk, b: Bundle, head: Bundle, parents: seq<Bundle>)
    requires Staffed(w, d) && ParentChain(w, head, parents, Rings(d), d.authority) && Numbered(w, d, head, parents)
    requires CheckLink(w, b, head.receipt, Rings(d), d.authority).Some? && |parents| + 1 <= MAX_SEQUENCE
    requires GenerationId(w, b) == Some(IdAt(d, |parents| + 1))
    ensures ChainAccepted(w, b, [head] + parents, Rings(d), d.authority)
  {
    NewId(w, d, head, parents);
    ExtendedChain(w, b, head, parents, Rings(d), Rings(d), d.authority);
  }

  lemma PromotedExtends(w: World, d: Desk, head: Bundle, parents: seq<Bundle>, data: Bytes, approvals: seq<Bytes>,
                        b: Bundle)
    requires Staffed(w, d) && ParentChain(w, head, parents, Rings(d), d.authority) && Numbered(w, d, head, parents)
    requires Promote(w, head, data, approvals, d.keyring, d.authority, d.time) == Some(b)
    requires |parents| + 1 <= MAX_SEQUENCE && GenerationId(w, b) == Some(IdAt(d, |parents| + 1))
    ensures ChainAccepted(w, b, [head] + parents, Rings(d), d.authority)
  {
    ParentChainAccepted(w, head, parents, Rings(d), d.authority);
    PromotedLink(w, head, data, approvals, d.keyring, Rings(d), d.authority, d.time);
    LinkExtends(w, d, b, head, parents);
  }

  /** A promotion by a legal step, on top of an accepted chain, gives an accepted chain. */
  lemma StepLinks(w: World, d: Desk, head: Bundle, parents: seq<Bundle>, parent: Receipt, s: ParentState, m: Manifest,
                  action: Action, basis: int) returns (b: Bundle)
    requires Staffed(w, d) && w.decodeReceipt(head.receipt) == Some(parent)
    requires LoadManifest(w, head.artifacts.manifest) == Some(m)
    requires StateOf(parent) == Some(s) && About(parent, m) && Open(d, m) && StepLegal(s, action, basis)
    requires s.id == IdAt(d, |parents|) && s.sequence == |parents| && |parents| + 1 < MAX_SEQUENCE
    requires ParentChain(w, head, parents, Rings(d), d.authority) && Numbered(w, d, head, parents)
    ensures b.artifacts == head.artifacts && ChainAccepted(w, b, [head] + parents, Rings(d), d.authority)
    ensures w.decodeReceipt(b.receipt).Some? && Follows(d, w.decodeReceipt(b.receipt).value, s, action, basis, m)
  {
    NextIdDiffers(w, d, |parents|);
    var data, approvals, next := StepPromotes(w, d, head, parent, s, m, action, basis);
    b := next;
    PromotedExtends(w, d, head, parents, data, approvals, b);
  }

  lemma HeadGrows(w: World, d: Desk, head: Bundle, parents: seq<Bundle>, s: ParentState, action: Action, basis: int)
    returns (b: Bundle)
    requires Staffed(w, d) && Stands(w, d, head, parents, s)
    requires StepLegal(s, action, basis) && |parents| + 1 < MAX_SEQUENCE
    ensures ChainAccepted(w, b, [head] + parents, Rings(d), d.authority)
    ensures HeadAt(w, d, b, Moved(s, basis), |parents| + 1)
    ensures GenerationId(w, b) == Some(IdAt(d, |parents| + 1)) && ActionOf(w, b) == Some(action)
  {
    var m, r := LoadManifest(w, head.artifacts.manifest).value, w.decodeReceipt(head.receipt).value;
    b := StepLinks(w, d, head, parents, r, s.(id := IdAt(d, |parents|)), m, action, basis);
    FollowsHead(w, d, head, b, s, |parents|, m, action, basis);
  }

  /** One more promotion on top of an accepted chain. */
  lemma ChainGrows(w: World, d: Desk, head: Bundle, parents: seq<Bundle>, s: ParentState, word: seq<Action>,
                   action: Action, basis: int) returns (b: Bundle)
    requires Staffed(w, d) && Stands(w, d, head, parents, s) && Spells(w, head, parents, word)
    requires StepLegal(s, action, basis) && s.sequence + 1 < MAX_SEQUENCE
    ensures Stands(w, d, b, [head] + parents, Moved(s, basis)) && Spells(w, b, [head] + parents, word + [action])
    ensures ChainAccepted(w, b, [head] + parents, Rings(d), d.authority)
  {
    b := HeadGrows(w, d, head, parents, s, action, basis);
    NextNumbered(w, d, b, head, parents, word, action);
  }

  /** An accepted chain over this staging bundle with this word, its head in state `s`. */
  ghost predicate Realises(w: World, d: Desk, staging: Bundle, s: ParentState, word: seq<Action>, head: Bundle,
                           parents: seq<Bundle>)
  {
    && Stands(w, d, head, parents, s) && Spells(w, head, parents, word) && At(head, parents, |parents|) == staging
    && (word != [] ==> ChainAccepted(w, head, parents, Rings(d), d.authority))
  }

  lemma RealisedGrows(w: World, d: Desk, staging: Bundle, s: ParentState, word: seq<Action>, head: Bundle,
                      parents: seq<Bundle>, step: Step) returns (b: Bundle)
    requires Staffed(w, d) && Realises(w, d, staging, s, word, head, parents)
    requires StepLegal(s, step.0, step.1) && |word| + 1 < MAX_SEQUENCE
    ensures Realises(w, d, staging, Moved(s, step.1), word + [step.0], b, [head] + parents)
  {
    b := ChainGrows(w, d, head, parents, s, word, step.0, step.1);
    LastOfShifted(b, head, parents);
  }

  lemma LastOfShifted(b: Bundle, head: Bundle, parents: seq<Bundle>)
    ensures At(b, [head] + parents, |[head] + parents|) == At(head, parents, |parents|)
  {
  }

  lemma {:induction false} LastStep(s: ParentState, steps: seq<Step>, n: nat)
    requires s.sequence >= 0 && n + 1 == |steps| && Playable(s, steps)
    ensures Playable(s, steps[..n]) && StepLegal(Final(s, steps[..n]), steps[n].0, steps[n].1)
    ensures Final(s, steps) == Moved(Final(s, steps[..n]), steps[n].1)
    ensures ActionsOf(steps) == ActionsOf(steps[..n]) + [steps[n].0]
  {
  }

  lemma {:induction false} StepsStand(w: World, d: Desk, staging: Bundle, steps: seq<Step>)
    returns (head: Bundle, parents: seq<Bundle>)
    requires Staffed(w, d) && Stands(w, d, staging, [], START) && Playable(START, steps) && |steps| < MAX_SEQUENCE
    ensures Realises(w, d, staging, Final(START, steps), ActionsOf(steps), head, parents)
    decreases |steps|
  {
    if steps == [] {
      head, parents := staging, [];
    } else {
      var n := |steps| - 1;
      LastStep(START, steps, n);
      var before, older := StepsStand(w, d, staging, steps[..n]);
      head := RealisedGrows(w, d, staging, Final(START, steps[..n]), ActionsOf(steps[..n]), before, older, steps[n]);
      parents := [before] + older;
    }
  }

  lemma StagingStands(w: World, d: Desk, staging: Bundle)
    requires ValidateStaging(w, staging, d.authority).Some?
    requires Open(d, LoadManifest(w, staging.artifacts.manifest).value)
    ensures Stands(w, d, staging, [], START)
  {
  }

  /**
   Every word EXPAND+ (STOP RESUME EXPAND*)* with an optional final STOP whose stretches have at most ten thousand
   generations is the word of a chain of promoted bundles over any accepted staging bundle, and the chain validator
   accepts that chain.
   */
  lemma WordIsRealised(w: World, d: Desk, staging: Bundle, n: nat, ks: seq<nat>, stopped: bool)
    returns (head: Bundle, parents: seq<Bundle>)
    requires Staffed(w, d) && ValidateStaging(w, staging, d.authority).Some?
    requires Open(d, LoadManifest(w, staging.artifacts.manifest).value)
    requires 1 <= n <= MAX_BASIS && StretchesFit(ks) && |Word(n, ks, stopped)| < MAX_SEQUENCE
    ensures ChainAccepted(w, head, parents, Rings(d), d.authority)
    ensures Spells(w, head, parents, Word(n, ks, stopped)) && At(head, parents, |parents|) == staging
  {
    StagingStands(w, d, staging);
    var steps := WordPlays(n, ks, stopped);
    assert |ActionsOf(steps)| == |steps|;
    WordIsNotEmpty(n, ks, stopped);
    head, parents := StepsStand(w, d, staging, steps);
  }

  lemma WordIsNotEmpty(n: nat, ks: seq<nat>, stopped: bool)
    requires n > 0
    ensures |Word(n, ks, stopped)| > 0
  {
  }
}
