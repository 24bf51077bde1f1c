/** Lineages of rollout generations: what acceptance means, and how promotion extends them. */
module OtaLineage {
  import opened Basics
  import opened OtaRollout

  // ---- The lineage validator.

  /** Bundle `i` of the chain, counting from the head towards the staging bundle. */
  function At(head: Bundle, parents: seq<Bundle>, i: nat): Bundle
    requires i <= |parents|
  {
    if i == 0 then head else parents[i - 1]
  }

  function GenerationId(w: World, b: Bundle): (id: Option<string>) {
    match w.decodeReceipt(b.receipt)
    case Some(Promoted(g, _, _, _, _)) => Some(g.id)
    case _ => None
  }

  /** A promoted generation over this parent, under one of the trusted keyring snapshots. */
  function CheckLink(w: World, b: Bundle, parentData: Bytes, keyrings: map<string, Keyring>, authority: string)
    : (r: Option<Receipt>)
    ensures r.Some? ==>
            r == w.decodeReceipt(b.receipt) && r.value.Promoted? && r.value.generation.keyringSha in keyrings
    ensures r.Some? ==> w.decodeReceipt(parentData).Some? && Succeeds(w.decodeReceipt(parentData).value, r.value)
  {
    match w.decodeReceipt(b.receipt)
    case Some(Promoted(g, _, _, _, _)) =>
      if g.keyringSha in keyrings then ValidateBundle(w, b, parentData, keyrings[g.keyringSha], authority) else None
    case _ => None
  }

  predicate LinkValid(w: World, head: Bundle, parents: seq<Bundle>, keyrings: map<string, Keyring>, authority: string,
                      i: nat)
    requires i < |parents|
  {
    CheckLink(w, At(head, parents, i), At(head, parents, i + 1).receipt, keyrings, authority).Some?
  }

  ghost predicate Distinct(w: World, head: Bundle, parents: seq<Bundle>) {
    forall i, j :: 0 <= i < j < |parents| ==>
      GenerationId(w, At(head, parents, i)) != GenerationId(w, At(head, parents, j))
  }

  ghost predicate ChainAccepted(w: World, head: Bundle, parents: seq<Bundle>, keyrings: map<string, Keyring>,
                                authority: string)
  {
    && parents != [] && keyrings != map[]
    && (forall i :: 0 <= i < |parents| ==> LinkValid(w, head, parents, keyrings, authority, i))
    && Distinct(w, head, parents)
    && ValidateStaging(w, At(head, parents, |parents|), authority).Some?
  }

  predicate LinkOk(check: (Bundle, Bytes) -> Option<Receipt>, head: Bundle, parents: seq<Bundle>, i: nat)
    requires i < |parents|
  {
    check(At(head, parents, i), At(head, parents, i + 1).receipt).Some?
  }

  /** The generation IDs of the first `i` bundles. */
  function SeenIds(w: World, head: Bundle, parents: seq<Bundle>, i: nat): set<Option<string>>
    requires i <= |parents|
  {
    if i == 0 then {} else SeenIds(w, head, parents, i - 1) + {GenerationId(w, At(head, parents, i - 1))}
  }

  lemma {:induction false} SeenBefore(w: World, head: Bundle, parents: seq<Bundle>, i: nat, id: Option<string>)
    requires i <= |parents|
    ensures id in SeenIds(w, head, parents, i) <==>
            exists j :: 0 <= j < i && GenerationId(w, At(head, parents, j)) == id
  {
    if i > 0 { SeenBefore(w, head, parents, i - 1, id); }
  }

  ghost predicate DistinctUpTo(w: World, head: Bundle, parents: seq<Bundle>, i: nat)
    requires i <= |parents|
  {
    forall j, k :: 0 <= j < k < i ==> GenerationId(w, At(head, parents, j)) != GenerationId(w, At(head, parents, k))
  }

  lemma DistinctNext(w: World, head: Bundle, parents: seq<Bundle>, i: nat)
    requires i < |parents| && DistinctUpTo(w, head, parents, i)
    ensures DistinctUpTo(w, head, parents, i + 1) <==>
              GenerationId(w, At(head, parents, i)) !in SeenIds(w, head, parents, i)
  {
    SeenBefore(w, head, parents, i, GenerationId(w, At(head, parents, i)));
  }

  /** The source's walk from the head towards the staging bundle with its set of seen generations. */
  method WalkChain(w: World, head: Bundle, parents: seq<Bundle>, check: (Bundle, Bytes) -> Option<Receipt>)
    returns (r: Option<Receipt>)
    requires parents != []
    ensures r.Some? <==>
            (forall i :: 0 <= i < |parents| ==> LinkOk(check, head, parents, i)) && Distinct(w, head, parents)
    ensures r.Some? ==> r == check(head, parents[0].receipt)
  {
    var current := head;
    var seen: set<Option<string>> := {};
    r := None;
    for i := 0 to |parents|
      invariant current == At(head, parents, i) && seen == SeenIds(w, head, parents, i)
      invariant forall j :: 0 <= j < i ==> LinkOk(check, head, parents, j)
      invariant DistinctUpTo(w, head, parents, i)
      invariant i > 0 ==> r.Some? && r == check(head, parents[0].receipt)
    {
      DistinctNext(w, head, parents, i);
      if GenerationId(w, current) in seen { return None; }
      seen := seen + {GenerationId(w, current)};
      var validated := check(current, parents[i].receipt);
      assert validated.Some? <==> LinkOk(check, head, parents, i);
      if validated.None? { return None; }
      if i == 0 { r := validated; }
      current := parents[i];
    }
  }

  /** `validate_rollout_chain`: the walk, then the staging bundle at its end. */
  method ValidateRolloutChain(w: World, head: Bundle, parents: seq<Bundle>, keyrings: map<string, Keyring>,
                              authority: string)
    returns (r: Option<Receipt>)
    ensures r.Some? <==> ChainAccepted(w, head, parents, keyrings, authority)
    ensures r.Some? ==> w.decodeReceipt(head.receipt) == r
  {
    if |parents| == 0 || |keyrings| == 0 { return None; }
    var check := (b, data) => CheckLink(w, b, data, keyrings, authority);
    r := WalkChain(w, head, parents, check);
    SameLinks(w, head, parents, keyrings, authority, check);
    if ValidateStaging(w, At(head, parents, |parents|), authority).None? { return None; }
  }

  lemma SameLinks(w: World, head: Bundle, parents: seq<Bundle>, keyrings: map<string, Keyring>, authority: string,
                  check: (Bundle, Bytes) -> Option<Receipt>)
    requires forall b, data :: check(b, data) == CheckLink(w, b, data, keyrings, authority)
    ensures forall i :: 0 <= i < |parents| ==>
              (LinkOk(check, head, parents, i) <==> LinkValid(w, head, parents, keyrings, authority, i))
  {
  }

  // ---- Every accepted lineage.

  /** The receipts of the lineage, staging bundle first. */
  function Receipts(w: World, head: Bundle, parents: seq<Bundle>): (r: seq<Option<Receipt>>)
    ensures |r| == |parents| + 1
  {
    seq(|parents| + 1, k requires 0 <= k <= |parents| => w.decodeReceipt(At(head, parents, |parents| - k).receipt))
  }

  /** One promotion step: how a generation's receipt relates to its parent's. */
  predicate Succeeds(parent: Receipt, child: Receipt) {
    && child.Promoted? && StateOf(parent).Some?
    && var s := StateOf(parent).value;
       && child.generation.parentId == s.id && child.generation.id != s.id
       && child.generation.parentSequence == s.sequence && child.generation.sequence == s.sequence + 1
       && child.release.releaseId == parent.release.releaseId && child.retry == parent.retry
       && 0 <= child.basisNow <= 10000 && child.enabledNow == (child.basisNow > 0)
       && match child.generation.action
          case Expand => child.enabledNow && child.basisNow > s.basis && (s.enabled || s.sequence == 0)
          case EmergencyStop => s.enabled && !child.enabledNow
          case Resume => !s.enabled && s.sequence != 0 && child.enabledNow
  }

  ghost predicate Lineage(r: seq<Receipt>) {
    && |r| > 0 && r[0].Staging?
    && forall k :: 1 <= k < |r| ==> Succeeds(r[k - 1], r[k])
  }

  predicate Linked(all: seq<Option<Receipt>>, k: nat)
    requires 1 <= k < |all|
  {
    all[k].Some? && all[k].value.Promoted? && all[k - 1].Some? && Succeeds(all[k - 1].value, all[k].value)
  }

  lemma ReceiptLinked(w: World, head: Bundle, parents: seq<Bundle>, keyrings: map<string, Keyring>, authority: string,
                      k: nat)
    requires 1 <= k <= |parents| && LinkValid(w, head, parents, keyrings, authority, |parents| - k)
    ensures Linked(Receipts(w, head, parents), k)
  {
    var i := |parents| - k;
    assert Receipts(w, head, parents)[k] == w.decodeReceipt(At(head, parents, i).receipt);
    assert Receipts(w, head, parents)[k - 1] == w.decodeReceipt(At(head, parents, i + 1).receipt);
  }

  /** Receipts that all decode and are linked one to the next. */
  ghost predicate Unbroken(all: seq<Option<Receipt>>) {
    all != [] && all[0].Some? && all[0].value.Staging? && forall k :: 1 <= k < |all| ==> Linked(all, k)
  }

  lemma AcceptedIsUnbroken(w: World, head: Bundle, parents: seq<Bundle>, keyrings: map<string, Keyring>,
                           authority: string)
    requires ChainAccepted(w, head, parents, keyrings, authority)
    ensures Unbroken(Receipts(w, head, parents))
  {
    forall k | 1 <= k <= |parents| ensures Linked(Receipts(w, head, parents), k) {
      assert LinkValid(w, head, parents, keyrings, authority, |parents| - k);
      ReceiptLinked(w, head, parents, keyrings, authority, k);
    }
    assert Receipts(w, head, parents)[0] == w.decodeReceipt(At(head, parents, |parents|).receipt);
  }

  lemma UnbrokenIsLineage(all: seq<Option<Receipt>>) returns (r: seq<Receipt>)
    requires Unbroken(all)
    ensures |r| == |all| && Lineage(r)
    ensures forall k :: 0 <= k < |r| ==> all[k] == Some(r[k]) && (k > 0 ==> r[k].Promoted?)
  {
    forall k | 0 <= k < |all| ensures all[k].Some? && (k > 0 ==> all[k].value.Promoted?) {
      if k > 0 { assert Linked(all, k); }
    }
    r := seq(|all|, k requires 0 <= k < |all| => all[k].value);
    forall k | 1 <= k < |r| ensures Succeeds(r[k - 1], r[k]) { assert Linked(all, k); }
  }

  lemma GenerationOf(w: World, head: Bundle, parents: seq<Bundle>, k: nat, r: Receipt)
    requires k <= |parents| && Receipts(w, head, parents)[k] == Some(r) && r.Promoted?
    ensures GenerationId(w, At(head, parents, |parents| - k)) == Some(r.generation.id)
  {
  }

  /** Acceptance of a chain of bundles is acceptance of every step of its receipts, from staging to head. */
  lemma AcceptedIsLineage(w: World, head: Bundle, parents: seq<Bundle>, keyrings: map<string, Keyring>,
                          authority: string)
    returns (r: seq<Receipt>)
    requires ChainAccepted(w, head, parents, keyrings, authority)
    ensures |r| == |parents| + 1 && Lineage(r)
    ensures forall k :: 0 <= k < |r| ==> Receipts(w, head, parents)[k] == Some(r[k])
    ensures forall k :: 1 <= k < |r| ==> r[k].Promoted?
    ensures forall j, k :: 1 <= j < k < |r| ==> r[j].generation.id != r[k].generation.id
  {
    AcceptedIsUnbroken(w, head, parents, keyrings, authority);
    r := UnbrokenIsLineage(Receipts(w, head, parents));
    var n := |parents|;
    forall j, k | 1 <= j < k < |r| ensures r[j].generation.id != r[k].generation.id {
      GenerationOf(w, head, parents, j, r[j]);
      GenerationOf(w, head, parents, k, r[k]);
      assert GenerationId(w, At(head, parents, n - k)) != GenerationId(w, At(head, parents, n - j));
    }
  }

  /** Sequence numbers count ancestors; release and retry policy never change. */
  lemma {:induction false} LineageInvariant(r: seq<Receipt>, k: nat)
    requires Lineage(r) && k < |r|
    ensures StateOf(r[k]).Some? || k == |r| - 1
    ensures k > 0 ==> r[k].Promoted? && r[k].generation.sequence == k
    ensures r[k].release.releaseId == r[0].release.releaseId && r[k].retry == r[0].retry
  {
    if k > 0 {
      LineageInvariant(r, k - 1);
      assert Succeeds(r[k - 1], r[k]);
      if k < |r| - 1 { assert Succeeds(r[k], r[k + 1]); }
    }
  }

  // ---- The words of actions.

  function Repeat(a: Action, n: nat): (w: seq<Action>)
    ensures |w| == n
  {
    if n == 0 then [] else Repeat(a, n - 1) + [a]
  }

  /** (EMERGENCY_STOP RESUME EXPAND^k)*, one cycle per entry. */
  function Cycles(ks: seq<nat>): (w: seq<Action>) {
    if ks == [] then [] else Cycles(ks[..|ks| - 1]) + [EmergencyStop, Resume] + Repeat(Expand, ks[|ks| - 1])
  }

  /** EXPAND^n (EMERGENCY_STOP RESUME EXPAND*)* with an optional final EMERGENCY_STOP. */
  function Word(n: nat, ks: seq<nat>, stopped: bool): (w: seq<Action>) {
    Repeat(Expand, n) + Cycles(ks) + if stopped then [EmergencyStop] else []
  }

  function Actions(r: seq<Receipt>): (w: seq<Action>)
    requires forall k :: 1 <= k < |r| ==> r[k].Promoted?
    ensures |r| > 0 ==> |w| == |r| - 1
  {
    if |r| <= 1 then [] else Actions(r[..|r| - 1]) + [r[|r| - 1].generation.action]
  }

  lemma LineagePrefix(r: seq<Receipt>)
    requires Lineage(r) && |r| > 1
    ensures Lineage(r[..|r| - 1])
    ensures forall k :: 1 <= k < |r| ==> r[k].Promoted?
  {
    var p := r[..|r| - 1];
    forall k | 1 <= k < |p| ensures Succeeds(p[k - 1], p[k]) { assert Succeeds(r[k - 1], r[k]); }
    forall k | 1 <= k < |r| ensures r[k].Promoted? { assert Succeeds(r[k - 1], r[k]); }
  }

  /** The actions of an accepted lineage are EXPAND+ (STOP RESUME EXPAND*)* with an optional final STOP. */
  lemma {:induction false} ActionsFormAWord(r: seq<Receipt>) returns (n: nat, ks: seq<nat>, stopped: bool)
    requires Lineage(r) && |r| > 1
    ensures forall k :: 1 <= k < |r| ==> r[k].Promoted?
    ensures n > 0 && Actions(r) == Word(n, ks, stopped)
    ensures stopped <==> !r[|r| - 1].enabledNow
  {
    var last := |r| - 1;
    LineagePrefix(r);
    LineageInvariant(r, last);
    assert Succeeds(r[last - 1], r[last]);
    var action := r[last].generation.action;
    if last == 1 {
      n, ks, stopped := 1, [], false;
      assert Actions(r) == [Expand];
      assert Repeat(Expand, 1) == [Expand];
    } else {
      var p := r[..last];
      LineageInvariant(r, last - 1);
      n, ks, stopped := ActionsFormAWord(p);
      var before := Word(n, ks, stopped);
      assert Actions(r) == before + [action];
      match action {
        case EmergencyStop =>
          stopped := true;
          assert before + [EmergencyStop] == Word(n, ks, true);
        case Resume =>
          var more := ks + [0];
          assert more[..|ks|] == ks;
          assert before + [Resume] == Word(n, more, false);
          ks, stopped := more, false;
        case Expand =>
          n, ks := ExpandWord(n, ks);
      }
    }
  }

  lemma ExpandWord(n: nat, ks: seq<nat>) returns (n': nat, ks': seq<nat>)
    requires n > 0
    ensures n' > 0 && Word(n', ks', false) == Word(n, ks, false) + [Expand]
  {
    if ks == [] {
      n', ks' := n + 1, ks;
      assert Repeat(Expand, n + 1) == Repeat(Expand, n) + [Expand];
      assert Word(n, ks, false) == Repeat(Expand, n) && Word(n + 1, ks, false) == Repeat(Expand, n + 1);
    } else {
      var front, k := ks[..|ks| - 1], ks[|ks| - 1];
      n', ks' := n, front + [k + 1];
      assert ks'[..|front|] == front;
      assert Cycles(ks') == Cycles(front) + [EmergencyStop, Resume] + (Repeat(Expand, k) + [Expand]);
      assert Cycles(ks') == Cycles(ks) + [Expand];
      assert Word(n, ks', false) == Word(n, ks, false) + [Expand];
    }
  }

  // ---- Cohorts.

  /** Between stops the cohort grows strictly. */
  lemma {:induction false} CohortGrows(r: seq<Receipt>, i: nat, j: nat)
    requires Lineage(r) && 1 <= i <= j < |r|
    requires forall k :: i <= k <= j ==> r[k].Promoted? && r[k].generation.action != EmergencyStop
    ensures 1 <= r[i].basisNow && r[i].basisNow + (j - i) <= r[j].basisNow <= 10000
    decreases j - i
  {
    assert Succeeds(r[j - 1], r[j]);
    if i < j {
      CohortGrows(r, i, j - 1);
      LineageInvariant(r, j - 1);
    }
  }

  /** So no stretch without a stop has more than ten thousand generations. */
  lemma StretchIsBounded(r: seq<Receipt>, i: nat, j: nat)
    requires Lineage(r) && 1 <= i <= j < |r|
    requires forall k :: i <= k <= j ==> r[k].Promoted? && r[k].generation.action != EmergencyStop
    ensures forall a, b :: i <= a < b <= j ==> r[a].basisNow < r[b].basisNow
    ensures j - i + 1 <= 10000
  {
    CohortGrows(r, i, j);
    forall a, b | i <= a < b <= j ensures r[a].basisNow < r[b].basisNow { CohortGrows(r, a, b); }
  }

  // ---- Promotion.

  /** The parent was accepted by its own validator. */
  ghost predicate ParentAccepted(w: World, parent: Bundle, authority: string) {
    || ValidateStaging(w, parent, authority).Some?
    || exists data, keyring :: ValidateBundle(w, parent, data, keyring, authority).Some?
  }

  lemma ParentArtifacts(w: World, parent: Bundle, authority: string)
    requires ParentAccepted(w, parent, authority)
    ensures LoadManifest(w, parent.artifacts.manifest).Some?
    ensures var m := LoadManifest(w, parent.artifacts.manifest).value;
            w.released(m, parent.artifacts, authority) && m.authority == authority
  {
  }

  lemma ApprovalsAgain(w: World, requestData: Bytes, data: seq<Bytes>, keyring: Keyring)
    requires VerifyApprovals(w, requestData, data, keyring).Some?
    ensures var v := VerifyApprovals(w, requestData, data, keyring).value;
            && VerifyApprovals(w, requestData, [v[0].data, v[1].data], keyring) == Some(v)
            && ApprovalValid(v[0].approval) && ApprovalValid(v[1].approval)
            && Less(v[0].approval.approverId, v[1].approval.approverId)
  {
    var a, b := w.approval(data[0]).value.approverId, w.approval(data[1]).value.approverId;
    LessIsTotal(a, b);
  }

  lemma PromotionIsValid(w: World, m: Manifest, a: Artifacts, authority: string, q: Request, requestData: Bytes,
                         v: seq<Verified>, now: int)
    requires Digests(w) && ManifestValid(m) && RequestValid(q) && Timely(now) && |v| == 2
    requires ApprovalValid(v[0].approval) && ApprovalValid(v[1].approval)
    requires Less(v[0].approval.approverId, v[1].approval.approverId)
    ensures ReceiptValid(PromotionReceipt(w, m, a, authority, q, requestData, v, now))
  {
  }

  /** The receipt of a promotion is valid and is read back as it was written. */
  lemma PromotedDecodes(w: World, parent: Bundle, requestData: Bytes, approvals: seq<Bytes>, keyring: Keyring,
                        authority: string, now: int)
    requires Canonical(w) && Digests(w)
    requires Promote(w, parent, requestData, approvals, keyring, authority, now).Some?
    ensures var b := Promote(w, parent, requestData, approvals, keyring, authority, now).value;
            var m, q := LoadManifest(w, parent.artifacts.manifest).value, ParseRequest(w, requestData).value;
            var v := VerifyApprovals(w, requestData, approvals, keyring).value;
            var receipt := PromotionReceipt(w, m, parent.artifacts, authority, q, requestData, v, now);
            ReceiptValid(receipt) && w.decodeReceipt(b.receipt) == Some(receipt)
  {
    ApprovalsAgain(w, requestData, approvals, keyring);
    PromotionIsValid(w, LoadManifest(w, parent.artifacts.manifest).value, parent.artifacts, authority,
                     ParseRequest(w, requestData).value, requestData,
                     VerifyApprovals(w, requestData, approvals, keyring).value, now);
  }

  /** What promotion writes over an accepted parent passes the bundle validator, with the parent's own artifacts. */
  lemma PromotedIsAccepted(w: World, parent: Bundle, requestData: Bytes, approvals: seq<Bytes>, keyring: Keyring,
                           authority: string, now: int)
    requires Canonical(w) && Digests(w) && ParentAccepted(w, parent, authority)
    requires Promote(w, parent, requestData, approvals, keyring, authority, now).Some?
    ensures var b := Promote(w, parent, requestData, approvals, keyring, authority, now).value;
            && b.artifacts == parent.artifacts
            && ValidateBundle(w, b, parent.receipt, keyring, authority).Some?
            && ValidateBundle(w, b, parent.receipt, keyring, authority) == w.decodeReceipt(b.receipt)
            && GenerationId(w, b) == Some(ParseRequest(w, requestData).value.generationId)
  {
    ParentArtifacts(w, parent, authority);
    ApprovalsAgain(w, requestData, approvals, keyring);
    PromotedDecodes(w, parent, requestData, approvals, keyring, authority, now);
  }

  /** Promotion writes the same bundle whichever order the two approvals are supplied in. */
  lemma PromotionIgnoresOrder(w: World, parent: Bundle, requestData: Bytes, a: Bytes, b: Bytes, keyring: Keyring,
                              authority: string, now: int)
    ensures Promote(w, parent, requestData, [a, b], keyring, authority, now)
         == Promote(w, parent, requestData, [b, a], keyring, authority, now)
  {
    ApprovalsCommute(w, requestData, a, b, keyring);
  }

  /** The promoted ancestors' generation IDs. */
  function PromotedIds(w: World, parent: Bundle, parents: seq<Bundle>): (ids: set<Option<string>>) {
    set i | 0 <= i < |parents| :: GenerationId(w, At(parent, parents, i))
  }

  /** An accepted parent: a staging bundle alone, or the head of an accepted lineage. */
  ghost predicate ParentChain(w: World, parent: Bundle, parents: seq<Bundle>, keyrings: map<string, Keyring>,
                              authority: string)
  {
    || (parents == [] && ValidateStaging(w, parent, authority).Some?)
    || ChainAccepted(w, parent, parents, keyrings, authority)
  }

  lemma ParentChainAccepted(w: World, parent: Bundle, parents: seq<Bundle>, keyrings: map<string, Keyring>,
                            authority: string)
    requires ParentChain(w, parent, parents, keyrings, authority)
    ensures ParentAccepted(w, parent, authority)
  {
    if parents != [] { assert LinkValid(w, parent, parents, keyrings, authority, 0); }
  }

  lemma PromotedLink(w: World, parent: Bundle, requestData: Bytes, approvals: seq<Bytes>, keyring: Keyring,
                     rings: map<string, Keyring>, authority: string, now: int)
    requires Canonical(w) && Digests(w) && ParentAccepted(w, parent, authority)
    requires keyring.sha in rings && rings[keyring.sha] == keyring
    requires Promote(w, parent, requestData, approvals, keyring, authority, now).Some?
    ensures var b := Promote(w, parent, requestData, approvals, keyring, authority, now).value;
            CheckLink(w, b, parent.receipt, rings, authority).Some?
  {
    PromotedIsAccepted(w, parent, requestData, approvals, keyring, authority, now);
  }

  lemma MoreKeyrings(w: World, b: Bundle, parentData: Bytes, few: map<string, Keyring>, many: map<string, Keyring>,
                     authority: string)
    requires forall k :: k in few ==> k in many && many[k] == few[k]
    requires CheckLink(w, b, parentData, few, authority).Some?
    ensures CheckLink(w, b, parentData, many, authority).Some?
  {
  }

  lemma ExtendedChain(w: World, b: Bundle, parent: Bundle, parents: seq<Bundle>,
                      keyrings: map<string, Keyring>, rings: map<string, Keyring>, authority: string)
    requires ParentChain(w, parent, parents, keyrings, authority) && rings != map[]
    requires forall k :: k in keyrings ==> k in rings && rings[k] == keyrings[k]
    requires CheckLink(w, b, parent.receipt, rings, authority).Some?
    ensures ChainAccepted(w, b, [parent] + parents, rings, authority) <==>
            GenerationId(w, b) !in PromotedIds(w, parent, parents)
  {
    var all := [parent] + parents;
    ShiftedChain(w, b, parent, parents);
    assert LinkValid(w, b, all, rings, authority, 0);
    forall i | 1 <= i < |all| ensures LinkValid(w, b, all, rings, authority, i) {
      assert LinkValid(w, parent, parents, keyrings, authority, i - 1);
      MoreKeyrings(w, At(b, all, i), At(b, all, i + 1).receipt, keyrings, rings, authority);
    }
  }

  /**
   A promoted bundle extends its parent's accepted lineage exactly when its generation ID is new among all promoted
   ancestors; promotion itself compares it with the immediate parent only.
   */
  lemma ExtendsIffFresh(w: World, parent: Bundle, parents: seq<Bundle>, keyrings: map<string, Keyring>,
                        requestData: Bytes, approvals: seq<Bytes>, keyring: Keyring, authority: string, now: int)
    requires Canonical(w) && Digests(w) && ParentChain(w, parent, parents, keyrings, authority)
    requires keyring.sha in keyrings ==> keyrings[keyring.sha] == keyring
    requires Promote(w, parent, requestData, approvals, keyring, authority, now).Some?
    ensures var b := Promote(w, parent, requestData, approvals, keyring, authority, now).value;
            ChainAccepted(w, b, [parent] + parents, keyrings[keyring.sha := keyring], authority) <==>
            GenerationId(w, b) !in PromotedIds(w, parent, parents)
  {
    var rings := keyrings[keyring.sha := keyring];
    ParentChainAccepted(w, parent, parents, keyrings, authority);
    PromotedLink(w, parent, requestData, approvals, keyring, rings, authority, now);
    assert keyring.sha in rings;
    ExtendedChain(w, Promote(w, parent, requestData, approvals, keyring, authority, now).value,
                  parent, parents, keyrings, rings, authority);
  }

  lemma ShiftedChain(w: World, b: Bundle, parent: Bundle, parents: seq<Bundle>)
    ensures forall i :: 0 <= i <= |parents| ==> At(b, [parent] + parents, i + 1) == At(parent, parents, i)
    ensures Distinct(w, b, [parent] + parents) <==>
            Distinct(w, parent, parents) && GenerationId(w, b) !in PromotedIds(w, parent, parents)
  {
    var all := [parent] + parents;
    forall i | 0 <= i <= |parents| ensures At(b, all, i + 1) == At(parent, parents, i) {}
    if Distinct(w, b, all) {
      forall i, j | 0 <= i < j < |parents|
        ensures GenerationId(w, At(parent, parents, i)) != GenerationId(w, At(parent, parents, j))
      {
        assert At(b, all, i + 1) == At(parent, parents, i) && At(b, all, j + 1) == At(parent, parents, j);
      }
      forall i | 0 <= i < |parents| ensures GenerationId(w, At(parent, parents, i)) != GenerationId(w, b) {
        assert At(b, all, i + 1) == At(parent, parents, i) && At(b, all, 0) == b;
      }
    }
    if Distinct(w, parent, parents) && GenerationId(w, b) !in PromotedIds(w, parent, parents) {
      forall i, j | 0 <= i < j < |all| ensures GenerationId(w, At(b, all, i)) != GenerationId(w, At(b, all, j)) {
        assert At(b, all, j) == At(parent, parents, j - 1);
        if i > 0 { assert At(b, all, i) == At(parent, parents, i - 1); }
      }
    }
  }
}
