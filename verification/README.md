# Proofs about the XiaoZhi agent platform tooling

This project models the parts of the platform's release, factory and deployment tools whose promises range over whole
runs, arbitrary byte strings or arbitrary profiles, and proves those promises in Dafny. `dafny verify dfyconfig.toml`
checks all of it.

| area | modules |
|---|---|
| Ogg pages, their CRC and packet assembly | `Bits`, `OggCrc`, `Framing`, `Ogg`, `OggStream`, `OggHeader`, `OggDamage`, `OggWords`, `OggStraddle` |
| One-time attempt ledger under power loss | `CrashDirectory`, `LedgerProtocol`, `LedgerSafety`, `LedgerRuns`, `LedgerOutcomes`, `LedgerTidy`, `LedgerRecord`, `LedgerMeaning` |
| OTA rollout lineages and promotion | `OtaRollout`, `OtaLineage`, `OtaEvidence`, `OtaAcceptance`, `OtaWords`, `OtaRealised` |
| Release publication and the release record chain | `ReleasePublication`, `ReleaseRuns`, `ReleaseLiveness`, `ReleaseEvidence`, `ReleaseChain` |
| Egress CIDRs and generated network policies | `EgressCidrs`, `NetworkPolicies`, `NetworkFlows` |
| Cluster qualification with owned cleanup | `Qualification` |
| Admission oracle as a state machine | `Admission`, `AdmissionMeaning`, `AdmissionRuns` |
| Content-addressed image layouts | `OciLayout`, `OciSafety`, `OciBuild`, `OciAccept`, `OciRead` |
| Factory SKU manifest, SPDX graph, speech session | `SkuManifest`, `SkuLayout`, `SpdxGraph`, `Reachability`, `GatewaySession` |
| Bytes, results and text patterns, shared | `Basics`, `Patterns` |

Loops, in-place buffers and objects of the source are methods and classes, each proved against a function or a
predicate; the lemmas are about those. What an accepted or written thing is, is then stated once more by its fields,
offsets, flows or constructors, without the functions that decide or make it. The two publication protocols are state
machines whose events are single filesystem operations of any number of processes, together with faults and power loss.
A directory (`CrashDirectory.Directory`) remembers every listing since its last fsync, and power loss keeps for each
name any one of them.

SHA-256, HMAC, signatures, JSON, tar, gzip and ELF inspection are function-valued fields of a `World` or `Crypto`
record. What a theorem needs of them is a hypothesis with a name: `Canonical` (what passes its checks is decoded as it
was encoded), `CollisionFree` (equal digests mean equal bytes), `Digests` (a digest is 64 hexadecimal digits), `Frugal`
(the JSON of a ledger record whose fields match their patterns and ranges is at most 16 KiB longer than its texts) and
`Staffed` (valid requests and approvals are read back as written, generation IDs are different identifiers, and two keys
of different approvers make signatures that verify). Identifiers, times and other inputs are parameters.

## Findings

- Damage that leaves the capture pattern and the lacing table alone goes unnoticed exactly when the pattern of changed
  bits has, with its checksum field blanked, the checksum found in that field (`OggDamage.DamageOutcome`). A change of
  one to four consecutive bytes is always noticed unless it lies across bytes 21 and 22, where the checksum field begins
  (`OggDamage.BurstOutcome`). There it can pass: one fixed pattern over bytes 21 to 24 turns every accepted page of 29
  bytes, such as the page of any one-byte packet, into another accepted page with the same packets
  (`OggStraddle.StraddleSlips`, `OggStraddle.OneBytePacketSlips`).
- A visible READY means a complete release as long as no builder fails after renaming READY. A failure after that point
  lets the failure cleanup remove files while READY still shows, in every reachable state with such a builder, and there
  are such states (`ReleaseRuns.ReadyMeansComplete`, `ReleaseRuns.LateFaultBreaksReady`,
  `ReleaseLiveness.ReadyCanBeWrong`).
- Promotion compares a new generation ID with its immediate parent's only, so a promoted bundle extends its lineage
  exactly when its ID is new among all ancestors (`OtaLineage.ExtendsIffFresh`).
- A built image layout is accepted exactly when its parts are within the validator's size limits and the CA bundle
  holds a certificate. The layout builder tests neither; its caller tests the certificate and the binaries' sizes
  (`OciAccept.BuiltIsAccepted`).
- The layout validator's dependency test rejects proper subsets of the three promised dependencies and nothing else. A
  layout is accepted whatever its dependency list, if the list has one entry outside the three, such as the one every
  built provenance has; a list with only that entry is accepted (`OciAccept.VariantIsAccepted`,
  `OciAccept.ListedWhenNothingElse`, `OciAccept.NoneListedIsAccepted`).
- Admitted updates keep a signed object's `spec` and an external Secret's `data` up to Python's equality, in which `True`
  is 1, and nothing else. The tests on an external Secret's `data` and a claim's requests also pass for lists of the key
  names. The reachable cluster states are exactly those that `Admission.Fits` describes
  (`AdmissionRuns.ReachableExactly`).
- Cleanup deletes by name, so an object that others put in the place of an own one between its lookup and its deletion
  is deleted. That is the only case in which an object deleted by its name lacks the run's ID
  (`Qualification.StruckWhenReplaced`, `Qualification.ReplacementIsStruck`).
- The completeness test after the attestation loop can never fail (`ReleaseEvidence.CollectedAll`).
- A release bundle is accepted with its evidence files under each other's names, since the validator reads their types
  from their contents. A record fixes its release up to that order (`ReleaseChain.FilesInAnyOrder`,
  `ReleaseChain.HeadFixesHistory`, `ReleaseChain.HistoryIsEqual`).

## Model

| member | source | states |
|---|---|---|
| `OggCrc.ComputeCrc` | tools/opus_codec_fixture.py:62-68 | the nested shift loops on a 32-bit integer compute the CRC register defined on bit sequences |
| `OggCrc.CrcLinear` | tools/opus_codec_fixture.py:62-68 | on inputs of equal length the CRC of the bytewise exclusive or, from the exclusive or of two registers, is the exclusive or of the two CRCs |
| `OggCrc.ShiftInjective` | tools/opus_codec_fixture.py:66-67 | the zero-input step of the register loses no information |
| `OggCrc.CrcRegisterInjective` | tools/opus_codec_fixture.py:62-68 | different registers stay different under the same further input |
| `OggCrc.BurstDetected` | tools/opus_codec_fixture.py:62-68 | changing one to four consecutive bytes anywhere in an input always changes its CRC |
| `OggStream.OggPage` | tools/opus_codec_fixture.py:85-97 | the page buffer with its checksum patched in place is the sealed page of the specification; oversized packets and fields are refused |
| `OggStream.PackInto` | tools/opus_codec_fixture.py:96-97 | writing a field into a buffer changes exactly those positions |
| `OggStream.LacedPacket` | tools/opus_codec_fixture.py:71-82 | cutting a packet by its own lacing table and assembling the segments gives that packet and leaves nothing pending |
| `OggStream.WrittenPage` | tools/opus_codec_fixture.py:85-97 | every written page is accepted by the page reader as exactly one page carrying its packet |
| `OggStream.StreamRoundTrip` | tools/opus_codec_fixture.py:85-97 | parsing the concatenation of any list of written pages returns exactly their packets |
| `OggStream.WrapRoundTrip` | tools/opus_codec_fixture.py:100-117 | a wrapped raw Opus packet parses to the two Opus headers and that packet |
| `OggHeader.WrittenHeader` | tools/opus_codec_fixture.py:85-97 | every written page has version 0, the header type at byte 5, and in little-endian order the granule at 6, the product's serial at 14 and the sequence number at 18 (section 6 of RFC 3533); its lacing table and body are those of its packet |
| `OggHeader.WrappedPages` | tools/opus_codec_fixture.py:100-117 | a wrapped packet is a stream of exactly three pages with types 2, 0, 4, granules 0, 0, 2880 and sequences 0, 1, 2, holding the identification header, the comment header and the packet |
| `OggHeader.HeadIdentifies` | tools/opus_codec_fixture.py:107-108 | the identification header field by field at its offsets: magic, version 1, one channel, no pre-skip, the rate, no gain, family 0 (section 5.1 of RFC 7845) |
| `OggHeader.TagsComment` | tools/opus_codec_fixture.py:109-110 | the comment header field by field at its offsets: magic, vendor string with its length, no comments (section 5.2 of RFC 7845) |
| `Ogg.ParseOggPackets` | tools/opus_codec_fixture.py:120-150 | the offset loop returns what framing the stream into pages and assembling their segments returns, with the same fault |
| `Ogg.ReadPage` | tools/opus_codec_fixture.py:123-139 | the checks on one page at an offset agree with the page reader on the rest of the stream |
| `Ogg.AddSegments` | tools/opus_codec_fixture.py:140-147 | the inner loop assembles exactly the segments the lacing table cuts from the body |
| `Ogg.PagesAreSelfDelimiting` | tools/opus_codec_fixture.py:120-139 | what the page reader takes from a stream depends on nothing behind the page |
| `Framing.FramingIsUnique` | tools/opus_codec_fixture.py:120-139 | a stream is framed into given pages exactly when it is their concatenation |
| `OggStream.PagesParse` | tools/opus_codec_fixture.py:120-150 | the result for valid pages is the assembly of their concatenated segment list |
| `OggStream.BoundariesDoNotMatter` | tools/opus_codec_fixture.py:120-150 | two streams of valid pages with the same segment list parse alike, wherever the pages end |
| `OggStream.NoByteLost` | tools/opus_codec_fixture.py:120-150 | the packets of an accepted stream, joined, are the page bodies joined |
| `OggStream.DamageDetected` | tools/opus_codec_fixture.py:130-139 | one to four changed bytes within the header fields 4 to 21, within the checksum field or within the body make stored and computed checksum differ |
| `OggStream.DamageRejected` | tools/opus_codec_fixture.py:120-139 | such damage to any page of a stream makes the parser reject the stream with a checksum mismatch |
| `OggDamage.DamageOutcome` | tools/opus_codec_fixture.py:120-139 | equal-length damage of any kind outside capture pattern, segment count and lacing table is accepted exactly when the CRC of the exclusive or of both pages, field blanked, equals the exclusive or of their fields; otherwise it is a checksum mismatch |
| `OggDamage.BurstOutcome` | tools/opus_codec_fixture.py:130-139 | one to four changed bytes clear of the framing are accepted exactly when they lie across bytes 21 and 22 and their pattern is consistent |
| `OggDamage.PatternDamage` | tools/opus_codec_fixture.py:123-125 | any damage to the capture pattern of any page makes the parser reject the stream as an invalid page |
| `OggDamage.DamageFailsStream` | tools/opus_codec_fixture.py:120-139 | damage with an inconsistent pattern to any page of a stream makes the parser reject the stream |
| `OggStraddle.StraddleSlips` | tools/opus_codec_fixture.py:130-139 | one pattern that changes bytes 21 to 24, all four of them, turns every accepted page of 29 bytes into another accepted page |
| `OggStraddle.StraddleParses` | tools/opus_codec_fixture.py:120-150 | the changed page parses to the same packets or fault |
| `OggStraddle.OneBytePacketSlips` | tools/opus_codec_fixture.py:85-150 | every written page of a one-byte packet is such a page, and after the change still parses to its packet |
| `CrashDirectory.SurvivorShows` | tools/sacrificial_attempt_ledger.py:856-884 | what a directory shows after power loss it showed at some moment since its last fsync |
| `LedgerSafety.StepKeeps` | tools/sacrificial_attempt_ledger.py:200-222 | every event of the claim protocol, of any process, including faults and power loss, keeps the ledger invariant |
| `LedgerSafety.PowerLossKeeps` | tools/sacrificial_attempt_ledger.py:856-884 | the invariant survives power loss at any point |
| `LedgerSafety.EntryIsAccepted` | tools/sacrificial_attempt_ledger.py:514-566 | in a state with the invariant the scan accepts every entry it may have listed |
| `LedgerRuns.AtMostOneWinner` | tools/sacrificial_attempt_ledger.py:856-884 | in every reachable state at most one process has returned success for an attempt |
| `LedgerRuns.VisibleClaimIsComplete` | tools/sacrificial_attempt_ledger.py:856-884 | a visible claim is one publisher's complete, fsynced record with mode 0400 |
| `LedgerRuns.ScanNeverRejects` | tools/sacrificial_attempt_ledger.py:514-566 | concurrent publishers and temporaries left by crashes never make the scan reject |
| `LedgerRuns.ConsumedForever` | tools/sacrificial_attempt_ledger.py:948-976 | after a success every later state, crashes included, shows that record, no other process can succeed, and a link to the name is refused; what the refused process then returns is `LedgerOutcomes.ToldExactly` |
| `LedgerOutcomes.UnclaimedIsConsumable` | tools/sacrificial_attempt_ledger.py:948-976 | in every reachable state without a visible claim a new process running alone consumes the attempt and leaves the directory as it was but for its claim |
| `LedgerOutcomes.ClaimedIsRefused` | tools/sacrificial_attempt_ledger.py:856-884 | in every reachable state with a visible claim a new process running alone returns that the attempt is already consumed and leaves the directory as it was |
| `LedgerOutcomes.ToldExactly` | tools/sacrificial_attempt_ledger.py:871-884 | over every run a process returns that the attempt is already consumed exactly when its link found the final name taken and it then removed its temporary and made that durable, with no failure of its own and no power loss in between |
| `LedgerOutcomes.FaultInFile` | tools/sacrificial_attempt_ledger.py:200-222 | a process that meets a fault while it writes its file removes it and returns a failure |
| `LedgerOutcomes.FaultInPublishing` | tools/sacrificial_attempt_ledger.py:856-884 | one that meets a fault while it publishes also makes the removal durable before it returns the failure |
| `LedgerTidy.FinishedLeavesNothing` | tools/sacrificial_attempt_ledger.py:856-884 | a process that returned success, or that the attempt is already consumed, has no temporary in the directory in any later state, power loss included |
| `LedgerRecord.ConsumedInTime` | tools/sacrificial_attempt_ledger.py:909-945 | a consumption instant lies in the policy and plan windows and at most 40 minutes after the preflight capture began |
| `LedgerRecord.VerifiesAgain` | tools/sacrificial_attempt_ledger.py:1091-1147 | a state whose scan passes and that shows the consumed record returns that record for the same inputs |
| `LedgerRecord.ConsumptionVerifiesForever` | tools/sacrificial_attempt_ledger.py:1091-1147 | after a success, verification of the same inputs returns the consumed record in every state any run reaches, crashes included |
| `LedgerRecord.NamedIsSmall` | tools/sacrificial_attempt_ledger.py:667-814 | a record whose fields match their patterns encodes to between one byte and the read limit of 256 KiB |
| `LedgerRecord.ClaimBindsPlan` | tools/sacrificial_attempt_ledger.py:825-834 | one claim verifies for one plan and one policy only, byte for byte |
| `LedgerRecord.VerifiedShas` | tools/sacrificial_attempt_ledger.py:667-814 | a verified record carries the digests of the plan and the policy it was verified with |
| `LedgerRecord.AttemptsDoNotCollide` | tools/sacrificial_attempt_ledger.py:603-605 | different attempt IDs have different claim names |
| `LedgerMeaning.ConsumesExactly` | tools/sacrificial_attempt_ledger.py:608-976 | a consumption gives a record exactly when policy and plan are authenticated with one key for one station and within their window limits, the time authority that the policy names signed a receipt of at most ten seconds about this policy, plan and device, inside both windows, and the record states all of that field by field under the digest of domain, zero byte and attempt ID |
| `LedgerMeaning.VerifiesExactly` | tools/sacrificial_attempt_ledger.py:1091-1147 | verification returns a record exactly when every entry of the directory has its mode, the claim of the record's key holds the record's encoding at mode 0400, and a consumption of the same inputs with the record's receipt gives that record |
| `LedgerMeaning.DeviceNameDigits` | tools/sacrificial_attempt_ledger.py:667-814 | a device ID is `xz-` and the twelve digits of its address in lower case |
| `OtaRollout.VerifyRolloutApprovals` | tools/ota_rollout.py:324-369 | the loop with its seen roles and keys accepts exactly what the two-approval specification accepts, and returns them sorted; what that means by fields is `OtaEvidence.ChainIsApproved` |
| `OtaRollout.ApprovalsCommute` | tools/ota_rollout.py:324-369 | the two approvals may be supplied in either order |
| `OtaEvidence.ChainIsApproved` | tools/ota_rollout.py:324-881 | every promoted bundle of an accepted chain has exactly two approvals by different people with different keys, both enabled for them in the ring whose digest the receipt names; each verifies under its key, names the digest of the request and is dated inside the request's window and not after the promotion |
| `OtaEvidence.PromotionIsApproved` | tools/ota_rollout.py:884-1005 | the bundle that promotion writes carries the same evidence |
| `OtaEvidence.BundleReleases` | tools/ota_rollout.py:714-827 | an accepted promoted bundle releases the manifest's image with control and origin documents of the receipt's rollout, and is the generation its request asked for |
| `OtaEvidence.StagingReleases` | tools/ota_rollout.py:413-438 | the same of an accepted staging bundle |
| `OtaAcceptance.PromotesExactly` | tools/ota_rollout.py:231-1005 | promotion writes a bundle exactly when the request, with every field in range, asks for a legal step from this parent, two people with different keys of the named ring signed its bytes in its window, and the time is inside the windows of request and manifest |
| `OtaAcceptance.BundleExactly` | tools/ota_rollout.py:714-827 | a promoted bundle is accepted exactly when its request was due over this parent at the promotion, both approvals were given by then, and its canonical receipt reports the request, the approvals and the release it puts out, field by field |
| `OtaAcceptance.StagingExactly` | tools/ota_rollout.py:413-438 | a staging bundle is accepted exactly when its canonical receipt reports the release it puts out, disabled |
| `OtaLineage.CheckLink` | tools/ota_rollout.py:845-870 | an accepted link is a promotion step from the parent's receipt under one of the trusted keyrings |
| `OtaLineage.WalkChain` | tools/ota_rollout.py:845-875 | the walk with its set of seen generations accepts exactly chains with valid links and pairwise different IDs |
| `OtaLineage.ValidateRolloutChain` | tools/ota_rollout.py:830-881 | a chain is accepted exactly when every link is valid, IDs differ and it ends in a valid staging bundle |
| `OtaLineage.AcceptedIsLineage` | tools/ota_rollout.py:830-881 | the receipts of an accepted chain, staging first, are linked by promotion steps and have pairwise different generation IDs |
| `OtaLineage.LineageInvariant` | tools/ota_rollout.py:372-400 | a generation's sequence is its number of ancestors; release ID and retry policy never change |
| `OtaLineage.ActionsFormAWord` | tools/ota_rollout.py:678-698 | the actions of a lineage form the word EXPAND+ (STOP RESUME EXPAND*)* with an optional final STOP, which is there exactly when the head is disabled |
| `OtaWords.StepsExactly` | tools/ota_rollout.py:231-294 | valid requests that match a parent are exactly the steps of the transition table: expand to more, stop when enabled, resume when stopped |
| `OtaRealised.WordIsRealised` | tools/ota_rollout.py:678-1005 | conversely, over every accepted staging bundle, every such word whose stretches have at most 10000 generations is spelled by a chain of promoted bundles that the chain validator accepts |
| `OtaRealised.StepPromotes` | tools/ota_rollout.py:884-1005 | a request for any legal step with a new ID, signed by two approvers, is promoted, and the receipt records that step |
| `OtaRealised.ChainGrows` | tools/ota_rollout.py:830-1005 | from every accepted chain of this kind every legal step leads to a longer accepted chain |
| `OtaLineage.CohortGrows` | tools/ota_rollout.py:678-698 | along a stretch without STOP the cohort grows by at least one basis point per generation, up to 10000 |
| `OtaLineage.StretchIsBounded` | tools/ota_rollout.py:678-698 | cohorts in such a stretch are strictly increasing and it has at most 10000 generations |
| `OtaLineage.PromotedIsAccepted` | tools/ota_rollout.py:884-1005 | a bundle promoted from an accepted parent is accepted by the bundle validator and keeps the parent's manifest and image |
| `OtaLineage.PromotionIgnoresOrder` | tools/ota_rollout.py:884-1005 | the promoted bundle is the same bytes whichever order the approvals come in |
| `OtaLineage.ExtendsIffFresh` | tools/ota_rollout.py:830-1005 | a promoted bundle extends its parent's accepted lineage exactly when its generation ID is new among all ancestors |
| `ReleaseRuns.StepKeeps` | tools/product_release.py:827-876 | every publication step of any builder, faults, cleanup, write-back and power loss keep the publication invariant |
| `ReleaseRuns.Exclusive` | tools/product_release.py:847-851 | while one builder works on the output path no other does, and none has published |
| `ReleaseRuns.ReadyOnlyRenamed` | tools/product_release.py:852-868 | no event but the rename of READY makes READY appear in a directory |
| `ReleaseRuns.ReadyMeansComplete` | tools/product_release.py:827-876 | in runs where no builder fails after renaming READY, a visible READY means that every other name of a release, the record among them, is durably bound to the same builder's file |
| `ReleaseRuns.LateFaultBreaksReady` | tools/product_release.py:868-876 | from every reachable state with a builder past READY, its failure leads to a visible READY with a file missing |
| `ReleaseLiveness.FreePathIsPublishable` | tools/product_release.py:827-876 | in every reachable state with a free output path, crashes and failures before it included, a new builder publishes a release with every name in it by calls of its own alone, none of which fails |
| `ReleaseLiveness.FailureFreesPath` | tools/product_release.py:871-876 | from every reachable state in which a builder that holds the output path fails, the calls of its cleanup free the path |
| `ReleaseLiveness.ReadyCanBeWrong` | tools/product_release.py:868-876 | a run from the empty directory ends with a visible READY and a file missing |
| `ReleaseRuns.LoserIsHarmless` | tools/product_release.py:827-876 | no step of a builder changes the directory of another builder or its place at the output path |
| `ReleaseRuns.PublishedForever` | tools/product_release.py:827-876 | a published release stays published with every name in it in every later state, crashes included |
| `ReleaseEvidence.CollectAttestations` | tools/product_release.py:748-789 | the dictionary loop accepts exactly the complete sets: one valid attestation of every type |
| `ReleaseEvidence.CollectedAll` | tools/product_release.py:786-787 | after the loop the dictionary's keys are all required types, so the completeness test cannot fail |
| `ReleaseEvidence.EveryKindPresent` | tools/product_release.py:748-789 | a complete set has an attestation of every required type |
| `ReleaseEvidence.EvidenceExactly` | tools/product_release.py:547-789 | the loop accepts exactly the sets of as many files as types with a file for each type that is about this release, passed in production, fresh for it, signed with the key of the type's slot, and names the digest of the supplied evidence object |
| `ReleaseEvidence.TypesAreSorted` | tools/product_release.py:54-70 | the fifteen types are different and in order |
| `ReleaseChain.AcceptedExactly` | tools/product_release.py:729-977 | a release is accepted exactly when its policy is within its bounds, has one slot for each type and follows the previous record by digest and number, and its record states the policy's terms, is signed with the release key that the policy names, and cites for each type the file that proves it, with its claims and key |
| `ReleaseChain.BuiltIsAccepted` | tools/product_release.py:705-977 | a bundle with the record the builder writes, signed with the named release key, is accepted exactly when its policy is valid, follows its predecessor, and the evidence proves every type |
| `ReleaseChain.FilesInAnyOrder` | tools/product_release.py:910-916 | acceptance does not depend on which evidence file is found under which name |
| `ReleaseChain.EvidenceIsFresh` | tools/product_release.py:571-580 | at any accepted evaluation time each of the fifteen types is present, unexpired, and no older than its maximum age plus 90 days |
| `ReleaseChain.SequenceIsPosition` | tools/product_release.py:729-745 | in a validated chain the sequence is the position, the previous digest is the previous record's, and the record carries its policy's digest |
| `ReleaseChain.HeadFixesHistory` | tools/product_release.py:729-745 | two validated chains ending in the same record bytes have the same records and policies throughout, and the same evidence files up to their order |
| `ReleaseChain.HistoryIsEqual` | tools/product_release.py:729-916 | those chains are equal, byte for byte, exactly when their evidence files are under the same names throughout |
| `EgressCidrs.OverlapIsSharedAddress` | tools/kubernetes_deployment.py:233-234 | the end-point test for overlap is true exactly when two networks share an address |
| `EgressCidrs.Cidrs` | tools/kubernetes_deployment.py:217-239 | a class is accepted exactly when it is 1 to 32 narrow networks in order, no two sharing an address |
| `EgressCidrs.CheckClasses` | tools/kubernetes_deployment.py:268-278 | the pass over classified networks succeeds exactly when no address is in two networks of any class |
| `EgressCidrs.ValidateExternal` | tools/kubernetes_deployment.py:264-278 | the egress part of a profile is accepted exactly when all five classes are valid and disjoint together |
| `EgressCidrs.ApartExactly` | tools/kubernetes_deployment.py:268-278 | that pass decides whether every class is free of overlaps and no address belongs to two of the five classes |
| `EgressCidrs.ParsedExactly` | tools/kubernetes_deployment.py:217-239 | the networks of a class are the parsed strings one by one, each no wider than /8 or, for IPv6, /32 |
| `NetworkPolicies.BuildPolicies` | tools/kubernetes_deployment.py:842-903 | the generated list is the specified one, in the source's order; what it lets through is stated flow by flow in the four rows on flows |
| `NetworkPolicies.BuildEgressRules` | tools/kubernetes_deployment.py:888-903 | the egress rules of a service are one per listed class, one per internal destination, and telemetry |
| `NetworkPolicies.WorkloadFlows` | tools/kubernetes_deployment.py:842-903 | for every accepted profile and whatever the pod addresses, one workload reaches another exactly on the three internal flows |
| `NetworkPolicies.ExternalFlows` | tools/kubernetes_deployment.py:842-903 | a service reaches an external host on a port exactly on the flows written out by service, class and port: speech for the gateway, provider for the agent proxy, and so on, the account service's provider flow only with push enabled |
| `NetworkFlows.InboundFlows` | tools/kubernetes_deployment.py:842-872 | what is outside the workload namespace reaches a service exactly on the public ports from the ingress namespace, the monitoring ports from the monitoring namespace and the operator's ports from the operator namespace |
| `NetworkFlows.OutboundFlows` | tools/kubernetes_deployment.py:842-903 | a service reaches a pod of another namespace exactly for DNS, for telemetry, or as an external address of one of its flows |
| `Qualification.Cluster.DeleteOwned` | tools/kubernetes_admission_qualification.py:464-475 | only an object that carried this run's ID when it was looked up leads to a deletion; with no failing call exactly what has the name at the last of the three calls is deleted, whatever others do between them; while the guard stands a namespace deletion fails and changes nothing |
| `Qualification.StruckWhenReplaced` | tools/kubernetes_admission_qualification.py:464-475 | a deleted object carried the ID at its lookup, and lacks it exactly when others replaced it since by one without the ID; it is the same object where others leave this run's objects alone |
| `Qualification.ReplacementIsStruck` | tools/kubernetes_admission_qualification.py:282-286 | any object put in the place of an own one after its lookup is the one deleted, since deletion names no UID |
| `Qualification.Cluster.Cleanup` | tools/kubernetes_admission_qualification.py:459-494 | success means that each name was looked up and found absent after the last change, and where others leave this run's objects alone none of them is left; objects of others survive in an undisturbed cluster; with reliable calls it succeeds exactly when all present names are its own, although the guard is installed |
| `Qualification.Cluster.Qualify` | tools/kubernetes_admission_qualification.py:583-690 | success means that every probe passed, and with reliable calls in an undisturbed cluster the outcome is exactly that of the names, the probes and the cleanup; wherever it fails a deletion needs an own object at its lookup, a receipt means that each name was found absent after the last change, and an undisturbed cluster ends as it began whenever the cleanup succeeds |
| `Qualification.Cluster.RecoverCleanup` | tools/kubernetes_admission_qualification.py:747-795 | nothing happens on an identity mismatch; otherwise absence is reported only after each name was found absent, and exactly when it can be reached by deleting own objects |
| `Qualification.Restored` | tools/kubernetes_admission_qualification.py:609-690 | removing a run's objects from a cluster it added to leaves exactly what was there |
| `Qualification.NamesCover` | tools/kubernetes_admission_qualification.py:575-582 | the policy and binding names extracted from the admission document cover everything that is created from it |
| `Admission.StepKeeps` | tools/kubernetes_admission.py:463-528 | an admitted request keeps every object within the exact contract |
| `Admission.UpdatedFits` | tools/kubernetes_admission.py:480-520 | an admitted update of an object within the contract stays within it |
| `AdmissionMeaning.AllowsExactly` | tools/kubernetes_admission.py:463-528 | a request is admitted exactly when, on the documents themselves and under Python's equality, its kind's conditions hold: the namespace with the first rule's labels; a pod whose labels name a service and whose spec is that of the last signed StatefulSet for the coordinator or Deployment for any other service; the last signed item of that kind and name; or the first prerequisite, locked, with its type and keys, or a claim that keeps its seven fields |
| `AdmissionMeaning.SameExactly` | tools/kubernetes_admission.py:463-528 | two documents are equal in Python exactly when they are equal after flags are replaced by one and zero |
| `AdmissionMeaning.PodsCanBeDeleted` | tools/kubernetes_admission.py:482-505 | a pod of the namespace can always be deleted, and no other object of it can |
| `AdmissionMeaning.OneNamespace` | tools/kubernetes_admission.py:474-479 | a cluster that runs lead to has at most one namespace object, under the contract's name |
| `AdmissionRuns.OnlyPodsDisappear` | tools/kubernetes_admission.py:474-505 | along every run only pods can disappear |
| `AdmissionRuns.SpecsAreFrozen` | tools/kubernetes_admission.py:495-501 | along every run a signed object keeps its spec, up to Python's equality |
| `AdmissionRuns.DataIsFrozen` | tools/kubernetes_admission.py:505-509 | along every run an external ConfigMap or Secret keeps its data, up to Python's equality |
| `AdmissionRuns.VolumeIsSetOnce` | tools/kubernetes_admission.py:510-520 | a claim's volume name changes only from unset to set |
| `AdmissionRuns.VolumeChangesAtMostOnce` | tools/kubernetes_admission.py:510-520 | once it has changed in a run it never changes again |
| `AdmissionRuns.FittingIsReachable` | tools/kubernetes_admission.py:463-528 | every object within the contract arises from one admitted creation and one admitted update |
| `AdmissionRuns.MakeableIsReachable` | tools/kubernetes_admission.py:463-528 | a cluster whose objects can each be made on their own is reached by one run from the empty cluster |
| `AdmissionRuns.ReachableExactly` | tools/kubernetes_admission.py:463-528 | the states runs reach from an empty cluster are exactly those whose objects are within the contract |
| `AdmissionRuns.SignedIsListed` | tools/kubernetes_admission.py:45-49 | a lookup in the resource map returns a listed item of that kind and name |
| `OciLayout.CheckEntries` | tools/oci_release.py:1008-1054 | the loop over layer members accepts exactly the eight expected members, once each, with the expected metadata and payloads |
| `OciLayout.ValidateServiceLayout` | tools/oci_release.py:1097-1345 | a layout is accepted exactly when root, image, platforms and artifacts are valid and the stored blobs are the referenced ones |
| `OciSafety.AcceptedIsExactlyReachable` | tools/oci_release.py:1331-1345 | in an accepted layout every blob is under its own digest, and stored blobs are exactly those that descriptors lead to from the root index |
| `OciSafety.RecordFixesLayout` | tools/oci_release.py:1097-1345 | two accepted layouts with one service record are equal byte for byte |
| `OciBuild.Layout.AddBlob` | tools/oci_release.py:252-260 | a blob is added exactly when the digest is free or holds the same bytes within the read limit; then the store holds it under its digest |
| `OciBuild.Layout.Build` | tools/oci_release.py:627-795 | the builder succeeds exactly for an epoch in range, static binaries and blobs that can all be added, and then leaves the specified store and record |
| `OciBuild.StoreHolds` | tools/oci_release.py:252-260 | a clash-free store holds every added blob under its digest and nothing else |
| `OciAccept.BuiltIsAccepted` | tools/oci_release.py:627-1345 | whatever the builder writes is accepted by the validator exactly when its parts are within the limits and the CA bundle holds a certificate |
| `OciAccept.VariantIsAccepted` | tools/oci_release.py:1316-1345 | a layout built with any dependency list is accepted exactly when the limits hold and the list is not a proper subset of the promised three |
| `OciAccept.ListedWhenNothingElse` | tools/oci_release.py:1316-1330 | acceptance means that all three are listed for lists without other entries; every list with another entry is accepted |
| `OciAccept.NoneListedIsAccepted` | tools/oci_release.py:1316-1330 | an accepted layout that lists none of the three |
| `OciAccept.BuiltArtifact` | tools/oci_release.py:613-624 | a built artifact manifest is accepted as attached to its image and yields its document |
| `OciAccept.BuiltEntries` | tools/oci_release.py:263-307 | a built layer passes the member checks exactly when its payloads are within the limits |
| `OciRead.AcceptedRuns` | tools/oci_release.py:976-1270 | for both architectures a reader that follows descriptors from the root of an accepted layout finds a version 2 manifest with the recorded digest, a configuration that names architecture and archive, and the eight members only: the recorded static binary for that architecture, owned by user 65532 and writable by nobody, and the receipt's CA bundle with a certificate |
| `OciRead.AcceptedPapers` | tools/oci_release.py:1057-1330 | the two attached manifests have the recorded digests and name the image as their subject, the SPDX document names its digest and time, and the provenance names its digest and service |
| `OciRead.AcceptedRoot` | tools/oci_release.py:1124-1150 | the root index of an accepted layout is canonical, of version 2, has the recorded digest and length, and lists three titled descriptors |
| `OciRead.AcceptedImage` | tools/oci_release.py:1151-1163 | its image index has the recorded digest and length and lists two manifests |
| `OciRead.AcceptedPlatforms` | tools/oci_release.py:1159-1200 | the image index lists nothing but the amd64 and the arm64 manifest |
| `OciRead.BuiltShips` | tools/oci_release.py:263-307 | a reader of a built layout finds for each architecture the binary given for it, and the CA bundle, the licence and the notices each under its own path |
| `OciRead.BuiltSources` | tools/oci_release.py:548-610 | the provenance of a built layout lists the source, compiler and CA digests each under its own name, the websocket module, and nothing else |
| `SkuManifest.BuildManifest` | tools/factory_sku_manifest.py:70-124 | filling the zeroed buffer field by field gives the specified blob and evidence, or the first refusal |
| `SkuManifest.MacTextParses` | tools/factory_sku_manifest.py:37-45 | the normalised address text parses to the same six octets |
| `SkuManifest.IdIsCanonical` | tools/factory_sku_manifest.py:48-54 | a manifest ID is the text of its bytes |
| `SkuManifest.BuiltParses` | tools/factory_sku_manifest.py:70-181 | parsing a built blob returns the builder's evidence |
| `SkuManifest.ParsedRebuilds` | tools/factory_sku_manifest.py:127-181 | rebuilding from an accepted blob's evidence reproduces the blob and the evidence |
| `SkuManifest.AcceptedIsBuilt` | tools/factory_sku_manifest.py:127-181 | for every key the accepted blobs are exactly the built ones |
| `SkuLayout.AcceptedExactly` | tools/factory_sku_manifest.py:127-181 | for every key a blob is accepted exactly when it has magic, schema, SKU, revision, chip, address, version and manifest ID at their offsets within their ranges and ends in the tag of domain, zero byte and authenticated part; the evidence states those fields |
| `SpdxGraph.CollectEdges` | tools/firmware_sbom.py:489-496 | the edge table is the graph of the listed pairs, refused exactly when a pair names an unknown package |
| `SpdxGraph.FindReachable` | tools/firmware_sbom.py:497-504 | the worklist ends with exactly the IDs that dependency paths lead to from the project |
| `SpdxGraph.CheckDependencyGraph` | tools/firmware_sbom.py:489-510 | the check passes exactly when all pairs are known and every package has such a path |
| `Reachability.ReachedExactly` | tools/firmware_sbom.py:497-505 | a closed set of reached nodes with the roots in it is the set of all reached nodes |
| `GatewaySession.Session.AcceptDeviceMessage` | gateway_contract/device_agent_v1.py:128-160 | a message is accepted exactly under its guard; a rejected one changes nothing |
| `GatewaySession.Session.TtsStart` | gateway_contract/device_agent_v1.py:162-167 | the start event is emitted, with session and request ID, exactly under its guard |
| `GatewaySession.Session.SentenceStart` | gateway_contract/device_agent_v1.py:169-174 | a sentence event is emitted exactly while the request plays and changes no state |
| `GatewaySession.Session.TtsStop` | gateway_contract/device_agent_v1.py:176-182 | stopping emits the event and clears the session exactly while the request is active |
| `GatewaySession.Session.TtsError` | gateway_contract/device_agent_v1.py:184-191 | the same for errors with a bounded code |
| `GatewaySession.AcceptedLanguage` | gateway_contract/device_agent_v1.py:128-201 | a call sequence is accepted exactly when it is a sequence of request blocks, the last possibly unfinished |
| `GatewaySession.AcceptedSplits` | gateway_contract/device_agent_v1.py:128-201 | every accepted sequence splits into such blocks and the session's state is that of the last one |

## Left out

- The Go services, the firmware C sources and the companion app.
- Ed25519, SHA-256, HMAC, PEM, JSON, tar and gzip as algorithms; `_static_elf` is a parameter of the layout model.
- File modes, read-only trees, symlink tests and size limits of input files, except where a theorem turns on one.
- Exact key sets and frozen constants of the JSON documents; identifier patterns outside the ledger and the rollout.
- Ledger: `publish_policy`, the process umask, and writers that do not follow the protocol.
- Ledger: whether a time receipt answers the nonce that was sent; the source rebuilds the request from the receipt.
- Rollout: that the validator alone fixes the image digest along a lineage; it does not compare it, and only promoted bundles keep it.
- Release: the backend SLO proof, and the contents of the launch decision and the summary document.
- Network policies: the semantics is the additive one over selectors, namespaces, ports and address blocks; controllers and host networking are not modelled.
- Qualification: the delay with which a cluster starts to enforce a new policy, the probes' contents, and the evidence bundle.
- Qualification: deleting a namespace also removes what others put into it, as the cluster does.
- Admission: the generated CEL text. Documents whose shape makes the oracle raise are taken as not admitted. Numbers are reals, so infinities and NaN do not occur.
- `AdmissionRuns.ReachableExactly`: assumes that all signed items are in the workload namespace, as the deployment builder writes them.
- `OciLayout.ValidateServiceLayout`: leaves out the `oci-layout` file, the list of service names and the constant identity fields of the SPDX and provenance documents; the source adds referenced digests in its loop over platforms, here they are computed after it.
- Firmware SBOM: `canonicalize_spdx` and the package blocks; the model starts from the package IDs and the listed pairs.
- SKU manifest: the profile table has its one entry.
- Gateway: the hello exchange. Text is taken as its UTF-8 bytes, so ill-formed text does not occur.
- Memory budgets, onboarding bundles, flash manifests and launch decisions, which would only add easier members.
