/** The validator accepts a built layout exactly when its parts are within the size limits and the CA bundle is one. */
module OciAccept {
  import opened Basics
  import opened OciLayout
  import opened OciBuild
  import OciSafety

  function ReceiptOf(w: World, x: Inputs): Receipt {
    Receipt(x.epoch, w.sha(x.ca), x.sourceSha, x.goSha)
  }

  predicate PayloadLimits(w: World, x: Inputs, i: nat)
    requires i < |x.binaries|
  {
    && 1 <= |x.binaries[i]| <= MAX_BINARY && |x.ca| <= MAX_BLOB && |x.license| <= MAX_BLOB && |x.notices| <= MAX_BLOB
    && w.holdsCertificate(x.ca)
  }

  predicate SmallBlobs(list: seq<Bytes>) {
    forall b :: b in list ==> |b| <= MAX_BLOB
  }

  predicate Limits(w: World, x: Inputs)
    requires |x.binaries| == 2
  {
    && SmallBlobs(AllBlobs(w, x)) && 1 <= |w.pretty(RootIndex(w, x))| <= MAX_JSON
    && PayloadLimits(w, x, 0) && PayloadLimits(w, x, 1)
  }

  /** A blob that is stored and within the limit. */
  predicate Held(w: World, blobs: Blobs, b: Bytes) {
    w.sha(b) in blobs && blobs[w.sha(b)] == b && |b| <= MAX_BLOB
  }

  predicate Names(w: World, d: Descriptor, media: Media, b: Bytes) {
    d.mediaType == media && d.digest == w.sha(b) && d.size == |b|
  }

  lemma BytesLoad(w: World, blobs: Blobs, b: Bytes, d: Descriptor, media: Media)
    requires Held(w, blobs, b) && Names(w, d, media, b)
    ensures Load(w, blobs, d, media) == Some(b)
  {
  }

  lemma DocLoads(w: World, blobs: Blobs, doc: Document, d: Descriptor, media: Media)
    requires Canonical(w) && Held(w, blobs, w.compact(doc)) && Names(w, d, media, w.compact(doc))
    ensures LoadDoc(w, blobs, d, media) == Some(doc)
  {
    BytesLoad(w, blobs, w.compact(doc), d, media);
  }

  // ----- Layers -----

  lemma BuiltEntries(w: World, x: Inputs, i: nat, e: Expectation)
    requires i < |x.binaries| && w.staticElf(x.binaries[i], e.architecture)
    requires e.epoch == x.epoch && e.binarySha == w.sha(x.binaries[i]) && e.binarySize == |x.binaries[i]|
    requires e.caSha == w.sha(x.ca) && 1 <= |x.binaries[i]| <= MAX_BINARY
    ensures EntriesValid(w, e, LayerEntries(x, i)) <==> PayloadLimits(w, x, i)
  {
    var es := LayerEntries(x, i);
    BuiltNames(x, i);
    assert EntryValid(w, e, es[0]) && EntryValid(w, e, es[1]) && EntryValid(w, e, es[2]) && EntryValid(w, e, es[3]);
    assert EntryValid(w, e, es[4]);
    assert EntryValid(w, e, es[5]) <==> |x.ca| <= MAX_BLOB && w.holdsCertificate(x.ca);
    assert EntryValid(w, e, es[6]) <==> |x.license| <= MAX_BLOB;
    assert EntryValid(w, e, es[7]) <==> |x.notices| <= MAX_BLOB;
  }

  lemma BuiltNames(x: Inputs, i: nat)
    requires i < |x.binaries|
    ensures var es := LayerEntries(x, i);
            OciLayout.Names(es) == MEMBERS && forall j, k :: 0 <= j < k < |es| ==> es[j].name != es[k].name
  {
    var es := LayerEntries(x, i);
    assert es[0].name == Etc && es[1].name == Ssl && es[2].name == Certs && es[3].name == Licenses;
    assert es[4].name == Service && es[5].name == CaBundle && es[6].name == WebsocketLicense && es[7].name == Notices;
    assert OciLayout.Names(es) == MEMBERS;
  }

  // ----- Platforms -----

  ghost predicate AllHeld(w: World, blobs: Blobs, list: seq<Bytes>) {
    forall b :: b in list ==> Held(w, blobs, b)
  }

  lemma BuiltManifest(w: World, x: Inputs, i: nat, blobs: Blobs)
    requires Canonical(w) && i < |x.binaries| && i < 2 && AllHeld(w, blobs, PlatformBlobs(w, x, i))
    ensures var m := PlatformManifest(w, x, i).manifest;
            && ManifestAt(w, blobs, PlatformDescriptor(w, x, i)) == Some(m)
            && LoadDoc(w, blobs, m.config, ConfigMedia) == Some(ConfigOf(w, x, i))
            && Load(w, blobs, m.layers[0], LayerMedia) == Some(Layer(w, x, i))
    ensures PlatformDescribed(w, blobs, PlatformDescriptor(w, x, i), PlatformRecordOf(w, x, i))
  {
    var m := PlatformManifest(w, x, i).manifest;
    var list := PlatformBlobs(w, x, i);
    assert list[0] in list && list[1] in list && list[2] in list;
    DocLoads(w, blobs, PlatformManifest(w, x, i), PlatformDescriptor(w, x, i), ManifestMedia);
    DocLoads(w, blobs, ConfigOf(w, x, i), m.config, ConfigMedia);
    BytesLoad(w, blobs, Layer(w, x, i), m.layers[0], LayerMedia);
  }

  lemma BuiltUnpacks(w: World, x: Inputs, i: nat)
    requires Canonical(w) && i < |x.binaries| && x.epoch < CLOCK
    ensures Unpack(w, Layer(w, x, i)) == Some((x.epoch, Archive(w, x, i), LayerEntries(x, i)))
  {
  }

  lemma BuiltPlatform(w: World, x: Inputs, i: nat, blobs: Blobs)
    requires Canonical(w) && i < |x.binaries| && i < 2 && AllHeld(w, blobs, PlatformBlobs(w, x, i))
    requires w.staticElf(x.binaries[i], ARCHITECTURES[i]) && x.epoch < CLOCK
    ensures PlatformValid(w, blobs, ReceiptOf(w, x), PlatformDescriptor(w, x, i), PlatformRecordOf(w, x, i))
            <==> PayloadLimits(w, x, i)
  {
    BuiltManifest(w, x, i, blobs);
    BuiltUnpacks(w, x, i);
    if 1 <= |x.binaries[i]| <= MAX_BINARY {
      BuiltEntries(w, x, i, Expect(ReceiptOf(w, x), PlatformRecordOf(w, x, i)));
    }
  }

  // ----- Artifacts -----

  lemma BuiltArtifact(w: World, blobs: Blobs, image: Descriptor, kind: Media, doc: Document, title: string,
                      name: string)
    requires Canonical(w) && Held(w, blobs, w.empty) && Held(w, blobs, w.compact(doc))
    requires Held(w, blobs, w.compact(ArtifactManifest(w, image, kind, w.compact(doc), title)))
    ensures var m := ArtifactManifest(w, image, kind, w.compact(doc), title);
            var d := ArtifactDescriptor(w, m, kind, name);
            && ManifestAt(w, blobs, d) == Some(m.manifest)
            && ArtifactValid(w, blobs, d, kind, image) && Payload(w, blobs, d, kind) == Some(doc)
  {
    var m := ArtifactManifest(w, image, kind, w.compact(doc), title);
    DocLoads(w, blobs, m, ArtifactDescriptor(w, m, kind, name), ManifestMedia);
    DocLoads(w, blobs, doc, m.manifest.layers[0], kind);
    BytesLoad(w, blobs, w.empty, m.manifest.config, EmptyMedia);
  }

  // ----- Which blobs are referenced -----

  function Shas(w: World, list: seq<Bytes>): set<string> {
    set b | b in list :: w.sha(b)
  }

  lemma ShasConcat(w: World, a: seq<Bytes>, b: seq<Bytes>)
    ensures Shas(w, a + b) == Shas(w, a) + Shas(w, b)
  {
  }

  lemma DigestsConcat(a: seq<Descriptor>, b: seq<Descriptor>)
    ensures Digests(a + b) == Digests(a) + Digests(b)
  {
  }

  lemma ThreeDigests(a: Descriptor, b: Descriptor, c: Descriptor)
    ensures Digests([a, b, c]) == {a.digest, b.digest, c.digest}
  {
    assert a in [a, b, c] && b in [a, b, c] && c in [a, b, c];
  }

  lemma ThreeShas(w: World, a: Bytes, b: Bytes, c: Bytes)
    ensures Shas(w, [a, b, c]) == {w.sha(a), w.sha(b), w.sha(c)}
  {
    assert a in [a, b, c] && b in [a, b, c] && c in [a, b, c];
  }

  lemma PlatformDigests(w: World, x: Inputs, i: nat, blobs: Blobs)
    requires Canonical(w) && i < |x.binaries| && i < 2 && AllHeld(w, blobs, PlatformBlobs(w, x, i))
    ensures Digests(Accounted(w, blobs, PlatformDescriptor(w, x, i))) == Shas(w, PlatformBlobs(w, x, i))
  {
    BuiltManifest(w, x, i, blobs);
    var d, m := PlatformDescriptor(w, x, i), PlatformManifest(w, x, i).manifest;
    assert Accounted(w, blobs, d) == [d, m.config, m.layers[0]];
    ThreeDigests(d, m.config, m.layers[0]);
    ThreeShas(w, Layer(w, x, i), w.compact(ConfigOf(w, x, i)), w.compact(PlatformManifest(w, x, i)));
  }

  lemma ArtifactDigests(w: World, blobs: Blobs, d: Descriptor, m: Manifest, payload: Bytes)
    requires ManifestAt(w, blobs, d) == Some(m) && |m.layers| == 1
    requires m.config.digest == w.sha(w.empty) && m.layers[0].digest == w.sha(payload)
    ensures Digests(Accounted(w, blobs, d)) == {d.digest, w.sha(w.empty), w.sha(payload)}
  {
    assert Accounted(w, blobs, d) == [d, m.config, m.layers[0]];
    ThreeDigests(d, m.config, m.layers[0]);
  }

  lemma AllShas(w: World, x: Inputs)
    requires |x.binaries| == 2
    ensures Shas(w, AllBlobs(w, x)) ==
            {w.sha(w.empty)} + Shas(w, PlatformBlobs(w, x, 0)) + Shas(w, PlatformBlobs(w, x, 1)) +
              Shas(w, ClosingBlobs(w, x))
  {
    Concat(w, [w.empty], PlatformBlobs(w, x, 0), PlatformBlobs(w, x, 1), ClosingBlobs(w, x));
    assert Shas(w, [w.empty]) == {w.sha(w.empty)};
  }

  lemma Concat(w: World, a: seq<Bytes>, b: seq<Bytes>, c: seq<Bytes>, d: seq<Bytes>)
    ensures Shas(w, a + b + c + d) == Shas(w, a) + Shas(w, b) + Shas(w, c) + Shas(w, d)
  {
    ShasConcat(w, a, b);
    ShasConcat(w, a + b, c);
    ShasConcat(w, a + b + c, d);
  }

  lemma ClosingShas(w: World, a: Bytes, b: Bytes, c: Bytes, d: Bytes, e: Bytes)
    ensures Shas(w, [a, b, c, d, e]) == {w.sha(a), w.sha(b), w.sha(c), w.sha(d), w.sha(e)}
  {
    var s := [a, b, c, d, e];
    assert a in s && b in s && c in s && d in s && e in s;
  }

  // ----- The whole layout -----

  lemma BuiltRoot(w: World, x: Inputs)
    requires Canonical(w) && |x.binaries| == 2
    ensures RootOf(w, Built(w, x)) == Some(RootIndex(w, x).index)
    ensures RootValid(w, Built(w, x), RecordOf(w, x)) <==> 1 <= |w.pretty(RootIndex(w, x))| <= MAX_JSON
  {
  }

  lemma BuiltImage(w: World, x: Inputs, blobs: Blobs)
    requires Canonical(w) && |x.binaries| == 2 && Held(w, blobs, w.compact(ImageIndex(w, x)))
    ensures IndexAt(w, blobs, ImageDescriptor(w, x)) == Some(ImageIndex(w, x).index)
  {
    DocLoads(w, blobs, ImageIndex(w, x), ImageDescriptor(w, x), IndexMedia);
  }

  lemma BuiltHolds(w: World, x: Inputs)
    requires |x.binaries| == 2 && Buildable(w, x) && SmallBlobs(AllBlobs(w, x))
    ensures AllHeld(w, Built(w, x).blobs, AllBlobs(w, x))
    ensures Built(w, x).blobs.Keys == Shas(w, AllBlobs(w, x))
  {
    StoreHolds(w.sha, AllBlobs(w, x));
  }

  lemma HeldParts(w: World, x: Inputs, blobs: Blobs)
    requires |x.binaries| == 2 && AllHeld(w, blobs, AllBlobs(w, x))
    ensures Held(w, blobs, w.empty) && AllHeld(w, blobs, PlatformBlobs(w, x, 0)) &&
            AllHeld(w, blobs, PlatformBlobs(w, x, 1))
    ensures AllHeld(w, blobs, ClosingBlobs(w, x))
  {
    Parts(AllBlobs(w, x), [w.empty], PlatformBlobs(w, x, 0), PlatformBlobs(w, x, 1), ClosingBlobs(w, x));
    assert w.empty in [w.empty];
  }

  lemma Parts(all: seq<Bytes>, a: seq<Bytes>, b: seq<Bytes>, c: seq<Bytes>, d: seq<Bytes>)
    requires all == a + b + c + d
    ensures forall y :: y in a || y in b || y in c || y in d ==> y in all
  {
  }

  lemma ClosingHeld(w: World, x: Inputs, blobs: Blobs)
    requires |x.binaries| == 2 && AllHeld(w, blobs, ClosingBlobs(w, x))
    ensures Held(w, blobs, w.compact(ImageIndex(w, x))) && Held(w, blobs, w.compact(SpdxOf(w, x)))
    ensures Held(w, blobs, w.compact(SbomManifest(w, x))) && Held(w, blobs, w.compact(ProvenanceOf(w, x)))
    ensures Held(w, blobs, w.compact(ProvenanceManifest(w, x)))
  {
    var s := ClosingBlobs(w, x);
    assert s[0] in s && s[1] in s && s[2] in s && s[3] in s && s[4] in s;
  }

  lemma BuiltSpdx(w: World, x: Inputs)
    requires |x.binaries| == 2
    ensures SpdxValid(w, ReceiptOf(w, x), ImageDescriptor(w, x), Some(SpdxOf(w, x)))
  {
  }

  /** The dependency test as the validator makes it. */
  predicate DependenciesPass(w: World, x: Inputs) {
    !(Resolved(x.dependencies) < Promised(ReceiptOf(w, x)))
  }

  lemma BuiltProvenance(w: World, x: Inputs)
    requires |x.binaries| == 2
    ensures ProvenanceValid(w, ReceiptOf(w, x), ImageDescriptor(w, x), x.service, Some(ProvenanceOf(w, x)))
            <==> DependenciesPass(w, x)
  {
  }

  lemma BuiltArtifacts(w: World, x: Inputs)
    requires Canonical(w) && |x.binaries| == 2 && AllHeld(w, Built(w, x).blobs, AllBlobs(w, x))
    requires RootValid(w, Built(w, x), RecordOf(w, x))
    ensures ArtifactsValid(w, Built(w, x), RecordOf(w, x), ReceiptOf(w, x)) <==> DependenciesPass(w, x)
  {
    var blobs, image := Built(w, x).blobs, ImageDescriptor(w, x);
    HeldParts(w, x, blobs);
    ClosingHeld(w, x, blobs);
    BuiltRoot(w, x);
    BuiltArtifact(w, blobs, image, SpdxMedia, SpdxOf(w, x), x.service + ".spdx.json", x.version + ".sbom");
    BuiltArtifact(w, blobs, image, InTotoMedia, ProvenanceOf(w, x), x.service + ".intoto.json",
                  x.version + ".provenance");
    BuiltSpdx(w, x);
    BuiltProvenance(w, x);
  }

  lemma SbomDigests(w: World, x: Inputs, blobs: Blobs)
    requires Canonical(w) && |x.binaries| == 2 && Held(w, blobs, w.empty) && AllHeld(w, blobs, ClosingBlobs(w, x))
    ensures Digests(Accounted(w, blobs, RootIndex(w, x).index.manifests[1]))
            == {w.sha(w.compact(SbomManifest(w, x))), w.sha(w.empty), w.sha(w.compact(SpdxOf(w, x)))}
  {
    ClosingHeld(w, x, blobs);
    BuiltArtifact(w, blobs, ImageDescriptor(w, x), SpdxMedia, SpdxOf(w, x), x.service + ".spdx.json",
                  x.version + ".sbom");
    ArtifactDigests(w, blobs, RootIndex(w, x).index.manifests[1], SbomManifest(w, x).manifest, w.compact(SpdxOf(w, x)));
  }

  lemma ProvenanceDigests(w: World, x: Inputs, blobs: Blobs)
    requires Canonical(w) && |x.binaries| == 2 && Held(w, blobs, w.empty) && AllHeld(w, blobs, ClosingBlobs(w, x))
    ensures Digests(Accounted(w, blobs, RootIndex(w, x).index.manifests[2]))
            == {w.sha(w.compact(ProvenanceManifest(w, x))), w.sha(w.empty), w.sha(w.compact(ProvenanceOf(w, x)))}
  {
    ClosingHeld(w, x, blobs);
    BuiltArtifact(w, blobs, ImageDescriptor(w, x), InTotoMedia, ProvenanceOf(w, x), x.service + ".intoto.json",
                  x.version + ".provenance");
    ArtifactDigests(w, blobs, RootIndex(w, x).index.manifests[2], ProvenanceManifest(w, x).manifest,
                    w.compact(ProvenanceOf(w, x)));
  }

  lemma CoverDigests(w: World, blobs: Blobs, m: seq<Descriptor>, ds: seq<Descriptor>)
    requires |m| == 3 && |ds| == 2
    ensures Digests(OciSafety.Cover(w, blobs, m, ds)) ==
            {m[0].digest} + Digests(Accounted(w, blobs, ds[0])) + Digests(Accounted(w, blobs, ds[1]))
            + Digests(Accounted(w, blobs, m[1])) + Digests(Accounted(w, blobs, m[2]))
  {
    OciSafety.AccountedPair(w, blobs, ds);
    FiveDigests(m[0], Accounted(w, blobs, ds[0]), Accounted(w, blobs, ds[1]), Accounted(w, blobs, m[1]),
                Accounted(w, blobs, m[2]));
  }

  lemma BuiltCover(w: World, x: Inputs, blobs: Blobs)
    requires Canonical(w) && |x.binaries| == 2 && AllHeld(w, blobs, AllBlobs(w, x))
    ensures Digests(OciSafety.Cover(w, blobs, RootIndex(w, x).index.manifests, ImageIndex(w, x).index.manifests))
            == Shas(w, AllBlobs(w, x))
  {
    HeldParts(w, x, blobs);
    CoverDigests(w, blobs, RootIndex(w, x).index.manifests, ImageIndex(w, x).index.manifests);
    PlatformDigests(w, x, 0, blobs);
    PlatformDigests(w, x, 1, blobs);
    SbomDigests(w, x, blobs);
    ProvenanceDigests(w, x, blobs);
    AllShas(w, x);
    ClosingShas(w, w.compact(ImageIndex(w, x)), w.compact(SpdxOf(w, x)), w.compact(SbomManifest(w, x)),
                w.compact(ProvenanceOf(w, x)), w.compact(ProvenanceManifest(w, x)));
    Regroup(w.sha(w.compact(ImageIndex(w, x))), w.sha(w.empty), w.sha(w.compact(SpdxOf(w, x))),
            w.sha(w.compact(SbomManifest(w, x))), w.sha(w.compact(ProvenanceOf(w, x))),
            w.sha(w.compact(ProvenanceManifest(w, x))), Shas(w, PlatformBlobs(w, x, 0)),
            Shas(w, PlatformBlobs(w, x, 1)));
  }

  lemma Regroup(i: string, e: string, s: string, sm: string, p: string, pm: string, a: set<string>, b: set<string>)
    ensures {i} + a + b + {sm, e, s} + {pm, e, p} == {e} + a + b + {i, s, sm, p, pm}
  {
  }

  lemma BuiltReferenced(w: World, x: Inputs)
    requires Canonical(w) && |x.binaries| == 2 && AllHeld(w, Built(w, x).blobs, AllBlobs(w, x))
    requires ImageListed(w, Built(w, x), RecordOf(w, x))
    ensures Digests(Referenced(w, Built(w, x), RecordOf(w, x))) == Shas(w, AllBlobs(w, x))
  {
    var blobs := Built(w, x).blobs;
    HeldParts(w, x, blobs);
    ClosingHeld(w, x, blobs);
    BuiltRoot(w, x);
    BuiltImage(w, x, blobs);
    BuiltCover(w, x, blobs);
  }

  lemma FiveDigests(image: Descriptor, a: seq<Descriptor>, b: seq<Descriptor>, c: seq<Descriptor>, d: seq<Descriptor>)
    ensures Digests([image] + (a + b) + c + d) == {image.digest} + Digests(a) + Digests(b) + Digests(c) + Digests(d)
  {
    DigestsConcat(a, b);
    DigestsConcat([image], a + b);
    DigestsConcat([image] + (a + b), c);
    DigestsConcat([image] + (a + b) + c, d);
    assert Digests([image]) == {image.digest};
  }

  lemma BuiltPlatforms(w: World, x: Inputs)
    requires Canonical(w) && |x.binaries| == 2 && Buildable(w, x) && AllHeld(w, Built(w, x).blobs, AllBlobs(w, x))
    ensures PlatformsValid(w, Built(w, x).blobs, ReceiptOf(w, x), ImageIndex(w, x).index.manifests,
                           RecordOf(w, x).platforms)
            <==> PayloadLimits(w, x, 0) && PayloadLimits(w, x, 1)
  {
    HeldParts(w, x, Built(w, x).blobs);
    BuiltPlatform(w, x, 0, Built(w, x).blobs);
    BuiltPlatform(w, x, 1, Built(w, x).blobs);
    PlatformsPair(w, Built(w, x).blobs, ReceiptOf(w, x), ImageIndex(w, x).index.manifests, RecordOf(w, x).platforms);
  }

  lemma PlatformsPair(w: World, blobs: Blobs, receipt: Receipt, ds: seq<Descriptor>, ps: seq<PlatformRecord>)
    requires |ds| == |ps| == 2
    ensures PlatformsValid(w, blobs, receipt, ds, ps) <==>
              PlatformValid(w, blobs, receipt, ds[0], ps[0]) && PlatformValid(w, blobs, receipt, ds[1], ps[1])
  {
  }

  lemma AcceptedIsSmall(w: World, x: Inputs)
    requires |x.binaries| == 2 && Buildable(w, x)
    requires LayoutValid(w, Built(w, x), RecordOf(w, x), ReceiptOf(w, x))
    ensures SmallBlobs(AllBlobs(w, x))
  {
    StoreHolds(w.sha, AllBlobs(w, x));
    OciSafety.SoundWhenAccepted(w, Built(w, x), RecordOf(w, x), ReceiptOf(w, x));
  }

  /**
   A layout built with any list of dependencies is accepted exactly when the limits hold and the list is not a proper
   subset of the three promised dependencies.
   */
  lemma VariantIsAccepted(w: World, x: Inputs)
    requires Canonical(w) && |x.binaries| == 2 && Buildable(w, x)
    ensures LayoutValid(w, Built(w, x), RecordOf(w, x), ReceiptOf(w, x)) <==> Limits(w, x) && DependenciesPass(w, x)
  {
    if LayoutValid(w, Built(w, x), RecordOf(w, x), ReceiptOf(w, x)) {
      AcceptedIsSmall(w, x);
      AcceptedWithinLimits(w, x);
    }
    if Limits(w, x) && DependenciesPass(w, x) { WithinLimitsAccepted(w, x); }
  }

  lemma AcceptedWithinLimits(w: World, x: Inputs)
    requires Canonical(w) && |x.binaries| == 2 && Buildable(w, x) && SmallBlobs(AllBlobs(w, x))
    requires LayoutValid(w, Built(w, x), RecordOf(w, x), ReceiptOf(w, x))
    ensures Limits(w, x) && DependenciesPass(w, x)
  {
    BuiltHolds(w, x);
    BuiltRoot(w, x);
    HeldParts(w, x, Built(w, x).blobs);
    ClosingHeld(w, x, Built(w, x).blobs);
    BuiltImage(w, x, Built(w, x).blobs);
    BuiltPlatforms(w, x);
    BuiltArtifacts(w, x);
  }

  lemma WithinLimitsAccepted(w: World, x: Inputs)
    requires Canonical(w) && |x.binaries| == 2 && Buildable(w, x) && Limits(w, x) && DependenciesPass(w, x)
    ensures LayoutValid(w, Built(w, x), RecordOf(w, x), ReceiptOf(w, x))
  {
    BuiltHolds(w, x);
    BuiltRoot(w, x);
    HeldParts(w, x, Built(w, x).blobs);
    ClosingHeld(w, x, Built(w, x).blobs);
    BuiltImage(w, x, Built(w, x).blobs);
    BuiltPlatforms(w, x);
    BuiltArtifacts(w, x);
    assert ImageListed(w, Built(w, x), RecordOf(w, x));
    BuiltReferenced(w, x);
  }

  lemma RecordedPass(w: World, x: Inputs)
    ensures DependenciesPass(w, Planned(w, x))
  {
    assert Recorded(w, x)[3] == WEBSOCKET && WEBSOCKET in Resolved(Recorded(w, x));
  }

  /** Whatever the builder writes, the validator accepts exactly when the limits hold. */
  lemma BuiltIsAccepted(w: World, inputs: Inputs)
    requires Canonical(w) && |inputs.binaries| == 2 && Buildable(w, Planned(w, inputs))
    ensures var x := Planned(w, inputs);
            LayoutValid(w, Built(w, x), RecordOf(w, x), ReceiptOf(w, x)) <==> Limits(w, x)
  {
    VariantIsAccepted(w, Planned(w, inputs));
    RecordedPass(w, inputs);
  }

  /** When the test passes: any list with an entry of its own, and of the others only the complete one. */
  lemma WhenDependenciesPass(w: World, x: Inputs)
    ensures Resolved(x.dependencies) <= Promised(ReceiptOf(w, x)) ==>
              (DependenciesPass(w, x) <==> Resolved(x.dependencies) == Promised(ReceiptOf(w, x)))
    ensures !(Resolved(x.dependencies) <= Promised(ReceiptOf(w, x))) ==> DependenciesPass(w, x)
  {
  }

  lemma Stranger(listed: seq<Dependency>, promised: set<Dependency>, other: Dependency)
    requires listed == [other] && other !in promised
    ensures !(Resolved(listed) <= promised) && Resolved(listed) !! promised
  {
    assert listed[0] == other && other in Resolved(listed);
  }

  ghost predicate Accepted(w: World, x: Inputs)
    requires |x.binaries| == 2
  {
    LayoutValid(w, Built(w, x), RecordOf(w, x), ReceiptOf(w, x))
  }

  /**
   Acceptance guarantees all three promised dependencies for lists without other entries, and only for those: any list
   with another entry is accepted, complete or not.
   */
  lemma ListedWhenNothingElse(w: World, x: Inputs)
    requires Canonical(w) && |x.binaries| == 2 && Buildable(w, x) && Limits(w, x)
    ensures Resolved(x.dependencies) <= Promised(ReceiptOf(w, x)) ==>
              (Accepted(w, x) <==> Resolved(x.dependencies) == Promised(ReceiptOf(w, x)))
    ensures !(Resolved(x.dependencies) <= Promised(ReceiptOf(w, x))) ==> Accepted(w, x)
  {
    VariantIsAccepted(w, x);
    WhenDependenciesPass(w, x);
  }

  /** A list that names none of the promised dependencies but some other one is accepted like the full list. */
  lemma NoneListedIsAccepted(w: World, x: Inputs, other: Dependency)
    requires Canonical(w) && |x.binaries| == 2 && Buildable(w, x) && Limits(w, x)
    requires x.dependencies == [other] && other !in Promised(ReceiptOf(w, x))
    ensures Accepted(w, x) && Resolved(x.dependencies) !! Promised(ReceiptOf(w, x))
  {
    Stranger(x.dependencies, Promised(ReceiptOf(w, x)), other);
    ListedWhenNothingElse(w, x);
  }
}
