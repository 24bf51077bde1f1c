/** The layout builder, and that the independent validator accepts what it writes. */
module OciBuild {
  import opened Basics
  import opened OciLayout

  datatype Inputs = Inputs(
    service: string, version: string, binaries: seq<Bytes>, ca: Bytes, license: Bytes, notices: Bytes,
    sourceSha: string, goSha: string, epoch: nat, dependencies: seq<Dependency>)

  const MIN_EPOCH := 946684800
  const MAX_EPOCH := 4102444800

  // ----- The documents -----

  function LayerEntries(x: Inputs, i: nat): seq<Entry>
    requires i < |x.binaries|
  {
    [Entry(Etc, true, 365, 0, 0, x.epoch, []), Entry(Ssl, true, 365, 0, 0, x.epoch, []),
     Entry(Certs, true, 365, 0, 0, x.epoch, []), Entry(Licenses, true, 365, 0, 0, x.epoch, []),
     Entry(Service, false, 365, 65532, 65532, x.epoch, x.binaries[i]),
     Entry(CaBundle, false, 292, 0, 0, x.epoch, x.ca), Entry(WebsocketLicense, false, 292, 0, 0, x.epoch, x.license),
     Entry(Notices, false, 292, 0, 0, x.epoch, x.notices)]
  }

  function Archive(w: World, x: Inputs, i: nat): Bytes
    requires i < |x.binaries|
  {
    w.tar(LayerEntries(x, i))
  }

  function Layer(w: World, x: Inputs, i: nat): Bytes
    requires i < |x.binaries|
  {
    w.gzip(x.epoch, Archive(w, x, i))
  }

  function ConfigOf(w: World, x: Inputs, i: nat): Document
    requires i < |x.binaries| && i < 2
  {
    ConfigDoc(Config(ARCHITECTURES[i], "linux", w.timestamp(x.epoch), SETTINGS, [w.sha(Archive(w, x, i))]))
  }

  function PlatformManifest(w: World, x: Inputs, i: nat): Document
    requires i < |x.binaries| && i < 2
  {
    var title := x.service + "-" + ARCHITECTURES[i] + ".tar.gz";
    var layer := Describe(w, LayerMedia, Layer(w, x, i)).(annotations := Some(title));
    ManifestDoc(Manifest(None, Describe(w, ConfigMedia, w.compact(ConfigOf(w, x, i))), [layer], ManifestMedia, 2, None))
  }

  function PlatformDescriptor(w: World, x: Inputs, i: nat): Descriptor
    requires i < |x.binaries| && i < 2
  {
    Describe(w, ManifestMedia, w.compact(PlatformManifest(w, x, i))).(platform := Some(ARCHITECTURES[i]))
  }

  function ImageIndex(w: World, x: Inputs): Document
    requires |x.binaries| == 2
  {
    IndexDoc(Index(x.version, [PlatformDescriptor(w, x, 0), PlatformDescriptor(w, x, 1)], IndexMedia, 2))
  }

  function ImageDescriptor(w: World, x: Inputs): Descriptor
    requires |x.binaries| == 2
  {
    Describe(w, IndexMedia, w.compact(ImageIndex(w, x))).(annotations := Some(x.version))
  }

  function SpdxOf(w: World, x: Inputs): Document
    requires |x.binaries| == 2
  {
    SpdxDoc(Spdx(w.timestamp(x.epoch), [Package(false, [ImageDescriptor(w, x).digest]), Package(false, []),
                                        Package(false, []), Package(false, [w.sha(x.ca)])]))
  }

  function ProvenanceOf(w: World, x: Inputs): Document
    requires |x.binaries| == 2
  {
    ProvenanceDoc(Provenance("xiaozhi-agent/" + x.service, ImageDescriptor(w, x).digest,
                             x.dependencies))
  }

  const WEBSOCKET := Dependency("pkg:golang/github.com/coder/websocket@v1.8.15", None)

  /** The dependencies the builder lists. */
  function Recorded(w: World, x: Inputs): seq<Dependency> {
    [Dependency("file:source-inputs.json", Some(x.sourceSha)), Dependency("file:go-executable", Some(x.goSha)),
     Dependency("file:ca-certificates.crt", Some(w.sha(x.ca))), WEBSOCKET]
  }

  /** The layout the builder writes for these inputs, whatever dependencies they came with. */
  function Planned(w: World, x: Inputs): Inputs {
    x.(dependencies := Recorded(w, x))
  }

  /** `_artifact_manifest`. */
  function ArtifactManifest(w: World, image: Descriptor, kind: Media, payload: Bytes, title: string): Document {
    ManifestDoc(Manifest(Some(kind), Describe(w, EmptyMedia, w.empty),
                         [Describe(w, kind, payload).(annotations := Some(title))], ManifestMedia, 2, Some(image)))
  }

  function SbomManifest(w: World, x: Inputs): Document
    requires |x.binaries| == 2
  {
    ArtifactManifest(w, ImageDescriptor(w, x), SpdxMedia, w.compact(SpdxOf(w, x)), x.service + ".spdx.json")
  }

  function ProvenanceManifest(w: World, x: Inputs): Document
    requires |x.binaries| == 2
  {
    ArtifactManifest(w, ImageDescriptor(w, x), InTotoMedia, w.compact(ProvenanceOf(w, x)), x.service + ".intoto.json")
  }

  function ArtifactDescriptor(w: World, manifest: Document, kind: Media, name: string): Descriptor {
    Describe(w, ManifestMedia, w.compact(manifest)).(annotations := Some(name), artifactType := Some(kind))
  }

  function RootIndex(w: World, x: Inputs): Document
    requires |x.binaries| == 2
  {
    IndexDoc(Index(x.version, [ImageDescriptor(w, x),
                               ArtifactDescriptor(w, SbomManifest(w, x), SpdxMedia, x.version + ".sbom"),
                               ArtifactDescriptor(w, ProvenanceManifest(w, x), InTotoMedia, x.version + ".provenance")],
                   IndexMedia, 2))
  }

  // ----- The store -----

  function PlatformBlobs(w: World, x: Inputs, i: nat): seq<Bytes>
    requires i < |x.binaries| && i < 2
  {
    [Layer(w, x, i), w.compact(ConfigOf(w, x, i)), w.compact(PlatformManifest(w, x, i))]
  }

  function ClosingBlobs(w: World, x: Inputs): seq<Bytes>
    requires |x.binaries| == 2
  {
    [w.compact(ImageIndex(w, x)), w.compact(SpdxOf(w, x)), w.compact(SbomManifest(w, x)), w.compact(ProvenanceOf(w, x)),
     w.compact(ProvenanceManifest(w, x))]
  }

  /** Everything the builder adds, in order. */
  function AllBlobs(w: World, x: Inputs): seq<Bytes>
    requires |x.binaries| == 2
  {
    [w.empty] + PlatformBlobs(w, x, 0) + PlatformBlobs(w, x, 1) + ClosingBlobs(w, x)
  }

  function StoreOf(sha: Bytes -> string, list: seq<Bytes>): Blobs {
    if list == [] then map[] else StoreOf(sha, list[..|list| - 1])[sha(list[|list| - 1]) := list[|list| - 1]]
  }

  /** No two different blobs share a digest. */
  ghost predicate NoClash(sha: Bytes -> string, list: seq<Bytes>) {
    forall a, b :: a in list && b in list && sha(a) == sha(b) ==> a == b
  }

  /** No clash, and what is added twice is small enough to be read back for the comparison. */
  ghost predicate Storable(sha: Bytes -> string, list: seq<Bytes>) {
    && NoClash(sha, list)
    && forall i, j :: 0 <= i < j < |list| && list[i] == list[j] ==> |list[i]| <= MAX_BLOB
  }

  lemma StorablePrefix(sha: Bytes -> string, list: seq<Bytes>, n: nat)
    requires n <= |list| && Storable(sha, list)
    ensures Storable(sha, list[..n])
  {
    assert forall i :: 0 <= i < n ==> list[..n][i] == list[i];
  }

  lemma StorableFront(sha: Bytes -> string, front: seq<Bytes>, list: seq<Bytes>, n: nat)
    requires n <= |list|
    ensures Storable(sha, front + list) ==> Storable(sha, front + list[..n])
  {
    if Storable(sha, front + list) {
      StorablePrefix(sha, front + list, |front| + n);
      assert (front + list)[..|front| + n] == front + list[..n];
    }
  }

  lemma StorableNext(sha: Bytes -> string, list: seq<Bytes>, data: Bytes)
    requires Storable(sha, list)
    ensures Storable(sha, list + [data]) <==>
              (forall b :: b in list && sha(b) == sha(data) ==> b == data) && (data in list ==> |data| <= MAX_BLOB)
  {
    var longer := list + [data];
    assert longer[|list|] == data && forall i :: 0 <= i < |list| ==> longer[i] == list[i];
    if Storable(sha, longer) && data in list {
      var i :| 0 <= i < |list| && list[i] == data;
      assert longer[i] == longer[|list|];
    }
  }

  lemma {:induction false} StoreHolds(sha: Bytes -> string, list: seq<Bytes>)
    requires NoClash(sha, list)
    ensures forall b :: b in list ==> sha(b) in StoreOf(sha, list) && StoreOf(sha, list)[sha(b)] == b
    ensures forall k :: k in StoreOf(sha, list) ==> StoreOf(sha, list)[k] in list && sha(StoreOf(sha, list)[k]) == k
  {
    if list != [] { StoreHolds(sha, list[..|list| - 1]); }
  }

  predicate BothStatic(w: World, x: Inputs)
    requires |x.binaries| == 2
  {
    w.staticElf(x.binaries[0], ARCHITECTURES[0]) && w.staticElf(x.binaries[1], ARCHITECTURES[1])
  }

  /** What the builder accepts. */
  ghost predicate Buildable(w: World, x: Inputs)
    requires |x.binaries| == 2
  {
    MIN_EPOCH <= x.epoch <= MAX_EPOCH && BothStatic(w, x) && Storable(w.sha, AllBlobs(w, x))
  }

  function Built(w: World, x: Inputs): Store
    requires |x.binaries| == 2
  {
    Store(w.pretty(RootIndex(w, x)), StoreOf(w.sha, AllBlobs(w, x)))
  }

  function PlatformRecordOf(w: World, x: Inputs, i: nat): PlatformRecord
    requires i < |x.binaries| && i < 2
  {
    var d := PlatformDescriptor(w, x, i);
    PlatformRecord(ARCHITECTURES[i], w.sha(x.binaries[i]), |x.binaries[i]|, d.digest, d.size)
  }

  function RecordOf(w: World, x: Inputs): Record
    requires |x.binaries| == 2
  {
    var index, m := w.pretty(RootIndex(w, x)), RootIndex(w, x).index.manifests;
    Record(x.service, w.sha(index), |index|, m[0].digest, m[0].size, m[1].digest, m[1].size, m[2].digest, m[2].size,
           [PlatformRecordOf(w, x, 0), PlatformRecordOf(w, x, 1)])
  }

  class Layout {
    const w: World
    var blobs: Blobs
    var index: Bytes
    ghost var written: seq<Bytes>

    constructor (w: World)
      ensures this.w == w && Valid() && written == []
    {
      this.w, blobs, index, written := w, map[], [], [];
    }

    ghost predicate Valid()
      reads this
    {
      blobs == StoreOf(w.sha, written) && Storable(w.sha, written)
    }

    /** `_add_blob`: what is stored under the digest already is read back, within the limit, and must be the same. */
    method AddBlob(data: Bytes) returns (ok: bool)
      requires Valid()
      modifies this`blobs, this`written
      ensures ok <==> Storable(w.sha, old(written) + [data])
      ensures ok ==> Valid() && written == old(written) + [data]
    {
      StoreHolds(w.sha, written);
      StorableNext(w.sha, written, data);
      var k := w.sha(data);
      assert k in blobs ==> blobs[k] in written;
      if k in blobs && (|blobs[k]| > MAX_BLOB || blobs[k] != data) { return false; }
      assert (written + [data])[..|written|] == written;
      blobs := blobs[k := data];
      written := written + [data];
      ok := true;
    }

    /** Adds blobs one after the other, up to the first refusal. */
    method AddBlobs(list: seq<Bytes>) returns (ok: bool)
      requires Valid()
      modifies this`blobs, this`written
      ensures ok <==> Storable(w.sha, old(written) + list)
      ensures ok ==> Valid() && written == old(written) + list
    {
      ghost var start := written;
      assert start + list[..0] == start;
      for i := 0 to |list|
        invariant Valid() && written == start + list[..i]
      {
        assert start + list[..i] + [list[i]] == start + list[..i + 1];
        ok := AddBlob(list[i]);
        if !ok {
          StorableFront(w.sha, start, list, i + 1);
          return;
        }
      }
      assert list[..|list|] == list;
      ok := true;
    }

    /** Adds group after group to an empty layout, as long as the next one may be added. */
    method AddGroups(groups: seq<seq<Bytes>>, ready: seq<bool>) returns (ok: bool)
      requires Valid() && written == [] && |ready| == |groups|
      modifies this`blobs, this`written
      ensures ok <==> (forall i :: 0 <= i < |ready| ==> ready[i]) && Storable(w.sha, Flat(groups))
      ensures ok ==> Valid() && written == Flat(groups)
    {
      for i := 0 to |groups|
        invariant Valid() && written == Flat(groups[..i])
        invariant forall j :: 0 <= j < i ==> ready[j]
      {
        if !ready[i] { return false; }
        FlatNext(groups, i);
        ok := AddBlobs(groups[i]);
        if !ok {
          FlatPrefix(groups, i + 1);
          if Storable(w.sha, Flat(groups)) { StorablePrefix(w.sha, Flat(groups), |Flat(groups[..i + 1])|); }
          return;
        }
      }
      assert groups[..|groups|] == groups;
      ok := true;
    }

    /** All blobs of a build, each platform's after its binary was found static. */
    method AddAll(x: Inputs) returns (ok: bool)
      requires Valid() && written == [] && |x.binaries| == 2
      modifies this`blobs, this`written
      ensures ok <==> BothStatic(w, x) && Storable(w.sha, AllBlobs(w, x))
      ensures ok ==> blobs == StoreOf(w.sha, AllBlobs(w, x))
    {
      var first, second := w.staticElf(x.binaries[0], ARCHITECTURES[0]), w.staticElf(x.binaries[1], ARCHITECTURES[1]);
      var ready := [true, first, second, true];
      AllGroups(w, x);
      ok := AddGroups(Groups(w, x), ready);
      assert (forall i :: 0 <= i < 4 ==> ready[i]) <==> ready[1] && ready[2];
    }

    method Write(x: Inputs) returns (r: Option<Record>)
      requires Valid() && written == [] && |x.binaries| == 2
      modifies this
      ensures r.Some? <==> Buildable(w, x)
      ensures r.Some? ==> Store(index, blobs) == Built(w, x) && r.value == RecordOf(w, x)
    {
      if !(MIN_EPOCH <= x.epoch <= MAX_EPOCH) { return None; }
      var ok := AddAll(x);
      if !ok { return None; }
      index := w.pretty(RootIndex(w, x));
      r := Some(RecordOf(w, x));
    }

    /** `_build_service_layout`, in a new directory. */
    method Build(inputs: Inputs) returns (r: Option<Record>)
      requires Valid() && written == [] && |inputs.binaries| == 2
      modifies this
      ensures r.Some? <==> Buildable(w, Planned(w, inputs))
      ensures r.Some? ==>
              Store(index, blobs) == Built(w, Planned(w, inputs)) && r.value == RecordOf(w, Planned(w, inputs))
    {
      r := Write(Planned(w, inputs));
    }
  }

  function Groups(w: World, x: Inputs): seq<seq<Bytes>>
    requires |x.binaries| == 2
  {
    [[w.empty], PlatformBlobs(w, x, 0), PlatformBlobs(w, x, 1), ClosingBlobs(w, x)]
  }

  lemma AllGroups(w: World, x: Inputs)
    requires |x.binaries| == 2
    ensures Flat(Groups(w, x)) == AllBlobs(w, x)
  {
    FlatFour([w.empty], PlatformBlobs(w, x, 0), PlatformBlobs(w, x, 1), ClosingBlobs(w, x));
  }

  function Flat(groups: seq<seq<Bytes>>): seq<Bytes> {
    if groups == [] then [] else Flat(groups[..|groups| - 1]) + groups[|groups| - 1]
  }

  lemma FlatFour(a: seq<Bytes>, b: seq<Bytes>, c: seq<Bytes>, d: seq<Bytes>)
    ensures Flat([a, b, c, d]) == a + b + c + d
  {
    assert [a, b, c, d][..3] == [a, b, c] && [a, b, c][..2] == [a, b] && [a, b][..1] == [a] && [a][..0] == [];
    assert Flat([a]) == a && Flat([a, b]) == a + b && Flat([a, b, c]) == a + b + c;
  }

  lemma FlatNext(groups: seq<seq<Bytes>>, i: nat)
    requires i < |groups|
    ensures Flat(groups[..i + 1]) == Flat(groups[..i]) + groups[i]
  {
    assert groups[..i + 1][..i] == groups[..i];
  }

  lemma {:induction false} FlatPrefix(groups: seq<seq<Bytes>>, i: nat)
    requires i <= |groups|
    ensures Flat(groups[..i]) <= Flat(groups)
    decreases |groups| - i
  {
    if i == |groups| {
      assert groups[..i] == groups;
    } else {
      FlatNext(groups, i);
      FlatPrefix(groups, i + 1);
    }
  }
}
