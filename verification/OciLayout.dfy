/**
 The content-addressed image layout of `tools/oci_release.py`: the documents, the blob store with the builder that
 grows it, and the independent validator. The hash, JSON, tar, gzip and ELF codecs are parameters.
 */
module OciLayout {
  import opened Basics

  datatype Media = IndexMedia | ManifestMedia | ConfigMedia | LayerMedia | EmptyMedia | SpdxMedia | InTotoMedia

  datatype Descriptor = Descriptor(
    mediaType: Media, digest: string, size: nat,
    annotations: Option<string>, platform: Option<string>, artifactType: Option<Media>)

  datatype Index = Index(annotations: string, manifests: seq<Descriptor>, mediaType: Media, schemaVersion: int)

  datatype Manifest = Manifest(
    artifactType: Option<Media>, config: Descriptor, layers: seq<Descriptor>, mediaType: Media, schemaVersion: int,
    subject: Option<Descriptor>)

  /** `settings` stands for the fixed process settings and build history of an image. */
  datatype Config = Config(architecture: string, os: string, created: string, settings: string, diffIds: seq<string>)

  datatype Package = Package(filesAnalyzed: bool, checksums: seq<string>)

  datatype Spdx = Spdx(created: string, packages: seq<Package>)

  datatype Dependency = Dependency(uri: string, sha: Option<string>)

  datatype Provenance = Provenance(subjectName: string, subjectSha: string, dependencies: seq<Dependency>)

  datatype Document =
    | IndexDoc(index: Index)
    | ManifestDoc(manifest: Manifest)
    | ConfigDoc(config: Config)
    | SpdxDoc(spdx: Spdx)
    | ProvenanceDoc(provenance: Provenance)
    | OtherDoc(text: string)

  /** The paths an image layer may hold. */
  datatype Member = Etc | Ssl | Certs | Licenses | Service | CaBundle | WebsocketLicense | Notices |
    Foreign(path: string)

  datatype Entry = Entry(
    name: Member, directory: bool, mode: nat, uid: nat, gid: nat, mtime: nat, payload: Bytes)

  datatype World = World(
    sha: Bytes -> string,
    compact: Document -> Bytes, pretty: Document -> Bytes, decode: Bytes -> Option<Document>,
    tar: seq<Entry> -> Bytes, untar: Bytes -> Option<seq<Entry>>,
    gzip: (nat, Bytes) -> Bytes, gunzip: Bytes -> Option<(nat, Bytes)>,
    staticElf: (Bytes, string) -> bool, holdsCertificate: Bytes -> bool, timestamp: nat -> string, empty: Bytes)

  /** Times that the 32-bit field of a gzip header holds. */
  const CLOCK: nat := 0x1_0000_0000

  /** What a tar archive of known members can record: modes, owners and times, and no contents of a directory. */
  predicate Archivable(es: seq<Entry>) {
    forall i :: 0 <= i < |es| ==>
      es[i].mode < 0x20_0000 && es[i].uid < 0x20_0000 && es[i].gid < 0x20_0000 && es[i].mtime < CLOCK &&
      !es[i].name.Foreign? && (es[i].directory ==> es[i].payload == [])
  }

  /** Decoding inverts encoding. */
  ghost predicate Canonical(w: World) {
    && (forall d {:trigger w.compact(d)} :: w.decode(w.compact(d)) == Some(d))
    && (forall d {:trigger w.pretty(d)} :: w.decode(w.pretty(d)) == Some(d))
    && (forall es {:trigger w.tar(es)} :: Archivable(es) ==> w.untar(w.tar(es)) == Some(es))
    && (forall t: nat, b: Bytes {:trigger w.gzip(t, b)} :: t < CLOCK ==> w.gunzip(w.gzip(t, b)) == Some((t, b)))
  }

  ghost predicate CollisionFree(w: World) {
    forall a, b :: w.sha(a) == w.sha(b) ==> a == b
  }

  const MAX_BLOB := 128 * 1024 * 1024
  const MAX_JSON := 8 * 1024 * 1024
  const MAX_BINARY := 64 * 1024 * 1024
  const ARCHITECTURES := ["amd64", "arm64"]
  const SETTINGS := "static"

  function Describe(w: World, media: Media, data: Bytes): Descriptor {
    Descriptor(media, w.sha(data), |data|, None, None, None)
  }

  // ----- The layer archive -----

  const MEMBERS := {Etc, Ssl, Certs, Licenses, Service, CaBundle, WebsocketLicense, Notices}

  predicate MemberFits(e: Entry) {
    match e.name
    case Service => !e.directory && e.mode == 365 && e.uid == 65532 && e.gid == 65532
    case CaBundle | WebsocketLicense | Notices => !e.directory && e.mode == 292 && e.uid == 0 && e.gid == 0
    case Foreign(_) => false
    case _ => e.directory && e.mode == 365 && e.uid == 0 && e.gid == 0
  }

  datatype Expectation = Expectation(architecture: string, epoch: nat, binarySha: string, binarySize: nat,
                                     caSha: string)

  predicate EntryValid(w: World, x: Expectation, e: Entry) {
    && MemberFits(e) && e.mtime == x.epoch
    && (!e.directory ==> |e.payload| <= MAX_BLOB)
    && (e.name == Service ==>
          |e.payload| == x.binarySize && w.sha(e.payload) == x.binarySha && w.staticElf(e.payload, x.architecture))
    && (e.name == CaBundle ==> w.sha(e.payload) == x.caSha && w.holdsCertificate(e.payload))
  }

  function Names(es: seq<Entry>): set<Member> {
    set i | 0 <= i < |es| :: es[i].name
  }

  ghost predicate EntriesValid(w: World, x: Expectation, es: seq<Entry>) {
    && (forall i :: 0 <= i < |es| ==> EntryValid(w, x, es[i]))
    && (forall i, j :: 0 <= i < j < |es| ==> es[i].name != es[j].name)
    && Names(es) == MEMBERS
  }

  lemma NamesNext(es: seq<Entry>, i: nat)
    requires i < |es|
    ensures Names(es[..i + 1]) == Names(es[..i]) + {es[i].name}
    ensures forall j :: 0 <= j < i ==> es[j].name in Names(es[..i])
  {
    var longer := es[..i + 1];
    assert forall j :: 0 <= j < i ==> es[..i][j] == es[j] == longer[j];
    forall m | m in Names(es[..i]) + {es[i].name} ensures m in Names(longer) {
      if m == es[i].name {
        assert longer[i].name == m;
      } else {
        var j :| 0 <= j < i && es[..i][j].name == m;
        assert longer[j].name == m;
      }
    }
    forall j | 0 <= j < i ensures es[j].name in Names(es[..i]) { assert es[..i][j].name == es[j].name; }
  }

  /** The loop over archive members. */
  method CheckEntries(w: World, x: Expectation, es: seq<Entry>) returns (ok: bool)
    ensures ok <==> EntriesValid(w, x, es)
  {
    var seen: set<Member> := {};
    for i := 0 to |es|
      invariant seen == Names(es[..i])
      invariant forall j :: 0 <= j < i ==> EntryValid(w, x, es[j])
      invariant forall j, k :: 0 <= j < k < i ==> es[j].name != es[k].name
    {
      if es[i].name in seen || !EntryValid(w, x, es[i]) { return false; }
      NamesNext(es, i);
      seen := seen + {es[i].name};
    }
    assert es[..|es|] == es;
    ok := seen == MEMBERS;
  }

  // ----- Reading the store -----

  type Blobs = map<string, Bytes>

  /** `_blob`: the bytes a descriptor stands for. */
  function Load(w: World, blobs: Blobs, d: Descriptor, media: Media): Option<Bytes> {
    if d.mediaType != media || d.size > MAX_BLOB || d.digest !in blobs then None
    else
      var data := blobs[d.digest];
      if |data| > MAX_BLOB || |data| != d.size || w.sha(data) != d.digest then None else Some(data)
  }

  /** A canonical compact JSON document behind a descriptor. */
  function LoadDoc(w: World, blobs: Blobs, d: Descriptor, media: Media): Option<Document> {
    match Load(w, blobs, d, media)
    case None => None
    case Some(data) =>
      match w.decode(data)
      case None => None
      case Some(doc) => if w.compact(doc) == data then Some(doc) else None
  }

  function ManifestAt(w: World, blobs: Blobs, d: Descriptor): Option<Manifest> {
    match LoadDoc(w, blobs, d, ManifestMedia)
    case Some(ManifestDoc(m)) => Some(m)
    case _ => None
  }

  function IndexAt(w: World, blobs: Blobs, d: Descriptor): Option<Index> {
    match LoadDoc(w, blobs, d, IndexMedia)
    case Some(IndexDoc(x)) => Some(x)
    case _ => None
  }

  // ----- The validator -----

  datatype PlatformRecord = PlatformRecord(
    architecture: string, binarySha: string, binarySize: nat, manifestDigest: string, manifestSize: nat)

  datatype Record = Record(
    name: string, indexSha: string, indexSize: nat, imageDigest: string, imageSize: nat, sbomDigest: string,
    sbomSize: nat, provenanceDigest: string, provenanceSize: nat, platforms: seq<PlatformRecord>)

  datatype Receipt = Receipt(epoch: nat, caSha: string, sourceSha: string, goSha: string)

  /** The index file and the blob directory of one service. */
  datatype Store = Store(index: Bytes, blobs: Blobs)

  function Expect(receipt: Receipt, p: PlatformRecord): Expectation {
    Expectation(p.architecture, receipt.epoch, p.binarySha, p.binarySize, receipt.caSha)
  }

  /** The archive of a compressed layer, with its timestamp. */
  function Unpack(w: World, data: Bytes): Option<(nat, Bytes, seq<Entry>)> {
    match w.gunzip(data)
    case None => None
    case Some(pair) =>
      match w.untar(pair.1)
      case None => None
      case Some(es) => Some((pair.0, pair.1, es))
  }

  /** The manifest behind a platform descriptor, if the descriptor agrees with the record. */
  predicate PlatformDescribed(w: World, blobs: Blobs, d: Descriptor, p: PlatformRecord) {
    && d.annotations.None? && d.artifactType.None? && d.platform == Some(p.architecture)
    && d.digest == p.manifestDigest && d.size == p.manifestSize
    && var m := ManifestAt(w, blobs, d);
       && m.Some? && m.value.artifactType.None? && m.value.subject.None?
       && m.value.schemaVersion == 2 && m.value.mediaType == ManifestMedia && |m.value.layers| == 1
  }

  ghost predicate PlatformValid(w: World, blobs: Blobs, receipt: Receipt, d: Descriptor, p: PlatformRecord) {
    && PlatformDescribed(w, blobs, d, p)
    && var m := ManifestAt(w, blobs, d).value;
       var config := LoadDoc(w, blobs, m.config, ConfigMedia);
       var layer := Load(w, blobs, m.layers[0], LayerMedia);
       && config.Some? && config.value.ConfigDoc? && layer.Some? && 1 <= p.binarySize <= MAX_BINARY
       && var unpacked := Unpack(w, layer.value);
          && unpacked.Some? && unpacked.value.0 == receipt.epoch
          && EntriesValid(w, Expect(receipt, p), unpacked.value.2)
          && config.value.config == Config(p.architecture, "linux", w.timestamp(receipt.epoch), SETTINGS,
                                           [w.sha(unpacked.value.1)])
  }

  /** The descriptors a manifest descriptor accounts for. */
  function Accounted(w: World, blobs: Blobs, d: Descriptor): seq<Descriptor> {
    match ManifestAt(w, blobs, d)
    case Some(m) => [d, m.config] + m.layers
    case None => []
  }

  predicate ArtifactValid(w: World, blobs: Blobs, d: Descriptor, kind: Media, image: Descriptor) {
    var m := ManifestAt(w, blobs, d);
    && m.Some? && m.value.schemaVersion == 2 && m.value.mediaType == ManifestMedia
    && m.value.artifactType == Some(kind) && m.value.subject == Some(image)
    && Load(w, blobs, m.value.config, EmptyMedia) == Some(w.empty)
    && m.value.config.annotations.None? && m.value.config.platform.None? && m.value.config.artifactType.None?
    && |m.value.layers| == 1
    && var payload := m.value.layers[0];
       && LoadDoc(w, blobs, payload, kind).Some?
       && payload.annotations.Some? && payload.platform.None? && payload.artifactType.None?
  }

  function Payload(w: World, blobs: Blobs, d: Descriptor, kind: Media): Option<Document> {
    match ManifestAt(w, blobs, d)
    case Some(m) => if |m.layers| == 1 then LoadDoc(w, blobs, m.layers[0], kind) else None
    case None => None
  }

  predicate SpdxValid(w: World, receipt: Receipt, image: Descriptor, doc: Option<Document>) {
    && doc.Some? && doc.value.SpdxDoc? && doc.value.spdx.created == w.timestamp(receipt.epoch)
    && |doc.value.spdx.packages| == 4
    && (forall i :: 0 <= i < 4 ==> !doc.value.spdx.packages[i].filesAnalyzed)
    && doc.value.spdx.packages[0].checksums == [image.digest]
  }

  function Resolved(dependencies: seq<Dependency>): set<Dependency> {
    set d | d in dependencies
  }

  function Promised(receipt: Receipt): set<Dependency> {
    {Dependency("file:source-inputs.json", Some(receipt.sourceSha)),
     Dependency("file:ca-certificates.crt", Some(receipt.caSha)),
     Dependency("file:go-executable", Some(receipt.goSha))}
  }

  predicate ProvenanceValid(w: World, receipt: Receipt, image: Descriptor, name: string, doc: Option<Document>) {
    && doc.Some? && doc.value.ProvenanceDoc?
    && doc.value.provenance.subjectName == "xiaozhi-agent/" + name
    && doc.value.provenance.subjectSha == image.digest
    && !(Resolved(doc.value.provenance.dependencies) < Promised(receipt))
  }

  function RootOf(w: World, store: Store): Option<Index> {
    match w.decode(store.index)
    case Some(IndexDoc(x)) => if w.pretty(IndexDoc(x)) == store.index then Some(x) else None
    case _ => None
  }

  /** The root index and the three descriptors in it agree with the record. */
  predicate RootValid(w: World, store: Store, record: Record) {
    && |store.index| == record.indexSize && 1 <= record.indexSize <= MAX_JSON && w.sha(store.index) == record.indexSha
    && var root := RootOf(w, store);
       && root.Some? && root.value.schemaVersion == 2 && root.value.mediaType == IndexMedia &&
          |root.value.manifests| == 3
       && var image, sbom, provenance := root.value.manifests[0], root.value.manifests[1], root.value.manifests[2];
          && image.annotations.Some? && image.platform.None? && image.artifactType.None?
          && image.digest == record.imageDigest && image.size == record.imageSize
          && sbom.annotations.Some? && sbom.platform.None? && sbom.artifactType == Some(SpdxMedia)
          && sbom.digest == record.sbomDigest && sbom.size == record.sbomSize
          && provenance.annotations.Some? && provenance.platform.None? && provenance.artifactType == Some(InTotoMedia)
          && provenance.digest == record.provenanceDigest && provenance.size == record.provenanceSize
  }

  predicate ImageListed(w: World, store: Store, record: Record) {
    && RootValid(w, store, record)
    && var image := IndexAt(w, store.blobs, RootOf(w, store).value.manifests[0]);
       && image.Some? && |image.value.manifests| == 2 && |record.platforms| == 2
       && record.platforms[0].architecture == ARCHITECTURES[0] && record.platforms[1].architecture == ARCHITECTURES[1]
  }

  predicate ArtifactsValid(w: World, store: Store, record: Record, receipt: Receipt)
    requires RootValid(w, store, record)
  {
    var m := RootOf(w, store).value.manifests;
    && ArtifactValid(w, store.blobs, m[1], SpdxMedia, m[0]) && ArtifactValid(w, store.blobs, m[2], InTotoMedia, m[0])
    && SpdxValid(w, receipt, m[0], Payload(w, store.blobs, m[1], SpdxMedia))
    && ProvenanceValid(w, receipt, m[0], record.name, Payload(w, store.blobs, m[2], InTotoMedia))
  }

  /** Every descriptor the validator accounts for. */
  function Referenced(w: World, store: Store, record: Record): seq<Descriptor>
    requires ImageListed(w, store, record)
  {
    var m := RootOf(w, store).value.manifests;
    [m[0]] + AccountedAll(w, store.blobs, IndexAt(w, store.blobs, m[0]).value.manifests)
    + Accounted(w, store.blobs, m[1]) + Accounted(w, store.blobs, m[2])
  }

  function Digests(ds: seq<Descriptor>): set<string> {
    set d | d in ds :: d.digest
  }

  ghost predicate LayoutValid(w: World, store: Store, record: Record, receipt: Receipt) {
    && ImageListed(w, store, record) && ArtifactsValid(w, store, record, receipt)
    && var platforms := IndexAt(w, store.blobs, RootOf(w, store).value.manifests[0]).value.manifests;
       && PlatformsValid(w, store.blobs, receipt, platforms, record.platforms)
       && store.blobs.Keys == Digests(Referenced(w, store, record))
  }

  method CheckPlatform(w: World, blobs: Blobs, receipt: Receipt, d: Descriptor, p: PlatformRecord) returns (ok: bool)
    ensures ok <==> PlatformValid(w, blobs, receipt, d, p)
  {
    if !PlatformDescribed(w, blobs, d, p) || !(1 <= p.binarySize <= MAX_BINARY) { return false; }
    var m := ManifestAt(w, blobs, d).value;
    var config := LoadDoc(w, blobs, m.config, ConfigMedia);
    var layer := Load(w, blobs, m.layers[0], LayerMedia);
    if config.None? || !config.value.ConfigDoc? || layer.None? { return false; }
    var unpacked := Unpack(w, layer.value);
    if unpacked.None? || unpacked.value.0 != receipt.epoch { return false; }
    ok := CheckEntries(w, Expect(receipt, p), unpacked.value.2);
    ok := ok && config.value.config ==
                Config(p.architecture, "linux", w.timestamp(receipt.epoch), SETTINGS, [w.sha(unpacked.value.1)]);
  }

  ghost predicate PlatformsValid(w: World, blobs: Blobs, receipt: Receipt, ds: seq<Descriptor>, ps: seq<PlatformRecord>)
    requires |ds| <= |ps|
  {
    forall i :: 0 <= i < |ds| ==> PlatformValid(w, blobs, receipt, ds[i], ps[i])
  }

  function AccountedAll(w: World, blobs: Blobs, ds: seq<Descriptor>): seq<Descriptor> {
    if ds == [] then [] else AccountedAll(w, blobs, ds[..|ds| - 1]) + Accounted(w, blobs, ds[|ds| - 1])
  }

  /** The loop over platforms. */
  method CheckPlatforms(w: World, blobs: Blobs, receipt: Receipt, ds: seq<Descriptor>, ps: seq<PlatformRecord>)
    returns (ok: bool)
    requires |ds| <= |ps|
    ensures ok <==> PlatformsValid(w, blobs, receipt, ds, ps)
  {
    for i := 0 to |ds|
      invariant forall j :: 0 <= j < i ==> PlatformValid(w, blobs, receipt, ds[j], ps[j])
    {
      ok := CheckPlatform(w, blobs, receipt, ds[i], ps[i]);
      if !ok { return; }
    }
    ok := true;
  }

  /** `_validate_service_layout`. */
  method ValidateServiceLayout(w: World, store: Store, record: Record, receipt: Receipt)
    returns (r: Option<set<string>>)
    ensures r.Some? <==> LayoutValid(w, store, record, receipt)
    ensures r.Some? ==> r.value == store.blobs.Keys
  {
    if !ImageListed(w, store, record) { return None; }
    var platforms := IndexAt(w, store.blobs, RootOf(w, store).value.manifests[0]).value.manifests;
    var ok := CheckPlatforms(w, store.blobs, receipt, platforms, record.platforms);
    if !ok || !ArtifactsValid(w, store, record, receipt) { return None; }
    var referenced := Digests(Referenced(w, store, record));
    if store.blobs.Keys != referenced { return None; }
    r := Some(referenced);
  }
}
