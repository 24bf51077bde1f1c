/**
 Reading a layout as a container runtime does, from the root index down to a file of one platform: what a reader finds
 in an accepted layout, and that it finds in a built one what the builder was given.
 */
module OciRead {
  import opened Basics
  import opened OciLayout
  import opened OciBuild
  import OciAccept
  import OciSafety

  // ----- A reader -----

  /** The first descriptor of a kind. */
  function Pick(ds: seq<Descriptor>, wanted: Descriptor -> bool): Option<Descriptor> {
    if ds == [] then None else if wanted(ds[0]) then Some(ds[0]) else Pick(ds[1..], wanted)
  }

  function Typed(kind: Media): Descriptor -> bool {
    (d: Descriptor) => d.mediaType == kind
  }

  function For(architecture: string): Descriptor -> bool {
    (d: Descriptor) => d.platform == Some(architecture)
  }

  function Kind(kind: Media): Descriptor -> bool {
    (d: Descriptor) => d.artifactType == Some(kind)
  }

  lemma {:induction false} PickAt(ds: seq<Descriptor>, wanted: Descriptor -> bool, i: nat)
    requires i < |ds| && wanted(ds[i]) && forall j :: 0 <= j < i ==> !wanted(ds[j])
    ensures Pick(ds, wanted) == Some(ds[i])
    decreases i
  {
    if i > 0 {
      assert forall j :: 0 <= j < |ds| - 1 ==> ds[1..][j] == ds[j + 1];
      PickAt(ds[1..], wanted, i - 1);
    }
  }

  function ManifestIn(w: World, blobs: Blobs, d: Option<Descriptor>): Option<Manifest> {
    if d.None? then None else ManifestAt(w, blobs, d.value)
  }

  /** The image index that the root index lists. */
  function ImageOf(w: World, store: Store): Option<Index> {
    match RootOf(w, store)
    case None => None
    case Some(root) =>
      match Pick(root.manifests, Typed(IndexMedia))
      case None => None
      case Some(d) => IndexAt(w, store.blobs, d)
  }

  /** The manifest of one platform. */
  function PlatformOf(w: World, store: Store, architecture: string): Option<Manifest> {
    match ImageOf(w, store)
    case None => None
    case Some(image) => ManifestIn(w, store.blobs, Pick(image.manifests, For(architecture)))
  }

  /** The archive in a manifest's only layer, and its members. */
  function Unpacked(w: World, blobs: Blobs, m: Manifest): Option<(Bytes, seq<Entry>)> {
    if |m.layers| != 1 then None
    else
      match Load(w, blobs, m.layers[0], LayerMedia)
      case None => None
      case Some(data) =>
        match Unpack(w, data)
        case None => None
        case Some(u) => Some((u.1, u.2))
  }

  /** The files of one platform. */
  function Pull(w: World, store: Store, architecture: string): Option<seq<Entry>> {
    match PlatformOf(w, store, architecture)
    case None => None
    case Some(m) => if Unpacked(w, store.blobs, m).None? then None else Some(Unpacked(w, store.blobs, m).value.1)
  }

  /** The manifest attached to the image under a media type. */
  function AttachedAt(w: World, store: Store, kind: Media): Option<Manifest> {
    match RootOf(w, store)
    case None => None
    case Some(root) => ManifestIn(w, store.blobs, Pick(root.manifests, Kind(kind)))
  }

  /** The document in it. */
  function Attached(w: World, store: Store, kind: Media): Option<Document> {
    match AttachedAt(w, store, kind)
    case None => None
    case Some(m) => if |m.layers| == 1 then LoadDoc(w, store.blobs, m.layers[0], kind) else None
  }

  /** The only member with this path. */
  ghost predicate Has(es: seq<Entry>, e: Entry) {
    e in es && forall f :: f in es && f.name == e.name ==> f == e
  }

  /** A regular file, at this mode and with this owner and group. */
  predicate File(e: Entry, name: Member, mode: nat, owner: nat) {
    e.name == name && !e.directory && e.mode == mode && e.uid == owner && e.gid == owner
  }

  predicate Folder(e: Entry) {
    e.directory && e.mode == 0x16D && e.uid == 0 && e.gid == 0
  }

  /** The four directories, the four files, and nothing else. */
  ghost predicate Complete(es: seq<Entry>, service: Entry, ca: Entry, license: Entry, notices: Entry) {
    && File(service, Service, 0x16D, 65532) && File(ca, CaBundle, 0x124, 0)
    && File(license, WebsocketLicense, 0x124, 0) && File(notices, Notices, 0x124, 0)
    && Has(es, service) && Has(es, ca) && Has(es, license) && Has(es, notices)
    && (forall n :: n in [Etc, Ssl, Certs, Licenses] ==> exists e: Entry :: e.name == n && Folder(e) && Has(es, e))
    && forall e :: e in es ==> e in [service, ca, license, notices] || e.name in [Etc, Ssl, Certs, Licenses]
  }

  // ----- An accepted layout -----

  /** Which of the two platforms an architecture is. */
  predicate Platform(architecture: string, i: nat) {
    (architecture == "amd64" && i == 0) || (architecture == "arm64" && i == 1)
  }

  lemma NamedEntry(es: seq<Entry>, n: Member) returns (e: Entry)
    requires n in Names(es) && forall i, j :: 0 <= i < j < |es| ==> es[i].name != es[j].name
    ensures e.name == n && Has(es, e)
  {
    var i :| 0 <= i < |es| && es[i].name == n;
    e := es[i];
  }

  lemma FoldersFound(w: World, x: Expectation, es: seq<Entry>)
    requires EntriesValid(w, x, es)
    ensures forall n :: n in [Etc, Ssl, Certs, Licenses] ==> exists e: Entry :: e.name == n && Folder(e) && Has(es, e)
  {
    forall n | n in [Etc, Ssl, Certs, Licenses] ensures exists e: Entry :: e.name == n && Folder(e) && Has(es, e) {
      assert n in MEMBERS;
      var e := NamedEntry(es, n);
      assert EntryValid(w, x, e);
    }
  }

  /** A valid layer has the eight members, each once, and the binary and the CA bundle are the expected ones. */
  lemma ValidLayer(w: World, x: Expectation, es: seq<Entry>)
    returns (service: Entry, ca: Entry, license: Entry, notices: Entry)
    requires EntriesValid(w, x, es)
    ensures Complete(es, service, ca, license, notices)
    ensures EntryValid(w, x, service) && EntryValid(w, x, ca)
  {
    service := FileFound(w, x, es, Service);
    ca := FileFound(w, x, es, CaBundle);
    license := FileFound(w, x, es, WebsocketLicense);
    notices := FileFound(w, x, es, Notices);
    FoldersFound(w, x, es);
    forall e | e in es ensures e in [service, ca, license, notices] || e.name in [Etc, Ssl, Certs, Licenses] {
      NothingElse(w, x, e);
    }
  }

  lemma FileFound(w: World, x: Expectation, es: seq<Entry>, n: Member) returns (e: Entry)
    requires EntriesValid(w, x, es) && (n.Service? || n.CaBundle? || n.WebsocketLicense? || n.Notices?)
    ensures Has(es, e) && EntryValid(w, x, e)
    ensures if n.Service? then File(e, n, 0x16D, 65532) else File(e, n, 0x124, 0)
  {
    assert n in MEMBERS;
    e := NamedEntry(es, n);
    assert EntryValid(w, x, e);
  }

  lemma NothingElse(w: World, x: Expectation, e: Entry)
    requires EntryValid(w, x, e)
    ensures e.name in [Etc, Ssl, Certs, Licenses, Service, CaBundle, WebsocketLicense, Notices]
  {
  }

  /** What a reader of an accepted layout finds for one platform. */
  ghost predicate Runs(w: World, es: seq<Entry>, architecture: string, epoch: nat, binarySha: string, binarySize: nat,
                       caSha: string)
  {
    exists service, ca, license, notices ::
      && Complete(es, service, ca, license, notices)
      && w.staticElf(service.payload, architecture) && w.sha(service.payload) == binarySha
      && |service.payload| == binarySize && w.sha(ca.payload) == caSha && w.holdsCertificate(ca.payload)
      && forall e :: e in es ==> e.mtime == epoch
  }

  lemma ValidLayerRuns(w: World, x: Expectation, es: seq<Entry>)
    requires EntriesValid(w, x, es)
    ensures Runs(w, es, x.architecture, x.epoch, x.binarySha, x.binarySize, x.caSha)
  {
    var service, ca, license, notices := ValidLayer(w, x, es);
    forall e | e in es ensures e.mtime == x.epoch { assert EntryValid(w, x, e); }
    assert Complete(es, service, ca, license, notices);
  }

  /** The canonical bytes of a document have this digest and length. */
  predicate Written(w: World, doc: Document, digest: string, size: nat) {
    w.sha(w.compact(doc)) == digest && |w.compact(doc)| == size
  }

  /** A version 2 image manifest. */
  predicate Proper(m: Manifest) {
    m.schemaVersion == 2 && m.mediaType == ManifestMedia
  }

  lemma LoadedIsWritten(w: World, blobs: Blobs, d: Descriptor)
    ensures ManifestAt(w, blobs, d).Some? ==>
              Written(w, ManifestDoc(ManifestAt(w, blobs, d).value), d.digest, d.size) && d.mediaType == ManifestMedia
    ensures IndexAt(w, blobs, d).Some? ==>
              Written(w, IndexDoc(IndexAt(w, blobs, d).value), d.digest, d.size) && d.mediaType == IndexMedia
  {
  }

  /** A manifest whose layer runs on an architecture, with a configuration that names both. */
  ghost predicate RunsOn(w: World, blobs: Blobs, m: Manifest, receipt: Receipt, p: PlatformRecord) {
    var u, config := Unpacked(w, blobs, m), LoadDoc(w, blobs, m.config, ConfigMedia);
    && Proper(m) && m.artifactType.None? && m.subject.None?
    && Written(w, ManifestDoc(m), p.manifestDigest, p.manifestSize)
    && u.Some? && config.Some? && config.value.ConfigDoc?
    && config.value.config.architecture == p.architecture && config.value.config.os == "linux"
    && config.value.config.created == w.timestamp(receipt.epoch) && config.value.config.diffIds == [w.sha(u.value.0)]
    && Runs(w, u.value.1, p.architecture, receipt.epoch, p.binarySha, p.binarySize, receipt.caSha)
  }

  /** A descriptor of a manifest, without title or artifact type. */
  predicate Untitled(d: Descriptor) {
    d.mediaType == ManifestMedia && d.annotations.None? && d.artifactType.None?
  }

  lemma PlatformOpened(w: World, blobs: Blobs, receipt: Receipt, d: Descriptor, p: PlatformRecord)
    returns (m: Manifest, archive: Bytes, es: seq<Entry>)
    requires PlatformValid(w, blobs, receipt, d, p)
    ensures d.platform == Some(p.architecture) && 1 <= p.binarySize <= 0x400_0000
    ensures ManifestAt(w, blobs, d) == Some(m) && Unpacked(w, blobs, m) == Some((archive, es))
    ensures Proper(m) && m.artifactType.None? && m.subject.None?
    ensures Written(w, ManifestDoc(m), p.manifestDigest, p.manifestSize)
    ensures EntriesValid(w, Expect(receipt, p), es)
    ensures var config := LoadDoc(w, blobs, m.config, ConfigMedia);
            && config.Some? && config.value.ConfigDoc? && config.value.config.architecture == p.architecture
            && config.value.config.os == "linux" && config.value.config.created == w.timestamp(receipt.epoch)
            && config.value.config.diffIds == [w.sha(archive)]
  {
    LoadedIsWritten(w, blobs, d);
    m := ManifestAt(w, blobs, d).value;
    archive, es := Unpacked(w, blobs, m).value.0, Unpacked(w, blobs, m).value.1;
  }

  lemma PlatformRuns(w: World, blobs: Blobs, receipt: Receipt, d: Descriptor, p: PlatformRecord)
    requires PlatformValid(w, blobs, receipt, d, p)
    ensures d.platform == Some(p.architecture) && ManifestAt(w, blobs, d).Some?
    ensures RunsOn(w, blobs, ManifestAt(w, blobs, d).value, receipt, p) && 1 <= p.binarySize <= 0x400_0000
  {
    var m, archive, es := PlatformOpened(w, blobs, receipt, d, p);
    ValidLayerRuns(w, Expect(receipt, p), es);
  }

  /** What an accepted layout consists of. */
  lemma AcceptedParts(w: World, store: Store, record: Record, receipt: Receipt)
    returns (m: seq<Descriptor>, ds: seq<Descriptor>)
    requires LayoutValid(w, store, record, receipt)
    ensures RootOf(w, store).Some? && RootOf(w, store).value.manifests == m && |m| == 3
    ensures m[0].mediaType == IndexMedia && m[0].digest == record.imageDigest
    ensures IndexAt(w, store.blobs, m[0]).Some? && IndexAt(w, store.blobs, m[0]).value.manifests == ds && |ds| == 2
    ensures |record.platforms| == 2
    ensures record.platforms[0].architecture == "amd64" && record.platforms[1].architecture == "arm64"
    ensures PlatformValid(w, store.blobs, receipt, ds[0], record.platforms[0])
    ensures PlatformValid(w, store.blobs, receipt, ds[1], record.platforms[1])
  {
    m := RootOf(w, store).value.manifests;
    ds := IndexAt(w, store.blobs, m[0]).value.manifests;
  }

  lemma PlatformFound(w: World, store: Store, root: Index, image: Index, architecture: string, i: nat)
    requires RootOf(w, store) == Some(root) && |root.manifests| > 0 && root.manifests[0].mediaType == IndexMedia
    requires IndexAt(w, store.blobs, root.manifests[0]) == Some(image) && i < |image.manifests| == 2
    requires image.manifests[0].platform == Some("amd64") && image.manifests[1].platform == Some("arm64")
    requires Platform(architecture, i)
    ensures PlatformOf(w, store, architecture) == ManifestAt(w, store.blobs, image.manifests[i])
  {
    PickAt(root.manifests, Typed(IndexMedia), 0);
    assert "amd64"[1] == 'm' && "arm64"[1] == 'r';
    PickAt(image.manifests, For(architecture), i);
  }

  /**
   For both architectures a reader of an accepted layout finds the eight members, the recorded static binary for that
   architecture, owned by an unprivileged user and writable by nobody, and the CA bundle of the receipt; the platform's
   configuration names the architecture and the archive.
   */
  lemma AcceptedRuns(w: World, store: Store, record: Record, receipt: Receipt, architecture: string, i: nat)
    requires LayoutValid(w, store, record, receipt) && Platform(architecture, i)
    ensures PlatformOf(w, store, architecture).Some? && i < |record.platforms|
    ensures record.platforms[i].architecture == architecture && 1 <= record.platforms[i].binarySize <= 0x400_0000
    ensures RunsOn(w, store.blobs, PlatformOf(w, store, architecture).value, receipt, record.platforms[i])
  {
    var m, ds := AcceptedParts(w, store, record, receipt);
    PlatformRuns(w, store.blobs, receipt, ds[0], record.platforms[0]);
    PlatformRuns(w, store.blobs, receipt, ds[1], record.platforms[1]);
    PlatformFound(w, store, RootOf(w, store).value, IndexAt(w, store.blobs, m[0]).value, architecture, i);
  }

  /** The image index lists nothing but the two platforms' manifests. */
  lemma AcceptedPlatforms(w: World, store: Store, record: Record, receipt: Receipt)
    requires LayoutValid(w, store, record, receipt)
    ensures ImageOf(w, store).Some? && |ImageOf(w, store).value.manifests| == 2
    ensures var ds := ImageOf(w, store).value.manifests;
            && ds[0].platform == Some("amd64") && Untitled(ds[0]) && ds[1].platform == Some("arm64") && Untitled(ds[1])
  {
    var m, ds := AcceptedParts(w, store, record, receipt);
    ImageFound(w, store, RootOf(w, store).value);
    PlatformUntitled(w, store.blobs, receipt, ds[0], record.platforms[0]);
    PlatformUntitled(w, store.blobs, receipt, ds[1], record.platforms[1]);
  }

  lemma ImageFound(w: World, store: Store, root: Index)
    requires RootOf(w, store) == Some(root) && |root.manifests| > 0 && root.manifests[0].mediaType == IndexMedia
    ensures ImageOf(w, store) == IndexAt(w, store.blobs, root.manifests[0])
  {
    PickAt(root.manifests, Typed(IndexMedia), 0);
  }

  lemma PlatformUntitled(w: World, blobs: Blobs, receipt: Receipt, d: Descriptor, p: PlatformRecord)
    requires PlatformValid(w, blobs, receipt, d, p)
    ensures d.platform == Some(p.architecture) && Untitled(d)
  {
    LoadedIsWritten(w, blobs, d);
  }

  lemma ArtifactFound(w: World, store: Store, root: Index)
    requires RootOf(w, store) == Some(root) && |root.manifests| == 3 && root.manifests[0].artifactType.None?
    requires root.manifests[1].artifactType == Some(SpdxMedia) && root.manifests[2].artifactType == Some(InTotoMedia)
    ensures AttachedAt(w, store, SpdxMedia) == ManifestAt(w, store.blobs, root.manifests[1])
    ensures Attached(w, store, SpdxMedia) == Payload(w, store.blobs, root.manifests[1], SpdxMedia)
    ensures AttachedAt(w, store, InTotoMedia) == ManifestAt(w, store.blobs, root.manifests[2])
    ensures Attached(w, store, InTotoMedia) == Payload(w, store.blobs, root.manifests[2], InTotoMedia)
  {
    PickAt(root.manifests, Kind(SpdxMedia), 1);
    PickAt(root.manifests, Kind(InTotoMedia), 2);
  }

  /** A titled descriptor and nothing more. */
  predicate Titled(d: Descriptor) {
    d.annotations.Some? && d.platform.None? && d.artifactType.None?
  }

  /** A manifest that attaches a document to the image. */
  predicate Attaches(w: World, blobs: Blobs, m: Manifest, kind: Media, image: string, digest: string, size: nat) {
    && Proper(m) && m.artifactType == Some(kind) && Written(w, ManifestDoc(m), digest, size)
    && m.subject.Some? && m.subject.value.digest == image && m.subject.value.mediaType == IndexMedia
    && Load(w, blobs, m.config, EmptyMedia) == Some(w.empty) && m.config.annotations.None?
    && m.config.platform.None? && m.config.artifactType.None? && |m.layers| == 1 && Titled(m.layers[0])
  }

  lemma ArtifactAttaches(w: World, blobs: Blobs, d: Descriptor, kind: Media, image: Descriptor)
    requires ArtifactValid(w, blobs, d, kind, image) && image.mediaType == IndexMedia
    ensures ManifestAt(w, blobs, d).Some?
    ensures Attaches(w, blobs, ManifestAt(w, blobs, d).value, kind, image.digest, d.digest, d.size)
  {
    LoadedIsWritten(w, blobs, d);
  }

  /** The root index of an accepted layout: its canonical bytes, with the recorded digest and length. */
  lemma AcceptedRoot(w: World, store: Store, record: Record)
    requires RootValid(w, store, record)
    ensures w.sha(store.index) == record.indexSha && |store.index| == record.indexSize
    ensures 1 <= record.indexSize <= 8_388_608
    ensures var root := RootOf(w, store);
            && root.Some? && root.value.schemaVersion == 2 && root.value.mediaType == IndexMedia
            && store.index == w.pretty(IndexDoc(root.value)) && |root.value.manifests| == 3
            && Titled(root.value.manifests[0])
            && root.value.manifests[1].annotations.Some? && root.value.manifests[1].platform.None?
            && root.value.manifests[2].annotations.Some? && root.value.manifests[2].platform.None?
  {
  }

  /** The image index of an accepted layout has the recorded digest and length, and two manifests. */
  lemma AcceptedImage(w: World, store: Store, record: Record)
    requires ImageListed(w, store, record)
    ensures var image := ImageOf(w, store);
            && image.Some? && |image.value.manifests| == 2
            && Written(w, IndexDoc(image.value), record.imageDigest, record.imageSize)
  {
    var m := RootOf(w, store).value.manifests;
    LoadedIsWritten(w, store.blobs, m[0]);
    PickAt(m, Typed(IndexMedia), 0);
  }

  /** Both attached manifests of an accepted layout name the image, and so do the documents in them. */
  lemma AcceptedPapers(w: World, store: Store, record: Record, receipt: Receipt)
    requires LayoutValid(w, store, record, receipt)
    ensures var m := AttachedAt(w, store, SpdxMedia);
            && m.Some?
            && Attaches(w, store.blobs, m.value, SpdxMedia, record.imageDigest, record.sbomDigest, record.sbomSize)
    ensures var m := AttachedAt(w, store, InTotoMedia);
            && m.Some?
            && Attaches(w, store.blobs, m.value, InTotoMedia, record.imageDigest, record.provenanceDigest,
                        record.provenanceSize)
    ensures var doc := Attached(w, store, SpdxMedia);
            && doc.Some? && doc.value.SpdxDoc? && doc.value.spdx.created == w.timestamp(receipt.epoch)
            && |doc.value.spdx.packages| == 4 && doc.value.spdx.packages[0].checksums == [record.imageDigest]
            && forall p :: p in doc.value.spdx.packages ==> !p.filesAnalyzed
    ensures var doc := Attached(w, store, InTotoMedia);
            && doc.Some? && doc.value.ProvenanceDoc? && doc.value.provenance.subjectSha == record.imageDigest
            && doc.value.provenance.subjectName == "xiaozhi-agent/" + record.name
  {
    var m := RootOf(w, store).value.manifests;
    ArtifactFound(w, store, RootOf(w, store).value);
    LoadedIsWritten(w, store.blobs, m[0]);
    ArtifactAttaches(w, store.blobs, m[1], SpdxMedia, m[0]);
    ArtifactAttaches(w, store.blobs, m[2], InTotoMedia, m[0]);
  }

  // ----- A built layout -----

  /** The four files hold what the builder was given for this platform. */
  ghost predicate Ships(es: seq<Entry>, inputs: Inputs, i: nat)
    requires i < |inputs.binaries|
  {
    exists service, ca, license, notices ::
      && Complete(es, service, ca, license, notices) && service.payload == inputs.binaries[i]
      && ca.payload == inputs.ca && license.payload == inputs.license && notices.payload == inputs.notices
      && forall e :: e in es ==> e.mtime == inputs.epoch
  }

  ghost predicate Distinct(es: seq<Entry>) {
    forall i, j :: 0 <= i < j < |es| ==> es[i].name != es[j].name
  }

  lemma FolderAt(es: seq<Entry>, i: nat, n: Member)
    requires Distinct(es) && i < |es| && es[i].name == n && Folder(es[i])
    ensures exists e: Entry :: e.name == n && Folder(e) && Has(es, e)
  {
    HasAt(es, i);
  }

  lemma HasAt(es: seq<Entry>, i: nat)
    requires Distinct(es) && i < |es|
    ensures Has(es, es[i])
  {
  }

  lemma EightMembers(es: seq<Entry>)
    requires |es| == 8 && Distinct(es)
    requires es[0].name == Etc && es[1].name == Ssl && es[2].name == Certs && es[3].name == Licenses
    requires Folder(es[0]) && Folder(es[1]) && Folder(es[2]) && Folder(es[3])
    requires File(es[4], Service, 0x16D, 65532) && File(es[5], CaBundle, 0x124, 0)
    requires File(es[6], WebsocketLicense, 0x124, 0) && File(es[7], Notices, 0x124, 0)
    ensures Complete(es, es[4], es[5], es[6], es[7])
  {
    FolderAt(es, 0, Etc);
    FolderAt(es, 1, Ssl);
    FolderAt(es, 2, Certs);
    FolderAt(es, 3, Licenses);
    HasAt(es, 4);
    HasAt(es, 5);
    HasAt(es, 6);
    HasAt(es, 7);
  }

  lemma BuiltLayer(x: Inputs, i: nat)
    requires i < |x.binaries|
    ensures Ships(LayerEntries(x, i), x, i)
  {
    OciAccept.BuiltNames(x, i);
    EightShip(LayerEntries(x, i), x, i);
  }

  lemma EightShip(es: seq<Entry>, x: Inputs, i: nat)
    requires |es| == 8 && Distinct(es) && i < |x.binaries|
    requires es[0].name == Etc && es[1].name == Ssl && es[2].name == Certs && es[3].name == Licenses
    requires Folder(es[0]) && Folder(es[1]) && Folder(es[2]) && Folder(es[3])
    requires File(es[4], Service, 0x16D, 65532) && File(es[5], CaBundle, 0x124, 0)
    requires File(es[6], WebsocketLicense, 0x124, 0) && File(es[7], Notices, 0x124, 0)
    requires es[4].payload == x.binaries[i] && es[5].payload == x.ca
    requires es[6].payload == x.license && es[7].payload == x.notices
    requires forall k :: 0 <= k < 8 ==> es[k].mtime == x.epoch
    ensures Ships(es, x, i)
  {
    EightMembers(es);
  }

  /** What the provenance lists: three digests under their names, and the websocket module. */
  predicate Sourced(w: World, inputs: Inputs, d: Dependency) {
    || (d.uri == "file:source-inputs.json" && d.sha == Some(inputs.sourceSha))
    || (d.uri == "file:go-executable" && d.sha == Some(inputs.goSha))
    || (d.uri == "file:ca-certificates.crt" && d.sha == Some(w.sha(inputs.ca)))
    || (d.uri == "pkg:golang/github.com/coder/websocket@v1.8.15" && d.sha == None)
  }

  lemma BuiltPulls(w: World, inputs: Inputs, x: Inputs, blobs: Blobs, i: nat) returns (m: Manifest)
    requires Canonical(w) && x == Planned(w, inputs) && i < |x.binaries| && i < 2 && x.epoch < CLOCK
    requires OciAccept.AllHeld(w, blobs, PlatformBlobs(w, x, i))
    ensures ManifestAt(w, blobs, PlatformDescriptor(w, x, i)) == Some(m)
    ensures Unpacked(w, blobs, m).Some? && Ships(Unpacked(w, blobs, m).value.1, inputs, i)
  {
    m := PlatformManifest(w, x, i).manifest;
    OciAccept.BuiltManifest(w, x, i, blobs);
    OciAccept.BuiltUnpacks(w, x, i);
    BuiltLayer(inputs, i);
    assert LayerEntries(x, i) == LayerEntries(inputs, i);
  }

  ghost predicate Stored(w: World, x: Inputs, blobs: Blobs)
    requires |x.binaries| == 2
  {
    && OciAccept.AllHeld(w, blobs, PlatformBlobs(w, x, 0)) && OciAccept.AllHeld(w, blobs, PlatformBlobs(w, x, 1))
    && OciAccept.Held(w, blobs, w.empty) && OciAccept.AllHeld(w, blobs, ClosingBlobs(w, x))
  }

  lemma BuiltStored(w: World, x: Inputs)
    requires |x.binaries| == 2 && Buildable(w, x) && OciAccept.SmallBlobs(AllBlobs(w, x))
    ensures Stored(w, x, Built(w, x).blobs)
  {
    OciAccept.BuiltHolds(w, x);
    OciAccept.HeldParts(w, x, Built(w, x).blobs);
  }

  lemma StoredImage(w: World, x: Inputs, blobs: Blobs)
    requires Canonical(w) && |x.binaries| == 2 && Stored(w, x, blobs)
    ensures IndexAt(w, blobs, ImageDescriptor(w, x)) == Some(ImageIndex(w, x).index)
  {
    OciAccept.ClosingHeld(w, x, blobs);
    OciAccept.BuiltImage(w, x, blobs);
  }

  lemma StoredShips(w: World, inputs: Inputs, x: Inputs, store: Store, architecture: string, i: nat)
    requires Canonical(w) && x == Planned(w, inputs) && |x.binaries| == 2 && x.epoch < CLOCK
    requires Stored(w, x, store.blobs) && Platform(architecture, i)
    requires RootOf(w, store) == Some(RootIndex(w, x).index)
    ensures Pull(w, store, architecture).Some? && Ships(Pull(w, store, architecture).value, inputs, i)
  {
    StoredImage(w, x, store.blobs);
    var m: Manifest;
    if i == 0 { m := BuiltPulls(w, inputs, x, store.blobs, 0); } else { m := BuiltPulls(w, inputs, x, store.blobs, 1); }
    BuiltPlatformFound(w, x, store, architecture, i);
    PullShips(w, store, m, inputs, architecture, i);
  }

  lemma PullShips(w: World, store: Store, m: Manifest, inputs: Inputs, architecture: string, i: nat)
    requires PlatformOf(w, store, architecture) == Some(m) && i < |inputs.binaries|
    requires Unpacked(w, store.blobs, m).Some? && Ships(Unpacked(w, store.blobs, m).value.1, inputs, i)
    ensures Pull(w, store, architecture).Some? && Ships(Pull(w, store, architecture).value, inputs, i)
  {
  }

  lemma BuiltPlatformFound(w: World, x: Inputs, store: Store, architecture: string, i: nat)
    requires |x.binaries| == 2 && Platform(architecture, i) && RootOf(w, store) == Some(RootIndex(w, x).index)
    requires IndexAt(w, store.blobs, ImageDescriptor(w, x)) == Some(ImageIndex(w, x).index)
    ensures PlatformOf(w, store, architecture) == ManifestAt(w, store.blobs, PlatformDescriptor(w, x, i))
  {
    PlatformFound(w, store, RootIndex(w, x).index, ImageIndex(w, x).index, architecture, i);
  }

  /**
   A reader of a built layout finds for each architecture the binary given for it, and the CA bundle, the licence and
   the notices under their own paths.
   */
  lemma BuiltShips(w: World, inputs: Inputs, architecture: string, i: nat)
    requires Canonical(w) && |inputs.binaries| == 2 && Buildable(w, Planned(w, inputs))
    requires OciAccept.SmallBlobs(AllBlobs(w, Planned(w, inputs))) && Platform(architecture, i)
    ensures var es := Pull(w, Built(w, Planned(w, inputs)), architecture);
            es.Some? && Ships(es.value, inputs, i)
  {
    var x := Planned(w, inputs);
    BuiltStored(w, x);
    OciAccept.BuiltRoot(w, x);
    StoredShips(w, inputs, x, Built(w, x), architecture, i);
  }

  lemma StoredSources(w: World, inputs: Inputs, x: Inputs, store: Store)
    requires Canonical(w) && x == Planned(w, inputs) && |x.binaries| == 2 && Stored(w, x, store.blobs)
    requires RootOf(w, store) == Some(RootIndex(w, x).index)
    ensures Attached(w, store, InTotoMedia) == Some(ProvenanceOf(w, x))
  {
    OciAccept.ClosingHeld(w, x, store.blobs);
    OciAccept.BuiltArtifact(w, store.blobs, ImageDescriptor(w, x), InTotoMedia, ProvenanceOf(w, x),
                            x.service + ".intoto.json", x.version + ".provenance");
    ArtifactFound(w, store, RootIndex(w, x).index);
  }

  /** The provenance that a reader finds lists each digest under its name, and nothing else. */
  lemma BuiltSources(w: World, inputs: Inputs)
    requires Canonical(w) && |inputs.binaries| == 2 && Buildable(w, Planned(w, inputs))
    requires OciAccept.SmallBlobs(AllBlobs(w, Planned(w, inputs)))
    ensures var doc := Attached(w, Built(w, Planned(w, inputs)), InTotoMedia);
            && doc.Some? && doc.value.ProvenanceDoc?
            && forall d :: d in doc.value.provenance.dependencies <==> Sourced(w, inputs, d)
  {
    var x := Planned(w, inputs);
    BuiltStored(w, x);
    OciAccept.BuiltRoot(w, x);
    StoredSources(w, inputs, x, Built(w, x));
    SourcesListed(w, inputs);
  }

  lemma SourcesListed(w: World, inputs: Inputs)
    ensures forall d :: d in Recorded(w, inputs) <==> Sourced(w, inputs, d)
  {
    var listed := Recorded(w, inputs);
    assert |listed| == 4;
    forall d ensures d in listed <==> d == listed[0] || d == listed[1] || d == listed[2] || d == listed[3] {}
  }
}
