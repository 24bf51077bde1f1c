/** What acceptance by the layout validator means for an arbitrary directory. */
module OciSafety {
  import opened Basics
  import opened OciLayout
  import opened Reachability

  // ----- Reachability -----

  type Graph = Descriptor -> set<Descriptor>

  /** The descriptors inside the document a descriptor stands for. */
  function Children(w: World, blobs: Blobs, d: Descriptor): seq<Descriptor> {
    match d.mediaType
    case IndexMedia =>
      (match IndexAt(w, blobs, d)
       case Some(x) => x.manifests
       case None => [])
    case ManifestMedia =>
      (match ManifestAt(w, blobs, d)
       case Some(m) => [m.config] + m.layers + (if m.subject.Some? then [m.subject.value] else [])
       case None => [])
    case _ => []
  }

  function ChildSet(w: World, blobs: Blobs, d: Descriptor): set<Descriptor> {
    set c | c in Children(w, blobs, d)
  }

  function SetOf(ds: seq<Descriptor>): set<Descriptor> {
    set d | d in ds
  }

  // ----- One manifest and what it accounts for -----

  /** The bytes under a descriptor's digest hash to it and are within the size limit. */
  predicate Sound(w: World, blobs: Blobs, d: Descriptor) {
    d.digest in blobs && w.sha(blobs[d.digest]) == d.digest && |blobs[d.digest]| <= MAX_BLOB
  }

  predicate Leaf(d: Descriptor) {
    d.mediaType != IndexMedia && d.mediaType != ManifestMedia
  }

  /** A manifest whose config and only layer are sound leaves, attached to nothing or to `image`. */
  predicate Tidy(w: World, blobs: Blobs, d: Descriptor, image: Descriptor) {
    && d.mediaType == ManifestMedia && Sound(w, blobs, d)
    && var m := ManifestAt(w, blobs, d);
       && m.Some? && |m.value.layers| == 1
       && Leaf(m.value.config) && Sound(w, blobs, m.value.config)
       && Leaf(m.value.layers[0]) && Sound(w, blobs, m.value.layers[0])
       && (m.value.subject.Some? ==> m.value.subject.value == image)
  }

  lemma PlatformIsTidy(w: World, blobs: Blobs, receipt: Receipt, d: Descriptor, p: PlatformRecord, image: Descriptor)
    requires PlatformValid(w, blobs, receipt, d, p)
    ensures Tidy(w, blobs, d, image)
  {
  }

  lemma ArtifactIsTidy(w: World, blobs: Blobs, d: Descriptor, kind: Media, image: Descriptor)
    requires ArtifactValid(w, blobs, d, kind, image) && (kind == SpdxMedia || kind == InTotoMedia)
    ensures Tidy(w, blobs, d, image)
  {
  }

  lemma TidyParts(w: World, blobs: Blobs, d: Descriptor, image: Descriptor)
    requires Tidy(w, blobs, d, image)
    ensures d in Accounted(w, blobs, d)
    ensures forall x :: x in Accounted(w, blobs, d) ==>
              Sound(w, blobs, x) && (x == d || (x in Children(w, blobs, d) && Children(w, blobs, x) == []))
    ensures forall c :: c in Children(w, blobs, d) ==> c in Accounted(w, blobs, d) || c == image
  {
    var m := ManifestAt(w, blobs, d).value;
    assert Accounted(w, blobs, d) == [d, m.config, m.layers[0]];
  }

  // ----- A whole layout -----

  /** What the proofs below use of an accepted layout: an image over tidy manifests, and two tidy artifacts. */
  ghost predicate Shape(w: World, blobs: Blobs, m: seq<Descriptor>, platforms: seq<Descriptor>) {
    && |m| == 3 && |platforms| == 2 && m[0].mediaType == IndexMedia && Sound(w, blobs, m[0])
    && Children(w, blobs, m[0]) == platforms
    && Tidy(w, blobs, platforms[0], m[0]) && Tidy(w, blobs, platforms[1], m[0])
    && Tidy(w, blobs, m[1], m[0]) && Tidy(w, blobs, m[2], m[0])
  }

  function Roots(w: World, store: Store): seq<Descriptor>
    requires RootOf(w, store).Some?
  {
    RootOf(w, store).value.manifests
  }

  /** `Referenced`, from the parts. */
  function Cover(w: World, blobs: Blobs, m: seq<Descriptor>, platforms: seq<Descriptor>): seq<Descriptor>
    requires |m| == 3
  {
    [m[0]] + AccountedAll(w, blobs, platforms) + Accounted(w, blobs, m[1]) + Accounted(w, blobs, m[2])
  }

  lemma PlatformsAreTidy(w: World, blobs: Blobs, receipt: Receipt, ds: seq<Descriptor>, ps: seq<PlatformRecord>,
                         image: Descriptor)
    requires |ds| <= |ps| && PlatformsValid(w, blobs, receipt, ds, ps)
    ensures forall i :: 0 <= i < |ds| ==> Tidy(w, blobs, ds[i], image)
  {
    forall i | 0 <= i < |ds| ensures Tidy(w, blobs, ds[i], image) {
      PlatformIsTidy(w, blobs, receipt, ds[i], ps[i], image);
    }
  }

  /** What the proofs below use of acceptance. */
  lemma AcceptedShape(w: World, store: Store, record: Record, receipt: Receipt) returns (platforms: seq<Descriptor>)
    requires LayoutValid(w, store, record, receipt)
    ensures Shape(w, store.blobs, Roots(w, store), platforms)
    ensures store.blobs.Keys == Digests(Cover(w, store.blobs, Roots(w, store), platforms))
  {
    var m := Roots(w, store);
    platforms := IndexAt(w, store.blobs, m[0]).value.manifests;
    PlatformsAreTidy(w, store.blobs, receipt, platforms, record.platforms, m[0]);
    ArtifactIsTidy(w, store.blobs, m[1], SpdxMedia, m[0]);
    ArtifactIsTidy(w, store.blobs, m[2], InTotoMedia, m[0]);
  }

  lemma AccountedPair(w: World, blobs: Blobs, ds: seq<Descriptor>)
    requires |ds| == 2
    ensures AccountedAll(w, blobs, ds) == Accounted(w, blobs, ds[0]) + Accounted(w, blobs, ds[1])
  {
    assert ds[..1][..0] == [];
    assert AccountedAll(w, blobs, ds[..1]) == Accounted(w, blobs, ds[0]);
  }

  lemma CoverParts(w: World, blobs: Blobs, m: seq<Descriptor>, platforms: seq<Descriptor>, d: Descriptor)
    requires |m| == 3 && |platforms| == 2
    ensures d in Cover(w, blobs, m, platforms) <==>
              d == m[0] || d in Accounted(w, blobs, platforms[0]) || d in Accounted(w, blobs, platforms[1])
              || d in Accounted(w, blobs, m[1]) || d in Accounted(w, blobs, m[2])
  {
    AccountedPair(w, blobs, platforms);
  }

  lemma CoverIsSound(w: World, blobs: Blobs, m: seq<Descriptor>, platforms: seq<Descriptor>, d: Descriptor)
    requires Shape(w, blobs, m, platforms) && d in Cover(w, blobs, m, platforms)
    ensures Sound(w, blobs, d)
  {
    CoverParts(w, blobs, m, platforms, d);
    TidyParts(w, blobs, platforms[0], m[0]);
    TidyParts(w, blobs, platforms[1], m[0]);
    TidyParts(w, blobs, m[1], m[0]);
    TidyParts(w, blobs, m[2], m[0]);
  }

  /** A tidy manifest's part of the cover: reached with it, and its children are in the cover. */
  lemma TidyCovered(w: World, blobs: Blobs, g: Graph, roots: set<Descriptor>, d: Descriptor, image: Descriptor,
                    x: Descriptor)
    requires Tidy(w, blobs, d, image) && x in Accounted(w, blobs, d)
    requires Reached(g, roots, d) && forall y :: g(y) == ChildSet(w, blobs, y)
    ensures Reached(g, roots, x)
    ensures forall c :: c in g(x) ==> c in Accounted(w, blobs, d) || c == image
  {
    TidyParts(w, blobs, d, image);
    if x != d { ChildReached(g, roots, d, x); }
  }

  /** The manifest that accounts for a covered descriptor other than the image index. */
  lemma Host(w: World, blobs: Blobs, g: Graph, m: seq<Descriptor>, platforms: seq<Descriptor>, x: Descriptor)
    returns (d: Descriptor)
    requires Shape(w, blobs, m, platforms) && x in Cover(w, blobs, m, platforms) && x != m[0]
    requires forall y :: g(y) == ChildSet(w, blobs, y)
    ensures Tidy(w, blobs, d, m[0]) && x in Accounted(w, blobs, d) && Reached(g, SetOf(m), d)
    ensures forall c :: c in Accounted(w, blobs, d) ==> c in Cover(w, blobs, m, platforms)
  {
    CoverParts(w, blobs, m, platforms, x);
    RootReached(g, SetOf(m), m[0]);
    d := if x in Accounted(w, blobs, m[1]) then m[1]
         else if x in Accounted(w, blobs, m[2]) then m[2]
         else if x in Accounted(w, blobs, platforms[0]) then platforms[0] else platforms[1];
    if d == m[1] || d == m[2] {
      RootReached(g, SetOf(m), d);
    } else {
      assert d in g(m[0]);
      ChildReached(g, SetOf(m), m[0], d);
    }
    forall c | c in Accounted(w, blobs, d) ensures c in Cover(w, blobs, m, platforms) {
      CoverParts(w, blobs, m, platforms, c);
    }
  }

  lemma ImageCovered(w: World, blobs: Blobs, m: seq<Descriptor>, platforms: seq<Descriptor>, c: Descriptor)
    requires Shape(w, blobs, m, platforms) && (c in platforms || c in m)
    ensures c in Cover(w, blobs, m, platforms)
  {
    CoverParts(w, blobs, m, platforms, c);
    if c != m[0] { TidyParts(w, blobs, c, m[0]); }
  }

  lemma CoverIsReached(w: World, blobs: Blobs, g: Graph, m: seq<Descriptor>, platforms: seq<Descriptor>, x: Descriptor)
    requires Shape(w, blobs, m, platforms) && x in Cover(w, blobs, m, platforms)
    requires forall y :: g(y) == ChildSet(w, blobs, y)
    ensures Reached(g, SetOf(m), x)
    ensures forall c :: c in g(x) ==> c in Cover(w, blobs, m, platforms)
  {
    if x == m[0] {
      RootReached(g, SetOf(m), x);
      forall c | c in g(x) ensures c in Cover(w, blobs, m, platforms) { ImageCovered(w, blobs, m, platforms, c); }
    } else {
      var d := Host(w, blobs, g, m, platforms, x);
      TidyCovered(w, blobs, g, SetOf(m), d, m[0], x);
    }
  }

  lemma ShapeIsReached(w: World, blobs: Blobs, g: Graph, m: seq<Descriptor>, platforms: seq<Descriptor>, d: Descriptor)
    requires Shape(w, blobs, m, platforms)
    requires forall y :: g(y) == ChildSet(w, blobs, y)
    ensures d in Cover(w, blobs, m, platforms) <==> Reached(g, SetOf(m), d)
  {
    var cover := Cover(w, blobs, m, platforms);
    forall x | x in cover ensures Reached(g, SetOf(m), x) && forall c :: c in g(x) ==> c in cover {
      CoverIsReached(w, blobs, g, m, platforms, x);
    }
    forall x | x in m ensures x in cover { ImageCovered(w, blobs, m, platforms, x); }
    ReachedExactly(g, SetOf(m), SetOf(cover), d);
  }

  /**
   In an accepted layout every blob sits under its own digest, and the stored blobs are exactly those that descriptors
   lead to from the root index.
   */
  lemma AcceptedIsExactlyReachable(w: World, store: Store, record: Record, receipt: Receipt, g: Graph, k: string)
    requires LayoutValid(w, store, record, receipt)
    requires forall y :: g(y) == ChildSet(w, store.blobs, y)
    ensures k in store.blobs ==> w.sha(store.blobs[k]) == k && |store.blobs[k]| <= MAX_BLOB
    ensures k in store.blobs <==> exists d :: Reached(g, SetOf(Roots(w, store)), d) && d.digest == k
  {
    var platforms := AcceptedShape(w, store, record, receipt);
    StoredIsReached(w, store.blobs, g, Roots(w, store), platforms, k);
  }

  lemma StoredIsReached(w: World, blobs: Blobs, g: Graph, m: seq<Descriptor>, platforms: seq<Descriptor>, k: string)
    requires Shape(w, blobs, m, platforms) && blobs.Keys == Digests(Cover(w, blobs, m, platforms))
    requires forall y :: g(y) == ChildSet(w, blobs, y)
    ensures k in blobs ==> w.sha(blobs[k]) == k && |blobs[k]| <= MAX_BLOB
    ensures k in blobs <==> exists d :: Reached(g, SetOf(m), d) && d.digest == k
  {
    if k in blobs {
      var d :| d in Cover(w, blobs, m, platforms) && d.digest == k;
      CoverIsSound(w, blobs, m, platforms, d);
      ShapeIsReached(w, blobs, g, m, platforms, d);
    }
    if d :| Reached(g, SetOf(m), d) && d.digest == k { ShapeIsReached(w, blobs, g, m, platforms, d); }
  }

  // ----- The record fixes the layout -----

  ghost predicate SoundStore(w: World, blobs: Blobs) {
    forall k :: k in blobs ==> w.sha(blobs[k]) == k
  }

  lemma SameBytes(w: World, a: Blobs, b: Blobs, d: Descriptor, media: Media)
    requires CollisionFree(w) && SoundStore(w, a) && SoundStore(w, b) && d.digest in a && d.digest in b
    ensures Load(w, a, d, media) == Load(w, b, d, media) && LoadDoc(w, a, d, media) == LoadDoc(w, b, d, media)
  {
    assert a[d.digest] == b[d.digest];
  }

  lemma SameAccount(w: World, a: Blobs, b: Blobs, d: Descriptor)
    requires CollisionFree(w) && SoundStore(w, a) && SoundStore(w, b) && d.digest in a && d.digest in b
    ensures Accounted(w, a, d) == Accounted(w, b, d)
  {
    SameBytes(w, a, b, d, ManifestMedia);
  }

  lemma SameCover(w: World, a: Blobs, b: Blobs, m: seq<Descriptor>, pa: seq<Descriptor>, pb: seq<Descriptor>)
    requires CollisionFree(w) && SoundStore(w, a) && SoundStore(w, b)
    requires Shape(w, a, m, pa) && Shape(w, b, m, pb)
    ensures Cover(w, a, m, pa) == Cover(w, b, m, pb)
  {
    SameBytes(w, a, b, m[0], IndexMedia);
    assert pa == pb;
    AccountedPair(w, a, pa);
    AccountedPair(w, b, pa);
    SameAccount(w, a, b, pa[0]);
    SameAccount(w, a, b, pa[1]);
    SameAccount(w, a, b, m[1]);
    SameAccount(w, a, b, m[2]);
  }

  lemma SameBlobs(w: World, a: Blobs, b: Blobs)
    requires CollisionFree(w) && SoundStore(w, a) && SoundStore(w, b) && a.Keys == b.Keys
    ensures a == b
  {
    forall k | k in a ensures k in b && a[k] == b[k] {
      assert k in a.Keys;
      assert w.sha(a[k]) == w.sha(b[k]);
    }
  }

  lemma SameRoots(w: World, a: Store, b: Store, record: Record)
    requires CollisionFree(w) && RootValid(w, a, record) && RootValid(w, b, record)
    ensures a.index == b.index && RootOf(w, a) == RootOf(w, b)
  {
  }

  /** Two accepted layouts with one record are the same, byte for byte. */
  lemma RecordFixesLayout(w: World, a: Store, b: Store, record: Record, ra: Receipt, rb: Receipt)
    requires CollisionFree(w) && LayoutValid(w, a, record, ra) && LayoutValid(w, b, record, rb)
    ensures a == b
  {
    SoundWhenAccepted(w, a, record, ra);
    SoundWhenAccepted(w, b, record, rb);
    var pa := AcceptedShape(w, a, record, ra);
    var pb := AcceptedShape(w, b, record, rb);
    SameRoots(w, a, b, record);
    SameCover(w, a.blobs, b.blobs, Roots(w, a), pa, pb);
    SameBlobs(w, a.blobs, b.blobs);
  }

  lemma SoundWhenAccepted(w: World, store: Store, record: Record, receipt: Receipt)
    requires LayoutValid(w, store, record, receipt)
    ensures SoundStore(w, store.blobs) && forall k :: k in store.blobs ==> |store.blobs[k]| <= MAX_BLOB
  {
    var m := Roots(w, store);
    var platforms := AcceptedShape(w, store, record, receipt);
    forall k | k in store.blobs ensures w.sha(store.blobs[k]) == k && |store.blobs[k]| <= MAX_BLOB {
      var d :| d in Cover(w, store.blobs, m, platforms) && d.digest == k;
      CoverIsSound(w, store.blobs, m, platforms, d);
    }
  }
}
