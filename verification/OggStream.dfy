/** The page writer, and what holds of every stream the parser reads. */
module OggStream {
  import opened Basics
  import opened Bits
  import opened Framing
  import opened OggCrc
  import opened Ogg

  // ---- Writing pages.

  function Lacing(packet: Bytes): (r: Result<Bytes, Fault>) {
    if |packet| / 255 + 1 > 255 then Err(PacketTooLong) else Ok(Fulls(|packet| / 255) + [(|packet| % 255) as Byte])
  }

  function Fulls(k: nat): (r: Bytes)
    ensures |r| == k
  {
    seq(k, _ => 255)
  }

  const GRANULE_LIMIT: nat := 0x1_0000_0000_0000_0000

  datatype Stamp = Stamp(headerType: Byte, granule: nat, sequence: nat)

  function Fields(stamp: Stamp): (r: Bytes)
    ensures |r| == 18
  {
    [0, stamp.headerType] + Le(8, stamp.granule) + Le(4, SERIAL) + Le(4, stamp.sequence)
  }

  /** A page image before its checksum is known. */
  function Unsealed(fields: Bytes, lengths: Bytes, body: Bytes): (r: Bytes)
    requires |fields| == 18 && |lengths| <= 255
    ensures |r| == 27 + |lengths| + |body|
  {
    (MAGIC + fields) + [0, 0, 0, 0] + Tail(lengths, body)
  }

  function Tail(lengths: Bytes, body: Bytes): (r: Bytes)
    requires |lengths| <= 255
    ensures |r| == 1 + |lengths| + |body|
    ensures r[0] as nat == |lengths| && r[1..1 + |lengths|] == lengths && r[1 + |lengths|..] == body
  {
    [|lengths| as Byte] + lengths + body
  }

  function Seal(image: Bytes): (r: Bytes)
    requires |image| >= 27
    ensures |r| == |image|
  {
    image[..22] + Le(4, Checksum(image)) + image[26..]
  }

  function WritePage(packet: Bytes, stamp: Stamp): (r: Result<Bytes, Fault>) {
    var lengths :- Lacing(packet);
    if stamp.granule >= GRANULE_LIMIT || stamp.sequence >= WORD then Err(FieldOverflow)
    else Ok(Seal(Unsealed(Fields(stamp), lengths, packet)))
  }

  /** The writer builds the image in a buffer and patches the checksum into it. */
  method OggPage(packet: Bytes, stamp: Stamp) returns (r: Result<Bytes, Fault>)
    ensures r == WritePage(packet, stamp)
  {
    var lengths := Lacing(packet);
    if lengths.Err? { return Err(PacketTooLong); }
    if stamp.granule >= GRANULE_LIMIT || stamp.sequence >= WORD { return Err(FieldOverflow); }
    var image := Unsealed(Fields(stamp), lengths.value, packet);
    UnsealedIsBlank(Fields(stamp), lengths.value, packet);
    var page := new Byte[|image|](i requires 0 <= i < |image| => image[i]);
    assert page[..] == image;
    var crc := ComputeCrc(page[..]);
    PackInto(page, 22, Le(4, crc));
    return Ok(page[..]);
  }

  /** Overwrites part of a buffer in place. */
  method PackInto(page: array<Byte>, at: nat, field: Bytes)
    requires at + |field| <= page.Length
    modifies page
    ensures page[..] == old(page[..at]) + field + old(page[at + |field|..])
  {
    for j := 0 to |field|
      invariant page[..at] == old(page[..at]) && page[at + |field|..] == old(page[at + |field|..])
      invariant page[at..at + j] == field[..j]
    {
      page[at + j] := field[j];
    }
    assert page[..] == page[..at] + page[at..at + |field|] + page[at + |field|..];
  }

  lemma UnsealedIsBlank(fields: Bytes, lengths: Bytes, body: Bytes)
    requires |fields| == 18 && |lengths| <= 255
    ensures Blanked(Unsealed(fields, lengths, body)) == Unsealed(fields, lengths, body)
  {
    var image := Unsealed(fields, lengths, body);
    assert image[22..26] == [0, 0, 0, 0];
    assert image == image[..22] + image[22..26] + image[26..];
  }

  lemma SealedIsPage(fields: Bytes, lengths: Bytes, body: Bytes)
    requires |fields| == 18 && |lengths| <= 255 && |body| == Sum(lengths)
    ensures var page := Seal(Unsealed(fields, lengths, body));
            FirstPage(page) == Ok(page) && Segments(page) == Cut(body, lengths)
  {
    var image := Unsealed(fields, lengths, body);
    var page := Seal(image);
    SealedLayout(fields, lengths, body);
    SealChecksum(image);
    assert page[..|page|] == page;
  }

  lemma SealedLayout(fields: Bytes, lengths: Bytes, body: Bytes)
    requires |fields| == 18 && |lengths| <= 255 && |body| == Sum(lengths)
    ensures var page := Seal(Unsealed(fields, lengths, body));
            && PageLength(page) == Ok(|page|)
            && page[26] as nat == |lengths| && page[27..27 + |lengths|] == lengths && page[27 + |lengths|..] == body
  {
    var image, tail, h := Unsealed(fields, lengths, body), Tail(lengths, body), 27 + |lengths|;
    var page := Seal(image);
    assert image[..22] == MAGIC + fields && image[26..] == tail;
    assert page[..4] == (MAGIC + fields)[..4] == MAGIC && page[26..] == tail;
    assert page[26] == tail[0] && page[27..h] == tail[1..1 + |lengths|] && page[h..] == tail[1 + |lengths|..];
  }

  lemma SealChecksum(image: Bytes)
    requires |image| >= 27
    ensures Checksum(Seal(image)) == Checksum(image) == FromLe(Seal(image)[22..26])
  {
    assert Blanked(Seal(image)) == Blanked(image);
    assert Seal(image)[22..26] == Le(4, Checksum(image));
    LeRoundTrip(4, Checksum(image));
  }

  // ---- Lacing cuts a packet into segments that assemble back into it.

  lemma {:induction false} FullSegments(a: Assembly, body: Bytes, k: nat)
    requires |body| == 255 * k
    ensures Sum(Fulls(k)) == 255 * k
    ensures Assemble(a, Cut(body, Fulls(k))) == Assembly(a.packets, a.current + body)
  {
    if k > 0 {
      assert Fulls(k)[..k - 1] == Fulls(k - 1);
      var front := body[..255 * (k - 1)];
      FullSegments(a, front, k - 1);
      var cut := Cut(body, Fulls(k));
      assert cut[..k - 1] == Cut(front, Fulls(k - 1));
      assert body == front + cut[k - 1];
    } else {
      assert a.current + body == a.current;
    }
  }

  lemma LacedPacket(a: Assembly, packet: Bytes)
    requires Lacing(packet).Ok?
    ensures |packet| == Sum(Lacing(packet).value) && |Lacing(packet).value| <= 255
    ensures Assemble(a, Cut(packet, Lacing(packet).value)) == Assembly(a.packets + [a.current + packet], [])
  {
    var k, lengths := |packet| / 255, Lacing(packet).value;
    assert lengths[..k] == Fulls(k);
    FullSegments(a, packet[..255 * k], k);
    var cut := Cut(packet, lengths);
    assert cut[..k] == Cut(packet[..255 * k], Fulls(k));
    assert packet == packet[..255 * k] + cut[k];
    assert a.current + packet[..255 * k] + cut[k] == a.current + packet;
  }

  /** A packet fits one page exactly up to 65024 bytes, and its page parses back to it. */
  lemma WrittenPage(packet: Bytes, stamp: Stamp, a: Assembly)
    ensures Lacing(packet).Ok? <==> |packet| <= MAX_PACKET
    ensures WritePage(packet, stamp).Ok? <==>
            |packet| <= MAX_PACKET && stamp.granule < GRANULE_LIMIT && stamp.sequence < WORD
    ensures WritePage(packet, stamp).Ok? ==>
            var page := WritePage(packet, stamp).value;
            FirstPage(page) == Ok(page) && Assemble(a, Segments(page)) == Assembly(a.packets + [a.current + packet], [])
  {
    if WritePage(packet, stamp).Ok? {
      LacedPacket(a, packet);
      SealedIsPage(Fields(stamp), Lacing(packet).value, packet);
    }
  }

  datatype Item = Item(packet: Bytes, stamp: Stamp)

  function Packets(items: seq<Item>): (r: seq<Bytes>)
    ensures |r| == |items|
  {
    seq(|items|, i requires 0 <= i < |items| => items[i].packet)
  }

  function WriteItem(item: Item): (r: Result<Bytes, Fault>) {
    WritePage(item.packet, item.stamp)
  }

  /** The pages of all items, joined. */
  function WriteAll(write: Item -> Result<Bytes, Fault>, items: seq<Item>): (r: Result<Bytes, Fault>) {
    if items == [] then Ok([])
    else
      var front :- WriteAll(write, items[..|items| - 1]);
      var page :- write(items[|items| - 1]);
      Ok(front + page)
  }

  predicate Fits(item: Item) {
    |item.packet| <= MAX_PACKET && item.stamp.granule < GRANULE_LIMIT && item.stamp.sequence < WORD
  }

  /** The page's segments complete the packet under assembly with this packet. */
  predicate Delivers(segs: Bytes -> seq<Bytes>, page: Bytes, packet: Bytes, a: Assembly) {
    Assemble(a, segs(page)) == Assembly(a.packets + [a.current + packet], [])
  }

  ghost predicate Carries(cut: Cutter<Byte, Fault>, segs: Bytes -> seq<Bytes>, page: Bytes, packet: Bytes) {
    IsFrame(cut, page) && forall a :: Delivers(segs, page, packet, a)
  }

  ghost predicate Faithful(cut: Cutter<Byte, Fault>, segs: Bytes -> seq<Bytes>, write: Item -> Result<Bytes, Fault>,
                           item: Item)
  {
    && (write(item).Ok? <==> Fits(item))
    && (write(item).Ok? ==> Carries(cut, segs, write(item).value, item.packet))
  }

  lemma {:induction false} WritesIffFit(cut: Cutter<Byte, Fault>, segs: Bytes -> seq<Bytes>,
                                        write: Item -> Result<Bytes, Fault>, items: seq<Item>)
    requires forall i :: 0 <= i < |items| ==> Faithful(cut, segs, write, items[i])
    ensures WriteAll(write, items).Ok? <==> forall i :: 0 <= i < |items| ==> Fits(items[i])
  {
    if items != [] {
      var n := |items| - 1;
      WritesIffFit(cut, segs, write, items[..n]);
      assert write(items[n]).Ok? <==> Fits(items[n]) by { assert Faithful(cut, segs, write, items[n]); }
    }
  }

  /** The stream is these accepted pages, and their segments assemble to the packets. */
  ghost predicate Spells(cut: Cutter<Byte, Fault>, segs: Bytes -> seq<Bytes>, stream: Bytes, packets: seq<Bytes>,
                         pages: seq<Bytes>)
  {
    stream == Concat(pages) && AllFrames(cut, pages) &&
      Assemble(EMPTY, AllSegments(segs, pages)) == Assembly(packets, [])
  }

  lemma {:induction false} WrittenPages(cut: Cutter<Byte, Fault>, segs: Bytes -> seq<Bytes>,
                                        write: Item -> Result<Bytes, Fault>, items: seq<Item>)
    returns (pages: seq<Bytes>)
    requires forall i :: 0 <= i < |items| ==> Faithful(cut, segs, write, items[i])
    requires WriteAll(write, items).Ok?
    ensures Spells(cut, segs, WriteAll(write, items).value, Packets(items), pages)
  {
    if items == [] {
      pages := [];
      assert AllSegments(segs, pages) == [];
    } else {
      var n := |items| - 1;
      var front := WrittenPages(cut, segs, write, items[..n]);
      assert Faithful(cut, segs, write, items[n]);
      var page := write(items[n]).value;
      pages := front + [page];
      PageAdded(cut, segs, WriteAll(write, items[..n]).value, Packets(items[..n]), front, page, items[n].packet);
      assert Packets(items) == Packets(items[..n]) + [items[n].packet];
    }
  }

  lemma PageAdded(cut: Cutter<Byte, Fault>, segs: Bytes -> seq<Bytes>, stream: Bytes, packets: seq<Bytes>,
                  pages: seq<Bytes>, page: Bytes, packet: Bytes)
    requires Spells(cut, segs, stream, packets, pages) && Carries(cut, segs, page, packet)
    ensures Spells(cut, segs, stream + page, packets + [packet], pages + [page])
  {
    AppendPage(segs, pages, page, packets, packet);
  }

  lemma AppendPage(segs: Bytes -> seq<Bytes>, pages: seq<Bytes>, page: Bytes, packets: seq<Bytes>, packet: Bytes)
    requires Assemble(EMPTY, AllSegments(segs, pages)) == Assembly(packets, [])
    requires forall a :: Delivers(segs, page, packet, a)
    ensures Assemble(EMPTY, AllSegments(segs, pages + [page])) == Assembly(packets + [packet], [])
    ensures Concat(pages + [page]) == Concat(pages) + page
  {
    assert (pages + [page])[..|pages|] == pages;
    AssembleConcat(EMPTY, AllSegments(segs, pages), segs(page));
    assert Delivers(segs, page, packet, Assembly(packets, []));
    assert [] + packet == packet;
  }

  lemma WriterIsFaithful(item: Item)
    ensures Faithful(FirstPage, Segments, WriteItem, item)
  {
    WrittenPage(item.packet, item.stamp, EMPTY);
    if WriteItem(item).Ok? {
      forall a ensures Delivers(Segments, WriteItem(item).value, item.packet, a) {
        WrittenPage(item.packet, item.stamp, a);
      }
    }
  }

  /** Pages are written for exactly the packets that fit, and parsing them returns exactly those packets. */
  lemma StreamRoundTrip(items: seq<Item>)
    ensures WriteAll(WriteItem, items).Ok? <==> forall i :: 0 <= i < |items| ==> Fits(items[i])
    ensures WriteAll(WriteItem, items).Ok? ==> Parse(WriteAll(WriteItem, items).value) == Ok(Packets(items))
  {
    forall i | 0 <= i < |items| ensures Faithful(FirstPage, Segments, WriteItem, items[i]) {
      WriterIsFaithful(items[i]);
    }
    PagesAreSelfDelimiting();
    RoundTripWith(FirstPage, Segments, WriteItem, items);
  }

  lemma RoundTripWith(cut: Cutter<Byte, Fault>, segs: Bytes -> seq<Bytes>,
                      write: Item -> Result<Bytes, Fault>, items: seq<Item>)
    requires SelfDelimiting(cut)
    requires forall i :: 0 <= i < |items| ==> Faithful(cut, segs, write, items[i])
    ensures WriteAll(write, items).Ok? <==> forall i :: 0 <= i < |items| ==> Fits(items[i])
    ensures WriteAll(write, items).Ok? ==> ParseWith(cut, segs, WriteAll(write, items).value) == Ok(Packets(items))
  {
    WritesIffFit(cut, segs, write, items);
    if WriteAll(write, items).Ok? {
      var pages := WrittenPages(cut, segs, write, items);
      PagesParseWith(cut, segs, pages);
    }
  }

  // ---- Every stream of accepted pages.

  lemma PagesParse(pages: seq<Bytes>)
    requires AllFrames(FirstPage, pages)
    ensures Parse(Concat(pages)) == Finish(Assemble(EMPTY, AllSegments(Segments, pages)))
  {
    PagesAreSelfDelimiting();
    PagesParseWith(FirstPage, Segments, pages);
  }

  lemma PagesParseWith(cut: Cutter<Byte, Fault>, segs: Bytes -> seq<Bytes>, pages: seq<Bytes>)
    requires SelfDelimiting(cut) && AllFrames(cut, pages)
    ensures ParseWith(cut, segs, Concat(pages)) == Finish(Assemble(EMPTY, AllSegments(segs, pages)))
  {
    FramingIsUnique(cut, Concat(pages), pages);
  }

  /** The result depends only on the segments in order, not on where the page boundaries fall. */
  lemma BoundariesDoNotMatter(p: seq<Bytes>, q: seq<Bytes>)
    requires AllFrames(FirstPage, p) && AllFrames(FirstPage, q)
    requires AllSegments(Segments, p) == AllSegments(Segments, q)
    ensures Parse(Concat(p)) == Parse(Concat(q))
  {
    PagesParse(p);
    PagesParse(q);
  }

  lemma {:induction false} AssembleKeepsBytes(a: Assembly, segments: seq<Bytes>)
    ensures var r := Assemble(a, segments);
            Concat(r.packets) + r.current == Concat(a.packets) + a.current + Concat(segments)
  {
    if segments == [] {
      assert Concat(a.packets) + a.current + Concat(segments) == Concat(a.packets) + a.current;
    } else {
      var n := |segments| - 1;
      AssembleKeepsBytes(a, segments[..n]);
      var mid, last := Assemble(a, segments[..n]), segments[n];
      assert (mid.packets + [mid.current + last])[..|mid.packets|] == mid.packets;
      assert Concat(mid.packets + [mid.current + last]) + [] == Concat(mid.packets) + mid.current + last;
      assert Concat(a.packets) + a.current + Concat(segments) ==
             (Concat(a.packets) + a.current + Concat(segments[..n])) + last;
      assert Concat(mid.packets) + (mid.current + last) == (Concat(mid.packets) + mid.current) + last;
    }
  }

  /** The body of a page: everything after its lacing table. */
  function Body(page: Bytes): (r: Bytes)
    requires FirstPage(page) == Ok(page)
  {
    page[27 + page[26] as nat..]
  }

  lemma CutSnoc(body: Bytes, lengths: Bytes, n: nat, start: nat)
    requires |body| == Sum(lengths) && n + 1 == |lengths| && start == Sum(lengths[..n])
    ensures start <= |body|
    ensures Cut(body, lengths) == Cut(body[..start], lengths[..n]) + [body[start..]]
  {
  }

  lemma RejoinSnoc(front: seq<Bytes>, all: seq<Bytes>, a: Bytes, b: Bytes)
    requires all == front + [b] && Concat(front) == a
    ensures Concat(all) == a + b
  {
    assert all[..|front|] == front;
  }

  lemma {:induction false} CutRejoins(body: Bytes, lengths: Bytes)
    requires |body| == Sum(lengths)
    ensures Concat(Cut(body, lengths)) == body
    decreases |lengths|
  {
    if lengths != [] {
      var n := |lengths| - 1;
      var start := Sum(lengths[..n]);
      CutSnoc(body, lengths, n, start);
      CutRejoins(body[..start], lengths[..n]);
      RejoinSnoc(Cut(body[..start], lengths[..n]), Cut(body, lengths), body[..start], body[start..]);
      assert body == body[..start] + body[start..];
    }
  }

  function Bodies(pages: seq<Bytes>): (r: seq<Bytes>)
    requires forall i :: 0 <= i < |pages| ==> FirstPage(pages[i]) == Ok(pages[i])
    ensures |r| == |pages|
  {
    seq(|pages|, i requires 0 <= i < |pages| => Body(pages[i]))
  }

  lemma SegmentsRejoin(page: Bytes)
    requires FirstPage(page) == Ok(page)
    ensures Concat(Segments(page)) == Body(page)
  {
    CutRejoins(Body(page), page[27..27 + page[26] as nat]);
  }

  lemma {:induction false} PiecesRejoin(segs: Bytes -> seq<Bytes>, pages: seq<Bytes>, bodies: seq<Bytes>)
    requires |bodies| == |pages| && forall i :: 0 <= i < |pages| ==> Concat(segs(pages[i])) == bodies[i]
    ensures Concat(AllSegments(segs, pages)) == Concat(bodies)
    decreases |pages|
  {
    if pages != [] {
      var n := |pages| - 1;
      PiecesRejoin(segs, pages[..n], bodies[..n]);
      ConcatAppend(AllSegments(segs, pages[..n]), segs(pages[n]));
    }
  }

  lemma SegmentsAreBodies(pages: seq<Bytes>)
    requires forall i :: 0 <= i < |pages| ==> FirstPage(pages[i]) == Ok(pages[i])
    ensures Concat(AllSegments(Segments, pages)) == Concat(Bodies(pages))
  {
    forall i | 0 <= i < |pages| ensures Concat(Segments(pages[i])) == Bodies(pages)[i] { SegmentsRejoin(pages[i]); }
    PiecesRejoin(Segments, pages, Bodies(pages));
  }

  /** An accepted stream loses and duplicates no body byte. */
  lemma NoByteLost(data: Bytes, packets: seq<Bytes>)
    requires Parse(data) == Ok(packets)
    ensures exists pages :: AllFrames(FirstPage, pages) && data == Concat(pages) &&
                            Concat(packets) == Concat(Bodies(pages))
  {
    PagesAreSelfDelimiting();
    FramesRecompose(FirstPage, data);
    var pages := Frames(FirstPage, data).value;
    SegmentsAreBodies(pages);
    AssembleKeepsBytes(EMPTY, AllSegments(Segments, pages));
    assert Concat(EMPTY.packets) + EMPTY.current + Concat(AllSegments(Segments, pages)) == Concat(Bodies(pages));
    assert Concat(packets) + [] == Concat(packets);
  }

  // ---- Damaged pages.

  /** Where a short change is certain to be noticed: the fields before the checksum, the checksum, or the body. */
  predicate Guarded(page: Bytes, start: nat, end: nat)
    requires |page| >= 27
  {
    || 4 <= start <= end <= 22
    || 22 <= start <= end <= 26
    || 27 + page[26] as nat <= start <= end <= |page|
  }

  lemma RegisterDiffers(a: Bytes, b: Bytes)
    requires |a| >= 27 && |b| >= 27 && Crc(Blanked(a)) != Crc(Blanked(b))
    ensures Checksum(a) != Checksum(b)
  {
    ToFrom(Crc(Blanked(a)));
    ToFrom(Crc(Blanked(b)));
  }

  lemma FieldDamage(page: Bytes, front: Bytes, x: Bytes, y: Bytes, back: Bytes)
    requires |page| >= 27 && page == front + x + back && |x| == |y| && x != y
    requires 22 <= |front| && |front| + |x| <= 26
    ensures var bad := front + y + back;
            Blanked(bad) == Blanked(page) && FromLe(bad[22..26]) != FromLe(page[22..26])
  {
    var bad := front + y + back;
    var k :| 0 <= k < |x| && x[k] != y[k];
    var j := |front| - 22 + k;
    assert page[22..26][j] == page[|front| + k] == x[k] && bad[22..26][j] == bad[|front| + k] == y[k];
    if FromLe(bad[22..26]) == FromLe(page[22..26]) { FromLeInjective(bad[22..26], page[22..26]); }
  }

  lemma HeaderDamage(page: Bytes, front: Bytes, x: Bytes, y: Bytes, back: Bytes)
    requires |page| >= 27 && page == front + x + back && |x| == |y| <= 4 && x != y
    requires |front| + |x| <= 22
    ensures var bad := front + y + back; Checksum(bad) != Checksum(page)
  {
    var bad, n := front + y + back, |front| + |x|;
    var rest := Blanked(page)[n..];
    assert Blanked(page)[..n] == front + x && Blanked(bad)[..n] == front + y;
    assert bad[n..] == back == page[n..];
    assert Blanked(bad)[n..] == rest;
    assert Blanked(page) == front + x + rest && Blanked(bad) == front + y + rest;
    BurstDetected(Zeros(32), front, x, y, rest);
    RegisterDiffers(page, bad);
  }

  lemma BodyDamage(page: Bytes, front: Bytes, x: Bytes, y: Bytes, back: Bytes)
    requires |front| >= 27 && page == front + x + back && |x| == |y| <= 4 && x != y
    ensures var bad := front + y + back; Checksum(bad) != Checksum(page)
  {
    var bad := front + y + back;
    var start := Blanked(front);
    assert Blanked(page) == start + x + back && Blanked(bad) == start + y + back;
    BurstDetected(Zeros(32), start, x, y, back);
    RegisterDiffers(page, bad);
  }

  /** Changing one to four consecutive bytes makes the stored and the computed checksum disagree. */
  lemma DamageDetected(page: Bytes, front: Bytes, x: Bytes, y: Bytes, back: Bytes)
    requires |page| >= 27 && page == front + x + back && |x| == |y| <= 4 && x != y
    requires Guarded(page, |front|, |front| + |x|)
    requires FromLe(page[22..26]) == Checksum(page)
    ensures var bad := front + y + back; FromLe(bad[22..26]) != Checksum(bad)
  {
    var bad := front + y + back;
    if 22 <= |front| && |front| + |x| <= 26 {
      FieldDamage(page, front, x, y, back);
    } else {
      assert bad[22..26] == page[22..26];
      if |front| + |x| <= 22 {
        HeaderDamage(page, front, x, y, back);
      } else {
        BodyDamage(page, front, x, y, back);
      }
    }
  }

  lemma DamageKeepsLength(page: Bytes, bad: Bytes, rest: Bytes)
    requires PageLength(page) == Ok(|page|) && |bad| == |page|
    requires bad[..4] == page[..4] && bad[26..27 + page[26] as nat] == page[26..27 + page[26] as nat]
    ensures PageLength(bad + rest) == Ok(|page|)
  {
    var h := 27 + page[26] as nat;
    assert (bad + rest)[..4] == bad[..4] && (bad + rest)[26..h] == bad[26..h];
    PageLengthAgrees(page, bad + rest);
  }

  /** Damage outside the framing leaves the capture pattern and the lacing table alone. */
  lemma FramingSurvives(page: Bytes, front: Bytes, x: Bytes, y: Bytes, back: Bytes)
    requires |page| >= 27 && page == front + x + back && |x| == |y| && Guarded(page, |front|, |front| + |x|)
    requires 27 + page[26] as nat <= |page|
    ensures var bad, h := front + y + back, 27 + page[26] as nat;
            |bad| == |page| && bad[..4] == page[..4] && bad[26..h] == page[26..h]
  {
  }

  lemma MismatchRejected(bad: Bytes, rest: Bytes)
    requires |bad| >= 27 && PageLength(bad + rest) == Ok(|bad|) && FromLe(bad[22..26]) != Checksum(bad)
    ensures FirstPage(bad + rest) == Err(ChecksumMismatch)
  {
    assert (bad + rest)[..|bad|] == bad && (bad + rest)[22..26] == bad[22..26];
  }

  lemma DamagedPageRejected(page: Bytes, front: Bytes, x: Bytes, y: Bytes, back: Bytes, rest: Bytes)
    requires FirstPage(page) == Ok(page) && page == front + x + back && |x| == |y| <= 4 && x != y
    requires Guarded(page, |front|, |front| + |x|)
    ensures FirstPage(front + y + back + rest) == Err(ChecksumMismatch)
  {
    assert page[..|page|] == page;
    FramingSurvives(page, front, x, y, back);
    DamageKeepsLength(page, front + y + back, rest);
    DamageDetected(page, front, x, y, back);
    MismatchRejected(front + y + back, rest);
  }

  /** Damage confined to one to four such bytes of one page makes the parser reject the whole stream. */
  lemma DamageRejected(before: seq<Bytes>, page: Bytes, front: Bytes, x: Bytes, y: Bytes, back: Bytes, rest: Bytes)
    requires AllFrames(FirstPage, before) && FirstPage(page) == Ok(page)
    requires page == front + x + back && |x| == |y| <= 4 && x != y
    requires Guarded(page, |front|, |front| + |x|)
    ensures Parse(Concat(before) + (front + y + back + rest)) == Err(ChecksumMismatch)
  {
    DamagedPageRejected(page, front, x, y, back, rest);
    PagesAreSelfDelimiting();
    RejectsAfter(FirstPage, Segments, before, front + y + back + rest);
  }

  lemma RejectsAfter(cut: Cutter<Byte, Fault>, segs: Bytes -> seq<Bytes>, before: seq<Bytes>, rest: Bytes)
    requires SelfDelimiting(cut) && AllFrames(cut, before) && |rest| > 0 && cut(rest).Err?
    ensures ParseWith(cut, segs, Concat(before) + rest) == Err(cut(rest).error)
  {
    FramesAppend(cut, before, rest);
  }

  // ---- One Opus packet as a three-page stream.

  function Ascii(s: string): (r: Bytes)
    ensures |r| == |s|
  {
    seq(|s|, i requires 0 <= i < |s| => if s[i] as int < 128 then s[i] as int as Byte else 63)
  }

  function OpusHead(rate: nat): (r: Bytes)
    ensures |r| == 19
  {
    Ascii("OpusHead") + [1, 1] + Le(2, 0) + Le(4, rate) + Le(2, 0) + [0]
  }

  function OpusTags(): (r: Bytes)
    ensures |r| == 42
  {
    var vendor := Ascii("xiaozhi-agent-platform M27");
    Ascii("OpusTags") + Le(4, |vendor|) + vendor + Le(4, 0)
  }

  function WrapItems(packet: Bytes, rate: nat, duration: nat): (r: seq<Item>)
    ensures |r| == 3 && Packets(r) == [OpusHead(rate), OpusTags(), packet]
    ensures (forall i :: 0 <= i < 3 ==> Fits(r[i])) <==> |packet| <= MAX_PACKET && duration * 48 < GRANULE_LIMIT
  {
    var items := [Item(OpusHead(rate), Stamp(0x02, 0, 0)), Item(OpusTags(), Stamp(0x00, 0, 1)),
                  Item(packet, Stamp(0x04, duration * 48, 2))];
    assert Fits(items[0]) && Fits(items[1]);
    assert (forall i :: 0 <= i < 3 ==> Fits(items[i])) <==> Fits(items[2]) by {
      forall i | 0 <= i < 3 ensures Fits(items[2]) ==> Fits(items[i]) {
        if i == 0 {} else if i == 1 {} else {}
      }
    }
    items
  }

  function WrapRawOpus(packet: Bytes, rate: nat, duration: nat): (r: Result<Bytes, Fault>) {
    if packet == [] then Err(EmptyPacket)
    else if rate != 16000 && rate != 24000 then Err(UnsupportedRate)
    else if duration != 60 then Err(UnsupportedDuration)
    else WriteAll(WriteItem, WrapItems(packet, rate, duration))
  }

  /** Every packet of 1 to 65024 bytes at a product rate is wrapped, and the wrapped stream parses back. */
  lemma WrapRoundTrip(packet: Bytes, rate: nat, duration: nat)
    ensures WrapRawOpus(packet, rate, duration).Ok? <==>
            1 <= |packet| <= MAX_PACKET && (rate == 16000 || rate == 24000) && duration == 60
    ensures WrapRawOpus(packet, rate, duration).Ok? ==>
            Parse(WrapRawOpus(packet, rate, duration).value) == Ok([OpusHead(rate), OpusTags(), packet])
  {
    StreamRoundTrip(WrapItems(packet, rate, duration));
  }
}
