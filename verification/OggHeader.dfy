/**
 The bytes of a written page and of a wrapped Opus packet at their offsets: the page header of section 6 of RFC 3533,
 and the two Opus headers of section 5 of RFC 7845.
 */
module OggHeader {
  import opened Basics
  import opened Bits
  import opened Framing
  import opened OggCrc
  import opened Ogg
  import opened OggStream

  predicate Spelled(b: Bytes, text: string) {
    |b| == |text| && forall i :: 0 <= i < |text| ==> b[i] as int == text[i] as int
  }

  /** A page header with this type, granule position and page sequence number, of the product's logical stream. */
  predicate Stamped(page: Bytes, headerType: Byte, granule: nat, sequence: nat) {
    && |page| >= 27 && Spelled(page[..4], "OggS") && page[4] == 0 && page[5] == headerType
    && FromLe(page[6..14]) == granule && FromLe(page[14..18]) == 0x5849414F && FromLe(page[18..22]) == sequence
  }

  /** The body of a page that holds one packet: its segments are full except the last, and the packet follows. */
  predicate Holds(page: Bytes, packet: Bytes) {
    && |page| >= 27 && page[26] as int == |packet| / 255 + 1 && |page| == 28 + |packet| / 255 + |packet|
    && (forall i :: 27 <= i < 27 + |packet| / 255 ==> page[i] == 255)
    && page[27 + |packet| / 255] as int == |packet| % 255
    && page[28 + |packet| / 255..] == packet
  }

  lemma WideIsPow2()
    ensures Pow2(64) == GRANULE_LIMIT
  {
    WordIsPow2();
    Pow2Add(32, 32);
  }

  /** The fields of a header, at their offsets within it. */
  lemma FieldSlices(stamp: Stamp)
    ensures var f := Fields(stamp);
            && f[0] == 0 && f[1] == stamp.headerType && f[2..10] == Le(8, stamp.granule)
            && f[10..14] == Le(4, SERIAL) && f[14..18] == Le(4, stamp.sequence)
  {
  }

  lemma FieldValues(stamp: Stamp)
    requires stamp.granule < GRANULE_LIMIT && stamp.sequence < WORD
    ensures var f := Fields(stamp);
            && FromLe(f[2..10]) == stamp.granule && FromLe(f[10..14]) == SERIAL && FromLe(f[14..18]) == stamp.sequence
  {
    FieldSlices(stamp);
    WideIsPow2();
    WordIsPow2();
    LeRoundTrip(8, stamp.granule);
    LeRoundTrip(4, SERIAL);
    LeRoundTrip(4, stamp.sequence);
  }

  lemma SealedFields(fields: Bytes, lengths: Bytes, body: Bytes)
    requires |fields| == 18 && |lengths| <= 255
    ensures Seal(Unsealed(fields, lengths, body))[..22] == MAGIC + fields
  {
    var image := Unsealed(fields, lengths, body);
    assert image[..22] == MAGIC + fields;
  }

  lemma StampedBy(page: Bytes, f: Bytes, headerType: Byte, granule: nat, sequence: nat)
    requires |page| >= 27 && |f| == 18 && page[..22] == MAGIC + f && f[0] == 0 && f[1] == headerType
    requires FromLe(f[2..10]) == granule && FromLe(f[10..14]) == SERIAL && FromLe(f[14..18]) == sequence
    ensures Stamped(page, headerType, granule, sequence)
  {
    SliceIn(page, MAGIC, f, 0, 2);
    SliceIn(page, MAGIC, f, 2, 10);
    SliceIn(page, MAGIC, f, 10, 14);
    SliceIn(page, MAGIC, f, 14, 18);
    assert page[4] == page[4..6][0] && page[5] == page[4..6][1];
    assert page[..4] == (MAGIC + f)[..4] == MAGIC;
  }

  lemma SliceIn(page: Bytes, magic: Bytes, f: Bytes, i: nat, j: nat)
    requires |magic| == 4 && |f| == 18 && |page| >= 22 && page[..22] == magic + f && i <= j <= 18
    ensures page[4 + i..4 + j] == f[i..j]
  {
    forall k | i <= k < j ensures page[4 + k] == f[k] {
      assert page[4 + k] == page[..22][4 + k] == (magic + f)[4 + k];
    }
  }

  lemma PageIsStamped(packet: Bytes, stamp: Stamp)
    requires WritePage(packet, stamp).Ok?
    ensures Stamped(WritePage(packet, stamp).value, stamp.headerType, stamp.granule, stamp.sequence)
  {
    LacedPacket(EMPTY, packet);
    FieldSlices(stamp);
    FieldValues(stamp);
    SealedFields(Fields(stamp), Lacing(packet).value, packet);
    StampedBy(WritePage(packet, stamp).value, Fields(stamp), stamp.headerType, stamp.granule, stamp.sequence);
  }

  lemma PageHolds(packet: Bytes, stamp: Stamp)
    requires WritePage(packet, stamp).Ok?
    ensures Holds(WritePage(packet, stamp).value, packet)
  {
    LacedPacket(EMPTY, packet);
    var lengths, page := Lacing(packet).value, WritePage(packet, stamp).value;
    SealedLayout(Fields(stamp), lengths, packet);
    forall i | 27 <= i < 27 + |lengths| ensures page[i] == lengths[i - 27] {
      assert page[i] == page[27..27 + |lengths|][i - 27];
    }
  }

  /** Every written page: header type, granule, serial and sequence number where a reader looks for them. */
  lemma WrittenHeader(packet: Bytes, stamp: Stamp)
    requires WritePage(packet, stamp).Ok?
    ensures var page := WritePage(packet, stamp).value;
            Stamped(page, stamp.headerType, stamp.granule, stamp.sequence) && Holds(page, packet)
  {
    PageIsStamped(packet, stamp);
    PageHolds(packet, stamp);
  }

  // ---- The wrapped stream.

  /** An identification header: version 1, one channel, no pre-skip, this input rate, no gain, mapping family 0. */
  predicate Identifies(b: Bytes, rate: nat) {
    && |b| == 19 && Spelled(b[..8], "OpusHead") && b[8] == 1 && b[9] == 1
    && FromLe(b[10..12]) == 0 && FromLe(b[12..16]) == rate && FromLe(b[16..18]) == 0 && b[18] == 0
  }

  /** A comment header: the vendor's name and no comments. */
  predicate Comments(b: Bytes) {
    && |b| == 42 && Spelled(b[..8], "OpusTags") && FromLe(b[8..12]) == 26
    && Spelled(b[12..38], "xiaozhi-agent-platform M27") && FromLe(b[38..42]) == 0
  }

  lemma AsciiIsSpelled(text: string)
    requires forall i :: 0 <= i < |text| ==> text[i] as int < 128
    ensures Spelled(Ascii(text), text)
  {
  }

  /** A field of a header that starts after `front`. */
  lemma FieldAt(front: Bytes, field: Bytes, back: Bytes)
    ensures (front + field + back)[|front|..|front| + |field|] == field
  {
  }

  lemma HeadLayout(magic: Bytes, fixed: Bytes, skip: Bytes, rate: Bytes, gain: Bytes, last: Bytes)
    requires |magic| == 8 && |fixed| == |skip| == |gain| == 2 && |rate| == 4 && |last| == 1
    ensures var b := magic + fixed + skip + rate + gain + last;
            && |b| == 19 && b[..8] == magic && b[8] == fixed[0] && b[9] == fixed[1] && b[10..12] == skip
            && b[12..16] == rate && b[16..18] == gain && b[18] == last[0]
  {
    var b := magic + fixed + skip + rate + gain + last;
    assert b == magic + fixed + skip + (rate + gain + last);
    FieldAt(magic + fixed, skip, rate + gain + last);
    assert b == magic + fixed + skip + rate + (gain + last);
    FieldAt(magic + fixed + skip, rate, gain + last);
    FieldAt(magic + fixed + skip + rate, gain, last);
  }

  lemma HeadIdentifies(rate: nat)
    requires rate < WORD
    ensures Identifies(OpusHead(rate), rate)
  {
    var zero, field := Le(2, 0), Le(4, rate);
    AsciiIsSpelled("OpusHead");
    HeadLayout(Ascii("OpusHead"), [1, 1], zero, field, zero, [0]);
    SmallField(2, 0);
    SmallField(4, rate);
    assert OpusHead(rate) == Ascii("OpusHead") + [1, 1] + zero + field + zero + [0];
  }

  lemma SmallField(n: nat, v: nat)
    requires (n == 2 && v < 0x1_0000) || (n == 4 && v < WORD)
    ensures FromLe(Le(n, v)) == v
  {
    WordIsPow2();
    Pow2Add(8, 8);
    LeRoundTrip(n, v);
  }

  lemma TagsLayout(magic: Bytes, size: Bytes, vendor: Bytes, count: Bytes)
    requires |magic| == 8 && |size| == |count| == 4 && |vendor| == 26
    ensures var b := magic + size + vendor + count;
            |b| == 42 && b[..8] == magic && b[8..12] == size && b[12..38] == vendor && b[38..42] == count
  {
    var b := magic + size + vendor + count;
    assert b == magic + size + (vendor + count);
    FieldAt(magic, size, vendor + count);
    FieldAt(magic + size, vendor, count);
    FieldAt(magic + size + vendor, count, []);
    assert magic + size + vendor + count + [] == b;
  }

  lemma TagsComment()
    ensures Comments(OpusTags())
  {
    var vendor := Ascii("xiaozhi-agent-platform M27");
    var size, count := Le(4, |vendor|), Le(4, 0);
    AsciiIsSpelled("OpusTags");
    AsciiIsSpelled("xiaozhi-agent-platform M27");
    TagsLayout(Ascii("OpusTags"), size, vendor, count);
    SmallField(4, 26);
    SmallField(4, 0);
  }

  lemma ThreePages(write: Item -> Result<Bytes, Fault>, a: Item, b: Item, c: Item)
    requires WriteAll(write, [a, b, c]).Ok?
    ensures write(a).Ok? && write(b).Ok? && write(c).Ok?
    ensures WriteAll(write, [a, b, c]).value == Concat([write(a).value, write(b).value, write(c).value])
  {
    assert [a, b, c][..2] == [a, b] && [a, b][..1] == [a] && [a][..0] == [];
    assert WriteAll(write, [a, b]).Ok? && WriteAll(write, [a]).Ok?;
    assert WriteAll(write, [a]).value == [] + write(a).value;
    assert WriteAll(write, [a, b]).value == WriteAll(write, [a]).value + write(b).value;
    var x, y, z := write(a).value, write(b).value, write(c).value;
    assert [x, y, z][..2] == [x, y] && [x, y][..1] == [x] && [x][..0] == [];
    assert Concat([x]) == [] + x && Concat([x, y]) == Concat([x]) + y && Concat([x, y, z]) == Concat([x, y]) + z;
  }

  /** A written item: its page is a page of the stream, with its stamp and its packet. */
  lemma ItemPage(item: Item)
    requires WriteItem(item).Ok?
    ensures var page := WriteItem(item).value;
            && IsFrame(FirstPage, page) && Holds(page, item.packet)
            && Stamped(page, item.stamp.headerType, item.stamp.granule, item.stamp.sequence)
  {
    WrittenHeader(item.packet, item.stamp);
    WrittenPage(item.packet, item.stamp, EMPTY);
  }

  lemma FramedThree(cut: Cutter<Byte, Fault>, a: Bytes, b: Bytes, c: Bytes)
    requires SelfDelimiting(cut) && IsFrame(cut, a) && IsFrame(cut, b) && IsFrame(cut, c)
    ensures Frames(cut, Concat([a, b, c])) == Ok([a, b, c])
  {
    FramingIsUnique(cut, Concat([a, b, c]), [a, b, c]);
  }

  predicate PageOf(page: Bytes, item: Item) {
    && Stamped(page, item.stamp.headerType, item.stamp.granule, item.stamp.sequence)
    && Holds(page, item.packet)
  }

  lemma ItemPages(a: Item, b: Item, c: Item) returns (x: Bytes, y: Bytes, z: Bytes)
    requires WriteAll(WriteItem, [a, b, c]).Ok?
    ensures Frames(FirstPage, WriteAll(WriteItem, [a, b, c]).value) == Ok([x, y, z])
    ensures PageOf(x, a) && PageOf(y, b) && PageOf(z, c)
  {
    ThreePages(WriteItem, a, b, c);
    x, y, z := WriteItem(a).value, WriteItem(b).value, WriteItem(c).value;
    ItemPage(a);
    ItemPage(b);
    ItemPage(c);
    PagesAreSelfDelimiting();
    FramedThree(FirstPage, x, y, z);
  }

  /**
   A wrapped packet is a stream of three pages: the identification header alone on the first page of the stream, the
   comment header on the second, and the packet on the last page, which ends 2880 samples in.
   */
  lemma WrappedPages(packet: Bytes, rate: nat, duration: nat)
    returns (head: Bytes, tags: Bytes, data: Bytes, opusHead: Bytes, opusTags: Bytes)
    requires WrapRawOpus(packet, rate, duration).Ok?
    ensures Frames(FirstPage, WrapRawOpus(packet, rate, duration).value) == Ok([head, tags, data])
    ensures Stamped(head, 2, 0, 0) && Holds(head, opusHead) && Identifies(opusHead, rate)
    ensures Stamped(tags, 0, 0, 1) && Holds(tags, opusTags) && Comments(opusTags)
    ensures Stamped(data, 4, 2880, 2) && Holds(data, packet)
  {
    var items := WrapItems(packet, rate, duration);
    assert items == [items[0], items[1], items[2]];
    head, tags, data := ItemPages(items[0], items[1], items[2]);
    opusHead, opusTags := items[0].packet, items[1].packet;
    HeadIdentifies(rate);
    TagsComment();
  }
}
