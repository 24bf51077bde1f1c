/** Ogg page framing of `tools/opus_codec_fixture.py`: page writer, stream parser and Opus wrapper. */
module Ogg {
  import opened Basics
  import opened Bits
  import opened Framing
  import opened OggCrc

  datatype Fault =
    | InvalidPage | TruncatedLacing | TruncatedPayload | ChecksumMismatch | UnterminatedPacket
    | PacketTooLong | FieldOverflow | EmptyPacket | UnsupportedRate | UnsupportedDuration

  const MAGIC: Bytes := [79, 103, 103, 83]
  const SERIAL: nat := 0x5849414F
  const MAX_PACKET: nat := 65024

  // ---- Little-endian fields and lacing values.

  function Le(n: nat, v: nat): (b: Bytes)
    ensures |b| == n
  {
    if n == 0 then [] else [(v % 256) as Byte] + Le(n - 1, v / 256)
  }

  function FromLe(b: Bytes): (v: nat) {
    if b == [] then 0 else b[0] as nat + 256 * FromLe(b[1..])
  }

  lemma {:induction false} LeRoundTrip(n: nat, v: nat)
    requires v < Pow2(8 * n)
    ensures FromLe(Le(n, v)) == v
  {
    if n > 0 {
      Pow2Add(8 * (n - 1), 8);
      WordIsPow2();
      LeRoundTrip(n - 1, v / 256);
      assert Le(n, v)[1..] == Le(n - 1, v / 256);
    }
  }

  lemma {:induction false} FromLeInjective(a: Bytes, b: Bytes)
    requires |a| == |b| && FromLe(a) == FromLe(b)
    ensures a == b
  {
    if a != [] {
      assert a[0] == b[0] && FromLe(a[1..]) == FromLe(b[1..]);
      FromLeInjective(a[1..], b[1..]);
      assert a == [a[0]] + a[1..] && b == [b[0]] + b[1..];
    }
  }

  function Sum(lengths: Bytes): (n: nat) {
    if lengths == [] then 0 else Sum(lengths[..|lengths| - 1]) + lengths[|lengths| - 1] as nat
  }

  /** The body cut into segments of the given lengths. */
  function Cut(body: Bytes, lengths: Bytes): (segments: seq<Bytes>)
    requires |body| == Sum(lengths)
    ensures |segments| == |lengths|
    decreases |lengths|
  {
    if lengths == [] then []
    else
      var n := |lengths| - 1;
      var start := Sum(lengths[..n]);
      Cut(body[..start], lengths[..n]) + [body[start..]]
  }

  // ---- Packets out of segments.

  datatype Assembly = Assembly(packets: seq<Bytes>, current: Bytes)

  function Extend(a: Assembly, segment: Bytes): (r: Assembly) {
    if |segment| < 255 then Assembly(a.packets + [a.current + segment], [])
    else Assembly(a.packets, a.current + segment)
  }

  function Assemble(a: Assembly, segments: seq<Bytes>): (r: Assembly) {
    if segments == [] then a
    else Extend(Assemble(a, segments[..|segments| - 1]), segments[|segments| - 1])
  }

  const EMPTY := Assembly([], [])

  lemma {:induction false} AssembleConcat(a: Assembly, s: seq<Bytes>, t: seq<Bytes>)
    ensures Assemble(a, s + t) == Assemble(Assemble(a, s), t)
  {
    if t == [] {
      assert s + t == s;
    } else {
      AssembleConcat(a, s, t[..|t| - 1]);
      assert (s + t)[..|s + t| - 1] == s + t[..|t| - 1];
    }
  }

  // ---- Pages.

  function Blanked(page: Bytes): (r: Bytes)
    requires |page| >= 27
    ensures |r| == |page|
  {
    page[..22] + [0, 0, 0, 0] + page[26..]
  }

  function Checksum(page: Bytes): (crc: nat)
    requires |page| >= 27
  {
    FromBits(Crc(Blanked(page)))
  }

  /** The length of the page at the front of the stream. */
  function PageLength(data: Bytes): (r: Result<nat, Fault>)
    ensures r.Ok? ==> 27 <= r.value <= |data|
  {
    if |data| < 27 || data[..4] != MAGIC then Err(InvalidPage)
    else
      var headerEnd := 27 + data[26] as nat;
      if headerEnd > |data| then Err(TruncatedLacing)
      else
        var pageEnd := headerEnd + Sum(data[27..headerEnd]);
        if pageEnd > |data| then Err(TruncatedPayload) else Ok(pageEnd)
  }

  /** The page at the front of the stream, or the first reason the parser rejects it. */
  function FirstPage(data: Bytes): (r: Result<Bytes, Fault>)
    ensures r.Ok? ==> 27 <= |r.value| <= |data| && r.value == data[..|r.value|]
  {
    var n :- PageLength(data);
    if FromLe(data[22..26]) != Checksum(data[..n]) then Err(ChecksumMismatch) else Ok(data[..n])
  }

  lemma PageLengthAgrees(a: Bytes, b: Bytes)
    requires PageLength(a).Ok? && PageLength(a).value <= |b|
    requires a[..4] == b[..4] && a[26..27 + a[26] as nat] == b[26..27 + a[26] as nat]
    ensures PageLength(b) == PageLength(a)
  {
    var h := 27 + a[26] as nat;
    assert a[26] == a[26..h][0] == b[26..h][0] == b[26];
    assert a[27..h] == a[26..h][1..] == b[26..h][1..] == b[27..h];
  }

  lemma PagesAreSelfDelimiting()
    ensures SelfDelimiting(FirstPage)
  {
    forall d: Bytes ensures CutsFrame(FirstPage, d) {
      if FirstPage(d).Ok? { FirstPageIsPage(d); }
    }
    forall f: Bytes, rest: Bytes ensures Delimits(FirstPage, f, rest) {
      if FirstPage(f) == Ok(f) { FirstPageExtends(f, rest); }
    }
  }

  lemma FirstPageExtends(page: Bytes, rest: Bytes)
    requires FirstPage(page) == Ok(page)
    ensures FirstPage(page + rest) == Ok(page)
  {
    var data := page + rest;
    var h := 27 + page[26] as nat;
    assert data[..4] == page[..4] && data[26..h] == page[26..h];
    PageLengthAgrees(page, data);
    assert data[22..26] == page[22..26] && data[..|page|] == page == page[..|page|];
  }

  lemma FirstPageIsPage(data: Bytes)
    requires FirstPage(data).Ok?
    ensures FirstPage(FirstPage(data).value) == FirstPage(data)
  {
    var page := FirstPage(data).value;
    var h := 27 + data[26] as nat;
    assert page[..4] == data[..4] && page[26..h] == data[26..h];
    PageLengthAgrees(data, page);
    assert page[22..26] == data[22..26] && page[..|page|] == page;
  }

  /** The segments of a page; no segments if the bytes are not one page. */
  function Segments(page: Bytes): (r: seq<Bytes>) {
    if FirstPage(page) == Ok(page) then
      var headerEnd := 27 + page[26] as nat;
      Cut(page[headerEnd..], page[27..headerEnd])
    else []
  }

  function AllSegments(segments: Bytes -> seq<Bytes>, pages: seq<Bytes>): (r: seq<Bytes>) {
    if pages == [] then [] else AllSegments(segments, pages[..|pages| - 1]) + segments(pages[|pages| - 1])
  }

  /** What the parser returns for a stream of bytes. */
  function Parse(data: Bytes): (r: Result<seq<Bytes>, Fault>) {
    ParseWith(FirstPage, Segments, data)
  }

  /** The parser, for any way of cutting off pages and finding their segments. */
  function ParseWith(cut: Cutter<Byte, Fault>, segs: Bytes -> seq<Bytes>, data: Bytes): (r: Result<seq<Bytes>, Fault>) {
    var pages :- Frames(cut, data);
    Finish(Assemble(EMPTY, AllSegments(segs, pages)))
  }

  function Finish(a: Assembly): (r: Result<seq<Bytes>, Fault>) {
    if a.current != [] then Err(UnterminatedPacket) else Ok(a.packets)
  }

  // ---- The parser loop.

  lemma {:induction false} CutPrefix(body: Bytes, lengths: Bytes, j: nat)
    requires |body| == Sum(lengths) && j <= |lengths|
    ensures Sum(lengths[..j]) <= Sum(lengths)
    ensures Cut(body[..Sum(lengths[..j])], lengths[..j]) == Cut(body, lengths)[..j]
    decreases |lengths|
  {
    var n := |lengths| - 1;
    if j == |lengths| {
      assert lengths[..j] == lengths && body[..|body|] == body;
    } else {
      var front := Sum(lengths[..n]);
      CutPrefix(body[..front], lengths[..n], j);
      assert lengths[..n][..j] == lengths[..j];
      assert body[..front][..Sum(lengths[..j])] == body[..Sum(lengths[..j])];
    }
  }

  lemma CutStep(body: Bytes, lengths: Bytes, j: nat)
    requires |body| == Sum(lengths) && j < |lengths|
    ensures Sum(lengths[..j + 1]) == Sum(lengths[..j]) + lengths[j] as nat <= Sum(lengths)
    ensures Cut(body, lengths)[j] == body[Sum(lengths[..j])..Sum(lengths[..j + 1])]
    ensures |Cut(body, lengths)[j]| == lengths[j] as nat
  {
    CutPrefix(body, lengths, j + 1);
    assert lengths[..j + 1][..j] == lengths[..j];
    var upto := body[..Sum(lengths[..j + 1])];
    assert Cut(upto, lengths[..j + 1])[j] == upto[Sum(lengths[..j])..];
  }

  datatype Extent = Extent(headerEnd: nat, pageEnd: nat)

  /** Where the first page of `data[offset..]` lies, if it is accepted. */
  predicate Spans(data: Bytes, offset: nat, at: Extent) {
    && offset + 27 <= at.headerEnd <= at.pageEnd <= |data|
    && at.headerEnd == offset + 27 + data[offset + 26] as nat
    && at.pageEnd == at.headerEnd + Sum(data[offset + 27..at.headerEnd])
  }

  /** The bounds checks on one page, at an offset of the stream. */
  method MeasurePage(data: Bytes, offset: nat) returns (r: Result<Extent, Fault>)
    requires offset < |data|
    ensures r.Err? ==> PageLength(data[offset..]) == Err(r.error)
    ensures r.Ok? ==> Spans(data, offset, r.value) && PageLength(data[offset..]) == Ok(r.value.pageEnd - offset)
  {
    ghost var rest := data[offset..];
    if offset + 27 > |data| { return Err(InvalidPage); }
    assert rest[..4] == data[offset..offset + 4];
    if data[offset..offset + 4] != MAGIC { return Err(InvalidPage); }
    var headerEnd := offset + 27 + data[offset + 26] as nat;
    if headerEnd > |data| { return Err(TruncatedLacing); }
    var lengths := data[offset + 27..headerEnd];
    assert rest[27..headerEnd - offset] == lengths;
    var pageEnd := headerEnd + Sum(lengths);
    if pageEnd > |data| { return Err(TruncatedPayload); }
    return Ok(Extent(headerEnd, pageEnd));
  }

  /** All checks on one page, at an offset of the stream. */
  method ReadPage(data: Bytes, offset: nat) returns (r: Result<Extent, Fault>)
    requires offset < |data|
    ensures r.Err? ==> FirstPage(data[offset..]) == Err(r.error)
    ensures r.Ok? ==> Spans(data, offset, r.value) && FirstPage(data[offset..]) == Ok(data[offset..r.value.pageEnd])
  {
    r := MeasurePage(data, offset);
    if r.Err? { return; }
    var page := data[offset..r.value.pageEnd];
    ghost var rest := data[offset..];
    assert rest[..|page|] == page && rest[22..26] == page[22..26];
    var expected := FromLe(page[22..26]);
    var crc := ComputeCrc(page[..22] + [0, 0, 0, 0] + page[26..]);
    if crc != expected { return Err(ChecksumMismatch); }
  }

  lemma SegmentsOf(page: Bytes, body: Bytes, lengths: Bytes, h: nat)
    requires FirstPage(page) == Ok(page) && h == 27 + page[26] as nat && h <= |page|
    requires body == page[h..] && lengths == page[27..h] && |body| == Sum(lengths)
    ensures Segments(page) == Cut(body, lengths)
  {
  }

  lemma SegmentsAt(data: Bytes, offset: nat, at: Extent)
    requires Spans(data, offset, at) && FirstPage(data[offset..]) == Ok(data[offset..at.pageEnd])
    ensures Segments(data[offset..at.pageEnd]) == Cut(data[at.headerEnd..at.pageEnd], data[offset + 27..at.headerEnd])
  {
    FirstPageIsPage(data[offset..]);
    SliceOfSlice(data, offset, at.pageEnd, 27, at.headerEnd - offset);
    SliceOfSlice(data, offset, at.pageEnd, at.headerEnd - offset, at.pageEnd - offset);
    SegmentsOf(data[offset..at.pageEnd], data[at.headerEnd..at.pageEnd], data[offset + 27..at.headerEnd],
               at.headerEnd - offset);
  }

  /** The pages before `offset` are `done`, and their segments give `a`. */
  ghost predicate Progress(cut: Cutter<Byte, Fault>, segs: Bytes -> seq<Bytes>,
                           data: Bytes, offset: nat, done: seq<Bytes>, a: Assembly)
  {
    && offset <= |data|
    && AllFrames(cut, done)
    && Concat(done) == data[..offset]
    && Assemble(EMPTY, AllSegments(segs, done)) == a
  }

  lemma Advance(cut: Cutter<Byte, Fault>, segs: Bytes -> seq<Bytes>,
                data: Bytes, offset: nat, done: seq<Bytes>, a: Assembly, page: Bytes)
    requires SelfDelimiting(cut) && Progress(cut, segs, data, offset, done, a)
    requires cut(data[offset..]) == Ok(page)
    ensures offset + |page| <= |data|
    ensures Progress(cut, segs, data, offset + |page|, done + [page], Assemble(a, segs(page)))
  {
    assert CutsFrame(cut, data[offset..]);
    assert (done + [page])[..|done|] == done;
    AssembleConcat(EMPTY, AllSegments(segs, done), segs(page));
    assert data[..offset + |page|] == data[..offset] + page;
  }

  lemma Stopped(cut: Cutter<Byte, Fault>, segs: Bytes -> seq<Bytes>,
                data: Bytes, offset: nat, done: seq<Bytes>, a: Assembly)
    requires SelfDelimiting(cut) && Progress(cut, segs, data, offset, done, a)
    ensures offset < |data| && cut(data[offset..]).Err? ==> ParseWith(cut, segs, data) == Err(cut(data[offset..]).error)
    ensures offset == |data| ==> ParseWith(cut, segs, data) == Finish(a)
  {
    FramesAppend(cut, done, data[offset..]);
    assert Concat(done) + data[offset..] == data;
    assert done + [] == done;
  }

  method ParseOggPackets(data: Bytes) returns (r: Result<seq<Bytes>, Fault>)
    ensures r == Parse(data)
  {
    PagesAreSelfDelimiting();
    var packets: seq<Bytes>, current: Bytes, offset := [], [], 0;
    ghost var done: seq<Bytes> := [];
    while offset < |data|
      invariant Progress(FirstPage, Segments, data, offset, done, Assembly(packets, current))
    {
      var page := ReadPage(data, offset);
      if page.Err? {
        Stopped(FirstPage, Segments, data, offset, done, Assembly(packets, current));
        return Err(page.error);
      }
      ghost var first := data[offset..page.value.pageEnd];
      SegmentsAt(data, offset, page.value);
      Advance(FirstPage, Segments, data, offset, done, Assembly(packets, current), first);
      packets, current := AddSegments(data, offset, page.value, packets, current);
      done := done + [first];
      offset := page.value.pageEnd;
    }
    Stopped(FirstPage, Segments, data, offset, done, Assembly(packets, current));
    if current != [] { return Err(UnterminatedPacket); }
    return Ok(packets);
  }

  lemma SliceOfSlice(data: Bytes, from: nat, to: nat, i: nat, j: nat)
    requires from <= to <= |data| && i <= j <= to - from
    ensures data[from..to][i..j] == data[from + i..from + j]
  {
    var a, b := data[from..to][i..j], data[from + i..from + j];
    assert |a| == |b| && forall k :: 0 <= k < |a| ==> a[k] == data[from + i + k] == b[k];
  }

  /** The inner loop: one page's segments extend the packet under assembly. */
  method AddSegments(data: Bytes, offset: nat, at: Extent, packets: seq<Bytes>, current: Bytes)
    returns (packets': seq<Bytes>, current': Bytes)
    requires Spans(data, offset, at)
    ensures Assembly(packets', current') ==
            Assemble(Assembly(packets, current), Cut(data[at.headerEnd..at.pageEnd], data[offset + 27..at.headerEnd]))
  {
    packets', current' := packets, current;
    var lengths := data[offset + 27..at.headerEnd];
    ghost var body := data[at.headerEnd..at.pageEnd];
    ghost var segments := Cut(body, lengths);
    var bodyOffset := at.headerEnd;
    for j := 0 to |lengths|
      invariant bodyOffset == at.headerEnd + Sum(lengths[..j]) <= |data|
      invariant Assembly(packets', current') == Assemble(Assembly(packets, current), segments[..j])
    {
      CutStep(body, lengths, j);
      var next := bodyOffset + lengths[j] as nat;
      SliceOfSlice(data, at.headerEnd, at.pageEnd, bodyOffset - at.headerEnd, next - at.headerEnd);
      assert segments[..j + 1][..j] == segments[..j];
      current' := current' + data[bodyOffset..next];
      bodyOffset := next;
      if lengths[j] < 255 {
        packets', current' := packets' + [current'], [];
      }
    }
    assert segments[..|lengths|] == segments;
  }
}
