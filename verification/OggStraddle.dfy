/**
 Damage over bytes 21 to 24 that slips through: for every accepted page of 29 bytes, such as the page of any one-byte
 packet, one and the same pattern of changed bits gives another accepted page. The pattern's checksum is evaluated on
 machine words.
 */
module OggStraddle {
  import opened Basics
  import opened Bits
  import opened Framing
  import opened OggCrc
  import opened Ogg
  import opened OggStream
  import opened OggDamage
  import opened OggWords

  // ---- The pattern.

  function ZeroBytes(n: nat): (r: Bytes)
    ensures |r| == n
  {
    seq(n, _ => 0)
  }

  lemma ZeroAbsorbed(r: Register)
    ensures Absorb(r, 0) == Shifts(r, 8)
  {
    ZeroBits(8);
    assert Xor(r, Top(0)) == r;
  }

  lemma {:induction false} ZerosAbsorbed(r: Register, n: nat)
    ensures CrcFrom(r, ZeroBytes(n)) == Shifts(r, 8 * n)
  {
    if n > 0 {
      ZerosAbsorbed(r, n - 1);
      OneMoreZero(r, n - 1, 8 * (n - 1));
    }
  }

  lemma OneMoreZero(r: Register, n: nat, turns: nat)
    requires CrcFrom(r, ZeroBytes(n)) == Shifts(r, turns)
    ensures CrcFrom(r, ZeroBytes(n + 1)) == Shifts(r, turns + 8)
  {
    assert ZeroBytes(n + 1)[..n] == ZeroBytes(n);
    ZeroAbsorbed(Shifts(r, turns));
    ShiftsAdd(r, turns, 8);
  }

  lemma {:induction false} NothingShifts(n: nat)
    ensures Shifts(Zeros(32), n) == Zeros(32)
  {
    if n > 0 {
      NothingShifts(n - 1);
      assert Zeros(32)[1..] + [false] == Zeros(32);
    }
  }

  const FLAW: Bytes := [0x4C, 0xE3, 0x17, 0x2A]

  /** The changed bits: one header byte and the three low bytes of the checksum field. */
  function Pattern(): (d: Bytes)
    ensures |d| == 29
  {
    ZeroBytes(21) + FLAW + ZeroBytes(4)
  }

  /** Its checksum is the register of that header byte, turned 64 times. */
  lemma PatternChecksum()
    ensures Crc(Blanked(Pattern())) == Shifts(Top(0x4C), 64)
  {
    assert Blanked(Pattern()) == ZeroBytes(21) + [0x4C] + ZeroBytes(7);
    CrcConcat(Zeros(32), ZeroBytes(21), [0x4C]);
    CrcConcat(Zeros(32), ZeroBytes(21) + [0x4C], ZeroBytes(7));
    ZerosAbsorbed(Zeros(32), 21);
    NothingShifts(168);
    LoneByte(0x4C);
    ZerosAbsorbed(Shifts(Top(0x4C), 8), 7);
    ShiftsAdd(Top(0x4C), 8, 56);
  }

  lemma LoneByte(b: Byte)
    ensures CrcFrom(Zeros(32), [b]) == Shifts(Top(b), 8)
  {
    assert [b][..0] == [];
    assert Xor(Zeros(32), Top(b)) == Top(b);
  }

  /** A hexadecimal digit. */
  function Nibble(d: nat): (w: Word)
    ensures |w| == 4
  {
    [d >= 8, d % 8 >= 4, d % 4 >= 2, d % 2 == 1]
  }

  lemma NibbleDigit(d: nat)
    requires d < 16
    ensures Digit(Nibble(d)) == d
  {
  }

  lemma NibbleValue(high: nat, low: nat)
    requires high < 16 && low < 16
    ensures FromBits(Nibble(high) + Nibble(low)) == 16 * high + low
  {
    NibbleDigit(high);
    NibbleDigit(low);
    TwoDigits(Nibble(high), Nibble(low));
  }

  lemma TwoDigits(high: Word, low: Word)
    requires |high| == |low| == 4
    ensures FromBits(high + low) == 16 * Digit(high) + Digit(low)
  {
    assert [] + high == high;
    Digits([], high);
    Digits(high, low);
  }

  lemma ByteBits(n: nat, high: nat, low: nat)
    requires high < 16 && low < 16 && n == 8
    ensures ToBits(n, 16 * high + low) == Nibble(high) + Nibble(low)
  {
    NibbleValue(high, low);
    ToFrom(Nibble(high) + Nibble(low));
  }

  lemma FirstWord()
    ensures BitsOf(WORDS, 0x4C00_0000) == Nibble(4) + Nibble(12) + Zeros(24)
  {
    SpellAll(WORDS, 0x4C00_0000, 0xC000_0000, 0, 0, 0, 0, 0, 0, 0);
  }

  lemma FirstRegister()
    ensures Top(0x4C) == BitsOf(WORDS, 0x4C00_0000)
  {
    FirstWord();
    ByteBits(8, 4, 12);
  }

  lemma LastHigh()
    ensures Four(WORDS, 0x002A_17E3) == Nibble(0) && Four(WORDS, 0x02A1_7E30) == Nibble(0)
    ensures Four(WORDS, 0x2A17_E300) == Nibble(2) && Four(WORDS, 0xA17E_3000) == Nibble(10)
  {
  }

  lemma LastLow()
    ensures Four(WORDS, 0x17E3_0000) == Nibble(1) && Four(WORDS, 0x7E30_0000) == Nibble(7)
    ensures Four(WORDS, 0xE300_0000) == Nibble(14) && Four(WORDS, 0x3000_0000) == Nibble(3)
  {
  }

  lemma LastWord()
    ensures BitsOf(WORDS, 0x002A_17E3) ==
            Nibble(0) + Nibble(0) + (Nibble(2) + Nibble(10)) + (Nibble(1) + Nibble(7) + (Nibble(14) + Nibble(3)))
  {
    SpellAll(WORDS, 0x002A_17E3, 0x02A1_7E30, 0x2A17_E300, 0xA17E_3000, 0x17E3_0000, 0x7E30_0000, 0xE300_0000,
             0x3000_0000, 0);
    LastHigh();
    LastLow();
  }

  lemma LastField(b: Bytes, a: Word, c: Word, d: Word, e: Word)
    requires b == [0xE3, 0x17, 0x2A, 0]
    requires a == Nibble(0) + Nibble(0) && c == Nibble(2) + Nibble(10)
    requires d == Nibble(1) + Nibble(7) && e == Nibble(14) + Nibble(3)
    ensures FieldBits(b) == a + c + d + e
  {
    ByteBits(8, 0, 0);
    ByteBits(8, 2, 10);
    ByteBits(8, 1, 7);
    ByteBits(8, 14, 3);
  }

  lemma LastRegister()
    ensures FieldBits([0xE3, 0x17, 0x2A, 0]) == BitsOf(WORDS, 0x002A_17E3)
  {
    LastWord();
    LastField([0xE3, 0x17, 0x2A, 0], Nibble(0) + Nibble(0), Nibble(2) + Nibble(10), Nibble(1) + Nibble(7),
              Nibble(14) + Nibble(3));
  }

  /** The register of the byte 0x4C, after each further byte of zeros. */
  lemma EightTurns()
    ensures Eight(Turned, 0x4C00_0000) == 0x018A_EB13
    ensures Eight(Turned, 0x018A_EB13) == 0x8E2A_0EB7
    ensures Eight(Turned, 0x8E2A_0EB7) == 0x7F8C_F7E4
    ensures Eight(Turned, 0x7F8C_F7E4) == 0x540C_445A
    ensures Eight(Turned, 0x540C_445A) == 0x67D7_87DB
    ensures Eight(Turned, 0x67D7_87DB) == 0x6565_4D92
    ensures Eight(Turned, 0x6565_4D92) == 0xDE2D_3FFC
    ensures Eight(Turned, 0xDE2D_3FFC) == 0x002A_17E3
  {
  }

  ghost predicate TracksEight<W>(m: Machine<W>, step: W -> W, v: W) {
    BitsOf(m, Eight(step, v)) == Shifts(BitsOf(m, v), 8)
  }

  lemma WordsTrackEight(v: bv32)
    ensures TracksEight(WORDS, Turned, v)
  {
    WordTurns(v, 8);
    forall x ensures StepsBy(WORDS, Turned, x) { TurnedSteps(x); }
    TurnEight(WORDS, Turned, v);
  }

  lemma EightMore<W>(m: Machine<W>, step: W -> W, r: Register, n: nat, v: W, u: W)
    requires TracksEight(m, step, v) && Shifts(r, n) == BitsOf(m, v) && Eight(step, v) == u
    ensures Shifts(r, n + 8) == BitsOf(m, u)
  {
    ShiftsAdd(r, n, 8);
  }

  lemma ThirtyTwoMore<W(!new)>(m: Machine<W>, step: W -> W, r: Register, n: nat, a: W, b: W, c: W, d: W, e: W)
    requires (forall v :: TracksEight(m, step, v)) && Shifts(r, n) == BitsOf(m, a)
    requires Eight(step, a) == b && Eight(step, b) == c && Eight(step, c) == d && Eight(step, d) == e
    ensures Shifts(r, n + 32) == BitsOf(m, e)
  {
    EightMore(m, step, r, n, a, b);
    EightMore(m, step, r, n + 8, b, c);
    EightMore(m, step, r, n + 16, c, d);
    EightMore(m, step, r, n + 24, d, e);
  }

  /** The pattern's checksum is what it does to the checksum field. */
  lemma PatternIsConsistent()
    ensures Consistent(Pattern())
  {
    PatternRegister(Top(0x4C));
    PatternChecksum();
    PatternField();
    LastRegister();
    ConsistentBy(Pattern(), [0xE3, 0x17, 0x2A, 0]);
  }

  lemma PatternField()
    ensures Pattern()[22..26] == [0xE3, 0x17, 0x2A, 0]
  {
  }

  lemma ConsistentBy(d: Bytes, field: Bytes)
    requires |d| >= 27 && |field| == 4 && d[22..26] == field && FieldBits(field) == Crc(Blanked(d))
    ensures Consistent(d)
  {
  }

  lemma PatternRegister(r: Register)
    requires r == Top(0x4C)
    ensures Shifts(r, 64) == BitsOf(WORDS, 0x002A_17E3)
  {
    FirstRegister();
    EightTurns();
    forall v ensures TracksEight(WORDS, Turned, v) { WordsTrackEight(v); }
    ThirtyTwoMore(WORDS, Turned, r, 0, 0x4C00_0000, 0x018A_EB13, 0x8E2A_0EB7, 0x7F8C_F7E4, 0x540C_445A);
    ThirtyTwoMore(WORDS, Turned, r, 32, 0x540C_445A, 0x67D7_87DB, 0x6565_4D92, 0xDE2D_3FFC, 0x002A_17E3);
  }

  // ---- Every page of 29 bytes lets it through.

  lemma XorTwice(a: Byte, b: Byte)
    ensures XorByte(a, XorByte(a, b)) == b && XorByte(a, 0) == a
  {
    var wa, wb, x := ToBits(8, a as nat), ToBits(8, b as nat), XorByte(a, b);
    assert Xor(wa, Xor(wa, wb)) == wb;
    WordIsPow2();
    ToBitsInjective(8, XorByte(a, x) as nat, b as nat);
    ZeroBits(8);
    assert Xor(wa, Zeros(8)) == wa;
    ToBitsInjective(8, XorByte(a, 0) as nat, a as nat);
  }

  lemma Differs(page: Bytes, pattern: Bytes)
    requires |page| == |pattern|
    ensures XorBytes(page, XorBytes(page, pattern)) == pattern
    ensures forall i :: 0 <= i < |page| && pattern[i] == 0 ==> XorBytes(page, pattern)[i] == page[i]
    ensures forall i :: 0 <= i < |page| && pattern[i] != 0 ==> XorBytes(page, pattern)[i] != page[i]
  {
    forall i | 0 <= i < |page|
      ensures XorByte(page[i], XorByte(page[i], pattern[i])) == pattern[i]
      ensures pattern[i] == 0 ==> XorBytes(page, pattern)[i] == page[i]
      ensures pattern[i] != 0 ==> XorBytes(page, pattern)[i] != page[i]
    {
      XorTwice(page[i], pattern[i]);
      if XorByte(page[i], pattern[i]) == page[i] { ZeroDifference(page[i], pattern[i]); }
    }
  }

  lemma ZeroDifference(a: Byte, b: Byte)
    requires XorByte(a, b) == a
    ensures b == 0
  {
    XorTwice(a, b);
    XorTwice(a, 0);
    assert XorByte(a, a) == 0;
  }

  /**
   Four changed bytes, 21 to 24, on any accepted page of 29 bytes: the capture pattern and the lacing table are
   untouched, and the damaged page is accepted in its place.
   */
  lemma StraddleSlips(page: Bytes, rest: Bytes)
    requires FirstPage(page) == Ok(page) && |page| == 29
    ensures var bad := XorBytes(page, Pattern());
            && bad[..21] == page[..21] && bad[25..] == page[25..]
            && (forall i :: 21 <= i < 25 ==> bad[i] != page[i])
            && FirstPage(bad + rest) == Ok(bad)
  {
    var bad := XorBytes(page, Pattern());
    Differs(page, Pattern());
    OnlyStraddled(page, bad);
    PatternIsConsistent();
    DamageOutcome(page, bad, rest);
  }

  lemma OnlyStraddled(page: Bytes, bad: Bytes)
    requires |page| == |bad| == 29 && 27 + page[26] as nat <= 29
    requires forall i :: 0 <= i < 29 && Pattern()[i] == 0 ==> bad[i] == page[i]
    requires forall i :: 0 <= i < 29 && Pattern()[i] != 0 ==> bad[i] != page[i]
    ensures bad[..21] == page[..21] && bad[25..] == page[25..] && forall i :: 21 <= i < 25 ==> bad[i] != page[i]
    ensures SameFraming(page, bad)
  {
    assert forall i :: 0 <= i < 29 ==> (Pattern()[i] != 0 <==> 21 <= i < 25);
  }

  lemma SameTail(page: Bytes, bad: Bytes)
    requires |bad| == |page| >= 26 && bad[25..] == page[25..]
    ensures bad[26..] == page[26..]
  {
    forall k | 26 <= k < |page| ensures bad[k] == page[k] {
      assert bad[k] == bad[25..][k - 25] && page[k] == page[25..][k - 25];
    }
  }

  lemma SameSlice(page: Bytes, bad: Bytes, i: nat, j: nat)
    requires |bad| == |page| && 26 <= i <= j <= |page| && bad[26..] == page[26..]
    ensures bad[i..j] == page[i..j]
  {
    forall k | i <= k < j ensures bad[k] == page[k] {
      assert bad[k] == bad[26..][k - 26] && page[k] == page[26..][k - 26];
    }
  }

  lemma SameBody(page: Bytes, bad: Bytes)
    requires FirstPage(page) == Ok(page) && FirstPage(bad) == Ok(bad) && |bad| == |page| && bad[26..] == page[26..]
    ensures Segments(bad) == Segments(page)
  {
    SameSlice(page, bad, 26, 27);
    assert [bad[26]] == bad[26..27] && [page[26]] == page[26..27];
    var h := 27 + page[26] as nat;
    SameSlice(page, bad, 27, h);
    SameSlice(page, bad, h, |page|);
  }

  lemma SamePackets(page: Bytes, bad: Bytes)
    requires FirstPage(page) == Ok(page) && FirstPage(bad) == Ok(bad) && Segments(bad) == Segments(page)
    ensures Parse(bad) == Parse(page)
  {
    BoundariesDoNotMatter([page], [bad]);
    Alone(Segments, page);
    Alone(Segments, bad);
  }

  lemma Alone(segs: Bytes -> seq<Bytes>, page: Bytes)
    ensures Concat([page]) == page && AllSegments(segs, [page]) == segs(page)
  {
    assert [page][..0] == [] && [] + page == page && [] + segs(page) == segs(page);
  }

  /** The damaged page even parses to the same packets, or to the same fault. */
  lemma StraddleParses(page: Bytes)
    requires FirstPage(page) == Ok(page) && |page| == 29
    ensures Parse(XorBytes(page, Pattern())) == Parse(page)
  {
    var bad := XorBytes(page, Pattern());
    StraddleSlips(page, []);
    assert bad + [] == bad;
    SameTail(page, bad);
    SameBody(page, bad);
    SamePackets(page, bad);
  }

  lemma OneByteWritten(b: Byte, stamp: Stamp)
    requires stamp.granule < GRANULE_LIMIT && stamp.sequence < WORD
    ensures WritePage([b], stamp).Ok? && |WritePage([b], stamp).value| == 29
  {
    WrittenPage([b], stamp, EMPTY);
  }

  lemma LonePage(cut: Cutter<Byte, Fault>, segs: Bytes -> seq<Bytes>, page: Bytes, a: Assembly)
    requires SelfDelimiting(cut) && IsFrame(cut, page) && Assemble(EMPTY, segs(page)) == a
    ensures ParseWith(cut, segs, page) == Finish(a)
  {
    PagesParseWith(cut, segs, [page]);
    Alone(segs, page);
  }

  lemma PacketParses(packet: Bytes, stamp: Stamp)
    requires WritePage(packet, stamp).Ok?
    ensures FirstPage(WritePage(packet, stamp).value) == Ok(WritePage(packet, stamp).value)
    ensures Parse(WritePage(packet, stamp).value) == Ok([packet])
  {
    WrittenPage(packet, stamp, EMPTY);
    PagesAreSelfDelimiting();
    LonePage(FirstPage, Segments, WritePage(packet, stamp).value, Assembly([[] + packet], []));
    assert [] + packet == packet;
  }

  /** So the page of any one-byte packet can be damaged in bytes 21 to 24 and still parses to that packet. */
  lemma OneBytePacketSlips(b: Byte, stamp: Stamp)
    requires stamp.granule < GRANULE_LIMIT && stamp.sequence < WORD
    ensures WritePage([b], stamp).Ok? && |WritePage([b], stamp).value| == 29
    ensures var page := WritePage([b], stamp).value;
            var bad := XorBytes(page, Pattern());
            && bad[..21] == page[..21] && bad[25..] == page[25..] && (forall i :: 21 <= i < 25 ==> bad[i] != page[i])
            && Parse(bad) == Ok([[b]])
  {
    OneByteWritten(b, stamp);
    PacketParses([b], stamp);
    StraddleSlips(WritePage([b], stamp).value, []);
    StraddleParses(WritePage([b], stamp).value);
  }
}
