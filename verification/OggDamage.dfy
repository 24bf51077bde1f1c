/** Which damage to an accepted page the parser notices, for every damage pattern that leaves the framing alone. */
module OggDamage {
  import opened Basics
  import opened Bits
  import opened Framing
  import opened OggCrc
  import opened Ogg
  import opened OggStream

  // ---- The checksum field as a register.

  function FieldBits(b: Bytes): (r: Register)
    requires |b| == 4
  {
    ToBits(8, b[3] as nat) + ToBits(8, b[2] as nat) + ToBits(8, b[1] as nat) + ToBits(8, b[0] as nat)
  }

  lemma {:induction false} FromBitsConcat(a: Word, b: Word)
    ensures FromBits(a + b) == FromBits(a) * Pow2(|b|) + FromBits(b)
  {
    if b == [] {
      assert a + b == a;
    } else {
      var n := |b| - 1;
      FromBitsConcat(a, b[..n]);
      assert (a + b)[..|a| + n] == a + b[..n];
      Halved(FromBits(a), FromBits(b[..n]), Pow2(n));
    }
  }

  lemma Halved(x: nat, y: nat, p: nat)
    ensures 2 * (x * p + y) == x * (2 * p) + 2 * y
  {
  }

  lemma FieldValue(b: Bytes)
    requires |b| == 4
    ensures FromBits(FieldBits(b)) == FromLe(b)
  {
    var w0, w1, w2, w3 := ToBits(8, b[0] as nat), ToBits(8, b[1] as nat), ToBits(8, b[2] as nat),
      ToBits(8, b[3] as nat);
    WordIsPow2();
    FromTo(8, b[0] as nat);
    FromTo(8, b[1] as nat);
    FromTo(8, b[2] as nat);
    FromTo(8, b[3] as nat);
    FromBitsConcat(w3, w2);
    FromBitsConcat(w3 + w2, w1);
    FromBitsConcat(w3 + w2 + w1, w0);
    FromLeFour(b);
  }

  lemma FromLeFour(b: Bytes)
    requires |b| == 4
    ensures FromLe(b) == b[0] as nat + 256 * (b[1] as nat + 256 * (b[2] as nat + 256 * b[3] as nat))
  {
    assert FromLe(b[1..][1..][1..][1..]) == 0;
    assert FromLe(b[1..][1..][1..]) == b[3] as nat;
    assert FromLe(b[1..][1..]) == b[2] as nat + 256 * b[3] as nat;
  }

  /** The stored and the computed checksum agree as numbers exactly when they agree as registers. */
  lemma AgreesAsRegister(page: Bytes)
    requires |page| >= 27
    ensures FromLe(page[22..26]) == Checksum(page) <==> FieldBits(page[22..26]) == Crc(Blanked(page))
  {
    FieldValue(page[22..26]);
    ToFrom(FieldBits(page[22..26]));
    ToFrom(Crc(Blanked(page)));
  }

  // ---- Differences of pages.

  lemma ZeroXor()
    ensures XorByte(0, 0) == 0
  {
  }

  lemma BlankLinear(a: Bytes, b: Bytes)
    requires |a| == |b| >= 27
    ensures Blanked(XorBytes(a, b)) == XorBytes(Blanked(a), Blanked(b))
  {
    ZeroXor();
  }

  lemma FieldLinear(a: Bytes, b: Bytes)
    requires |a| == |b| == 4
    ensures FieldBits(XorBytes(a, b)) == Xor(FieldBits(a), FieldBits(b))
  {
    XorFour(ToBits(8, a[3] as nat), ToBits(8, a[2] as nat), ToBits(8, a[1] as nat), ToBits(8, a[0] as nat),
            ToBits(8, b[3] as nat), ToBits(8, b[2] as nat), ToBits(8, b[1] as nat), ToBits(8, b[0] as nat));
  }

  lemma XorFour(a3: Word, a2: Word, a1: Word, a0: Word, b3: Word, b2: Word, b1: Word, b0: Word)
    requires |a3| == |a2| == |a1| == |a0| == |b3| == |b2| == |b1| == |b0| == 8
    ensures Xor(a3 + a2 + a1 + a0, b3 + b2 + b1 + b0) == Xor(a3, b3) + Xor(a2, b2) + Xor(a1, b1) + Xor(a0, b0)
  {
  }

  /** The checksum of a difference, outside its checksum field, is the difference of the checksums. */
  lemma DifferenceChecksum(a: Bytes, b: Bytes)
    requires |a| == |b| >= 27
    ensures Crc(Blanked(XorBytes(a, b))) == Xor(Crc(Blanked(a)), Crc(Blanked(b)))
    ensures FieldBits(XorBytes(a, b)[22..26]) == Xor(FieldBits(a[22..26]), FieldBits(b[22..26]))
  {
    BlankLinear(a, b);
    CrcLinear(Zeros(32), Zeros(32), Blanked(a), Blanked(b));
    assert Xor(Zeros(32), Zeros(32)) == Zeros(32);
    FieldLinear(a[22..26], b[22..26]);
    assert XorBytes(a, b)[22..26] == XorBytes(a[22..26], b[22..26]);
  }

  // ---- The exact condition.

  /** A damage pattern whose own checksum is what it does to the checksum field. */
  predicate Consistent(pattern: Bytes)
    requires |pattern| >= 27
  {
    Crc(Blanked(pattern)) == FieldBits(pattern[22..26])
  }

  /** Capture pattern, segment count and lacing table are the same. */
  predicate SameFraming(page: Bytes, bad: Bytes)
    requires |page| >= 27 && 27 + page[26] as nat <= |page|
  {
    |bad| == |page| && bad[..4] == page[..4] && bad[26..27 + page[26] as nat] == page[26..27 + page[26] as nat]
  }

  lemma SameDifference(a: Register, b: Register, c: Register, d: Register)
    requires a == b
    ensures Xor(a, c) == Xor(b, d) <==> c == d
  {
    if Xor(a, c) == Xor(b, d) { XorCancels(a, c, d); }
  }

  lemma AgreesIffConsistent(page: Bytes, bad: Bytes)
    requires |page| == |bad| >= 27 && FromLe(page[22..26]) == Checksum(page)
    ensures FromLe(bad[22..26]) == Checksum(bad) <==> Consistent(XorBytes(page, bad))
  {
    AgreesAsRegister(page);
    AgreesAsRegister(bad);
    DifferenceChecksum(page, bad);
    SameDifference(Crc(Blanked(page)), FieldBits(page[22..26]), Crc(Blanked(bad)), FieldBits(bad[22..26]));
  }

  /**
   Damage that leaves the framing alone passes exactly when the pattern of changed bits is consistent in itself,
   whatever the page; otherwise the parser reports a checksum mismatch.
   */
  lemma DamageOutcome(page: Bytes, bad: Bytes, rest: Bytes)
    requires FirstPage(page) == Ok(page) && SameFraming(page, bad)
    ensures FirstPage(bad + rest) == if Consistent(XorBytes(page, bad)) then Ok(bad) else Err(ChecksumMismatch)
  {
    assert page[..|page|] == page;
    DamageKeepsLength(page, bad, rest);
    AgreesIffConsistent(page, bad);
    assert (bad + rest)[..|bad|] == bad && (bad + rest)[22..26] == bad[22..26];
  }

  /** Damage to the capture pattern is rejected as an invalid page. */
  lemma PatternDamage(before: seq<Bytes>, page: Bytes, bad: Bytes, rest: Bytes)
    requires AllFrames(FirstPage, before) && FirstPage(page) == Ok(page)
    requires |bad| == |page| && bad[..4] != page[..4]
    ensures FirstPage(bad + rest) == Err(InvalidPage) && Parse(Concat(before) + (bad + rest)) == Err(InvalidPage)
  {
    assert (bad + rest)[..4] == bad[..4];
    PagesAreSelfDelimiting();
    RejectsAfter(FirstPage, Segments, before, bad + rest);
  }

  /** The same for whole streams: an inconsistent pattern on any page makes the parser reject. */
  lemma DamageFailsStream(before: seq<Bytes>, page: Bytes, bad: Bytes, rest: Bytes)
    requires AllFrames(FirstPage, before) && FirstPage(page) == Ok(page) && SameFraming(page, bad)
    requires !Consistent(XorBytes(page, bad))
    ensures Parse(Concat(before) + (bad + rest)) == Err(ChecksumMismatch)
  {
    DamageOutcome(page, bad, rest);
    PagesAreSelfDelimiting();
    RejectsAfter(FirstPage, Segments, before, bad + rest);
  }

  /** A stretch of the page outside the capture pattern, the segment count and the lacing table. */
  predicate Clear(page: Bytes, start: nat, end: nat)
    requires |page| >= 27
  {
    4 <= start <= end <= 26 || 27 + page[26] as nat <= start <= end <= |page|
  }

  lemma ClearKeepsFraming(page: Bytes, front: Bytes, x: Bytes, y: Bytes, back: Bytes)
    requires |page| >= 27 && page == front + x + back && |x| == |y| && 27 + page[26] as nat <= |page|
    requires Clear(page, |front|, |front| + |x|)
    ensures SameFraming(page, front + y + back)
  {
  }

  /**
   Damage to one to four consecutive bytes clear of the framing passes only across the boundary of header and checksum
   field, and there exactly when its pattern is consistent.
   */
  lemma BurstOutcome(page: Bytes, front: Bytes, x: Bytes, y: Bytes, back: Bytes, rest: Bytes)
    requires FirstPage(page) == Ok(page) && page == front + x + back && |x| == |y| <= 4 && x != y
    requires Clear(page, |front|, |front| + |x|)
    ensures var bad := front + y + back;
            && |bad| == |page|
            && FirstPage(bad + rest) ==
               if |front| < 22 < |front| + |x| && Consistent(XorBytes(page, bad)) then Ok(bad)
               else Err(ChecksumMismatch)
  {
    if Guarded(page, |front|, |front| + |x|) {
      DamagedPageRejected(page, front, x, y, back, rest);
    } else {
      assert page[..|page|] == page;
      ClearKeepsFraming(page, front, x, y, back);
      DamageOutcome(page, front + y + back, rest);
    }
  }
}
