/** The page checksum of `tools/opus_codec_fixture.py`: a 32-bit shift register fed most significant bit first. */
module OggCrc {
  import opened Basics
  import opened Bits

  type Register = w: Word | |w| == 32 witness Zeros(32)

  const POLYNOMIAL: nat := 0x04C11DB7
  const WORD: nat := 0x1_0000_0000

  /** The generator polynomial, one hexadecimal digit at a time. */
  function Poly(): (p: Register)
    ensures p[31]
  {
    [false, false, false, false] + [false, true, false, false] +
    [true, true, false, false] + [false, false, false, true] +
    [false, false, false, true] + [true, true, false, true] +
    [true, false, true, true] + [false, true, true, true]
  }

  /** One turn of the register. */
  function Shift(r: Register): (s: Register) {
    if r[0] then Xor(r[1..] + [false], Poly()) else r[1..] + [false]
  }

  function Shifts(r: Register, n: nat): (s: Register) {
    if n == 0 then r else Shift(Shifts(r, n - 1))
  }

  function Top(b: Byte): (r: Register) {
    ToBits(8, b as nat) + Zeros(24)
  }

  function Absorb(r: Register, b: Byte): (s: Register) {
    Shifts(Xor(r, Top(b)), 8)
  }

  function CrcFrom(r: Register, data: Bytes): (s: Register) {
    if data == [] then r else Absorb(CrcFrom(r, data[..|data| - 1]), data[|data| - 1])
  }

  function Crc(data: Bytes): (r: Register) {
    CrcFrom(Zeros(32), data)
  }

  // ---- The integer loop of the source computes this register.

  lemma PolyIsPolynomial()
    ensures FromBits(Poly()) == POLYNOMIAL && ToBits(32, POLYNOMIAL) == Poly()
  {
    Digits([], [false, false, false, false]);
    assert [] + [false, false, false, false] == [false, false, false, false];
    Digits([false, false, false, false], [false, true, false, false]);
    Digits([false, false, false, false] + [false, true, false, false], [true, true, false, false]);
    var h := [false, false, false, false] + [false, true, false, false] + [true, true, false, false];
    Digits(h, [false, false, false, true]);
    Digits(h + [false, false, false, true], [false, false, false, true]);
    var m := h + [false, false, false, true] + [false, false, false, true];
    Digits(m, [true, true, false, true]);
    Digits(m + [true, true, false, true], [true, false, true, true]);
    Digits(m + [true, true, false, true] + [true, false, true, true], [false, true, true, true]);
    ToFrom(Poly());
  }

  function Digit(w: Word): (d: nat)
    requires |w| == 4
  {
    (if w[0] then 8 else 0) + (if w[1] then 4 else 0) + (if w[2] then 2 else 0) + if w[3] then 1 else 0
  }

  lemma Snoc(high: Word, b: bool)
    ensures FromBits(high + [b]) == 2 * FromBits(high) + if b then 1 else 0
  {
    assert (high + [b])[..|high|] == high;
  }

  lemma Digits(high: Word, w: Word)
    requires |w| == 4
    ensures FromBits(high + w) == 16 * FromBits(high) + Digit(w)
  {
    var a, b, c := high + [w[0]], high + [w[0], w[1]], high + [w[0], w[1], w[2]];
    Snoc(high, w[0]);
    assert b == a + [w[1]] && c == b + [w[2]] && high + w == c + [w[3]];
    Chain(a, b, c, high + w, w);
  }

  lemma Chain(a: Word, b: Word, c: Word, d: Word, w: Word)
    requires |w| == 4 && b == a + [w[1]] && c == b + [w[2]] && d == c + [w[3]]
    ensures FromBits(d) == 8 * FromBits(a) + (if w[1] then 4 else 0) + (if w[2] then 2 else 0) + if w[3] then 1 else 0
  {
    Snoc(a, w[1]);
    Snoc(b, w[2]);
    Snoc(c, w[3]);
  }

  /** One turn of the register on integers. */
  function Turn(crc: nat): nat {
    if crc >= 0x8000_0000 then XorNat(32, (2 * crc) % WORD, POLYNOMIAL) else (2 * crc) % WORD
  }

  lemma TurnShifts(crc: nat)
    requires crc < WORD
    ensures Turn(crc) < WORD && ToBits(32, Turn(crc)) == Shift(ToBits(32, crc))
  {
    WordIsPow2();
    PolyIsPolynomial();
    TurnBits(32, crc, POLYNOMIAL, WORD);
  }

  lemma TurnBits(n: nat, crc: nat, p: nat, limit: nat)
    requires n > 0 && limit == Pow2(n) && crc < limit && p < limit
    ensures ToBits(n, crc)[0] <==> crc >= Pow2(n - 1)
    ensures ToBits(n, (2 * crc) % limit) == ToBits(n, crc)[1..] + [false]
    ensures XorNat(n, (2 * crc) % limit, p) < limit
    ensures ToBits(n, XorNat(n, (2 * crc) % limit, p)) == Xor(ToBits(n, crc)[1..] + [false], ToBits(n, p))
  {
    DoubleShifts(n, crc);
    XorNatBits(n, (2 * crc) % limit, p);
  }

  method ComputeCrc(data: Bytes) returns (crc: nat)
    ensures crc == FromBits(Crc(data)) < WORD
  {
    WordIsPow2();
    crc := 0;
    ZeroBits(32);
    for i := 0 to |data|
      invariant crc < WORD
      invariant ToBits(32, crc) == Crc(data[..i])
    {
      ghost var before := Crc(data[..i]);
      TopIsScaled(data[i]);
      XorNatBits(32, crc, data[i] as nat * 0x100_0000);
      crc := XorNat(32, crc, data[i] as nat * 0x100_0000);
      ghost var fed := ToBits(32, crc);
      for k := 0 to 8
        invariant crc < WORD
        invariant ToBits(32, crc) == Shifts(fed, k)
      {
        TurnShifts(crc);
        crc := Turn(crc);
      }
      assert data[..i + 1][..i] == data[..i];
    }
    assert data[..|data|] == data;
    FromTo(32, crc);
  }

  lemma WordIsPow2()
    ensures Pow2(32) == WORD && Pow2(31) == 0x8000_0000 && Pow2(24) == 0x100_0000 && Pow2(8) == 256
  {
    assert Pow2(8) == 256;
    Pow2Add(8, 8);
    Pow2Add(16, 8);
    Pow2Add(24, 7);
    assert Pow2(7) == 128;
  }

  lemma {:induction false} Pow2Add(m: nat, n: nat)
    ensures Pow2(m + n) == Pow2(m) * Pow2(n)
  {
    if n > 0 { Pow2Add(m, n - 1); }
  }

  lemma {:induction false} ZeroBits(n: nat)
    ensures ToBits(n, 0) == Zeros(n)
  {
    if n > 0 { ZeroBits(n - 1); }
  }

  lemma TopIsScaled(b: Byte)
    ensures ToBits(32, b as nat * 0x100_0000) == Top(b)
  {
    WordIsPow2();
    ToBitsScaled(8, 24, b as nat);
  }

  // ---- Linearity and injectivity of the register.

  lemma ShiftLinear(a: Register, b: Register)
    ensures Shift(Xor(a, b)) == Xor(Shift(a), Shift(b))
  {
  }

  lemma {:induction false} ShiftsLinear(a: Register, b: Register, n: nat)
    ensures Shifts(Xor(a, b), n) == Xor(Shifts(a, n), Shifts(b, n))
  {
    if n > 0 {
      ShiftsLinear(a, b, n - 1);
      ShiftLinear(Shifts(a, n - 1), Shifts(b, n - 1));
    }
  }

  lemma ShiftInjective(a: Register, b: Register)
    requires Shift(a) == Shift(b)
    ensures a == b
  {
    assert Shift(a)[31] == a[0] && Shift(b)[31] == b[0];
    var p := if a[0] then Poly() else Zeros(32);
    assert Shift(a) == Xor(p, a[1..] + [false]) && Shift(b) == Xor(p, b[1..] + [false]);
    XorCancels(p, a[1..] + [false], b[1..] + [false]);
    assert a == [a[0]] + (a[1..] + [false])[..31];
    assert b == [b[0]] + (b[1..] + [false])[..31];
  }

  lemma {:induction false} ShiftsInjective(a: Register, b: Register, n: nat)
    requires Shifts(a, n) == Shifts(b, n)
    ensures a == b
  {
    if n > 0 {
      ShiftInjective(Shifts(a, n - 1), Shifts(b, n - 1));
      ShiftsInjective(a, b, n - 1);
    }
  }

  lemma {:induction false} ShiftsAdd(r: Register, m: nat, n: nat)
    ensures Shifts(Shifts(r, m), n) == Shifts(r, m + n)
  {
    if n > 0 { ShiftsAdd(r, m, n - 1); }
  }

  function XorByte(a: Byte, b: Byte): (x: Byte)
    ensures ToBits(8, x as nat) == Xor(ToBits(8, a as nat), ToBits(8, b as nat))
  {
    WordIsPow2();
    XorNatBits(8, a as nat, b as nat);
    XorNat(8, a as nat, b as nat) as Byte
  }

  function XorBytes(a: Bytes, b: Bytes): (r: Bytes)
    requires |a| == |b|
    ensures |r| == |a|
  {
    seq(|a|, i requires 0 <= i < |a| => XorByte(a[i], b[i]))
  }

  lemma TopLinear(a: Byte, b: Byte, x: Byte)
    requires ToBits(8, x as nat) == Xor(ToBits(8, a as nat), ToBits(8, b as nat))
    ensures Top(x) == Xor(Top(a), Top(b))
  {
  }

  /** The checksum is linear over exclusive or on inputs of one length. */
  lemma {:induction false} CrcLinear(r: Register, s: Register, a: Bytes, b: Bytes)
    requires |a| == |b|
    ensures CrcFrom(Xor(r, s), XorBytes(a, b)) == Xor(CrcFrom(r, a), CrcFrom(s, b))
  {
    if a != [] {
      var n := |a| - 1;
      assert XorBytes(a, b)[..n] == XorBytes(a[..n], b[..n]);
      CrcLinear(r, s, a[..n], b[..n]);
      var ra, rb := CrcFrom(r, a[..n]), CrcFrom(s, b[..n]);
      TopLinear(a[n], b[n], XorBytes(a, b)[n]);
      XorRegroups(ra, rb, Top(a[n]), Top(b[n]));
      ShiftsLinear(Xor(ra, Top(a[n])), Xor(rb, Top(b[n])), 8);
    }
  }

  lemma {:induction false} CrcConcat(r: Register, a: Bytes, b: Bytes)
    ensures CrcFrom(r, a + b) == CrcFrom(CrcFrom(r, a), b)
  {
    if b == [] {
      assert a + b == a;
    } else {
      var n := |b| - 1;
      assert (a + b)[..|a + b| - 1] == a + b[..n];
      CrcConcat(r, a, b[..n]);
    }
  }

  /** For one input, distinct registers stay distinct. */
  lemma {:induction false} CrcRegisterInjective(r: Register, s: Register, data: Bytes)
    requires CrcFrom(r, data) == CrcFrom(s, data)
    ensures r == s
  {
    if data != [] {
      var n := |data| - 1;
      var x, y := CrcFrom(r, data[..n]), CrcFrom(s, data[..n]);
      var t := Top(data[n]);
      ShiftsInjective(Xor(x, t), Xor(y, t), 8);
      assert Xor(t, x) == Xor(x, t) && Xor(t, y) == Xor(y, t);
      XorCancels(t, x, y);
      CrcRegisterInjective(r, s, data[..n]);
    }
  }

  // ---- Up to four bytes are spread over the whole register, so no two of them agree.

  function Spread(data: Bytes): (w: Word)
    ensures |w| == 8 * |data|
  {
    if data == [] then [] else Spread(data[..|data| - 1]) + ToBits(8, data[|data| - 1] as nat)
  }

  lemma {:induction false} SpreadInjective(a: Bytes, b: Bytes)
    requires |a| == |b| && Spread(a) == Spread(b)
    ensures a == b
  {
    if a != [] {
      var n := |a| - 1;
      assert Spread(a)[..8 * n] == Spread(a[..n]) && Spread(b)[..8 * n] == Spread(b[..n]);
      SpreadInjective(a[..n], b[..n]);
      assert Spread(a)[8 * n..] == ToBits(8, a[n] as nat) && Spread(b)[8 * n..] == ToBits(8, b[n] as nat);
      WordIsPow2();
      ToBitsInjective(8, a[n] as nat, b[n] as nat);
      assert a == a[..n] + [a[n]] && b == b[..n] + [b[n]];
    }
  }

  function Padded(data: Bytes): (r: Register)
    requires |data| <= 4
  {
    Spread(data) + Zeros(32 - 8 * |data|)
  }

  /** Leading zeros leave the register without feedback. */
  lemma {:induction false} ZerosShiftOut(k: nat, tail: Word)
    requires k + |tail| == 32
    ensures Shifts(Zeros(k) + tail, k) == tail + Zeros(k)
  {
    if k == 0 {
      assert Zeros(0) + tail == tail == tail + Zeros(0);
    } else {
      var r := Zeros(k) + tail;
      ShiftsFirst(r, k - 1);
      assert Shift(r) == Zeros(k - 1) + (tail + [false]);
      ZerosShiftOut(k - 1, tail + [false]);
      assert tail + [false] + Zeros(k - 1) == tail + Zeros(k);
    }
  }

  lemma ShiftsFirst(r: Register, n: nat)
    ensures Shifts(r, n + 1) == Shifts(Shift(r), n)
  {
    ShiftsAdd(r, 1, n);
    assert Shifts(r, 1) == Shift(Shifts(r, 0));
  }

  /** A register that holds only byte `n` of a padded burst. */
  function Lone(n: nat, b: Byte): (r: Register)
    requires n < 4
  {
    Zeros(8 * n) + (ToBits(8, b as nat) + Zeros(24 - 8 * n))
  }

  lemma LoneShifts(n: nat, b: Byte)
    requires n < 4
    ensures Shifts(Lone(n, b), 8 * n) == Top(b)
  {
    ZerosShiftOut(8 * n, ToBits(8, b as nat) + Zeros(24 - 8 * n));
  }

  lemma LonePads(data: Bytes)
    requires 0 < |data| <= 4
    ensures Xor(Padded(data[..|data| - 1]), Lone(|data| - 1, data[|data| - 1])) == Padded(data)
  {
  }

  lemma XorAssociates(a: Register, b: Register, c: Register)
    ensures Xor(Xor(a, b), c) == Xor(a, Xor(b, c))
  {
  }

  lemma {:induction false} ShortCrc(r: Register, data: Bytes)
    requires |data| <= 4
    ensures CrcFrom(r, data) == Shifts(Xor(r, Padded(data)), 8 * |data|)
  {
    if data == [] {
      assert Xor(r, Padded(data)) == r;
    } else {
      var n := |data| - 1;
      var front, b := data[..n], data[n];
      ShortCrc(r, front);
      var x, lone := Xor(r, Padded(front)), Lone(n, b);
      LoneShifts(n, b);
      ShiftsLinear(x, lone, 8 * n);
      LonePads(data);
      XorAssociates(r, Padded(front), lone);
      ShiftsAdd(Xor(r, Padded(data)), 8 * n, 8);
    }
  }

  /** A change confined to at most four consecutive bytes always changes the checksum. */
  lemma BurstDetected(r: Register, front: Bytes, x: Bytes, y: Bytes, back: Bytes)
    requires |x| == |y| <= 4 && x != y
    ensures CrcFrom(r, front + x + back) != CrcFrom(r, front + y + back)
  {
    var s := CrcFrom(r, front);
    CrcConcat(r, front, x);
    CrcConcat(r, front, y);
    CrcConcat(r, front + x, back);
    CrcConcat(r, front + y, back);
    if CrcFrom(r, front + x + back) == CrcFrom(r, front + y + back) {
      CrcRegisterInjective(CrcFrom(s, x), CrcFrom(s, y), back);
      ShortCrc(s, x);
      ShortCrc(s, y);
      ShiftsInjective(Xor(s, Padded(x)), Xor(s, Padded(y)), 8 * |x|);
      XorCancels(s, Padded(x), Padded(y));
      assert Padded(x)[..8 * |x|] == Spread(x) && Padded(y)[..8 * |y|] == Spread(y);
      SpreadInjective(x, y);
    }
  }
}
