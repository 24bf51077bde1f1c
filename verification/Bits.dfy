/** Fixed-width binary numerals, most significant bit first, and bitwise exclusive or. */
module Bits {
  type Word = seq<bool>

  function Pow2(n: nat): (p: nat)
    ensures p >= 1
  {
    if n == 0 then 1 else 2 * Pow2(n - 1)
  }

  function Zeros(n: nat): (w: Word)
    ensures |w| == n
    ensures forall i :: 0 <= i < n ==> !w[i]
  {
    seq(n, _ => false)
  }

  /** The low `n` bits of `v`. */
  function ToBits(n: nat, v: nat): (w: Word)
    ensures |w| == n
  {
    if n == 0 then [] else ToBits(n - 1, v / 2) + [v % 2 == 1]
  }

  function FromBits(w: Word): (v: nat)
    ensures v < Pow2(|w|)
  {
    if w == [] then 0
    else 2 * FromBits(w[..|w| - 1]) + if w[|w| - 1] then 1 else 0
  }

  lemma {:induction false} ToFrom(w: Word)
    ensures ToBits(|w|, FromBits(w)) == w
  {
    if w != [] {
      ToFrom(w[..|w| - 1]);
      assert FromBits(w) / 2 == FromBits(w[..|w| - 1]);
    }
  }

  lemma {:induction false} FromTo(n: nat, v: nat)
    requires v < Pow2(n)
    ensures FromBits(ToBits(n, v)) == v
  {
    if n > 0 {
      FromTo(n - 1, v / 2);
      assert ToBits(n, v)[..n - 1] == ToBits(n - 1, v / 2);
    }
  }

  lemma ToBitsInjective(n: nat, a: nat, b: nat)
    requires a < Pow2(n) && b < Pow2(n)
    requires ToBits(n, a) == ToBits(n, b)
    ensures a == b
  {
    FromTo(n, a);
    FromTo(n, b);
  }

  /** Appending `k` zero bits multiplies by `Pow2(k)`. */
  lemma {:induction false} ToBitsScaled(n: nat, k: nat, v: nat)
    ensures ToBits(n + k, v * Pow2(k)) == ToBits(n, v) + Zeros(k)
  {
    if k == 0 {
      assert ToBits(n, v) + Zeros(0) == ToBits(n, v);
    } else {
      ToBitsScaled(n, k - 1, v);
      var half := v * Pow2(k - 1);
      assert v * Pow2(k) == 2 * half;
      assert Zeros(k) == Zeros(k - 1) + [false];
      assert ToBits(n, v) + Zeros(k) == (ToBits(n, v) + Zeros(k - 1)) + [false];
    }
  }

  /** Doubling modulo `Pow2(n)` shifts the bits left by one. */
  lemma DoubleShifts(n: nat, v: nat)
    requires n > 0
    requires v < Pow2(n)
    ensures ToBits(n, v)[0] <==> v >= Pow2(n - 1)
    ensures ToBits(n, (2 * v) % Pow2(n)) == ToBits(n, v)[1..] + [false]
  {
    TopBit(n, v);
    ShiftedValue(n, v);
    ToFrom(ToBits(n, v)[1..] + [false]);
  }

  lemma ShiftedValue(n: nat, v: nat)
    requires n > 0
    requires v < Pow2(n)
    ensures FromBits(ToBits(n, v)[1..] + [false]) == (2 * v) % Pow2(n)
  {
    TopBit(n, v);
    DoubledValue(ToBits(n, v)[1..]);
    ReduceOnce(2 * v, Pow2(n));
  }

  lemma DoubledValue(w: Word)
    ensures FromBits(w + [false]) == 2 * FromBits(w)
  {
    assert (w + [false])[..|w|] == w;
  }

  lemma ReduceOnce(x: nat, m: nat)
    requires m > 0 && x < 2 * m
    ensures x % m == if x < m then x else x - m
  {
  }

  lemma {:induction false} TopBit(n: nat, v: nat)
    requires n > 0
    requires v < Pow2(n)
    ensures ToBits(n, v)[0] <==> v >= Pow2(n - 1)
    ensures FromBits(ToBits(n, v)[1..]) == if v >= Pow2(n - 1) then v - Pow2(n - 1) else v
  {
    if n == 1 {
      assert ToBits(1, v) == [v % 2 == 1];
      assert ToBits(1, v)[1..] == [];
    } else {
      TopBit(n - 1, v / 2);
      var t := ToBits(n, v)[1..];
      assert t[..n - 2] == ToBits(n - 1, v / 2)[1..];
    }
  }

  function Xor(a: Word, b: Word): (r: Word)
    requires |a| == |b|
    ensures |r| == |a|
    ensures forall i :: 0 <= i < |a| ==> r[i] == (a[i] != b[i])
  {
    seq(|a|, i requires 0 <= i < |a| => a[i] != b[i])
  }

  lemma XorCancels(a: Word, b: Word, c: Word)
    requires |a| == |b| == |c|
    requires Xor(a, b) == Xor(a, c)
    ensures b == c
  {
    forall i | 0 <= i < |b| ensures b[i] == c[i] {
      assert Xor(a, b)[i] == Xor(a, c)[i];
    }
  }

  lemma XorRegroups(a: Word, b: Word, c: Word, d: Word)
    requires |a| == |b| == |c| == |d|
    ensures Xor(Xor(a, b), Xor(c, d)) == Xor(Xor(a, c), Xor(b, d))
    ensures Xor(Xor(a, b), c) == Xor(a, Xor(b, c))
  {
  }

  /** Bitwise exclusive or of the low `n` bits of two numbers. */
  function XorNat(n: nat, a: nat, b: nat): nat {
    if n == 0 then 0 else 2 * XorNat(n - 1, a / 2, b / 2) + (if a % 2 != b % 2 then 1 else 0)
  }

  lemma {:induction false} XorNatBits(n: nat, a: nat, b: nat)
    ensures XorNat(n, a, b) < Pow2(n)
    ensures ToBits(n, XorNat(n, a, b)) == Xor(ToBits(n, a), ToBits(n, b))
  {
    if n > 0 { XorNatBits(n - 1, a / 2, b / 2); }
  }
}
