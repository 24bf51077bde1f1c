/** The checksum register as a machine word, for evaluating it at given values. */
module OggWords {
  import opened Bits
  import opened OggCrc

  /** Words of some kind: their first bit, doubling, exclusive or, and the generator polynomial. */
  datatype Machine<!W> = Machine(top: W -> bool, twice: W -> W, mix: (W, W) -> W, poly: W)

  const WIDTH: nat := 32

  /** The first `n` bits of a word. */
  function Spell<W>(m: Machine<W>, v: W, n: nat): (w: Word)
    ensures |w| == n
    decreases n
  {
    if n == 0 then [] else [m.top(v)] + Spell(m, m.twice(v), n - 1)
  }

  function BitsOf<W>(m: Machine<W>, v: W): (r: Register) {
    Spell(m, v, WIDTH)
  }

  function Shifted<W>(m: Machine<W>, v: W, n: nat): W
    decreases n
  {
    if n == 0 then v else Shifted(m, m.twice(v), n - 1)
  }

  /** One turn of the register, as the source writes it. */
  function TurnWord<W>(m: Machine<W>, v: W): W {
    if m.top(v) then m.mix(m.twice(v), m.poly) else m.twice(v)
  }

  ghost predicate TwiceMixes<W>(m: Machine<W>, x: W, y: W) {
    m.twice(m.mix(x, y)) == m.mix(m.twice(x), m.twice(y)) && m.top(m.mix(x, y)) == (m.top(x) != m.top(y))
  }

  /** Words that behave like registers. */
  ghost predicate Registers<W(!new)>(m: Machine<W>) {
    && (forall x, y :: TwiceMixes(m, x, y))
    && (forall x :: Drains(m, x))
    && BitsOf(m, m.poly) == Poly()
  }

  /** After all its bits are shifted out the word is empty. */
  ghost predicate Drains<W>(m: Machine<W>, x: W) {
    !m.top(Shifted(m, x, WIDTH))
  }

  lemma {:induction false} SpellXor<W(!new)>(m: Machine<W>, x: W, y: W, n: nat)
    requires Registers(m)
    ensures Spell(m, m.mix(x, y), n) == Xor(Spell(m, x, n), Spell(m, y, n))
    decreases n
  {
    if n > 0 {
      assert TwiceMixes(m, x, y);
      SpellXor(m, m.twice(x), m.twice(y), n - 1);
      XorCons(m.top(x), m.top(y), Spell(m, m.twice(x), n - 1), Spell(m, m.twice(y), n - 1));
    }
  }

  lemma XorCons(a: bool, b: bool, x: Word, y: Word)
    requires |x| == |y|
    ensures Xor([a] + x, [b] + y) == [a != b] + Xor(x, y)
  {
  }

  lemma {:induction false} SpellLast<W>(m: Machine<W>, v: W, n: nat)
    ensures Spell(m, v, n + 1) == Spell(m, v, n) + [m.top(Shifted(m, v, n))]
    decreases n
  {
    if n > 0 { SpellLast(m, m.twice(v), n - 1); }
  }

  /** Doubling a word drops its first bit and appends a zero. */
  lemma SpellTwice<W(!new)>(m: Machine<W>, v: W)
    requires Registers(m)
    ensures BitsOf(m, m.twice(v)) == BitsOf(m, v)[1..] + [false]
  {
    SpellLast(m, m.twice(v), WIDTH - 1);
    assert Drains(m, v);
  }

  lemma TurnIsShift<W(!new)>(m: Machine<W>, v: W)
    requires Registers(m)
    ensures BitsOf(m, TurnWord(m, v)) == Shift(BitsOf(m, v))
  {
    SpellTwice(m, v);
    SpellXor(m, m.twice(v), m.poly, WIDTH);
  }

  function TurnWords<W>(m: Machine<W>, v: W, n: nat): W {
    if n == 0 then v else TurnWord(m, TurnWords(m, v, n - 1))
  }

  ghost predicate Tracks<W>(m: Machine<W>, v: W) {
    BitsOf(m, TurnWord(m, v)) == Shift(BitsOf(m, v))
  }

  lemma {:induction false} TurnsAreShifts<W(!new)>(m: Machine<W>, v: W, n: nat)
    requires forall x :: Tracks(m, x)
    ensures BitsOf(m, TurnWords(m, v, n)) == Shifts(BitsOf(m, v), n)
  {
    if n > 0 {
      TurnsAreShifts(m, v, n - 1);
      assert Tracks(m, TurnWords(m, v, n - 1));
    }
  }

  // ---- Four bits at a time.

  function Four<W>(m: Machine<W>, v: W): Word {
    [m.top(v), m.top(m.twice(v)), m.top(m.twice(m.twice(v))), m.top(m.twice(m.twice(m.twice(v))))]
  }

  function Times16<W>(m: Machine<W>, v: W): W {
    m.twice(m.twice(m.twice(m.twice(v))))
  }

  lemma SpellFour<W>(m: Machine<W>, v: W, n: nat)
    ensures Spell(m, v, n + 4) == Four(m, v) + Spell(m, Times16(m, v), n)
    ensures Shifted(m, v, n + 4) == Shifted(m, Times16(m, v), n)
  {
    var a := m.twice(v);
    var b := m.twice(a);
    var c := m.twice(b);
    assert Spell(m, v, n + 4) == [m.top(v)] + Spell(m, a, n + 3);
    assert Spell(m, a, n + 3) == [m.top(a)] + Spell(m, b, n + 2);
    assert Spell(m, b, n + 2) == [m.top(b)] + Spell(m, c, n + 1);
    assert Spell(m, c, n + 1) == [m.top(c)] + Spell(m, m.twice(c), n);
    assert Shifted(m, v, n + 4) == Shifted(m, a, n + 3) == Shifted(m, b, n + 2) == Shifted(m, c, n + 1);
  }

  lemma SpellEight<W>(m: Machine<W>, a: W, b: W, c: W, n: nat)
    requires b == Times16(m, a) && c == Times16(m, b)
    ensures Spell(m, a, n + 8) == Four(m, a) + Four(m, b) + Spell(m, c, n)
    ensures Shifted(m, a, n + 8) == Shifted(m, c, n)
  {
    SpellFour(m, a, n + 4);
    SpellFour(m, b, n);
  }

  lemma SpellHalf<W>(m: Machine<W>, a: W, b: W, c: W, d: W, e: W, n: nat)
    requires b == Times16(m, a) && c == Times16(m, b) && d == Times16(m, c) && e == Times16(m, d)
    ensures Spell(m, a, n + 16) == Four(m, a) + Four(m, b) + (Four(m, c) + Four(m, d)) + Spell(m, e, n)
    ensures Shifted(m, a, n + 16) == Shifted(m, e, n)
  {
    SpellEight(m, a, b, c, n + 8);
    SpellEight(m, c, d, e, n);
  }

  /** A whole word, digit by digit. */
  lemma SpellAll<W>(m: Machine<W>, a: W, b: W, c: W, d: W, e: W, f: W, g: W, h: W, last: W)
    requires b == Times16(m, a) && c == Times16(m, b) && d == Times16(m, c) && e == Times16(m, d)
    requires f == Times16(m, e) && g == Times16(m, f) && h == Times16(m, g) && last == Times16(m, h)
    ensures BitsOf(m, a) == Four(m, a) + Four(m, b) + (Four(m, c) + Four(m, d))
                            + (Four(m, e) + Four(m, f) + (Four(m, g) + Four(m, h)))
    ensures Shifted(m, a, WIDTH) == last
  {
    SpellHalf(m, a, b, c, d, e, WIDTH - 16);
    SpellHalf(m, e, f, g, h, last, WIDTH - 32);
  }

  // ---- Machine words of 32 bits.

  function High(v: bv32): bool {
    v & 0x8000_0000 != 0
  }

  function Twice(v: bv32): bv32 {
    v << 1
  }

  function Mix(x: bv32, y: bv32): bv32 {
    x ^ y
  }

  const WORDS: Machine<bv32> := Machine(High, Twice, Mix, 0x04C1_1DB7)

  lemma TwiceMix(x: bv32, y: bv32)
    ensures (x ^ y) << 1 == (x << 1) ^ (y << 1)
  {
  }

  lemma HighMix(x: bv32, y: bv32)
    ensures (x ^ y) & 0x8000_0000 != 0 <==> ((x & 0x8000_0000 != 0) != (y & 0x8000_0000 != 0))
  {
  }

  lemma Sixteenfold(v: bv32)
    ensures v << 1 << 1 << 1 << 1 == v << 4
  {
  }

  lemma AllOut(v: bv32)
    ensures v << 4 << 4 << 4 << 4 << 4 << 4 << 4 << 4 == 0
  {
  }

  lemma TimesSixteen(v: bv32)
    ensures Times16(WORDS, v) == v << 4
  {
    Sixteenfold(v);
  }

  lemma WordDrains(v: bv32)
    ensures Drains(WORDS, v)
  {
    var b := v << 4;
    var c := b << 4;
    var d := c << 4;
    var e := d << 4;
    var f := e << 4;
    var g := f << 4;
    var h := g << 4;
    TimesSixteen(v);
    TimesSixteen(b);
    TimesSixteen(c);
    TimesSixteen(d);
    TimesSixteen(e);
    TimesSixteen(f);
    TimesSixteen(g);
    TimesSixteen(h);
    SpellAll(WORDS, v, b, c, d, e, f, g, h, h << 4);
    AllOut(v);
  }

  lemma FourOf(v: bv32)
    ensures Four(WORDS, v) == [v & 0x8000_0000 != 0, v & 0x4000_0000 != 0, v & 0x2000_0000 != 0, v & 0x1000_0000 != 0]
  {
  }

  lemma PolyWord()
    ensures BitsOf(WORDS, 0x04C1_1DB7) == Poly()
  {
    SpellAll(WORDS, 0x04C1_1DB7, 0x4C11_DB70, 0xC11D_B700, 0x11DB_7000, 0x1DB7_0000, 0xDB70_0000, 0xB700_0000,
             0x7000_0000, 0x0000_0000);
  }

  lemma WordsAreRegisters()
    ensures Registers(WORDS)
  {
    forall x, y ensures TwiceMixes(WORDS, x, y) {
      TwiceMix(x, y);
      HighMix(x, y);
    }
    forall x ensures Drains(WORDS, x) { WordDrains(x); }
    PolyWord();
  }

  /** Turning a word turns its register. */
  lemma WordTurns(v: bv32, n: nat)
    ensures BitsOf(WORDS, TurnWords(WORDS, v, n)) == Shifts(BitsOf(WORDS, v), n)
  {
    WordsAreRegisters();
    forall x ensures Tracks(WORDS, x) { TurnIsShift(WORDS, x); }
    TurnsAreShifts(WORDS, v, n);
  }

  function Turned(v: bv32): bv32 {
    if v & 0x8000_0000 != 0 then (v << 1) ^ 0x04C1_1DB7 else v << 1
  }

  function Eight<W>(step: W -> W, v: W): W {
    step(step(step(step(step(step(step(step(v))))))))
  }

  ghost predicate StepsBy<W>(m: Machine<W>, step: W -> W, v: W) {
    TurnWord(m, v) == step(v)
  }

  lemma TurnOnce<W(!new)>(m: Machine<W>, step: W -> W, v: W, n: nat, u: W)
    requires (forall x :: StepsBy(m, step, x)) && TurnWords(m, v, n) == u
    ensures TurnWords(m, v, n + 1) == step(u)
  {
    assert StepsBy(m, step, u);
  }

  lemma TurnEight<W(!new)>(m: Machine<W>, step: W -> W, v: W)
    requires forall x :: StepsBy(m, step, x)
    ensures TurnWords(m, v, 8) == Eight(step, v)
  {
    var a := step(v);
    var b := step(a);
    var c := step(b);
    var d := step(c);
    var e := step(d);
    TurnOnce(m, step, v, 0, v);
    TurnOnce(m, step, v, 1, a);
    TurnOnce(m, step, v, 2, b);
    TurnOnce(m, step, v, 3, c);
    TurnOnce(m, step, v, 4, d);
    TurnOnce(m, step, v, 5, e);
    TurnOnce(m, step, v, 6, step(e));
    TurnOnce(m, step, v, 7, step(step(e)));
  }

  lemma TurnedSteps(v: bv32)
    ensures StepsBy(WORDS, Turned, v)
  {
  }
}
