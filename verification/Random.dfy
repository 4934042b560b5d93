/** The seedable generator of src/rng.ts: a 32-bit state walked by a fixed odd stride, and an output mixer. */
module Random {
  import opened Wrappers

  /** A 32-bit unsigned word; `>>> 0` in the source reduces modulo `WORD`. */
  const WORD := 0x1_0000_0000

  type Word = n: int | 0 <= n < WORD

  type Unit = r: real | 0.0 <= r < 1.0

  /** How a state becomes a float. The engine is modelled for every mixer; the source's own is `Mulberry`. */
  type Mixer = Word -> Unit

  const STRIDE: Word := 0x6d2b79f5

  datatype Draw<+T> = Draw(value: T, next: Word)

  function Truncate(n: int): Word {
    n % WORD
  }

  function Advance(s: Word): Word {
    (s + STRIDE) % WORD
  }

  function MulberryBits(t0: bv32): bv32 {
    var t1 := (t0 ^ (t0 >> 15)) * (t0 | 1);
    var t2 := t1 ^ (t1 + (t1 ^ (t1 >> 7)) * (t1 | 61));
    t2 ^ (t2 >> 14)
  }

  function Fraction(w: bv32): Unit {
    (w as int) as real / 4294967296.0
  }

  function Mulberry(s: Word): Unit {
    Fraction(MulberryBits(s as bv32))
  }

  /** Every draw is the lowest, for examples. */
  function Lowest(w: Word): Unit { 0.0 }

  /** Bitwise exclusive or. */
  function Xor(a: nat, b: nat): nat
    decreases a + b
  {
    if a == 0 && b == 0 then 0 else (a + b) % 2 + 2 * Xor(a / 2, b / 2)
  }

  function Pow2(n: nat): (p: nat)
    ensures p >= 1
  {
    if n == 0 then 1 else 2 * Pow2(n - 1)
  }

  lemma {:induction false} XorRange(a: nat, b: nat, bits: nat)
    requires a < Pow2(bits) && b < Pow2(bits)
    ensures Xor(a, b) < Pow2(bits)
  {
    if bits > 0 {
      XorRange(a / 2, b / 2, bits - 1);
    }
  }

  function Xor32(a: Word, b: Word): Word {
    WordBits();
    XorRange(a, b, 32);
    Xor(a, b)
  }

  lemma WordBits()
    ensures Pow2(32) == WORD
  {
    assert Pow2(8) == 0x100;
    assert Pow2(16) == 0x1_0000;
    assert Pow2(24) == 0x100_0000;
  }

  const SEED_MASK: Word := 0x9e3779b9

  function Seeded(seed: int): Word {
    Xor32(Truncate(seed), SEED_MASK)
  }

  lemma {:induction false} XorTwice(a: nat, mask: nat)
    ensures Xor(Xor(a, mask), mask) == a
    decreases a + mask
  {
    if a + mask > 0 {
      XorTwice(a / 2, mask / 2);
      var x, bit := Xor(a / 2, mask / 2), (a + mask) % 2;
      XorBits(a, mask);
      XorBits(Xor(a, mask), mask);
      hide Xor;
      assert Xor(a, mask) / 2 == x && Xor(a, mask) % 2 == bit;
      TwiceParity(a, mask, x);
    }
  }

  lemma TwiceParity(a: nat, mask: nat, x: nat)
    ensures (((a + mask) % 2 + 2 * x) + mask) % 2 == a % 2
  {
  }

  /** Whitening loses nothing of a seed's 32 bits: doing it again gives them back. */
  lemma SeedRecovers(seed: int)
    ensures Xor32(Seeded(seed), SEED_MASK) == Truncate(seed)
  {
    XorTwice(Truncate(seed), SEED_MASK);
    hide Xor;
  }

  // ---- Draws as functions of the state -------------------------------------------------------

  function Roll(mix: Mixer, s: Word): Draw<Unit> {
    Draw(mix(Advance(s)), Advance(s))
  }

  function Scale(u: Unit, lo: real, hi: real): real {
    lo + u * (hi - lo)
  }

  /** `Math.floor(u * width)`, an index below `width`. */
  function IndexBelow(u: Unit, width: int): (i: nat)
    requires width >= 1
    ensures i < width
  {
    FloorBelow(u, width);
    (u * width as real).Floor
  }

  /** An integer between the two bounds, whichever way round they are given. */
  function RollInt(mix: Mixer, s: Word, a: int, b: int): (d: Draw<int>)
    ensures a <= d.value <= b || b <= d.value <= a
  {
    var lo, hi := if b < a then b else a, if b < a then a else b;
    var r := Roll(mix, s);
    Draw(lo + IndexBelow(r.value, hi - lo + 1), r.next)
  }

  function RollFloat(mix: Mixer, s: Word, lo: real, hi: real): Draw<real> {
    var r := Roll(mix, s);
    Draw(Scale(r.value, lo, hi), r.next)
  }

  /** Certain and impossible events take no draw. */
  function RollChance(mix: Mixer, s: Word, p: real): Draw<bool> {
    if p <= 0.0 then Draw(false, s)
    else if p >= 1.0 then Draw(true, s)
    else var r := Roll(mix, s); Draw(r.value < p, r.next)
  }

  /** Picking from an empty array costs a draw and yields nothing. */
  function RollPick<T>(mix: Mixer, s: Word, items: seq<T>): (d: Draw<Option<T>>)
    ensures d.value.None? <==> items == []
    ensures d.value.Some? ==> d.value.value in items
  {
    var r := Roll(mix, s);
    if items == [] then Draw(None, r.next)
    else Draw(Some(items[IndexBelow(r.value, |items|)]), r.next)
  }

  lemma FloorBelow(u: Unit, width: int)
    requires width >= 1
    ensures 0 <= (u * width as real).Floor < width
  {
    var w := width as real;
    assert (1.0 - u) * w > 0.0;
    assert (1.0 - u) * w == w - u * w;
    assert u * w >= 0.0;
  }

  // ---- The generator -------------------------------------------------------------------------

  class Rng {
    const mix: Mixer
    var state: Word

    constructor (seed: int)
      ensures mix == Mulberry
      ensures state == Seeded(seed)
      ensures Xor32(state, SEED_MASK) == Truncate(seed)
    {
      SeedRecovers(seed);
      mix := Mulberry;
      state := Seeded(seed);
    }

    method Next() returns (r: Unit)
      modifies this
      ensures Draw(r, state) == Roll(mix, old(state))
    {
      state := Advance(state);
      r := mix(state);
    }

    method Int(min: int, max: int) returns (n: int)
      modifies this
      ensures Draw(n, state) == RollInt(mix, old(state), min, max)
    {
      var lo, hi := min, max;
      if hi < lo {
        lo, hi := hi, lo;
      }
      var u := Next();
      n := lo + IndexBelow(u, hi - lo + 1);
    }

    method Float(lo: real, hi: real) returns (r: real)
      modifies this
      ensures Draw(r, state) == RollFloat(mix, old(state), lo, hi)
    {
      var u := Next();
      r := Scale(u, lo, hi);
    }

    method Chance(p: real) returns (hit: bool)
      modifies this
      ensures Draw(hit, state) == RollChance(mix, old(state), p)
    {
      if p <= 0.0 { return false; }
      if p >= 1.0 { return true; }
      var u := Next();
      hit := u < p;
    }

    method Pick<T>(items: seq<T>) returns (item: Option<T>)
      modifies this
      ensures Draw(item, state) == RollPick(mix, old(state), items)
    {
      var u := Next();
      if items == [] { return None; }
      item := Some(items[IndexBelow(u, |items|)]);
    }

    method Snapshot() returns (s: Word)
      ensures s == state
    {
      s := Truncate(state);
    }

    method Restore(s: int)
      modifies this
      ensures state == Truncate(s)
      ensures 0 <= s < WORD ==> state == s
    {
      state := Truncate(s);
    }
  }

  // ---- The state walk ------------------------------------------------------------------------

  /** The state after `n` draws. */
  function Walk(s: Word, n: nat): Word
    decreases n
  {
    if n == 0 then s else Walk(Advance(s), n - 1)
  }

  lemma {:induction false} WalkIsAffine(s: Word, n: nat)
    ensures Walk(s, n) == (s + n * STRIDE) % WORD
    decreases n
  {
    if n > 0 {
      WalkIsAffine(Advance(s), n - 1);
      var q := (s + STRIDE) / WORD;
      assert s + n * STRIDE == (Advance(s) + (n - 1) * STRIDE) + q * WORD;
      ModShift(Advance(s) + (n - 1) * STRIDE, q);
    }
  }

  lemma ModShift(x: int, q: int)
    ensures (x + q * WORD) % WORD == x % WORD
  {
  }

  /** The stride is odd, so the walk visits every word before it repeats one. */
  lemma WalkPeriod(s: Word, n: nat)
    ensures Walk(s, n) == s <==> n % WORD == 0
  {
    WalkIsAffine(s, n);
    if n % WORD == 0 {
      var k := n / WORD;
      assert n * STRIDE == (k * STRIDE) * WORD;
      ModShift(s, k * STRIDE);
    }
    if Walk(s, n) == s {
      var k := (s + n * STRIDE) / WORD;
      assert n * STRIDE == k * WORD;
      var inverse := 0xdc58aa5d;
      assert STRIDE * inverse == 1 + 1576479847 * WORD;
      calc {
        n;
      ==
        n * (STRIDE * inverse - 1576479847 * WORD);
      ==
        (n * STRIDE) * inverse - n * 1576479847 * WORD;
      ==
        (k * inverse - n * 1576479847) * WORD;
      }
      ModShift(0, k * inverse - n * 1576479847);
    }
  }

  lemma {:induction false} WalkSplits(s: Word, a: nat, b: nat)
    ensures Walk(s, a + b) == Walk(Walk(s, a), b)
    decreases a
  {
    if a > 0 {
      WalkSplits(Advance(s), a - 1, b);
    }
  }

  /** The floats the next `n` calls to `next` return. */
  function Draws(mix: Mixer, s: Word, n: nat): (ds: seq<Unit>)
    ensures |ds| == n
    decreases n
  {
    if n == 0 then [] else [Roll(mix, s).value] + Draws(mix, Roll(mix, s).next, n - 1)
  }

  /** Restoring the snapshot taken after `a` draws replays exactly the draws that followed it. */
  lemma {:induction false} RestoreReplays(mix: Mixer, s: Word, a: nat, b: nat)
    ensures Draws(mix, Truncate(Walk(s, a)), b) == Draws(mix, s, a + b)[a..]
    decreases a
  {
    if a > 0 {
      RestoreReplays(mix, Advance(s), a - 1, b);
    }
  }

  // ---- What a draw decides -------------------------------------------------------------------

  /** `i` is the place of `u` when [0, 1) is cut into `width` equal parts. */
  predicate PlaceOf(u: Unit, width: int, i: int) {
    i as real <= u * width as real < (i + 1) as real
  }

  /** `x` is as far between the bounds as `u` is in [0, 1). */
  predicate Between(u: Unit, low: real, high: real, x: real) {
    x == low + u * (high - low)
  }

  lemma PlacesAndScales(u: Unit, width: int, low: real, high: real)
    ensures width >= 1 ==> PlaceOf(u, width, IndexBelow(u, width))
    ensures Between(u, low, high, Scale(u, low, high))
  {
  }

  /** An integer draw spreads the mixer's value for the next state evenly over the integers between its bounds. */
  lemma IntegersAre(mix: Mixer, s: Word, lo: int, hi: int)
    requires lo <= hi
    ensures var i := RollInt(mix, s, lo, hi);
            && lo <= i.value <= hi && i.next == Advance(s) && RollInt(mix, s, hi, lo) == i
            && PlaceOf(mix(Advance(s)), hi - lo + 1, i.value - lo)
  {
    hide IndexBelow, PlaceOf;
    PlacesAndScales(mix(Advance(s)), hi - lo + 1, 0.0, 1.0);
  }

  /** A float draw spreads it over the reals between them. */
  lemma FloatsAre(mix: Mixer, s: Word, low: real, high: real)
    ensures var x := RollFloat(mix, s, low, high);
            Between(mix(Advance(s)), low, high, x.value) && x.next == Advance(s)
  {
    hide Scale, Between;
    PlacesAndScales(mix(Advance(s)), 1, low, high);
  }

  /** A pick is the element that many places in, and a chance succeeds when the value is below it. */
  lemma ChoicesAre<T>(mix: Mixer, s: Word, items: seq<T>, p: real)
    ensures RollChance(mix, s, p).value <==> p >= 1.0 || (p > 0.0 && mix(Advance(s)) < p)
    ensures RollChance(mix, s, p).next == if 0.0 < p < 1.0 then Advance(s) else s
    ensures RollPick(mix, s, items).next == Advance(s)
    ensures items != [] ==>
              exists i | 0 <= i < |items| ::
                && RollPick(mix, s, items).value == Some(items[i])
                && PlaceOf(mix(Advance(s)), |items|, i)
  {
    if items != [] {
      PlacesAndScales(mix(Advance(s)), |items|, 0.0, 1.0);
      var i := IndexBelow(mix(Advance(s)), |items|);
      hide IndexBelow, PlaceOf;
      assert RollPick(mix, s, items).value == Some(items[i]);
    }
  }

  lemma {:induction false} XorFromZero(b: nat)
    ensures Xor(0, b) == b
  {
    if b > 0 {
      XorFromZero(b / 2);
    }
  }

  /** The start state and the first two outputs of the source's generator for the seed 42. */
  lemma MulberryVectors()
    ensures Seeded(42) == 0x9e377993 && Advance(0x9e377993) == 0x0b62f388 && Advance(0x0b62f388) == 0x788e6d7d
    ensures MulberryBits(0x0b62f388) == 0x7b378804 && MulberryBits(0x788e6d7d) == 0xfc399502
  {
    SeedVector();
    hide Xor;
  }

  lemma SeedVector()
    ensures Xor(42, 0x9e3779b9) == 0x9e377993
  {
    XorFromZero(0x278dde6);
    assert Xor(1, 0x4f1bbcd) == 0x4f1bbcc;
    assert Xor(2, 0x9e3779b) == 0x9e37799;
    assert Xor(5, 0x13c6ef37) == 0x13c6ef32;
    assert Xor(10, 0x278dde6e) == 0x278dde64;
    assert Xor(21, 0x4f1bbcdc) == 0x4f1bbcc9;
    assert Xor(42, 0x9e3779b9) == 0x9e377993;
  }

  // ---- Seeding from a string -----------------------------------------------------------------

  type CodeUnit = u: int | 0 <= u <= 0xffff

  /** The two halves of one FNV step over a UTF-16 code unit. */
  function Mixed(h: Word, unit: CodeUnit): Word {
    Xor32(h, unit)
  }

  function Spread(h: Word): Word {
    (h * 0x01000193) % WORD
  }

  /** The hash loop, for any two halves. */
  function Fold(mixed: (Word, CodeUnit) -> Word, spread: Word -> Word, h: Word, text: seq<CodeUnit>): Word
    decreases |text|
  {
    if text == [] then h else Fold(mixed, spread, spread(mixed(h, text[0])), text[1..])
  }

  function Fnv(h: Word, text: seq<CodeUnit>): Word {
    Fold(Mixed, Spread, h, text)
  }

  function StringState(text: seq<CodeUnit>): Word {
    Seeded(Fnv(0x811c9dc5, text))
  }

  lemma {:induction false} XorZero(a: nat)
    ensures Xor(a, 0) == a
  {
    if a > 0 {
      XorZero(a / 2);
    }
  }

  /** The published FNV-1a hash of "a", which the loop computes before it is whitened. */
  lemma FnvVector()
    ensures Fnv(0x811c9dc5, []) == 0x811c9dc5 && Fnv(0x811c9dc5, [97]) == 0xe40c292c
  {
    FirstXor();
    hide Xor;
    assert Mixed(0x811c9dc5, 97) == 0x811c9da4;
    assert Fnv(0x811c9dc5, [97]) == Spread(Mixed(0x811c9dc5, 97));
  }

  /** Bit by bit from the seventh, above which the letter has none. */
  lemma FirstXor()
    ensures Xor(0x811c9dc5, 97) == 0x811c9da4
  {
    XorZero(0x102393b);
    assert Xor(0x2047277, 1) == 0x2047276;
    assert Xor(0x408e4ee, 3) == 0x408e4ed;
    assert Xor(0x811c9dc, 6) == 0x811c9da;
    assert Xor(0x102393b8, 12) == 0x102393b4;
    assert Xor(0x20472771, 24) == 0x20472769;
    assert Xor(0x408e4ee2, 48) == 0x408e4ed2;
    assert Xor(0x811c9dc5, 97) == 0x811c9da4;
  }

  method RngFromString(text: seq<CodeUnit>) returns (rng: Rng)
    ensures fresh(rng)
    ensures rng.state == StringState(text)
  {
    var h: Word := 0x811c9dc5;
    for i := 0 to |text|
      invariant Fnv(h, text[i..]) == Fnv(0x811c9dc5, text)
    {
      assert text[i..][1..] == text[i + 1..];
      h := Mixed(h, text[i]);
      h := Spread(h);
    }
    rng := new Rng(h);
  }

  /** Both halves lose nothing: an argument is determined by the result and the other argument. */
  ghost predicate Lossless(mixed: (Word, CodeUnit) -> Word, spread: Word -> Word) {
    && (forall g, h, u :: mixed(g, u) == mixed(h, u) ==> g == h)
    && (forall h, u, v :: mixed(h, u) == mixed(h, v) ==> u == v)
    && (forall g, h :: spread(g) == spread(h) ==> g == h)
  }

  lemma {:induction false} XorInjective(a: nat, b: nat, c: nat, d: nat)
    requires Xor(a, c) == Xor(b, d)
    requires a == b || c == d
    ensures a == b && c == d
    decreases a + b + c + d
  {
    XorBits(a, c);
    XorBits(b, d);
    if a + b + c + d > 0 {
      hide Xor;
      XorInjective(a / 2, b / 2, c / 2, d / 2);
      assert (a + c) % 2 == (b + d) % 2;
      ParityDecides(a, b, c, d);
    }
  }

  lemma XorBits(a: nat, b: nat)
    ensures Xor(a, b) == (a + b) % 2 + 2 * Xor(a / 2, b / 2)
  {
  }

  lemma ParityDecides(a: nat, b: nat, c: nat, d: nat)
    requires a / 2 == b / 2 && c / 2 == d / 2 && (a + c) % 2 == (b + d) % 2
    requires a == b || c == d
    ensures a == b && c == d
  {
  }

  lemma SpreadInjective(g: Word, h: Word)
    requires Spread(g) == Spread(h)
    ensures g == h
  {
    var inverse, prime := 0x359c449b, 0x01000193;
    var k := g * prime / WORD - h * prime / WORD;
    assert (g - h) * prime == k * WORD;
    var q := (prime * inverse - 1) / WORD;
    assert prime * inverse == 1 + q * WORD;
    assert g - h == (k * inverse - (g - h) * q) * WORD by {
      assert ((g - h) * prime) * inverse == (k * inverse) * WORD;
      assert ((g - h) * prime) * inverse == (g - h) * (prime * inverse);
      assert (g - h) * (1 + q * WORD) == (g - h) + ((g - h) * q) * WORD;
    }
  }

  lemma FnvLossless()
    ensures Lossless(Mixed, Spread)
  {
    forall g: Word, h: Word, u: CodeUnit | Mixed(g, u) == Mixed(h, u) ensures g == h {
      XorInjective(g, h, u, u);
    }
    forall h: Word, u: CodeUnit, v: CodeUnit | Mixed(h, u) == Mixed(h, v) ensures u == v {
      XorInjective(h, h, u, v);
    }
    forall g, h | Spread(g) == Spread(h) ensures g == h {
      SpreadInjective(g, h);
    }
  }

  lemma {:induction false} FoldInjective(
      mixed: (Word, CodeUnit) -> Word, spread: Word -> Word, g: Word, h: Word, text: seq<CodeUnit>)
    requires Lossless(mixed, spread)
    requires Fold(mixed, spread, g, text) == Fold(mixed, spread, h, text)
    ensures g == h
    decreases |text|
  {
    if text != [] {
      var g', h' := mixed(g, text[0]), mixed(h, text[0]);
      FoldInjective(mixed, spread, spread(g'), spread(h'), text[1..]);
    }
  }

  /** Two texts that differ in the one unit `i`. */
  ghost predicate DifferAt(s: seq<CodeUnit>, t: seq<CodeUnit>, i: nat) {
    && |s| == |t|
    && i < |s|
    && s[i] != t[i]
    && (forall j | 0 <= j < |s| && j != i :: s[j] == t[j])
  }

  lemma {:induction false} FoldSeparates(
      mixed: (Word, CodeUnit) -> Word, spread: Word -> Word, h: Word,
      s: seq<CodeUnit>, t: seq<CodeUnit>, i: nat)
    requires Lossless(mixed, spread)
    requires DifferAt(s, t, i)
    ensures Fold(mixed, spread, h, s) != Fold(mixed, spread, h, t)
    decreases i
  {
    if i > 0 {
      FoldSeparates(mixed, spread, spread(mixed(h, s[0])), s[1..], t[1..], i - 1);
    } else if Fold(mixed, spread, h, s) == Fold(mixed, spread, h, t) {
      assert s[1..] == t[1..];
      FoldInjective(mixed, spread, spread(mixed(h, s[0])), spread(mixed(h, t[0])), s[1..]);
    }
  }

  lemma SeedInjective(a: Word, b: Word)
    requires Seeded(a) == Seeded(b)
    ensures a == b
  {
    hide Xor, Xor32;
    WhitenInjective(Truncate(a), Truncate(b), SEED_MASK);
  }

  lemma WhitenInjective(a: Word, b: Word, mask: Word)
    requires Xor32(a, mask) == Xor32(b, mask)
    ensures a == b
  {
    XorInjective(a, b, mask, mask);
  }

  /** Seeds of equal length that differ in one code unit start from different states. */
  lemma StringSeedsSeparate(s: seq<CodeUnit>, t: seq<CodeUnit>, i: nat)
    requires DifferAt(s, t, i)
    ensures StringState(s) != StringState(t)
  {
    FnvLossless();
    FoldSeparates(Mixed, Spread, 0x811c9dc5, s, t, i);
    if StringState(s) == StringState(t) {
      SeedInjective(Fnv(0x811c9dc5, s), Fnv(0x811c9dc5, t));
    }
  }
}
