/** Integer powers and roots, with which floors of fractional powers are stated exactly. */
module Numbers {

  function Max(a: int, b: int): int {
    if a < b then b else a
  }

  function Min(a: int, b: int): int {
    if a < b then a else b
  }

  /** `n` is `x` rounded down. */
  predicate FloorOf(x: real, n: int) {
    n as real <= x < (n + 1) as real
  }

  function One(b: bool): nat { if b then 1 else 0 }

  function Pow(b: nat, e: nat): nat {
    if e == 0 then 1 else b * Pow(b, e - 1)
  }

  lemma {:induction false} PowMono(a: nat, b: nat, e: nat)
    requires a <= b
    ensures Pow(a, e) <= Pow(b, e)
  {
    if e > 0 {
      PowMono(a, b, e - 1);
      MulMono(a, b, Pow(a, e - 1), Pow(b, e - 1));
    }
  }

  lemma MulMono(a: nat, b: nat, c: nat, d: nat)
    requires a <= b && c <= d
    ensures a * c <= b * d
  {
    assert b * d - a * c == (b - a) * d + a * (d - c);
  }

  lemma {:induction false} PowPositive(b: nat, e: nat)
    requires b >= 1
    ensures Pow(b, e) >= 1
  {
    if e > 0 {
      PowPositive(b, e - 1);
    }
  }

  lemma PowAtLeastBase(b: nat, e: nat)
    requires e >= 1
    ensures Pow(b, e) >= b
  {
    if b >= 1 {
      PowPositive(b, e - 1);
      MulMono(b, b, 1, Pow(b, e - 1));
    }
  }

  lemma Regroup(a: nat, b: nat, p: nat, q: nat)
    ensures (a * b) * (p * q) == (a * p) * (b * q)
  {
    calc {
      (a * b) * (p * q);
      a * (b * (p * q));
      a * (p * (b * q));
      (a * p) * (b * q);
    }
  }

  lemma {:induction false} PowOfProduct(a: nat, b: nat, e: nat)
    ensures Pow(a * b, e) == Pow(a, e) * Pow(b, e)
  {
    if e > 0 {
      PowOfProduct(a, b, e - 1);
      Regroup(a, b, Pow(a, e - 1), Pow(b, e - 1));
    }
  }

  lemma {:induction false} PowOfSum(b: nat, d: nat, e: nat)
    ensures Pow(b, d + e) == Pow(b, d) * Pow(b, e)
  {
    if d > 0 {
      PowOfSum(b, d - 1, e);
      var p, q := Pow(b, d - 1), Pow(b, e);
      assert b * (p * q) == (b * p) * q;
    }
  }

  /** The integer part of the `k`-th root of `x`. */
  function Root(k: nat, x: nat): (n: nat)
    requires k >= 1
    ensures Pow(n, k) <= x < Pow(n + 1, k)
  {
    PowZero(k);
    RootFrom(k, x, 0)
  }

  lemma PowZero(k: nat)
    requires k >= 1
    ensures Pow(0, k) == 0
  {
  }

  function RootFrom(k: nat, x: nat, n: nat): (r: nat)
    requires k >= 1 && Pow(n, k) <= x
    ensures Pow(r, k) <= x < Pow(r + 1, k)
    decreases x - n
  {
    PowAtLeastBase(n, k);
    if x < Pow(n + 1, k) then n
    else
      PowAtLeastBase(n + 1, k);
      RootFrom(k, x, n + 1)
  }

  lemma RootUnique(k: nat, x: nat, n: nat)
    requires k >= 1
    requires Pow(n, k) <= x < Pow(n + 1, k)
    ensures Root(k, x) == n
  {
    var r := Root(k, x);
    if r < n {
      PowMono(r + 1, n, k);
    } else if n < r {
      PowMono(n + 1, r, k);
    }
  }

  lemma RootAtLeast(k: nat, x: nat, n: nat)
    requires k >= 1 && Pow(n, k) <= x
    ensures Root(k, x) >= n
  {
    if Root(k, x) < n {
      PowMono(Root(k, x) + 1, n, k);
    }
  }

  /** `Math.floor(c * Math.pow(level, m / k))`, as the integer root of (c^k)(level^m). */
  function ScaledPower(c: nat, m: nat, k: nat, level: nat): (n: nat)
    requires k >= 1
    ensures Pow(n, k) <= Pow(c, k) * Pow(level, m) < Pow(n + 1, k)
  {
    Root(k, Pow(c, k) * Pow(level, m))
  }

  /** `level^k <= c^k level^m`, so the root is at least the level. */
  lemma ScaledPowerAtLeastLevel(c: nat, m: nat, k: nat, level: nat)
    requires 1 <= k <= m && c >= 1 && level >= 1
    ensures level <= ScaledPower(c, m, k, level)
  {
    var b, q := Pow(level, k), Pow(level, m - k);
    PowPositive(c, k);
    PowPositive(level, m - k);
    PowOfSum(level, k, m - k);
    MulMono(b, b, 1, q);
    MulMono(1, Pow(c, k), b, b * q);
    RootAtLeast(k, Pow(c, k) * Pow(level, m), level);
  }

  /** From `n^k <= s level^k` and `level <= n`, `(n + 1)^k <= s (level + 1)^k`. */
  lemma RootStep(n: nat, level: nat, k: nat, s: nat)
    requires 1 <= level <= n
    requires Pow(n, k) <= s * Pow(level, k)
    ensures Pow(n + 1, k) <= s * Pow(level + 1, k)
  {
    var a, b, d := Pow(n + 1, k), Pow(level, k), Pow(level + 1, k);
    assert (n + 1) * level <= n * (level + 1);
    PowMono((n + 1) * level, n * (level + 1), k);
    PowOfProduct(n + 1, level, k);
    PowOfProduct(n, level + 1, k);
    MulMono(Pow(n, k), s * b, d, d);
    Swap(s, b, d);
    PowPositive(level, k);
    CancelFactor(a, s * d, b);
  }

  lemma Swap(s: nat, b: nat, d: nat)
    ensures (s * b) * d == (s * d) * b
  {
  }

  /** With an exponent of at least one and a factor of at least one, the floor grows at every level. */
  lemma ScaledPowerIncreases(c: nat, m: nat, k: nat, level: nat)
    requires 1 <= k <= m && c >= 1 && level >= 1
    ensures ScaledPower(c, m, k, level) < ScaledPower(c, m, k, level + 1)
  {
    var n, ck, q := ScaledPower(c, m, k, level), Pow(c, k), Pow(level, m - k);
    var d, q' := Pow(level + 1, k), Pow(level + 1, m - k);
    ScaledPowerAtLeastLevel(c, m, k, level);
    PowOfSum(level, k, m - k);
    Shuffle(ck, Pow(level, k), q);
    RootStep(n, level, k, ck * q);
    PowMono(level, level + 1, m - k);
    MulMono(ck, ck, q, q');
    MulMono(ck * q, ck * q', d, d);
    PowOfSum(level + 1, k, m - k);
    Shuffle(ck, d, q');
    RootAtLeast(k, ck * Pow(level + 1, m), n + 1);
  }

  lemma Shuffle(a: nat, b: nat, c: nat)
    ensures a * (b * c) == (a * c) * b
  {
  }

  lemma CancelFactor(a: nat, b: nat, f: nat)
    requires f >= 1 && a * f <= b * f
    ensures a <= b
  {
    if a >= b + 1 {
      MulMono(b + 1, a, f, f);
    }
  }

  lemma RealMulMono(a: real, b: real, x: real, y: real)
    requires 0.0 <= a <= b && 0.0 <= x <= y
    ensures 0.0 <= a * x <= b * y
  {
    assert a * x <= b * x <= b * y;
  }
}
