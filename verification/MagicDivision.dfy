/**
  Why multiplying by the searched multiplier and shifting divides exactly, for
  every signed 32-bit dividend.
 */
module MagicDivision {
  import opened Arm
  import opened MachineOptUtil

  // ----- division as the source language defines it -----

  function Abs(x: int): nat {
    if x < 0 then -x else x
  }

  /** Division truncating toward zero. */
  function Trunc(n: int, d: int): int
    requires d != 0
  {
    if (n < 0) == (d < 0) then Abs(n) / Abs(d) else -(Abs(n) / Abs(d))
  }

  // ----- exactness of the multiplier -----

  /** floor(m * n / 2^(32 + l)), plus one for a negative n, is n / d truncated. */
  lemma MagicQuotient(n: int, d: nat, m: nat, l: nat)
    requires IsWord(n) && 3 <= d <= TWO31 && IsMagic(d, m, l)
    ensures m * n / Pow2(WORD_BIT + l) + (if n < 0 then 1 else 0) == Trunc(n, d)
  {
    Pow2Values();
    Pow2Add(31, l + 1);
    var p, b := Pow2(WORD_BIT + l), Pow2(l + 1);
    var e := m * d - p;
    var k, q := Abs(n), Abs(n) / d;
    DivBounds(k, d);
    assert p == TWO31 * b;
    hide *;
    MagicBounds(n, k, d, m, p, b, e, q);
  }

  lemma MagicBounds(n: int, k: int, d: int, m: int, p: int, b: int, e: int, q: int)
    requires 0 <= k <= TWO31 && k == Abs(n) && (n >= 0 ==> k < TWO31)
    requires 0 < d && q * d <= k < q * d + d
    requires p == TWO31 * b && 0 < e <= b && m * d == p + e
    ensures p > 0 && m * n / p + (if n < 0 then 1 else 0) == if n < 0 then -q else q
  {
    Distribute(d, m, k, p, e);
    ErrorBounds(n, k, p, b, e);
    MagicFloor(k, d, m * k, p, e * k, q);
    SignedFloor(n, k, m, p, q);
  }

  lemma Distribute(d: int, m: int, k: int, p: int, e: int)
    requires m * d == p + e
    ensures d * (m * k) == p * k + e * k
  {
    calc {
      d * (m * k);
      (m * d) * k;
      (p + e) * k;
      p * k + e * k;
    }
  }

  lemma SignedFloor(n: int, k: int, m: int, p: int, q: int)
    requires k == Abs(n) && p > 0
    requires if n < 0 then q * p < m * k <= q * p + p else q * p <= m * k < q * p + p
    ensures m * n / p + (if n < 0 then 1 else 0) == if n < 0 then -q else q
  {
    if n >= 0 {
      DivUnique(m * n, q, p);
    } else {
      assert m * n == -(m * k);
      assert (-q - 1) * p == -(q * p) - p;
      DivUnique(m * n, -q - 1, p);
    }
  }

  lemma ErrorBounds(n: int, k: int, p: int, b: int, e: int)
    requires 0 <= k <= TWO31 && (n >= 0 ==> k < TWO31) && (n < 0 ==> k > 0)
    requires p == TWO31 * b && 0 < e <= b
    ensures 0 <= e * k <= p && (k > 0 ==> e * k > 0) && (n >= 0 ==> e * k < p)
  {
    if k > 0 { MulMono(1, k, e); }
    if n >= 0 {
      MulMono(k, TWO31 - 1, e);
      MulMono(e, b, TWO31 - 1);
    } else {
      MulMono(k, TWO31, e);
      MulMono(e, b, TWO31);
    }
  }

  /** q * p <= x, and x reaches (q + 1) * p only when the error is p. */
  lemma MagicFloor(k: int, d: int, x: int, p: int, err: int, q: int)
    requires 0 <= k && 0 < d && 0 < p && 0 <= err <= p && q * d <= k < q * d + d
    requires d * x == p * k + err
    ensures q * p <= x <= q * p + p
    ensures err < p ==> x < q * p + p
    ensures err > 0 ==> q * p < x
  {
    assert p * k >= p * (q * d) by { MulMono(q * d, k, p); }
    assert p * k <= p * (q * d + d - 1) by { MulMono(k, q * d + d - 1, p); }
    assert p * (q * d) == (q * p) * d;
    assert p * (q * d + d - 1) == (q * p + p) * d - p;
    if x < q * p { MulMono(x + 1, q * p, d); }
    if x > q * p + p { MulMono(q * p + p + 1, x, d); }
    if x == q * p { assert d * x == (q * p) * d; }
    if x == q * p + p { assert d * x == (q * p + p) * d; }
  }

  lemma DivDiv(x: int, a: int, b: int)
    requires a > 0 && b > 0
    ensures a * b > 0 && (x / a) / b == x / (a * b)
  {
    MulMono(1, b, a);
    var y := x / a;
    var z := y / b;
    DivBounds(x, a);
    DivBounds(y, b);
    NestedBounds(x, a, b, y, z);
    DivUnique(x, z, a * b);
  }

  lemma NestedBounds(x: int, a: int, b: int, y: int, z: int)
    requires a > 0 && b > 0 && y * a <= x < y * a + a && z * b <= y < z * b + b
    ensures z * (a * b) <= x < z * (a * b) + a * b
  {
    MulMono(z * b, y, a);
    MulMono(y, z * b + b - 1, a);
    assert (z * b) * a == z * (a * b);
    assert (z * b + b - 1) * a == z * (a * b) + a * b - a;
  }

  lemma HighQuotient(n: Word, d: nat, m: nat, l: nat)
    requires 3 <= d <= TWO31 && IsMagic(d, m, l)
    ensures (m * n / TWO32) / Pow2(l) + (if n < 0 then 1 else 0) == Trunc(n, d)
  {
    MagicQuotient(n, d, m, l);
    SplitShift(l);
    DivDiv(m * n, TWO32, Pow2(l));
  }

  lemma SplitShift(l: nat)
    ensures Pow2(WORD_BIT + l) == TWO32 * Pow2(l)
  {
    Pow2Values();
    Pow2Add(32, l);
  }

  lemma MagicPositive(d: nat, m: nat, l: nat)
    requires IsMagic(d, m, l)
    ensures 0 < m < TWO32
  {
  }

  /** What both magic shapes leave in the destination, from the high product word. */
  lemma MagicShapes(n: Word, d: nat, m: nat, l: nat)
    requires 3 <= d <= TWO31 && IsMagic(d, m, l)
    ensures IsWord(m * n / TWO32) && IsWord(Trunc(n, d))
    ensures m * n / TWO32 < 0 <==> n < 0
    ensures (m * n / TWO32) / Pow2(l) + (if n < 0 then 1 else 0) == Trunc(n, d)
    ensures Wrap(Wrap(m) * n / TWO32 + (if m < TWO31 then 0 else n)) == m * n / TWO32
  {
    HighQuotient(n, d, m, l);
    MagicPositive(d, m, l);
    HighWord(n, m);
    SmallQuotient(n, d);
  }

  lemma SmallQuotient(n: Word, d: nat)
    requires d > 0
    ensures IsWord(Trunc(n, d))
  {
    var k: nat := Abs(n);
    DivBounds(k, d);
    assert 0 <= k / d <= k by { MulMono(1, d, k / d); }
  }

  lemma HighWord(n: int, m: nat)
    requires IsWord(n) && 0 < m < TWO32
    ensures IsWord(m * n / TWO32)
    ensures m * n / TWO32 < 0 <==> n < 0
    ensures Wrap(Wrap(m) * n / TWO32 + (if m < TWO31 then 0 else n)) == m * n / TWO32
  {
    var h := m * n / TWO32;
    DivBounds(m * n, TWO32);
    if n >= 0 {
      MulMono(0, m, n);
      MulMono(m, TWO32, n);
    } else {
      MulMono(m, TWO32, -n);
      MulMono(1, m, -n);
      assert m * n == -(m * -n);
    }
    assert IsWord(h) && (h < 0 <==> n < 0);
    if m >= TWO31 {
      WrapUnique(m, m - TWO32, 1);
      assert (m - TWO32) * n == m * n - n * TWO32;
      DivUnique((m - TWO32) * n, h - n, TWO32);
    }
  }
}
