/**
  The arithmetic helpers of the multiplication and division strength reduction:
  recognising powers of two, searching the magic multiplier of a divisor, and
  factoring a constant as 2^a * (2^b + 1) or 2^a * (2^b - 1).
 */
module MachineOptUtil {
  import opened Wrappers
  import opened Arm

  const WORD_BIT: nat := 32
  const TABLE_LEN: nat := 30

  // ----- powers of two -----

  /** The 31 low bits of x are a single one, at position k. */
  predicate IsPowerAt(x: nat, k: nat) {
    k < 31 && x % TWO31 == Pow2(k)
  }

  /** Number of one bits of x below `bits` and the lowest position holding one. */
  function OneBits(x: nat, bits: nat): nat {
    if bits == 0 then 0 else x % 2 + OneBits(x / 2, bits - 1)
  }

  lemma {:induction false} NoBits(x: nat, bits: nat)
    requires x < Pow2(bits)
    ensures OneBits(x, bits) == 0 <==> x == 0
  {
    if bits > 0 {
      NoBits(x / 2, bits - 1);
    }
  }

  function LowestOne(x: nat): (k: nat)
    requires x > 0
  {
    if x % 2 == 1 then 0 else 1 + LowestOne(x / 2)
  }

  lemma {:induction false} OneBit(x: nat, bits: nat)
    requires 0 < x < Pow2(bits) && OneBits(x, bits) == 1
    ensures LowestOne(x) < bits && x == Pow2(LowestOne(x))
  {
    if x % 2 == 1 {
      NoBits(x / 2, bits - 1);
    } else {
      OneBit(x / 2, bits - 1);
    }
  }

  lemma {:induction false} PowerHasOneBit(k: nat, bits: nat)
    requires k < bits
    ensures Pow2(k) < Pow2(bits) && OneBits(Pow2(k), bits) == 1
  {
    Pow2Strict(k, bits);
    if k == 0 {
      NoBits(0, bits - 1);
    } else {
      PowerHasOneBit(k - 1, bits - 1);
    }
  }

  lemma {:induction false} Pow2Injective(a: nat, b: nat)
    requires Pow2(a) == Pow2(b)
    ensures a == b
  {
    if a < b {
      Pow2Strict(a, b);
    } else if b < a {
      Pow2Strict(b, a);
    }
  }

  /** Bit 31 of the argument is ignored; None stands for 0xffffffff. */
  method CountPowerOfTwo(x0: nat) returns (r: Option<nat>)
    requires x0 < TWO32
    ensures forall k: nat :: r == Some(k) <==> IsPowerAt(x0, k)
  {
    var judge: nat, pos: int := 0, -1;
    var x: nat := x0 % TWO31;
    ghost var y := x;
    Pow2Values();
    for i := 0 to 32
      invariant x < Pow2(32 - i)
      invariant 0 <= i <= 32
      invariant judge + OneBits(x, 32 - i) == OneBits(y, 32)
      invariant judge == 0 ==> pos == -1 && (x > 0 <==> y > 0) && (y > 0 ==> LowestOne(y) == i + LowestOne(x))
      invariant judge > 0 ==> y > 0 && pos == LowestOne(y)
    {
      if x % 2 == 1 {
        judge := judge + 1;
        if pos == -1 {
          pos := i;
        }
      }
      x := x / 2;
    }
    assert judge == OneBits(y, 32);
    OnlyPowersHaveOneBit(y);
    r := if judge != 1 then None else Some(pos);
  }

  lemma OnlyPowersHaveOneBit(y: nat)
    requires y < TWO31
    ensures OneBits(y, 32) == 1 <==> y > 0 && LowestOne(y) < 31 && y == Pow2(LowestOne(y))
    ensures forall k: nat :: k < 31 && y == Pow2(k) ==> OneBits(y, 32) == 1 && k == LowestOne(y)
  {
    Pow2Values();
    NoBits(y, 32);
    if OneBits(y, 32) == 1 {
      OneBit(y, 32);
    }
    forall k: nat | k < 31 && y == Pow2(k) ensures OneBits(y, 32) == 1 && k == LowestOne(y) {
      PowerHasOneBit(k, 32);
      OneBit(y, 32);
      Pow2Injective(k, LowestOne(y));
    }
  }

  // ----- magic multiplier -----

  /** ceil(log2(x)): the least L with x <= 2^L. */
  function CeilLog2(x: nat): (l: nat)
    requires x > 0
    ensures x <= Pow2(l)
    ensures l > 0 ==> Pow2(l - 1) < x
  {
    if x == 1 then 0
    else
      var h := CeilLog2((x + 1) / 2);
      assert h > 0 ==> Pow2(h) == 2 * Pow2(h - 1);
      h + 1
  }

  /** floor(2^(32 + l) / x), the lower bound on the multiplier at shift l. */
  function LowAt(x: nat, l: nat): nat
    requires x > 0
  {
    Pow2(WORD_BIT + l) / x
  }

  /** floor((2^(32 + l) + 2^(l + 1)) / x), the upper bound at shift l. */
  function HighAt(x: nat, l: nat): nat
    requires x > 0
  {
    (Pow2(WORD_BIT + l) + Pow2(l + 1)) / x
  }

  /** The shift the search stops at when it has come down to l. */
  function ShiftFrom(x: nat, l: nat): (r: nat)
    requires x > 0
    ensures r <= l
    ensures r == 0 || LowAt(x, r) / 2 >= HighAt(x, r) / 2
    ensures forall k :: r < k <= l ==> LowAt(x, k) / 2 < HighAt(x, k) / 2
  {
    if l > 0 && LowAt(x, l) / 2 < HighAt(x, l) / 2 then ShiftFrom(x, l - 1) else l
  }

  function MagicShift(x: nat): nat
    requires x > 0
  {
    ShiftFrom(x, CeilLog2(x))
  }

  lemma Halve(x: nat, l: nat)
    requires x > 0 && l > 0
    ensures LowAt(x, l) / 2 == LowAt(x, l - 1)
    ensures HighAt(x, l) / 2 == HighAt(x, l - 1)
  {
    HalveQuotient(Pow2(WORD_BIT + l - 1), x);
    HalveQuotient(Pow2(WORD_BIT + l - 1) + Pow2(l), x);
  }

  lemma HalveQuotient(a: nat, x: nat)
    requires x > 0
    ensures (2 * a / x) / 2 == a / x
  {
    DivBounds(a, x);
    DivBounds(2 * a, x);
    HalveBounds(a, x, 2 * a / x, a / x);
  }

  lemma HalveBounds(a: int, x: int, p: int, q: int)
    requires x > 0 && q * x <= a < q * x + x && p * x <= 2 * a < p * x + x
    ensures p / 2 == q
  {
    assert (2 * q) * x == 2 * (q * x);
    if p < 2 * q {
      MulMono(p + 1, 2 * q, x);
    } else if p > 2 * q + 1 {
      MulMono(2 * q + 2, p, x);
    }
  }

  lemma DivBounds(a: int, d: int)
    requires d > 0
    ensures (a / d) * d <= a < (a / d) * d + d
  {
  }

  /** Neither 64-bit intermediate overflows for a divisor up to 2^31. */
  lemma IntermediatesFit(x: nat)
    requires 3 <= x <= TWO31
    ensures 2 <= CeilLog2(x) <= 31
    ensures Pow2(WORD_BIT + CeilLog2(x)) + Pow2(CeilLog2(x) + 1) < TWO32 * TWO32
  {
    LogBetween(x);
    hide *;
    SumFits(CeilLog2(x));
  }

  lemma LogBetween(x: nat)
    requires 3 <= x <= TWO31
    ensures 2 <= CeilLog2(x) <= 31
  {
    hide CeilLog2;
    var l := CeilLog2(x);
    Pow2Values();
    assert Pow2(0) == 1 && Pow2(1) == 2;
    if l > 0 { Pow2Smaller(l - 1, 31); }
  }

  lemma Pow2Smaller(a: nat, b: nat)
    requires Pow2(a) < Pow2(b)
    ensures a < b
  {
    if b < a { Pow2Strict(b, a); }
  }

  lemma SumFits(l: nat)
    requires l <= 31
    ensures Pow2(WORD_BIT + l) + Pow2(l + 1) < TWO32 * TWO32
  {
    Pow2Values();
    if l < 31 { Pow2Strict(l, 31); }
    Pow2Add(32, l);
  }

  /** The two functions share this loop; only what they return differs. */
  method CalDivMagicNumber(x: nat) returns (m: nat)
    requires 3 <= x <= TWO31
    ensures m == MagicOf(x)
    ensures NeedsMagic(x) ==> IsMagic(x, m, MagicShift(x))
  {
    IntermediatesFit(x);
    var l: nat := CeilLog2(x);
    var low, high := LowAt(x, l), HighAt(x, l);
    hide LowAt, HighAt;
    while low / 2 < high / 2 && l > 0
      invariant l <= CeilLog2(x)
      invariant low == LowAt(x, l) && high == HighAt(x, l)
      invariant ShiftFrom(x, l) == MagicShift(x)
    {
      Halve(x, l);
      low, high, l := low / 2, high / 2, l - 1;
    }
    m := high % TWO32;
    if NeedsMagic(x) {
      TruncationIsExact(x);
    }
  }

  method CalDivShiftNumber(x: nat) returns (r: nat)
    requires 3 <= x <= TWO31
    ensures r == MagicShift(x)
  {
    IntermediatesFit(x);
    var l: nat := CeilLog2(x);
    var low, high := LowAt(x, l), HighAt(x, l);
    hide LowAt, HighAt;
    while low / 2 < high / 2 && l > 0
      invariant l <= CeilLog2(x)
      invariant low == LowAt(x, l) && high == HighAt(x, l)
      invariant ShiftFrom(x, l) == MagicShift(x)
    {
      Halve(x, l);
      low, high, l := low / 2, high / 2, l - 1;
    }
    r := l;
  }

  /** m is an exact reciprocal of d for signed 32-bit dividends, at shift l. */
  predicate IsMagic(d: nat, m: nat, l: nat) {
    && m < TWO32
    && Pow2(WORD_BIT + l) < m * d <= Pow2(WORD_BIT + l) + Pow2(l + 1)
  }

  ghost predicate IsPowerOfTwo(d: nat) {
    exists k: nat :: d == Pow2(k)
  }

  /** The magnitudes that take the general path: 2^31, whose only bit is masked, is one of them. */
  ghost predicate NeedsMagic(d: nat) {
    3 <= d <= TWO31 && (IsPowerOfTwo(d) ==> d == TWO31)
  }

  function MagicOf(x: nat): nat
    requires x > 0
  {
    HighAt(x, MagicShift(x)) % TWO32
  }

  lemma QuotientGap(a: nat, b: nat, d: nat)
    requires d > 0 && 2 * d <= b
    ensures a / d + 2 <= (a + b) / d
  {
    DivBounds(a, d);
    DivBounds(a + b, d);
    GapBounds(a, b, d, (a + b) / d, a / d);
  }

  lemma GapBounds(a: int, b: int, d: int, p: int, q: int)
    requires d > 0 && 2 * d <= b && q * d <= a && a + b < p * d + d
    ensures q + 2 <= p
  {
    if p < q + 2 {
      MulMono(p + 1, q + 2, d);
    }
  }

  lemma TopAbove(d: nat)
    requires 3 <= d < TWO31 && !IsPowerOfTwo(d)
    ensures CeilLog2(d) > 0 && d < Pow2(CeilLog2(d))
  {
    assert Pow2(0) == 1;
  }

  lemma GapAt(d: nat, l: nat)
    requires 0 < d < Pow2(l)
    ensures LowAt(d, l) + 2 <= HighAt(d, l)
  {
    var b := 2 * Pow2(l);
    assert Pow2(l + 1) == b;
    QuotientGap(Pow2(WORD_BIT + l), b, d);
  }

  lemma FirstStepTaken(d: nat)
    requires 3 <= d < TWO31 && !IsPowerOfTwo(d)
    ensures CeilLog2(d) > 0
    ensures LowAt(d, CeilLog2(d)) + 2 <= HighAt(d, CeilLog2(d))
  {
    TopAbove(d);
    hide *;
    GapAt(d, CeilLog2(d));
  }

  lemma {:induction false} LowBelowHigh(d: nat, l: nat)
    requires 3 <= d < TWO31 && !IsPowerOfTwo(d)
    requires ShiftFrom(d, CeilLog2(d)) <= l <= CeilLog2(d)
    ensures LowAt(d, l) < HighAt(d, l)
    decreases CeilLog2(d) - l
  {
    if l == CeilLog2(d) {
      FirstStepTaken(d);
    } else {
      LowBelowHigh(d, l + 1);
      Halve(d, l + 1);
      assert LowAt(d, l + 1) / 2 < HighAt(d, l + 1) / 2;
    }
  }

  lemma ReciprocalBounds(a: nat, b: nat, d: nat)
    requires d > 0 && a / d < (a + b) / d
    ensures a < ((a + b) / d) * d <= a + b
  {
    DivBounds(a, d);
    DivBounds(a + b, d);
    MulMono(a / d + 1, (a + b) / d, d);
  }

  lemma MultiplierFits(d: nat, m: nat, l: nat, top: nat)
    requires l < top <= 31 && Pow2(top - 1) < d
    requires m * d <= Pow2(WORD_BIT + l) + Pow2(l + 1)
    ensures m < TWO32
  {
    Pow2Values();
    if l < top - 1 { Pow2Strict(l, top - 1); }
    if l < 30 { Pow2Strict(l, 30); }
    Pow2Add(32, l);
    var p := Pow2(l);
    assert Pow2(l + 1) == 2 * p;
    MulMono(p + 1, d, TWO32);
    if m >= TWO32 {
      MulMono(TWO32, m, d);
    }
  }

  /** The search ends below its starting point with an exact, 32-bit multiplier. */
  lemma MagicIsExact(d: nat)
    requires NeedsMagic(d)
    ensures MagicShift(d) < CeilLog2(d)
    ensures IsMagic(d, HighAt(d, MagicShift(d)), MagicShift(d))
  {
    if d == TWO31 {
      TopDivisor();
    } else {
      InnerIsExact(d);
    }
  }

  /** For 2^31 the search takes one step. */
  lemma TopDivisor()
    ensures CeilLog2(TWO31) == 31 && MagicShift(TWO31) == 30 && HighAt(TWO31, 30) == TWO31 + 1
    ensures IsMagic(TWO31, TWO31 + 1, 30)
  {
    hide LowAt, HighAt, CeilLog2, Pow2, IsMagic;
    TopLog();
    TopValues();
    assert ShiftFrom(TWO31, 30) == 30;
    assert ShiftFrom(TWO31, 31) == 30;
  }

  lemma TopLog()
    ensures CeilLog2(TWO31) == 31
  {
    hide CeilLog2;
    Pow2Values();
    var l := CeilLog2(TWO31);
    if l < 31 { Pow2Strict(l, 31); }
    if l > 0 { Pow2Smaller(l - 1, 31); }
  }

  lemma TopValues()
    ensures LowAt(TWO31, 31) == TWO32 && HighAt(TWO31, 31) == TWO32 + 2
    ensures LowAt(TWO31, 30) == TWO31 && HighAt(TWO31, 30) == TWO31 + 1
    ensures IsMagic(TWO31, TWO31 + 1, 30)
  {
    Pow2Values();
    Pow2Add(32, 31);
    Pow2Add(32, 30);
    assert Pow2(32 + 31) == TWO32 * TWO31 && Pow2(32 + 30) == TWO31 * TWO31;
    DivUnique(Pow2(63), TWO32, TWO31);
    DivUnique(Pow2(63) + Pow2(32), TWO32 + 2, TWO31);
    DivUnique(Pow2(62), TWO31, TWO31);
    DivUnique(Pow2(62) + Pow2(31), TWO31 + 1, TWO31);
  }

  lemma InnerIsExact(d: nat)
    requires 3 <= d < TWO31 && !IsPowerOfTwo(d)
    ensures MagicShift(d) < CeilLog2(d)
    ensures IsMagic(d, HighAt(d, MagicShift(d)), MagicShift(d))
  {
    var top, l := CeilLog2(d), MagicShift(d);
    LowBelowHigh(d, l);
    assert l < top by {
      FirstStepTaken(d);
    }
    IntermediatesFit(d);
    hide *;
    MagicAt(d, l, top);
  }

  /** Returning the multiplier as a 32-bit value loses nothing. */
  lemma TruncationIsExact(d: nat)
    requires NeedsMagic(d)
    ensures IsMagic(d, MagicOf(d), MagicShift(d))
  {
    MagicIsExact(d);
    FitsUnchanged(d, HighAt(d, MagicShift(d)), MagicShift(d));
  }

  lemma FitsUnchanged(d: nat, m: nat, l: nat)
    requires IsMagic(d, m, l)
    ensures m % TWO32 == m
  {
  }

  lemma MagicAt(d: nat, l: nat, top: nat)
    requires d > 0 && LowAt(d, l) < HighAt(d, l)
    requires l < top <= 31 && Pow2(top - 1) < d
    ensures IsMagic(d, HighAt(d, l), l)
  {
    ReciprocalBounds(Pow2(WORD_BIT + l), Pow2(l + 1), d);
    MultiplierFits(d, HighAt(d, l), l, top);
  }

  // ----- factoring -----

  /** x == 2^table * (2^shift + sign) with sign +1 or -1. */
  datatype Factoring = Factoring(sign: int, shift: nat, table: nat)

  predicate Factors(x: nat, f: Factoring) {
    && (f.sign == 1 || f.sign == -1)
    && 1 <= f.table <= TABLE_LEN
    && f.shift < 31
    && x == Pow2(f.table) * (Pow2(f.shift) + f.sign)
  }

  lemma SmallPowerAt(y: nat, k: nat)
    requires y < TWO31
    ensures IsPowerAt(y, k) <==> k < 31 && y == Pow2(k)
  {
  }

  /** The table entry i is 2^(i + 1). */
  method CanConvertTwoPowMul(x: nat) returns (r: Option<Factoring>)
    requires 0 < x < TWO31
    ensures r.Some? ==> Factors(x, r.value)
    ensures r.None? ==> !exists f :: Factors(x, f)
  {
    for i := 0 to TABLE_LEN
      invariant forall f :: Factors(x, f) ==> f.table > i
    {
      var p := Pow2(i + 1);
      if x % p == 0 {
        var y := x / p;
        CofactorBounds(x, i + 1, y);
        var shift := CountPowerOfTwo(y + 1);
        if shift.Some? {
          SmallPowerAt(y + 1, shift.value);
          return Some(Factoring(-1, shift.value, i + 1));
        }
        var shift' := CountPowerOfTwo(y - 1);
        if shift'.Some? {
          SmallPowerAt(y - 1, shift'.value);
          return Some(Factoring(1, shift'.value, i + 1));
        }
        forall f | Factors(x, f) ensures f.table != i + 1 {
          if f.table == i + 1 {
            CancelLeft(p, y, Pow2(f.shift) + f.sign);
            SmallPowerAt(y - f.sign, f.shift);
          }
        }
      } else {
        forall f | Factors(x, f) ensures f.table != i + 1 {
          if f.table == i + 1 {
            FactorsDivide(x, f);
          }
        }
      }
    }
    r := None;
  }

  lemma FactorsDivide(x: nat, f: Factoring)
    requires Factors(x, f)
    ensures x % Pow2(f.table) == 0
  {
    var p, q := Pow2(f.table), Pow2(f.shift) + f.sign;
    assert p * q == q * p;
    ModUnique(x, 0, q, p);
  }

  lemma CofactorBounds(x: nat, table: nat, y: nat)
    requires 0 < x < TWO31 && table > 0 && x % Pow2(table) == 0 && y == x / Pow2(table)
    ensures x == Pow2(table) * y && 0 < y < 0x4000_0000
  {
    var p := Pow2(table);
    assert p == 2 * Pow2(table - 1);
    DivBounds(x, p);
    if y >= 0x4000_0000 {
      MulMono(2, p, y);
    }
  }

  lemma CancelLeft(p: nat, a: int, b: int)
    requires p > 0 && p * a == p * b
    ensures a == b
  {
    if a < b {
      MulMono(a + 1, b, p);
    } else if b < a {
      MulMono(b + 1, a, p);
    }
  }
}
