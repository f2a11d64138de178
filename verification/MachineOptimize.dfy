/**
  Strength reduction of `x / c` and `x * c` for a constant c: which instructions
  are emitted, which temporary registers they take, and what they compute.
 */
module MachineOptimize {
  import opened Wrappers
  import opened Arm
  import opened MachineOptUtil
  import opened MagicDivision

  // ----- temporary registers -----

  const TEMPS: set<Reg> := {0, 1, 2, 3, 14}

  /** Register names are compared as strings: "0" < "1" < "14" < "2" < "3". */
  function NameOrder(r: Reg): nat {
    if r <= 1 then r else if r == 14 then 2 else if r == 2 then 3 else if r == 3 then 4 else 5 + r
  }

  class TempPool {
    var free: set<Reg>

    ghost predicate Valid()
      reads this
    {
      free <= TEMPS
    }

    /** R3 is handed out only when it is the last one left. */
    method Alloc() returns (r: Reg)
      requires Valid() && free != {}
      modifies this
      ensures Valid() && r in old(free) && free == old(free) - {r}
      ensures forall s :: s in old(free) ==> NameOrder(r) <= NameOrder(s)
      ensures r == 3 ==> old(free) == {3}
    {
      r := if 0 in free then 0 else if 1 in free then 1 else if 14 in free then 14 else if 2 in free then 2 else 3;
      free := free - {r};
    }

    method Release(r: Reg)
      requires Valid() && r in TEMPS
      modifies this
      ensures Valid() && free == old(free) + {r}
    {
      free := free + {r};
    }
  }

  // ----- operands -----

  /** Where the dividend or multiplicand is: a global register, a pending temporary, or the frame. */
  datatype Source = InGlobal(reg: Reg) | InTemp(reg: Reg) | OnFrame(offset: int)

  /** Where the result goes: a global register, a fresh temporary, or the frame. */
  datatype Dest = ToGlobal(reg: Reg) | ToTemp | ToFrame(offset: int)

  function SourceValue(src: Source, st: State): Word
    requires ValidState(st)
  {
    match src
    case InGlobal(r) => st.regs[r]
    case InTemp(r) => st.regs[r]
    case OnFrame(off) => if off in st.frame then st.frame[off] else 0
  }

  predicate SourceOk(src: Source, free: set<Reg>) {
    && (src.InGlobal? ==> src.reg !in TEMPS)
    && (src.InTemp? ==> src.reg in TEMPS && src.reg !in free)
  }

  function Needed(src: Source, dst: Dest): nat {
    (if src.OnFrame? then 1 else 0) + (if dst.ToGlobal? then 0 else 1)
  }

  /** Instructions between the registers and the frame. */
  function Moves(src: Source, dst: Dest): nat {
    (if src.OnFrame? then 1 else 0) + (if dst.ToFrame? then 1 else 0)
  }

  /** Everything outside `touched` is as before. */
  ghost predicate Keeps(st: State, st': State, touched: set<Reg>)
    requires ValidState(st) && ValidState(st')
  {
    st'.frame == st.frame && forall r: Reg :: r !in touched ==> st'.regs[r] == st.regs[r]
  }

  method ReadRegister(src: Source, pool: TempPool, ghost st: State) returns (op: Reg, release: bool, res: seq<Ins>)
    requires ValidState(st) && pool.Valid() && SourceOk(src, pool.free)
    requires src.OnFrame? ==> pool.free != {}
    modifies pool
    ensures pool.Valid() && pool.free == old(pool.free) - {op}
    ensures release <==> op in TEMPS
    ensures !src.OnFrame? ==> op == src.reg
    ensures src.OnFrame? <==> op in old(pool.free)
    ensures op == 3 && op in old(pool.free) ==> old(pool.free) == {3}
    ensures Keeps(st, Run(res, st), if src.OnFrame? then {op} else {})
    ensures Run(res, st).regs[op] == SourceValue(src, st)
    ensures Costs([], res, 0, if src.OnFrame? then 1 else 0)
  {
    res := [];
    match src {
      case InGlobal(r) =>
        op, release := r, false;
      case InTemp(r) =>
        op, release := r, true;
      case OnFrame(offset) =>
        op := pool.Alloc();
        release := true;
        res := Emit(res, LdrSp(op, offset), st);
    }
  }

  method WriteRegister(dst: Dest, pool: TempPool) returns (rd: Reg, release: bool)
    requires pool.Valid() && (dst.ToGlobal? ==> dst.reg !in TEMPS)
    requires !dst.ToGlobal? ==> pool.free != {}
    modifies pool
    ensures pool.Valid() && pool.free == old(pool.free) - {rd}
    ensures release <==> dst.ToFrame?
    ensures dst.ToGlobal? ==> rd == dst.reg
    ensures !dst.ToGlobal? ==> rd in old(pool.free) && (rd == 3 ==> old(pool.free) == {3})
  {
    match dst {
      case ToGlobal(r) =>
        rd, release := r, false;
      case ToTemp =>
        rd := pool.Alloc();
        release := false;
      case ToFrame(_) =>
        rd := pool.Alloc();
        release := true;
    }
  }

  predicate Multiplies(i: Ins) {
    i.SMull? || (i.Binary? && i.op == MUL)
  }

  /** The instructions strength reduction is there to avoid. */
  function Multiplications(code: seq<Ins>): nat {
    if code == [] then 0
    else Multiplications(code[..|code| - 1]) + if Multiplies(code[|code| - 1]) then 1 else 0
  }

  /** From res0 to res: so many multiplications more, and at most so many instructions. */
  ghost predicate Costs(res0: seq<Ins>, res: seq<Ins>, multiplications: nat, instructions: nat) {
    && Multiplications(res) == Multiplications(res0) + multiplications
    && |res0| <= |res| <= |res0| + instructions
  }

  lemma CostsLess(a: seq<Ins>, b: seq<Ins>, m: nat, n: nat, n': nat)
    requires Costs(a, b, m, n) && n <= n'
    ensures Costs(a, b, m, n')
  {
  }

  /** Reading the operand, the operation itself, storing the result. */
  lemma CostsInAll(src: Source, dst: Dest, a: seq<Ins>, b: seq<Ins>, c: seq<Ins>, m: nat, n: nat)
    requires Costs([], a, 0, if src.OnFrame? then 1 else 0) && Costs(a, b, m, n) && Costs(b, c, 0, if dst.ToFrame? then 1 else 0)
    ensures Costs([], c, m, n + Moves(src, dst))
  {
  }

  method Emit(res0: seq<Ins>, i: Ins, ghost st: State) returns (res: seq<Ins>)
    requires ValidState(st)
    ensures Run(res, st) == Execute(i, Run(res0, st))
    ensures Costs(res0, res, if Multiplies(i) then 1 else 0, 1)
  {
    RunSnoc(res0, i, st);
    res := res0 + [i];
    assert res[..|res| - 1] == res0;
  }

  lemma SignBits(x: Word)
    ensures ShiftWord(LSR, x, 31) == if x < 0 then 1 else 0
    ensures ShiftWord(ASR, x, 31) == if x < 0 then -1 else 0
  {
    Pow2Values();
    if x < 0 {
      DivUnique(Unsigned(x), 1, TWO31);
      DivUnique(x, -1, TWO31);
    } else {
      DivUnique(x, 0, TWO31);
    }
  }

  /** The bias of the rounding step: 2^k - 1 for a negative dividend. */
  lemma Bias(k: nat)
    requires k <= 30
    ensures ShiftWord(LSR, -1, WORD_BIT - k) == Pow2(k) - 1 < 0x4000_0000
    ensures ShiftWord(LSR, 0, WORD_BIT - k) == 0
  {
    Pow2Values();
    if k < 30 { Pow2Strict(k, 30); }
    if k > 0 {
      Pow2Add(k, WORD_BIT - k);
      AllOnesQuotient(Pow2(k), Pow2(WORD_BIT - k));
    }
  }

  lemma AllOnesQuotient(a: nat, p: nat)
    requires p > 0 && a * p == TWO32
    ensures (TWO32 - 1) / p == a - 1 && 0 / p == 0
  {
    assert (a - 1) * p == a * p - p;
    DivUnique(TWO32 - 1, a - 1, p);
    DivUnique(0, 0, p);
  }

  lemma ShiftQuotient(n: Word, k: nat)
    requires k <= 30
    ensures var sign: Word := ShiftWord(ASR, n, 31);
            var biased := Wrap(n + ShiftWord(LSR, sign, WORD_BIT - k));
            ShiftWord(ASR, biased, k) == Trunc(n, Pow2(k))
  {
    SignBits(n);
    Bias(k);
    if n < 0 {
      CeilQuotient(n, Pow2(k));
    }
  }

  lemma CeilQuotient(n: int, p: nat)
    requires n < 0 && p > 0
    ensures (n + p - 1) / p == Trunc(n, p)
  {
    var q := (-n) / p;
    DivBounds(-n, p);
    assert (-q) * p == -(q * p);
    DivUnique(n + p - 1, -q, p);
  }

  function Signed(isMinus: bool, magnitude: int): int {
    if isMinus then -magnitude else magnitude
  }

  lemma TruncSign(n: Word, d: int)
    requires d > 0
    ensures Trunc(n, -d) == -Trunc(n, d) && Wrap(Trunc(n, d)) == Trunc(n, d)
  {
    SmallQuotient(n, d);
    if n == 0 {
      DivUnique(0, 0, d);
    }
  }

  /** Registers of the power-of-two path: t receives the sign of op1. */
  method EmitShiftDivision(res0: seq<Ins>, op1: Reg, t: Reg, rd: Reg, shift1: nat, isMinus: bool, ghost st: State)
      returns (res: seq<Ins>)
    requires ValidState(st) && shift1 <= 30 && t != op1 && t != rd
    ensures var before, after := Run(res0, st), Run(res, st);
            && Keeps(before, after, {t, rd})
            && after.regs[rd] == Wrap(Trunc(before.regs[op1], Signed(isMinus, Pow2(shift1))))
    ensures Costs(res0, res, 0, 4)
  {
    hide ShiftWord, Wrap, Trunc, Run, Pow2;
    ghost var n := Run(res0, st).regs[op1];
    var shift2: nat := WORD_BIT - shift1;
    res := Emit(res0, ShiftBy(ASR, t, op1, 31), st);
    res := Emit(res, Binary(ADD, rd, op1, Shifted(t, LSR, shift2)), st);
    ghost var biased := Run(res, st).regs[rd];
    assert biased == Wrap(n + ShiftWord(LSR, ShiftWord(ASR, n, 31), shift2));
    ShiftQuotient(n, shift1);
    TruncSign(n, Pow2(shift1));
    if isMinus {
      res := Emit(res, MovImm(t, 0), st);
      res := Emit(res, Binary(SUB, rd, t, Shifted(rd, ASR, shift1)), st);
    } else {
      res := Emit(res, ShiftBy(ASR, rd, rd, shift1), st);
    }
  }

  /** Loads a 32-bit constant into rd by halves. */
  method EmitConstant(res0: seq<Ins>, rd: Reg, m: nat, ghost st: State) returns (res: seq<Ins>)
    requires ValidState(st) && m < TWO32
    ensures Run(res, st) == Run(res0, st).(regs := Run(res0, st).regs[rd := Wrap(m)])
    ensures Costs(res0, res, 0, 2)
  {
    var low16, high16 := m % 0x1_0000, m / 0x1_0000;
    res := Emit(res0, MovW(rd, low16), st);
    res := Emit(res, MovT(rd, high16), st);
    assert Wrap(low16) == low16;
    assert high16 * 0x1_0000 + low16 == m;
    assert Run(res, st).regs == Run(res0, st).regs[rd := Wrap(m)];
  }

  /** Shape for a multiplier below 2^31; R3 holds it on entry, and the high word of the product afterwards. */
  method EmitSmallShape(res0: seq<Ins>, op1: Reg, rd: Reg, lo: Reg, d: nat, m: nat, l: nat, ghost st: State)
      returns (res: seq<Ins>)
    requires ValidState(st) && 3 <= d <= TWO31 && IsMagic(d, m, l) && m < TWO31
    requires lo != 3 && rd != 3 && Run(res0, st).regs[3] == Wrap(m)
    ensures Keeps(Run(res0, st), Run(res, st), {3, lo, rd})
    ensures Run(res, st).regs[rd] == Trunc(Run(res0, st).regs[op1], d)
    ensures Run(res, st).regs[3] == HighWord32(Run(res0, st).regs[op1], Wrap(m))
    ensures Costs(res0, res, 1, 3)
  {
    hide Wrap, ShiftWord, Run, IsMagic, Trunc, Multiplications;
    RoundedIsQuotient(Run(res0, st).regs[op1], d, m, l);
    res := Emit(res0, SMull(lo, 3, op1, 3), st);
    res := Emit(res, ShiftBy(ASR, rd, 3, l), st);
    res := Emit(res, Binary(ADD, rd, rd, Shifted(3, LSR, WORD_BIT - 1)), st);
  }

  lemma RoundedIsQuotient(n: Word, d: nat, m: nat, l: nat)
    requires 3 <= d <= TWO31 && IsMagic(d, m, l) && m < TWO31
    ensures var hi := HighWord32(n, Wrap(m)); Wrap(ShiftWord(ASR, hi, l) + ShiftWord(LSR, hi, WORD_BIT - 1)) == Trunc(n, d)
  {
    MagicShapes(n, d, m, l);
    assert Wrap(m) == m && n * m == m * n;
    SignBits(m * n / TWO32);
  }

  function HighWord32(a: Word, b: Word): Word {
    HighWordInRange(a, b);
    a * b / TWO32
  }

  /** The large shape from the high word of the product on: y is added back, then shifted and rounded. */
  function Repaired(hi: Word, y: Word, l: nat): Word {
    var sum := Wrap(hi + y);
    Wrap(ShiftWord(ASR, sum, l) + ShiftWord(LSR, sum, WORD_BIT - 1))
  }

  lemma RepairedIsQuotient(n: Word, d: nat, m: nat, l: nat)
    requires 3 <= d <= TWO31 && IsMagic(d, m, l) && m >= TWO31
    ensures Repaired(HighWord32(n, Wrap(m)), n, l) == Trunc(n, d)
  {
    MagicShapes(n, d, m, l);
    assert n * Wrap(m) == Wrap(m) * n;
    SignBits(m * n / TWO32);
  }

  /** Shape for a multiplier of 2^31 or more, which SMULL reads as m - 2^32. */
  method EmitLargeShape(res0: seq<Ins>, op1: Reg, rd: Reg, lo: Reg, m: nat, l: nat, pool: TempPool, ghost st: State)
      returns (res: seq<Ins>)
    requires ValidState(st) && lo != 3 && lo != op1 && rd != 3 && Run(res0, st).regs[3] == Wrap(m)
    requires pool.Valid() && pool.free != {} && rd !in pool.free
    modifies pool
    ensures pool.free == old(pool.free)
    ensures Keeps(Run(res0, st), Run(res, st), {3, lo, rd} + old(pool.free))
    ensures var n := Run(res0, st).regs[op1];
            var hi := HighWord32(n, Wrap(m));
            && Run(res, st).regs[rd] == Repaired(hi, if op1 == 3 then hi else n, l)
            && (3 !in pool.free ==> Run(res, st).regs[3] == hi)
    ensures Costs(res0, res, 1, 4)
  {
    hide Wrap, ShiftWord, Run;
    res := Emit(res0, SMull(lo, 3, op1, 3), st);
    res := Emit(res, Binary(ADD, rd, 3, Shifted(op1, NONE, 0)), st);
    NoShift(Run(res0, st).regs[op1]);
    NoShift(HighWord32(Run(res0, st).regs[op1], Wrap(m)));
    var t := pool.Alloc();
    pool.Release(t);
    res := Emit(res, ShiftBy(ASR, t, rd, l), st);
    res := Emit(res, Binary(ADD, rd, t, Shifted(rd, LSR, WORD_BIT - 1)), st);
  }

  lemma NoShift(x: Word)
    ensures ShiftWord(NONE, x, 0) == x
  {
  }

  /**
    The general path.  R3 is used without being taken from the pool: what it held is
    lost, and a dividend in R3 is overwritten before it is read.
   */
  method EmitMagicDivision(res0: seq<Ins>, op1: Reg, rd: Reg, d: nat, pool: TempPool, ghost st: State)
      returns (res: seq<Ins>)
    requires ValidState(st) && NeedsMagic(d)
    requires pool.Valid() && |pool.free| >= 2
    requires op1 !in pool.free && rd !in pool.free && rd != 3
    modifies pool
    ensures pool.free == old(pool.free)
    ensures Keeps(Run(res0, st), Run(res, st), old(pool.free) + {rd, 3})
    ensures Run(res, st).regs[rd] == if op1 == 3 then Overwritten(d) else Trunc(Run(res0, st).regs[op1], d)
    ensures 3 !in pool.free && op1 != 3 ==> Run(res, st).regs[3] == HighWord32(Run(res0, st).regs[op1], Wrap(MagicOf(d)))
    ensures Costs(res0, res, 1, 6)
  {
    var magicNumber := CalDivMagicNumber(d);
    var logNumber := CalDivShiftNumber(d);
    res := EmitConstant(res0, 3, magicNumber, st);
    TwoFree(pool.free);
    var lo := pool.Alloc();
    if magicNumber < TWO31 {
      res := EmitSmallShape(res, op1, rd, lo, d, magicNumber, logNumber, st);
    } else {
      RepairedIsQuotient(Run(res, st).regs[op1], d, magicNumber, logNumber);
      res := EmitLargeShape(res, op1, rd, lo, magicNumber, logNumber, pool, st);
    }
    pool.Release(lo);
  }

  lemma TwoFree(free: set<Reg>)
    requires |free| >= 2
    ensures free != {} && free != {3} && forall r :: free - {r} != {}
  {
    forall r ensures free - {r} != {} {
      assert |free - {r}| >= |free| - 1;
    }
  }

  /** What the general path leaves when the dividend is in R3: it depends on the divisor alone. */
  ghost function Overwritten(d: nat): Word
    requires NeedsMagic(d)
  {
    SmallQuotient(Wrap(MagicOf(d)), d);
    var m := Wrap(MagicOf(d));
    if MagicOf(d) < TWO31 then Trunc(m, d) else Repaired(HighWord32(m, m), HighWord32(m, m), MagicShift(d))
  }

  // ----- x / c -----

  /** The test for powers of two masks the sign bit, so -2^31 is none. */
  ghost predicate ByShift(c: int) {
    IsPowerOfTwo(Abs(c)) && c != -TWO31
  }

  /** What the emitted code computes for n / c. */
  ghost function Quotient(n: Word, c: int): Word
    requires c != 0
  {
    SmallQuotient(n, Abs(c));
    if ByShift(c) then Wrap(Trunc(n, c)) else Trunc(n, Abs(c))
  }

  /**
    The general path drops the sign of the divisor, so a negative divisor that is
    not a power of two, or is -2^31, gives the right answer only when the quotient is zero.
   */
  lemma DivisionExactIff(n: Word, c: int)
    requires IsWord(c) && c != 0
    ensures Quotient(n, c) == Wrap(Trunc(n, c)) <==> ByShift(c) || c > 0 || Abs(n) < Abs(c)
  {
    SmallQuotient(n, Abs(c));
    if c < 0 && !ByShift(c) {
      MagnitudeNeedsMagic(c);
      var k, d := Abs(n), Abs(c);
      DivBounds(k, d);
      SignedQuotient(n, d);
      if k < d {
        DivUnique(k, 0, d);
      } else if k / d <= 0 {
        MulMono(k / d, 0, d);
      }
    }
  }

  lemma SignedQuotient(n: Word, d: int)
    requires d >= 3
    ensures Trunc(n, -d) == -Trunc(n, d) && IsWord(Trunc(n, -d))
  {
    SmallerQuotient(Abs(n), d);
    TruncSign(n, d);
  }

  lemma SmallerQuotient(k: nat, d: nat)
    requires d >= 3 && k <= TWO31
    ensures 0 <= k / d < TWO31
  {
    DivBounds(k, d);
    MulMono(2, d, k / d);
  }

  /** A dividend in R3 does not enter the result of the general path, which is therefore wrong for 0 or for |c|. */
  lemma DividendInR3IsLost(c: int)
    requires IsWord(c) && NeedsMagic(Abs(c))
    ensures Overwritten(Abs(c)) != Trunc(0, c) || Overwritten(Abs(c)) != Trunc(Abs(c), c)
  {
    DivUnique(0, 0, Abs(c));
    DivUnique(Abs(c), 1, Abs(c));
  }

  /** 7 / -3 comes out as 2. */
  lemma NegativeDivisorFails()
    ensures Quotient(7, -3) == 2 && Trunc(7, -3) == -2
  {
    assert !IsPowerOfTwo(3) by {
      forall k: nat ensures Pow2(k) != 3 {
        if k >= 2 {
          Pow2Values();
          Pow2Strict(1, k);
        } else {
          assert Pow2(0) == 1;
        }
      }
    }
  }

  ghost predicate DestHolds(dst: Dest, rd: Reg, value: Word, st: State, st': State)
    requires ValidState(st) && ValidState(st')
  {
    && st'.regs[rd] == value
    && st'.frame == if dst.ToFrame? then st.frame[dst.offset := value] else st.frame
  }

  /** The pool after an operation: the operand's temporary is back, an R-value result keeps its own. */
  ghost predicate PoolAfter(src: Source, dst: Dest, rd: Reg, before: set<Reg>, after: set<Reg>) {
    after == before + (if src.InTemp? then {src.reg} else {}) - (if dst.ToTemp? then {rd} else {})
  }

  ghost function DivisionLength(c: int): nat {
    if ByShift(c) then 4 else 6
  }

  /** Chooses between the two paths once the operands have their registers. */
  method EmitDivision(res0: seq<Ins>, op1: Reg, rd: Reg, c: int, pool: TempPool, ghost st: State)
      returns (res: seq<Ins>)
    requires ValidState(st) && IsWord(c) && c != 0
    requires pool.Valid() && |pool.free| >= 2
    requires op1 !in pool.free && rd !in pool.free && rd != 3
    modifies pool
    ensures pool.free == old(pool.free)
    ensures Keeps(Run(res0, st), Run(res, st), old(pool.free) + {rd} + Ruined(c))
    ensures Run(res, st).regs[rd] == Divided(op1, Run(res0, st).regs[op1], c)
    ensures 3 !in pool.free && op1 != 3 && !ByShift(c) ==> Run(res, st).regs[3] == HighWord32(Run(res0, st).regs[op1], Wrap(MagicOf(Abs(c))))
    ensures Costs(res0, res, if ByShift(c) then 0 else 1, DivisionLength(c))
  {
    var isMinus := c < 0;
    var magnitude: nat := Abs(c);
    hide Run, Trunc, Overwritten, Wrap, HighWord32, MagicOf, Pow2, ByShift, Divided, IsPowerAt, NeedsMagic;
    var shift1 := CountPowerOfTwo(magnitude);
    TwoFree(pool.free);
    if shift1.Some? {
      ShiftDivides(op1, Run(res0, st).regs[op1], c, shift1.value);
      var t := pool.Alloc();
      res := EmitShiftDivision(res0, op1, t, rd, shift1.value, isMinus, st);
      pool.Release(t);
    } else {
      NotPower(magnitude, shift1);
      MagicDivides(op1, Run(res0, st).regs[op1], c);
      res := EmitMagicDivision(res0, op1, rd, magnitude, pool, st);
    }
  }

  lemma ShiftDivides(op1: Reg, n: Word, c: int, k: nat)
    requires IsWord(c) && c != 0 && IsPowerAt(Abs(c), k)
    ensures ByShift(c) && k <= 30
    ensures Divided(op1, n, c) == Wrap(Trunc(n, Signed(c < 0, Pow2(k))))
  {
    hide Wrap, Trunc, Overwritten;
    assert Abs(c) == Pow2(k);
  }

  lemma MagicDivides(op1: Reg, n: Word, c: int)
    requires IsWord(c) && NeedsMagic(Abs(c))
    ensures !ByShift(c) && Divided(op1, n, c) == if op1 == 3 then Overwritten(Abs(c)) else Trunc(n, Abs(c))
  {
  }

  /** What division leaves, given the register of the dividend. */
  ghost function Divided(op1: Reg, n: Word, c: int): Word
    requires IsWord(c) && c != 0
  {
    MagnitudeNeedsMagic(c);
    if op1 == 3 && !ByShift(c) then Overwritten(Abs(c)) else Quotient(n, c)
  }

  /** The register the general path uses without asking for it. */
  ghost function Ruined(c: int): set<Reg> {
    if ByShift(c) then {} else {3}
  }

  lemma MagnitudeNeedsMagic(c: int)
    requires IsWord(c) && c != 0
    ensures !ByShift(c) ==> NeedsMagic(Abs(c))
  {
    assert Pow2(0) == 1 && Pow2(1) == 2;
  }

  /** Stores a spilled result and gives the operand registers back. */
  method Finish(res0: seq<Ins>, src: Source, dst: Dest, op1: Reg, rd: Reg, pool: TempPool,
                ghost free0: set<Reg>, ghost ruined: set<Reg>, ghost st: State)
      returns (res: seq<Ins>)
    requires ValidState(st) && pool.Valid() && free0 <= TEMPS && SourceOk(src, free0)
    requires pool.free == free0 - {op1} - {rd}
    requires op1 in TEMPS <==> !src.InGlobal?
    requires src.InTemp? ==> op1 == src.reg
    requires src.OnFrame? ==> op1 in free0
    requires rd in free0 <==> !dst.ToGlobal?
    requires op1 in TEMPS ==> rd != op1
    requires Keeps(st, Run(res0, st), free0 + {rd} + ruined)
    modifies pool
    ensures pool.Valid() && PoolAfter(src, dst, rd, free0, pool.free)
    ensures DestHolds(dst, rd, Run(res0, st).regs[rd], st, Run(res, st))
    ensures Run(res, st).regs == Run(res0, st).regs
    ensures Costs(res0, res, 0, if dst.ToFrame? then 1 else 0)
  {
    res := res0;
    if !src.InGlobal? {
      pool.Release(op1);
    }
    if dst.ToFrame? {
      res := Emit(res, StrSp(rd, dst.offset), st);
      pool.Release(rd);
    }
  }

  /** Registers for the operand and the result, and the code that reads the operand. */
  method TakeRegisters(src: Source, dst: Dest, pool: TempPool, ghost more: nat, ghost st: State) returns (op1: Reg, rd: Reg, res: seq<Ins>)
    requires ValidState(st) && pool.Valid() && SourceOk(src, pool.free) && (dst.ToGlobal? ==> dst.reg !in TEMPS)
    requires |pool.free| >= Needed(src, dst) + more && more > 0
    modifies pool
    ensures pool.Valid() && |pool.free| >= more && pool.free == old(pool.free) - {op1} - {rd}
    ensures op1 !in pool.free && rd !in pool.free && rd != 3 && (op1 in TEMPS ==> rd != op1)
    ensures (op1 in TEMPS <==> !src.InGlobal?) && (src.InTemp? ==> op1 == src.reg) && (src.OnFrame? ==> op1 in old(pool.free))
    ensures op1 == 3 ==> src == InTemp(3)
    ensures rd in old(pool.free) <==> !dst.ToGlobal?
    ensures dst.ToGlobal? ==> rd == dst.reg
    ensures Keeps(st, Run(res, st), old(pool.free)) && Run(res, st).regs[op1] == SourceValue(src, st)
    ensures Costs([], res, 0, if src.OnFrame? then 1 else 0)
  {
    hide Run, SourceValue, Costs;
    var release1, releaseRd;
    OneLess(pool.free);
    op1, release1, res := ReadRegister(src, pool, st);
    OneLess(pool.free);
    rd, releaseRd := WriteRegister(dst, pool);
  }

  lemma KeepsBoth(st: State, st1: State, st2: State, a: set<Reg>, b: set<Reg>, all: set<Reg>)
    requires ValidState(st) && ValidState(st1) && ValidState(st2) && Keeps(st, st1, a) && Keeps(st1, st2, b) && a + b <= all
    ensures Keeps(st, st2, all)
  {
  }

  lemma KeptRegisters(st: State, st1: State, st2: State, all: set<Reg>)
    requires ValidState(st) && ValidState(st1) && ValidState(st2) && Keeps(st, st1, all) && st2.regs == st1.regs
    ensures forall r: Reg :: r !in all ==> st2.regs[r] == st.regs[r]
  {
  }

  lemma DividedIs(src: Source, op1: Reg, c: int, st: State)
    requires ValidState(st) && IsWord(c) && c != 0 && (src.InTemp? ==> op1 == src.reg) && (op1 == 3 ==> src == InTemp(3))
    ensures Divided(op1, SourceValue(src, st), c) == if src == InTemp(3) then Divided(3, st.regs[3], c) else Quotient(SourceValue(src, st), c)
  {
    hide Quotient, Overwritten;
  }

  method DivOptimization(src: Source, dst: Dest, c: int, pool: TempPool, ghost st: State)
      returns (res: seq<Ins>, rd: Reg)
    requires ValidState(st) && pool.Valid() && SourceOk(src, pool.free)
    requires IsWord(c) && c != 0
    requires dst.ToGlobal? ==> dst.reg !in TEMPS
    requires |pool.free| > Needed(src, dst) + 1
    modifies pool
    ensures pool.Valid() && PoolAfter(src, dst, rd, old(pool.free), pool.free)
    ensures if dst.ToGlobal? then rd == dst.reg else rd in old(pool.free)
    ensures DestHolds(dst, rd, if src == InTemp(3) then Divided(3, st.regs[3], c) else Quotient(SourceValue(src, st), c), st, Run(res, st))
    ensures forall r: Reg :: r !in old(pool.free) && r != rd && r !in Ruined(c) ==> Run(res, st).regs[r] == st.regs[r]
    ensures 3 !in old(pool.free) && src != InTemp(3) && !ByShift(c) ==> Run(res, st).regs[3] == HighWord32(SourceValue(src, st), Wrap(MagicOf(Abs(c))))
    ensures Costs([], res, if ByShift(c) then 0 else 1, DivisionLength(c) + Moves(src, dst))
  {
    hide Run, Quotient, SourceValue, HighWord32, ByShift, MagicOf, Costs, Multiplications, Moves, DivisionLength, Keeps, Divided, Ruined, DestHolds, PoolAfter, Needed;
    ghost var free0 := pool.free;
    var op1;
    op1, rd, res := TakeRegisters(src, dst, pool, 2, st);
    ghost var read := res;
    res := EmitDivision(res, op1, rd, c, pool, st);
    DividedIs(src, op1, c, st);
    KeepsBoth(st, Run(read, st), Run(res, st), free0, pool.free + {rd} + Ruined(c), free0 + {rd} + Ruined(c));
    ghost var computed := res;
    res := Finish(res, src, dst, op1, rd, pool, free0, Ruined(c), st);
    KeptRegisters(st, Run(computed, st), Run(res, st), free0 + {rd} + Ruined(c));
    CostsInAll(src, dst, read, computed, res, if ByShift(c) then 0 else 1, DivisionLength(c));
  }

  lemma NotPower(x: nat, r: Option<nat>)
    requires 0 < x <= TWO31 && r.None?
    requires forall k: nat :: r == Some(k) <==> IsPowerAt(x, k)
    ensures NeedsMagic(x)
  {
    forall k: nat | x < TWO31 ensures x != Pow2(k) {
      SmallPowerAt(x, k);
      Pow2Values();
      assert !IsPowerAt(x, k) by { assert r != Some(k); }
      if k > 31 { Pow2Strict(31, k); }
    }
    assert Pow2(0) == 1 && Pow2(1) == 2;
  }

  // ----- x * c -----

  /** (n << s) + y, (n << s) - y and y - (n << s) agree with exact arithmetic after wrapping. */
  lemma ShiftedSum(n: int, p: int, y: int)
    ensures Wrap(Wrap(n * p) + y) == Wrap(n * p + y)
    ensures Wrap(y - Wrap(n * p)) == Wrap(y - n * p)
  {
    WrapLinear(n * p, 1, y);
    WrapLinear(n * p, -1, y);
    var w: int := Wrap(n * p);
    assert w * 1 == w && w * -1 == -w;
  }

  lemma Distributes(n: int, p: int)
    ensures n * (p + 1) == n * p + n && n * (p - 1) == n * p - n
    ensures n * -(p + 1) == -(n * p + n) && n * -(p - 1) == n - n * p && n * -p == -(n * p)
  {
  }

  lemma Scaled(n: int, a: int, p: int)
    ensures Wrap(Wrap(n * a) * p) == Wrap(n * (p * a))
  {
    WrapLinear(n * a, p, 0);
    assert (n * a) * p == n * (p * a);
  }

  /** The first instruction of the positive sequences: n << s, plus or minus n. */
  method EmitShiftAdd(res0: seq<Ins>, op1: Reg, rd: Reg, s: nat, sign: int, ghost st: State) returns (res: seq<Ins>)
    requires ValidState(st) && (sign == 1 || sign == -1)
    ensures Keeps(Run(res0, st), Run(res, st), {rd})
    ensures Run(res, st).regs[rd] == Wrap(Run(res0, st).regs[op1] * (Pow2(s) + sign))
    ensures Costs(res0, res, 0, 1)
  {
    hide Pow2, Wrap, Run;
    ghost var n: int := Run(res0, st).regs[op1];
    ShiftedSum(n, Pow2(s), n);
    ShiftedSum(n, Pow2(s), -n);
    Distributes(n, Pow2(s));
    if sign == 1 {
      res := Emit(res0, Binary(ADD, rd, op1, Shifted(op1, LSL, s)), st);
    } else {
      res := Emit(res0, Binary(RSB, rd, op1, Shifted(op1, LSL, s)), st);
    }
  }

  /** The negated sequences: n - (n << s), or (n << s) + n and then a reverse subtract from 0. */
  method EmitShiftSub(res0: seq<Ins>, op1: Reg, rd: Reg, s: nat, sign: int, ghost st: State) returns (res: seq<Ins>)
    requires ValidState(st) && (sign == 1 || sign == -1)
    ensures Keeps(Run(res0, st), Run(res, st), {rd})
    ensures Run(res, st).regs[rd] == Wrap(Run(res0, st).regs[op1] * -(Pow2(s) + sign))
    ensures Costs(res0, res, 0, 2)
  {
    hide Pow2, Wrap, Run;
    ghost var n: int := Run(res0, st).regs[op1];
    ghost var p := Pow2(s);
    Distributes(n, p);
    if sign == 1 {
      ShiftedSum(n, p, n);
      ShiftedSum(n, p + 1, 0);
      res := Emit(res0, Binary(ADD, rd, op1, Shifted(op1, LSL, s)), st);
      assert Run(res, st).regs[rd] == Wrap(n * (p + 1));
      res := Emit(res, Binary(RSB, rd, rd, Imm(0)), st);
    } else {
      ShiftedSum(n, p, n);
      res := Emit(res0, Binary(SUB, rd, op1, Shifted(op1, LSL, s)), st);
    }
  }

  method EmitFactored(res0: seq<Ins>, op1: Reg, rd: Reg, f: Factoring, isMinus: bool, ghost st: State) returns (res: seq<Ins>)
    requires ValidState(st) && (f.sign == 1 || f.sign == -1)
    ensures Keeps(Run(res0, st), Run(res, st), {rd})
    ensures Run(res, st).regs[rd]
         == Wrap(Run(res0, st).regs[op1] * Signed(isMinus, Pow2(f.table) * (Pow2(f.shift) + f.sign)))
    ensures Costs(res0, res, 0, 3)
  {
    hide Pow2, Wrap, Run;
    ghost var n: int := Run(res0, st).regs[op1];
    ghost var a, p := Pow2(f.shift) + f.sign, Pow2(f.table);
    if isMinus {
      res := EmitShiftSub(res0, op1, rd, f.shift, f.sign, st);
      Scaled(n, -a, p);
      assert p * -a == -(p * a);
    } else {
      res := EmitShiftAdd(res0, op1, rd, f.shift, f.sign, st);
      Scaled(n, a, p);
    }
    res := Emit(res, ShiftBy(LSL, rd, rd, f.table), st);
  }

  method EmitPowerOfTwo(res0: seq<Ins>, op1: Reg, rd: Reg, s: nat, isMinus: bool, pool: TempPool, ghost st: State)
      returns (res: seq<Ins>)
    requires ValidState(st)
    requires pool.Valid() && pool.free != {} && op1 !in pool.free && rd !in pool.free
    modifies pool
    ensures pool.free == old(pool.free)
    ensures Keeps(Run(res0, st), Run(res, st), old(pool.free) + {rd})
    ensures Run(res, st).regs[rd] == Wrap(Run(res0, st).regs[op1] * Signed(isMinus, Pow2(s)))
    ensures Costs(res0, res, 0, 2)
  {
    hide Pow2, Wrap, Run;
    ghost var n: int := Run(res0, st).regs[op1];
    if isMinus {
      var t := pool.Alloc();
      res := Emit(res0, MovImm(t, 0), st);
      res := Emit(res, Binary(SUB, rd, t, Shifted(op1, LSL, s)), st);
      pool.Release(t);
      ShiftedSum(n, Pow2(s), 0);
      Distributes(n, Pow2(s));
    } else {
      res := Emit(res0, ShiftBy(LSL, rd, op1, s), st);
    }
  }

  method EmitMul(res0: seq<Ins>, op1: Reg, rd: Reg, c: int, pool: TempPool, ghost st: State) returns (res: seq<Ins>)
    requires ValidState(st) && IsWord(c)
    requires pool.Valid() && pool.free != {} && op1 !in pool.free && rd !in pool.free
    modifies pool
    ensures pool.free == old(pool.free)
    ensures Keeps(Run(res0, st), Run(res, st), old(pool.free) + {rd})
    ensures Run(res, st).regs[rd] == Wrap(Run(res0, st).regs[op1] * c)
    ensures Costs(res0, res, 1, 3)
  {
    hide Run;
    var op2 := pool.Alloc();
    WrapUnique(c % TWO32, c, -(c / TWO32));
    res := EmitConstant(res0, op2, c % TWO32, st);
    res := Emit(res, Binary(MUL, rd, op1, Shifted(op2, NONE, 0)), st);
    pool.Release(op2);
  }

  /** Masking the sign bit makes 2^31 + 1 look like a power of two. */
  lemma MaskedNeighbour(shift: Option<nat>)
    requires forall k: nat :: shift == Some(k) <==> IsPowerAt(TWO31 + 1, k)
    ensures shift == Some(0)
  {
    assert IsPowerAt(TWO31 + 1, 0);
  }

  /** What the emitted code computes for n * c. */
  function Product(n: Word, c: int): Word {
    if c == -TWO31 then 0 else Wrap(n * c)
  }

  /** The constant -2^31 is taken for -(2^0 - 1). */
  lemma MultiplicationExactIff(n: Word, c: int)
    requires IsWord(c)
    ensures Product(n, c) == Wrap(n * c) <==> c != -TWO31 || n % 2 == 0
  {
    if c == -TWO31 {
      var h := n / 2;
      if n % 2 == 0 {
        WrapUnique(n * c, 0, -h);
      } else {
        WrapUnique(n * c, -TWO31, -h);
      }
    }
  }

  lemma PowerProduct(n: Word, c: int, k: nat)
    requires IsWord(c) && c != 0 && IsPowerAt(Abs(c), k)
    ensures Product(n, c) == Wrap(n * Signed(c < 0, Pow2(k)))
  {
    assert Abs(c) == Pow2(k);
  }

  lemma NeighbourProduct(n: Word, c: int, sign: int, k: nat)
    requires IsWord(c) && c != 0 && (sign == -1 || (sign == 1 && c != -TWO31)) && IsPowerAt(Abs(c) - sign, k)
    ensures Product(n, c) == if c < 0 then Wrap(n * -(Pow2(k) + sign)) else Wrap(n * (Pow2(k) + sign))
  {
    if c == -TWO31 {
      assert Pow2(k) + sign == 0 && n * 0 == 0;
    } else {
      assert Abs(c) == Pow2(k) + sign;
    }
  }

  /** |c| is next to a power of two. */
  method EmitNeighbour(res0: seq<Ins>, op1: Reg, rd: Reg, c: int, sign: int, s: nat, ghost st: State) returns (res: seq<Ins>)
    requires ValidState(st) && IsWord(c) && c != 0 && (sign == -1 || (sign == 1 && c != -TWO31)) && IsPowerAt(Abs(c) - sign, s)
    ensures Keeps(Run(res0, st), Run(res, st), {rd})
    ensures Run(res, st).regs[rd] == Product(Run(res0, st).regs[op1], c)
    ensures Costs(res0, res, 0, 3)
  {
    hide Pow2, Wrap, Run, Product, IsPowerAt, Costs;
    NeighbourProduct(Run(res0, st).regs[op1], c, sign, s);
    if c < 0 {
      res := EmitShiftSub(res0, op1, rd, s, sign, st);
      CostsLess(res0, res, 0, 2, 3);
    } else {
      res := EmitShiftAdd(res0, op1, rd, s, sign, st);
      CostsLess(res0, res, 0, 1, 3);
    }
  }

  lemma FactoredProduct(n: Word, c: int, f: Factoring)
    requires IsWord(c) && c != -TWO31 && Factors(Abs(c), f)
    ensures f.sign == 1 || f.sign == -1
    ensures Product(n, c) == Wrap(n * Signed(c < 0, Pow2(f.table) * (Pow2(f.shift) + f.sign)))
  {
    assert Signed(c < 0, Abs(c)) == c;
  }

  /** x is a power of two below 2^31, or next to one. */
  ghost predicate NearPower(x: nat) {
    exists k: nat :: k < 31 && (x == Pow2(k) || x + 1 == Pow2(k) || x == Pow2(k) + 1)
  }

  /** No shift and addition, nor one followed by a shift, gives n * c; -2^31 is not told from -(2^0 - 1). */
  ghost predicate NeedsMul(c: int) {
    c != 0 && c != -TWO31 && !NearPower(Abs(c)) && forall f :: !Factors(Abs(c), f)
  }

  lemma IsNearPower(c: int, k: nat)
    requires IsWord(c) && c != 0
    requires IsPowerAt(Abs(c), k) || (IsPowerAt(Abs(c) + 1, k)) || IsPowerAt(Abs(c) - 1, k)
    ensures !NeedsMul(c)
  {
    var x := Abs(c);
    if c != -TWO31 {
      if IsPowerAt(x, k) {
        SmallPowerAt(x, k);
      } else if IsPowerAt(x - 1, k) {
        SmallPowerAt(x - 1, k);
      } else if x + 1 < TWO31 {
        SmallPowerAt(x + 1, k);
      }
      assert NearPower(x);
    }
  }

  lemma IsFactored(c: int, f: Factoring)
    requires Factors(Abs(c), f)
    ensures !NeedsMul(c)
  {
  }

  lemma NothingElse(c: int)
    requires IsWord(c) && c != 0 && c != -TWO31 && !exists f :: Factors(Abs(c), f)
    requires forall k: nat :: !IsPowerAt(Abs(c), k) && !IsPowerAt(Abs(c) + 1, k) && !IsPowerAt(Abs(c) - 1, k)
    ensures NeedsMul(c)
  {
    var x := Abs(c);
    forall k: nat | k < 31 ensures x != Pow2(k) && x + 1 != Pow2(k) && x != Pow2(k) + 1 {
      Pow2Values();
      Pow2Below(k);
      assert !IsPowerAt(x, k) && !IsPowerAt(x + 1, k) && !IsPowerAt(x - 1, k);
      SmallPowerAt(x, k);
      SmallPowerAt(x - 1, k);
      if x + 1 < TWO31 {
        SmallPowerAt(x + 1, k);
      }
    }
  }

  lemma Pow2Below(k: nat)
    requires k < 31
    ensures Pow2(k) < TWO31
  {
    Pow2Values();
    Pow2Strict(k, 31);
  }

  method EmitMultiplication(res0: seq<Ins>, op1: Reg, rd: Reg, c: int, pool: TempPool, ghost st: State)
      returns (res: seq<Ins>)
    requires ValidState(st) && IsWord(c)
    requires pool.Valid() && pool.free != {} && op1 !in pool.free && rd !in pool.free
    modifies pool
    ensures pool.free == old(pool.free)
    ensures Keeps(Run(res0, st), Run(res, st), old(pool.free) + {rd})
    ensures Run(res, st).regs[rd] == Product(Run(res0, st).regs[op1], c)
    ensures Costs(res0, res, if NeedsMul(c) then 1 else 0, 3)
  {
    var isMinus := c < 0;
    var magnitude: nat := Abs(c);
    ghost var n := Run(res0, st).regs[op1];
    hide Pow2, Wrap, Run, Product, IsPowerAt, Factors, Signed, NeedsMul, Multiplications, Costs;
    ZeroNeedsNone();
    if c == 0 {
      ZeroProduct(n);
      res := Emit(res0, MovImm(rd, 0), st);
      CostsLess(res0, res, 0, 1, 3);
      return;
    }
    var shift := CountPowerOfTwo(magnitude);
    if shift.Some? {
      PowerProduct(n, c, shift.value);
      IsNearPower(c, shift.value);
      res := EmitPowerOfTwo(res0, op1, rd, shift.value, isMinus, pool, st);
      CostsLess(res0, res, 0, 2, 3);
      return;
    }
    var sign := -1;
    shift := CountPowerOfTwo(magnitude + 1);
    if c == -TWO31 {
      MaskedNeighbour(shift);
    }
    if shift.None? {
      sign := 1;
      shift := CountPowerOfTwo(magnitude - 1);
    }
    if shift.Some? {
      IsNearPower(c, shift.value);
      res := EmitNeighbour(res0, op1, rd, c, sign, shift.value, st);
      return;
    }
    var ret := CanConvertTwoPowMul(magnitude);
    if ret.Some? {
      FactoredProduct(n, c, ret.value);
      IsFactored(c, ret.value);
      res := EmitFactored(res0, op1, rd, ret.value, isMinus, st);
    } else {
      PlainProduct(n, c);
      NothingElse(c);
      res := EmitMul(res0, op1, rd, c, pool, st);
    }
  }

  lemma ZeroNeedsNone()
    ensures !NeedsMul(0)
  {
  }

  lemma ZeroProduct(n: Word)
    ensures Product(n, 0) == 0
  {
    assert n * 0 == 0;
  }

  lemma PlainProduct(n: Word, c: int)
    requires c != -TWO31
    ensures Product(n, c) == Wrap(n * c)
  {
  }

  lemma OneLess(free: set<Reg>)
    ensures forall r: Reg {:trigger free - {r}} :: |free - {r}| >= |free| - if r in free then 1 else 0
    ensures |free| > 0 ==> free != {}
  {
  }

  method MulOptimization(src: Source, dst: Dest, c: int, pool: TempPool, ghost st: State)
      returns (res: seq<Ins>, rd: Reg)
    requires ValidState(st) && pool.Valid() && SourceOk(src, pool.free)
    requires IsWord(c)
    requires dst.ToGlobal? ==> dst.reg !in TEMPS
    requires |pool.free| > Needed(src, dst)
    modifies pool
    ensures pool.Valid() && PoolAfter(src, dst, rd, old(pool.free), pool.free)
    ensures DestHolds(dst, rd, Product(SourceValue(src, st), c), st, Run(res, st))
    ensures forall r: Reg :: r !in old(pool.free) && r != rd ==> Run(res, st).regs[r] == st.regs[r]
    ensures if dst.ToGlobal? then rd == dst.reg else rd in old(pool.free)
    ensures Costs([], res, if NeedsMul(c) then 1 else 0, 3 + Moves(src, dst))
  {
    hide Run, Product, SourceValue, Costs, Multiplications, NeedsMul, Moves, Keeps, DestHolds, PoolAfter, Needed;
    ghost var free0 := pool.free;
    var op1;
    op1, rd, res := TakeRegisters(src, dst, pool, 1, st);
    ghost var read := res;
    res := EmitMultiplication(res, op1, rd, c, pool, st);
    KeepsBoth(st, Run(read, st), Run(res, st), free0, pool.free + {rd}, free0 + {rd} + {});
    ghost var computed := res;
    res := Finish(res, src, dst, op1, rd, pool, free0, {}, st);
    KeptRegisters(st, Run(computed, st), Run(res, st), free0 + {rd} + {});
    CostsInAll(src, dst, read, computed, res, if NeedsMul(c) then 1 else 0, 3);
  }
}
