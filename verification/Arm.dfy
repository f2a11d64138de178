/**
  The fragment of ARMv7-A the strength-reduction passes emit, with its meaning
  over 32-bit registers.  A register holds a signed 32-bit integer; every
  operation wraps modulo 2^32.
 */
module Arm {

  const TWO31: int := 0x8000_0000
  const TWO32: int := 0x1_0000_0000

  function Pow2(k: nat): (p: nat)
    ensures p >= 1
  {
    if k == 0 then 1 else 2 * Pow2(k - 1)
  }

  lemma {:induction false} Pow2Add(a: nat, b: nat)
    ensures Pow2(a + b) == Pow2(a) * Pow2(b)
  {
    if a == 0 {
    } else {
      Pow2Add(a - 1, b);
      assert Pow2(a + b) == 2 * Pow2(a - 1 + b);
      assert 2 * (Pow2(a - 1) * Pow2(b)) == (2 * Pow2(a - 1)) * Pow2(b);
    }
  }

  lemma {:induction false} Pow2Strict(a: nat, b: nat)
    requires a < b
    ensures 2 * Pow2(a) <= Pow2(b)
  {
    if a + 1 == b {
    } else {
      Pow2Strict(a, b - 1);
    }
  }

  lemma Pow2Values()
    ensures Pow2(1) == 2 && Pow2(16) == 0x1_0000 && Pow2(30) == 0x4000_0000
    ensures Pow2(31) == TWO31 && Pow2(32) == TWO32
  {
    assert Pow2(8) == 256;
    Pow2Add(8, 8);
    Pow2Add(16, 8);
    assert Pow2(6) == 64;
    Pow2Add(24, 6);
    assert Pow2(31) == 2 * Pow2(30);
    assert Pow2(32) == 2 * Pow2(31);
  }

  // ----- words -----

  predicate IsWord(x: int) {
    -TWO31 <= x < TWO31
  }

  type Word = x: int | -0x8000_0000 <= x < 0x8000_0000

  /** The signed 32-bit representative of x. */
  function Wrap(x: int): (w: Word)
    ensures IsWord(x) ==> w == x
  {
    (x + TWO31) % TWO32 - TWO31
  }

  /** Wrap picks the only word congruent to x. */
  lemma WrapUnique(x: int, w: Word, q: int)
    requires x == w + q * TWO32
    ensures Wrap(x) == w
  {
    ModUnique(x + TWO31, w + TWO31, q, TWO32);
  }

  lemma ModUnique(x: int, r: int, q: int, d: int)
    requires 0 <= r < d && x == r + q * d
    ensures x % d == r && x / d == q
  {
    DivUnique(x, q, d);
  }

  lemma DivUnique(x: int, q: int, d: int)
    requires d > 0 && q * d <= x < q * d + d
    ensures x / d == q
  {
    var q' := x / d;
    assert q' * d <= x < q' * d + d;
    if q' < q {
      MulMono(q' + 1, q, d);
    } else if q' > q {
      MulMono(q + 1, q', d);
    }
  }

  lemma WrapQuotient(x: int) returns (q: int)
    ensures x == Wrap(x) + q * TWO32
  {
    q := (x + TWO31) / TWO32;
  }

  /** Wrapped operands may be replaced by exact ones under a linear operation. */
  lemma WrapLinear(x: int, k: int, y: int)
    ensures Wrap(Wrap(x) * k + y) == Wrap(x * k + y)
  {
    var q := WrapQuotient(x);
    var r := WrapQuotient(x * k + y);
    calc {
      x * k;
      (Wrap(x) + q * TWO32) * k;
      Wrap(x) * k + (q * TWO32) * k;
      Wrap(x) * k + (q * k) * TWO32;
    }
    assert r * TWO32 - (q * k) * TWO32 == (r - q * k) * TWO32;
    WrapUnique(Wrap(x) * k + y, Wrap(x * k + y), r - q * k);
  }

  function Unsigned(x: Word): (u: nat)
    ensures u < TWO32
  {
    if x < 0 then x + TWO32 else x
  }

  // ----- machine -----

  type Reg = r: nat | r < 16

  datatype ShiftKind = NONE | ASR | LSR | LSL

  /** Second operand of a data-processing instruction. */
  datatype Operand2 = Imm(value: Word) | Shifted(reg: Reg, kind: ShiftKind, amount: nat)

  datatype Op = ADD | SUB | RSB | MUL

  datatype Ins =
    | MovImm(rd: Reg, imm: Word)
    | MovW(rd: Reg, low16: nat)
    | MovT(rd: Reg, high16: nat)
    | ShiftBy(kind: ShiftKind, rd: Reg, rn: Reg, amount: nat)
    | Binary(op: Op, rd: Reg, rn: Reg, op2: Operand2)
    | SMull(rdLo: Reg, rdHi: Reg, rn: Reg, rm: Reg)
    | LdrSp(rd: Reg, offset: int)
    | StrSp(rd: Reg, offset: int)

  /** Registers and the words of the current stack frame. */
  datatype State = State(regs: seq<Word>, frame: map<int, Word>)

  predicate ValidState(st: State) {
    |st.regs| == 16
  }

  /** The barrel shifter; an amount of 0 leaves the operand as it is. */
  function ShiftWord(kind: ShiftKind, x: Word, amount: nat): Word {
    match kind
    case NONE => x
    case ASR =>
      AsrInRange(x, amount);
      x / Pow2(amount)
    case LSR => if amount >= 32 then 0 else Wrap(Unsigned(x) / Pow2(amount))
    case LSL => Wrap(x * Pow2(amount))
  }

  lemma AsrInRange(x: Word, amount: nat)
    ensures IsWord(x / Pow2(amount))
  {
    var p := Pow2(amount);
    var q := x / p;
    assert q * p <= x < q * p + p;
    if q < -TWO31 {
      MulMono(q + 1, -TWO31, p);
      MulMono(1, p, TWO31);
    } else if q >= TWO31 {
      MulMono(TWO31, q, p);
      MulMono(1, p, TWO31);
    }
  }

  lemma MulMono(a: int, b: int, c: int)
    requires a <= b && 0 <= c
    ensures a * c <= b * c
  {
  }

  function Operand2Value(regs: seq<Word>, op2: Operand2): Word
    requires |regs| == 16
  {
    match op2
    case Imm(v) => v
    case Shifted(r, kind, amount) => ShiftWord(kind, regs[r], amount)
  }

  function Execute(ins: Ins, st: State): (st': State)
    requires ValidState(st)
    ensures ValidState(st')
  {
    var regs := st.regs;
    match ins
    case MovImm(rd, imm) => st.(regs := regs[rd := imm])
    case MovW(rd, low16) => st.(regs := regs[rd := Wrap(low16)])
    case MovT(rd, high16) => st.(regs := regs[rd := Wrap(high16 * 0x1_0000 + Unsigned(regs[rd]) % 0x1_0000)])
    case ShiftBy(kind, rd, rn, amount) => st.(regs := regs[rd := ShiftWord(kind, regs[rn], amount)])
    case Binary(op, rd, rn, op2) =>
      var a, b := regs[rn], Operand2Value(regs, op2);
      var v := match op
        case ADD => Wrap(a + b)
        case SUB => Wrap(a - b)
        case RSB => Wrap(b - a)
        case MUL => Wrap(a * b);
      st.(regs := regs[rd := v])
    case SMull(rdLo, rdHi, rn, rm) =>
      var a: int := regs[rn];
      var b: int := regs[rm];
      HighWordInRange(a, b);
      var product: int := a * b;
      st.(regs := regs[rdLo := Wrap(product)][rdHi := product / TWO32])
    case LdrSp(rd, offset) =>
      st.(regs := regs[rd := if offset in st.frame then st.frame[offset] else 0])
    case StrSp(rd, offset) => st.(frame := st.frame[offset := regs[rd]])
  }

  lemma HighWordInRange(a: int, b: int)
    requires IsWord(a) && IsWord(b)
    ensures IsWord(a * b / TWO32)
  {
    if a >= 0 {
      MulMono(b, TWO31, a);
      MulMono(-TWO31, b, a);
      MulMono(a, TWO31, TWO31);
    } else {
      MulMono(b, TWO31, -a);
      MulMono(-TWO31, b, -a);
      MulMono(-a, TWO31, TWO31);
    }
    assert -TWO31 * TWO31 <= a * b <= TWO31 * TWO31;
  }

  function Run(code: seq<Ins>, st: State): (st': State)
    requires ValidState(st)
    ensures ValidState(st')
  {
    if code == [] then st else Run(code[1..], Execute(code[0], st))
  }

  lemma {:induction false} RunSnoc(code: seq<Ins>, last: Ins, st: State)
    requires ValidState(st)
    ensures Run(code + [last], st) == Execute(last, Run(code, st))
  {
    if code == [] {
      assert code + [last] == [last];
      assert Run([last], st) == Run([], Execute(last, st));
    } else {
      assert (code + [last])[1..] == code[1..] + [last];
      RunSnoc(code[1..], last, Execute(code[0], st));
    }
  }
}
