/**
  The ARM instructions a call is made of: moves, loads and stores relative to the
  stack pointer, PUSH and POP of ascending register lists. Addresses and words are
  integers: nothing here wraps around.
 */
module ArmStack {
  const SP := 13
  const LR := 14
  const PC := 15

  datatype Ins =
    | Move(rd: int, rn: int)
    | Constant(rd: int, n: int)
    | AddressOf(rd: int, name: string)
    | Add(rd: int, rn: int, n: int)
    | AddRegister(rd: int, rn: int, rm: int)
    | Subtract(rd: int, rn: int, n: int)
    | SubtractRegister(rd: int, rn: int, rm: int)
    | Load(rd: int, rn: int, off: int)
    | LoadIndexed(rd: int, rn: int, rm: int)
    | Store(rs: int, rn: int, off: int)
    | StoreIndexed(rs: int, rn: int, rm: int)
    | Push(regs: seq<int>)
    | Pop(regs: seq<int>)

  /** Registers, memory words by address, and the addresses the linker gives to names. */
  datatype State = State(reg: int -> int, mem: int -> int, symbol: string -> int)

  function SetReg(s: State, r: int, v: int): State {
    s.(reg := x => if x == r then v else s.reg(x))
  }

  function SetWord(s: State, a: int, v: int): State {
    s.(mem := x => if x == a then v else s.mem(x))
  }

  /** STMDB SP!: the highest register goes to the highest address. */
  function PushAll(regs: seq<int>, s: State): State {
    if regs == [] then s
    else
      var top := s.reg(SP) - 4;
      PushAll(regs[..|regs| - 1], SetWord(SetReg(s, SP, top), top, s.reg(regs[|regs| - 1])))
  }

  /** LDMIA SP!: the lowest register comes from the lowest address. */
  function PopAll(regs: seq<int>, s: State): State {
    if regs == [] then s
    else
      PopAll(regs[1..], SetReg(SetReg(s, regs[0], s.mem(s.reg(SP))), SP, s.reg(SP) + 4))
  }

  function Step(i: Ins, s: State): State {
    match i
    case Move(rd, rn) => SetReg(s, rd, s.reg(rn))
    case Constant(rd, n) => SetReg(s, rd, n)
    case AddressOf(rd, name) => SetReg(s, rd, s.symbol(name))
    case Add(rd, rn, n) => SetReg(s, rd, s.reg(rn) + n)
    case AddRegister(rd, rn, rm) => SetReg(s, rd, s.reg(rn) + s.reg(rm))
    case Subtract(rd, rn, n) => SetReg(s, rd, s.reg(rn) - n)
    case SubtractRegister(rd, rn, rm) => SetReg(s, rd, s.reg(rn) - s.reg(rm))
    case Load(rd, rn, off) => SetReg(s, rd, s.mem(s.reg(rn) + off))
    case LoadIndexed(rd, rn, rm) => SetReg(s, rd, s.mem(s.reg(rn) + s.reg(rm)))
    case Store(rs, rn, off) => SetWord(s, s.reg(rn) + off, s.reg(rs))
    case StoreIndexed(rs, rn, rm) => SetWord(s, s.reg(rn) + s.reg(rm), s.reg(rs))
    case Push(regs) => PushAll(regs, s)
    case Pop(regs) => PopAll(regs, s)
  }

  function Run(code: seq<Ins>, s: State): State {
    if code == [] then s else Step(code[|code| - 1], Run(code[..|code| - 1], s))
  }

  lemma {:induction false} RunJoin(a: seq<Ins>, b: seq<Ins>, s: State)
    ensures Run(a + b, s) == Run(b, Run(a, s))
    decreases |b|
  {
    if b == [] {
      assert a + b == a;
    } else {
      assert (a + b)[..|a + b| - 1] == a + b[..|b| - 1];
      RunJoin(a, b[..|b| - 1], s);
    }
  }

  lemma RunOne(i: Ins, s: State)
    ensures Run([i], s) == Step(i, s)
  {
    assert [i][..0] == [];
  }

  /** Pushing stores every register of the list below the old top and changes nothing from there up. */
  lemma {:induction false} PushStores(regs: seq<int>, s: State)
    requires SP !in regs
    ensures var t := PushAll(regs, s);
            && t.reg(SP) == s.reg(SP) - 4 * |regs| && t.symbol == s.symbol
            && (forall r :: r != SP ==> t.reg(r) == s.reg(r))
            && (forall a :: a >= s.reg(SP) ==> t.mem(a) == s.mem(a))
            && forall j :: 0 <= j < |regs| ==> t.mem(t.reg(SP) + 4 * j) == s.reg(regs[j])
    decreases |regs|
  {
    if regs != [] {
      var top := s.reg(SP) - 4;
      var rest := regs[..|regs| - 1];
      var u := SetWord(SetReg(s, SP, top), top, s.reg(regs[|regs| - 1]));
      PushStores(rest, u);
      var t := PushAll(rest, u);
      forall j | 0 <= j < |regs| ensures t.mem(t.reg(SP) + 4 * j) == s.reg(regs[j]) {
        if j < |rest| {
          assert rest[j] == regs[j];
        } else {
          assert t.reg(SP) + 4 * j == top;
        }
      }
    }
  }

  /** Popping loads every register of the list from its word and changes no other register. */
  lemma {:induction false} PopLoads(regs: seq<int>, s: State)
    requires SP !in regs && forall i, j :: 0 <= i < j < |regs| ==> regs[i] != regs[j]
    ensures var t := PopAll(regs, s);
            && t.reg(SP) == s.reg(SP) + 4 * |regs| && t.symbol == s.symbol && t.mem == s.mem
            && (forall r :: r != SP && r !in regs ==> t.reg(r) == s.reg(r))
            && forall j :: 0 <= j < |regs| ==> t.reg(regs[j]) == s.mem(s.reg(SP) + 4 * j)
    decreases |regs|
  {
    if regs != [] {
      var rest := regs[1..];
      var u := SetReg(SetReg(s, regs[0], s.mem(s.reg(SP))), SP, s.reg(SP) + 4);
      PopLoads(rest, u);
      var t := PopAll(rest, u);
      assert regs[0] !in rest;
      forall j | 0 <= j < |regs| ensures t.reg(regs[j]) == s.mem(s.reg(SP) + 4 * j) {
        if j > 0 {
          assert rest[j - 1] == regs[j];
          assert u.reg(SP) + 4 * (j - 1) == s.reg(SP) + 4 * j;
        }
      }
    }
  }
}
