/**
  Frames: the size computed on the IR bounds the bump allocation done while machine
  code is generated, and no two slots of a frame meet.

  A frame, from the stack pointer up: local slots, the saved link register at
  stackSize - 20, the first four parameters from stackSize - 16, and from stackSize the
  further parameters, which the caller pushed.
 */
module FrameLayout {
  import opened ArmStack

  datatype Kind = PhiMove | Alloc(bytes: nat) | Define | Compare | Effect

  /**
    An IR instruction after phi elimination. lvalue is its result type; a comparison
    that feeds a branch leaves its result in the flags, and an effect has no result.
   */
  datatype IrIns = IrIns(id: nat, kind: Kind, lvalue: bool)

  /** Does generating code for the instruction end in a store to a slot of its own? */
  predicate Spills(i: IrIns, regs: map<nat, int>) {
    (i.kind.PhiMove? || i.kind.Define?) && i.lvalue && i.id !in regs
  }

  // ----- the size computed on the IR -----

  function Flat(blocks: seq<seq<IrIns>>): seq<IrIns> {
    if blocks == [] then [] else Flat(blocks[..|blocks| - 1]) + blocks[|blocks| - 1]
  }

  /** Phi moves already charged for. */
  function Seen(code: seq<IrIns>, regs: map<nat, int>): set<nat> {
    if code == [] then {}
    else
      var i := code[|code| - 1];
      Seen(code[..|code| - 1], regs) + if i.kind.PhiMove? && i.id !in regs then {i.id} else {}
  }

  function Charge(i: IrIns, seen: set<nat>, regs: map<nat, int>): nat {
    if i.kind.PhiMove? && i.id !in seen && i.id !in regs then 4
    else if i.lvalue && i.id !in regs then 4
    else if i.kind.Alloc? then i.kind.bytes
    else 0
  }

  function Required(code: seq<IrIns>, regs: map<nat, int>): nat {
    if code == [] then 0
    else Required(code[..|code| - 1], regs) + Charge(code[|code| - 1], Seen(code[..|code| - 1], regs), regs)
  }

  lemma {:induction false} RequiredGrows(code: seq<IrIns>, more: seq<IrIns>, regs: map<nat, int>)
    ensures Required(code, regs) <= Required(code + more, regs)
    decreases |more|
  {
    if more == [] {
      assert code + more == code;
    } else {
      assert (code + more)[..|code + more| - 1] == code + more[..|more| - 1];
      RequiredGrows(code, more[..|more| - 1], regs);
    }
  }

  lemma RequiredNext(code: seq<IrIns>, i: IrIns, regs: map<nat, int>)
    ensures Required(code + [i], regs) == Required(code, regs) + Charge(i, Seen(code, regs), regs)
    ensures Seen(code + [i], regs) == Seen(code, regs) + if i.kind.PhiMove? && i.id !in regs then {i.id} else {}
  {
    assert (code + [i])[..|code + [i]| - 1] == code;
  }

  /**
    Positions that ask for a word: a variable without a register wherever it is an L-value,
    and the first move to each phi without a register.
   */
  function WordPositions(code: seq<IrIns>, regs: map<nat, int>): set<nat> {
    set k: nat | k < |code| && code[k].id !in regs && (code[k].lvalue || FirstMove(code, k))
  }

  predicate FirstMove(code: seq<IrIns>, k: nat)
    requires k < |code|
  {
    code[k].kind.PhiMove? && forall j :: 0 <= j < k && code[j].kind.PhiMove? ==> code[j].id != code[k].id
  }

  /** The local arrays; one that is itself an L-value without a register asks for a word instead. */
  function ArrayBytes(code: seq<IrIns>, regs: map<nat, int>): nat {
    if code == [] then 0
    else
      var i := code[|code| - 1];
      ArrayBytes(code[..|code| - 1], regs) + if i.kind.Alloc? && (!i.lvalue || i.id in regs) then i.kind.bytes else 0
  }

  lemma {:induction false} SeenIff(code: seq<IrIns>, regs: map<nat, int>, id: nat)
    ensures id in Seen(code, regs) <==> id !in regs && exists j :: 0 <= j < |code| && code[j].kind.PhiMove? && code[j].id == id
  {
    if code != [] {
      SeenIff(code[..|code| - 1], regs, id);
      if exists j :: 0 <= j < |code| && code[j].kind.PhiMove? && code[j].id == id {
        var j :| 0 <= j < |code| && code[j].kind.PhiMove? && code[j].id == id;
        assert j < |code| - 1 ==> code[..|code| - 1][j] == code[j];
      }
    }
  }

  /** What the charges come to, counted over the whole code. */
  lemma {:induction false} RequiredIsSum(code: seq<IrIns>, regs: map<nat, int>)
    ensures Required(code, regs) == 4 * |WordPositions(code, regs)| + ArrayBytes(code, regs)
  {
    if code == [] {
      assert WordPositions(code, regs) == {};
    } else {
      var n := |code| - 1;
      RequiredIsSum(code[..n], regs);
      SeenIff(code[..n], regs, code[n].id);
      LastWord(code, regs);
    }
  }

  lemma LastWord(code: seq<IrIns>, regs: map<nat, int>)
    requires code != []
    ensures var n := |code| - 1;
            |WordPositions(code, regs)| == |WordPositions(code[..n], regs)| +
              if code[n].id !in regs && (code[n].lvalue || FirstMove(code, n)) then 1 else 0
  {
    hide FirstMove;
    var n := |code| - 1;
    var was, last := WordPositions(code[..n], regs), code[n].id !in regs && (code[n].lvalue || FirstMove(code, n));
    forall k: nat | k < n ensures k in was <==> k in WordPositions(code, regs) {
      FirstMovePrefix(code, k, n);
    }
    assert WordPositions(code, regs) == if last then was + {n} else was;
  }

  lemma FirstMovePrefix(code: seq<IrIns>, k: nat, n: nat)
    requires k < n <= |code|
    ensures FirstMove(code[..n], k) == FirstMove(code, k)
  {
    forall j | 0 <= j < k ensures code[..n][j] == code[j] {
    }
  }

  lemma FlatNext(blocks: seq<seq<IrIns>>, b: nat, k: nat)
    requires b < |blocks| && k < |blocks[b]|
    ensures Flat(blocks[..b]) + blocks[b][..k + 1] == Flat(blocks[..b]) + blocks[b][..k] + [blocks[b][k]]
  {
  }

  lemma FlatWhole(blocks: seq<seq<IrIns>>, b: nat)
    requires b < |blocks|
    ensures Flat(blocks[..b + 1]) == Flat(blocks[..b]) + blocks[b][..|blocks[b]|]
  {
    assert blocks[..b + 1][..b] == blocks[..b];
    assert blocks[b][..|blocks[b]|] == blocks[b];
  }

  lemma {:induction false} FlatPrefix(blocks: seq<seq<IrIns>>, b: nat) returns (rest: seq<IrIns>)
    requires b <= |blocks|
    ensures Flat(blocks) == Flat(blocks[..b]) + rest
    decreases |blocks| - b
  {
    if b == |blocks| {
      rest := [];
      assert blocks[..b] == blocks;
    } else {
      FlatWhole(blocks, b);
      var more := FlatPrefix(blocks, b + 1);
      rest := blocks[b] + more;
      assert blocks[b][..|blocks[b]|] == blocks[b];
    }
  }

  /** The bytes a function asks for: saved parameters, then one charge per instruction. */
  method GetFunctionRequiredStackSize(blocks: seq<seq<IrIns>>, regs: map<nat, int>) returns (size: nat)
    ensures size == 16 + Required(Flat(blocks), regs)
    ensures size == 16 + 4 * |WordPositions(Flat(blocks), regs)| + ArrayBytes(Flat(blocks), regs)
  {
    size := 16;
    var phiMovSet: set<nat> := {};
    for b := 0 to |blocks|
      invariant size == 16 + Required(Flat(blocks[..b]), regs)
      invariant phiMovSet == Seen(Flat(blocks[..b]), regs)
    {
      assert Flat(blocks[..b]) + blocks[b][..0] == Flat(blocks[..b]);
      for k := 0 to |blocks[b]|
        invariant size == 16 + Required(Flat(blocks[..b]) + blocks[b][..k], regs)
        invariant phiMovSet == Seen(Flat(blocks[..b]) + blocks[b][..k], regs)
      {
        var i := blocks[b][k];
        RequiredNext(Flat(blocks[..b]) + blocks[b][..k], i, regs);
        FlatNext(blocks, b, k);
        if i.kind.PhiMove? && i.id !in phiMovSet && i.id !in regs {
          phiMovSet := phiMovSet + {i.id};
          size := size + 4;
        } else if i.lvalue && i.id !in regs {
          size := size + 4;
        } else if i.kind.Alloc? {
          size := size + i.kind.bytes;
        }
      }
      FlatWhole(blocks, b);
    }
    assert blocks[..|blocks|] == blocks;
    RequiredIsSum(Flat(blocks), regs);
  }

  // ----- slots -----

  /** Slots are apart from one another. */
  ghost predicate Apart(offsets: map<nat, int>, extent: map<nat, nat>) {
    && offsets.Keys == extent.Keys
    && forall x, y :: x in offsets && y in offsets && x != y ==>
         offsets[x] + extent[x] <= offsets[y] || offsets[y] + extent[y] <= offsets[x]
  }

  /** Slots are below the allocation mark, or are parameter slots above the link register. */
  ghost predicate Within(offsets: map<nat, int>, extent: map<nat, nat>, mark: int, stackSize: int) {
    && 0 <= mark <= stackSize - 20
    && offsets.Keys == extent.Keys
    && forall x :: x in offsets ==>
         0 <= offsets[x] && (offsets[x] + extent[x] <= mark || stackSize - 16 <= offsets[x])
  }

  ghost predicate Framed(offsets: map<nat, int>, extent: map<nat, nat>, mark: int, stackSize: int) {
    Apart(offsets, extent) && Within(offsets, extent, mark, stackSize)
  }

  /** Every slot ends below the saved link register or starts above it. */
  ghost predicate ClearOfLink(offsets: map<nat, int>, extent: map<nat, nat>, stackSize: int) {
    && offsets.Keys == extent.Keys
    && forall x :: x in offsets ==> offsets[x] + extent[x] <= stackSize - 20 || stackSize - 16 <= offsets[x]
  }

  lemma LinkRegisterIsSafe(offsets: map<nat, int>, extent: map<nat, nat>, mark: int, stackSize: int)
    requires Framed(offsets, extent, mark, stackSize)
    ensures ClearOfLink(offsets, extent, stackSize)
  {
  }

  lemma FramedGrows(offsets: map<nat, int>, extent: map<nat, nat>, mark: int, stackSize: int, id: nat, bytes: nat)
    requires Framed(offsets, extent, mark, stackSize) && id !in offsets && mark + bytes <= stackSize - 20
    ensures Framed(offsets[id := mark], extent[id := bytes], mark + bytes, stackSize)
  {
    var o, e := offsets[id := mark], extent[id := bytes];
    assert Within(o, e, mark + bytes, stackSize);
    forall x, y | x in o && y in o && x != y ensures o[x] + e[x] <= o[y] || o[y] + e[y] <= o[x] {
      if x == id {
        assert y in offsets && e[y] == extent[y];
      } else if y == id {
        assert x in offsets && e[x] == extent[x];
      }
    }
  }

  /** Storing register des to the slot at off; only the scratch register may change. */
  ghost predicate SavesFrom(s: State, t: State, des: int, off: int, scratch: int) {
    && t.mem(s.reg(SP) + off) == s.reg(des)
    && t.symbol == s.symbol
    && (forall a :: a != s.reg(SP) + off ==> t.mem(a) == s.mem(a))
    && forall r :: r != scratch ==> t.reg(r) == s.reg(r)
  }

  ghost predicate Saves(code: seq<Ins>, des: int, off: int, scratch: int) {
    forall s: State :: SavesFrom(s, Run(code, s), des, off, scratch)
  }

  /** A word stored for one value is still there after any other value is stored. */
  lemma SlotsKeepTheirWords(offsets: map<nat, int>, extent: map<nat, nat>, mark: int, stackSize: int,
                            x: nat, y: nat, byte: int, code: seq<Ins>, des: int, scratch: int, s: State)
    requires Framed(offsets, extent, mark, stackSize) && x in offsets && y in offsets && x != y
    requires extent[y] >= 4 && Saves(code, des, offsets[y], scratch) && scratch != SP
    requires offsets[x] <= byte < offsets[x] + extent[x]
    ensures var t := Run(code, s); t.reg(SP) == s.reg(SP) && t.mem(t.reg(SP) + byte) == s.mem(s.reg(SP) + byte)
  {
    assert SavesFrom(s, Run(code, s), des, offsets[y], scratch);
  }

  /** The code that stores a register at an offset from the stack pointer. */
  method StoreAt(des: int, off: int, scratch: int) returns (code: seq<Ins>)
    requires des != scratch && scratch != SP
    ensures Saves(code, des, off, scratch)
  {
    if -4096 < off < 4096 {
      code := [Store(des, SP, off)];
      forall s: State ensures SavesFrom(s, Run(code, s), des, off, scratch) {
        RunOne(code[0], s);
      }
    } else {
      code := [Constant(scratch, off)] + [StoreIndexed(des, SP, scratch)];
      forall s: State ensures SavesFrom(s, Run(code, s), des, off, scratch) {
        RunOne(Constant(scratch, off), s);
        RunJoin([Constant(scratch, off)], [StoreIndexed(des, SP, scratch)], s);
        RunOne(StoreIndexed(des, SP, scratch), Run([Constant(scratch, off)], s));
      }
    }
  }

  // ----- entry to a function -----

  /** What the caller passed as parameter i: the first four in registers, the others at the stack pointer. */
  function Incoming(i: nat, s: State): int {
    if i < 4 then s.reg(i) else s.mem(s.reg(SP) + 4 * (i - 4))
  }

  /** Where the function finds parameter id afterwards. */
  function ParamValue(id: nat, regs: map<nat, int>, offsets: map<nat, int>, t: State): int {
    if id in regs then t.reg(regs[id]) else if id in offsets then t.mem(t.reg(SP) + offsets[id]) else 0
  }

  /** Parameters have ids of their own; their registers are among R4 to R12. */
  predicate ParamsOk(params: seq<nat>, regs: map<nat, int>) {
    && (forall i, j :: 0 <= i < j < |params| ==> params[i] != params[j])
    && forall i :: 0 <= i < |params| && params[i] in regs ==> 4 <= regs[params[i]] <= 12
  }

  /** Parameter k is dealt with after parameter i: the stacked ones come first. */
  predicate After(k: nat, i: nat) {
    if i >= 4 then k < 4 || i < k else i < k < 4
  }

  predicate Shares(params: seq<nat>, regs: map<nat, int>, i: nat, k: nat) {
    i < |params| && k < |params| && params[i] in regs && params[k] in regs && regs[params[k]] == regs[params[i]]
  }

  /** A parameter dealt with later has the same register. */
  predicate Lost(params: seq<nat>, regs: map<nat, int>, i: nat, done: set<nat>) {
    exists k :: k in done && After(k, i) && Shares(params, regs, i, k)
  }

  predicate LostParam(params: seq<nat>, regs: map<nat, int>, i: nat) {
    exists k :: 0 <= k < |params| && After(k, i) && Shares(params, regs, i, k)
  }

  /** Parameter i has been dealt with before the stack pointer moves. */
  ghost predicate Settled(params: seq<nat>, regs: map<nat, int>, i: nat, s: State, t: State)
    requires i < |params|
  {
    if params[i] in regs then t.reg(regs[params[i]]) == Incoming(i, s)
    else i < 4 ==> t.mem(s.reg(SP) - 16 + 4 * i) == Incoming(i, s)
  }

  ghost predicate EnteringFrom(s: State, t: State, params: seq<nat>, regs: map<nat, int>, done: set<nat>) {
    && (forall r :: r < 4 || 13 <= r ==> t.reg(r) == s.reg(r))
    && t.symbol == s.symbol
    && (forall a :: a >= s.reg(SP) ==> t.mem(a) == s.mem(a))
    && forall i :: i in done && i < |params| && !Lost(params, regs, i, done) ==> Settled(params, regs, i, s, t)
  }

  ghost predicate Entering(code: seq<Ins>, params: seq<nat>, regs: map<nat, int>, done: set<nat>) {
    forall s: State :: EnteringFrom(s, Run(code, s), params, regs, done)
  }

  /** After the entry code: the frame is open, the link register saved, each parameter not lost where it is looked for. */
  ghost predicate EntersFrom(s: State, t: State, params: seq<nat>, regs: map<nat, int>, offsets: map<nat, int>,
                             stackSize: int) {
    && t.reg(SP) == s.reg(SP) - stackSize
    && t.mem(s.reg(SP) - 20) == s.reg(LR)
    && (forall a :: a >= s.reg(SP) ==> t.mem(a) == s.mem(a))
    && forall i :: 0 <= i < |params| && !LostParam(params, regs, i) ==>
         ParamValue(params[i], regs, offsets, t) == Incoming(i, s)
  }

  ghost predicate Enters(code: seq<Ins>, params: seq<nat>, regs: map<nat, int>, offsets: map<nat, int>, stackSize: int) {
    forall s: State :: EntersFrom(s, Run(code, s), params, regs, offsets, stackSize)
  }

  /** The instruction that settles parameter i, if one is needed. */
  function Settling(params: seq<nat>, regs: map<nat, int>, i: nat): seq<Ins>
    requires i < |params|
  {
    if i >= 4 then if params[i] in regs then [Load(regs[params[i]], SP, (i - 4) * 4)] else []
    else if params[i] in regs then [Move(regs[params[i]], i)]
    else [Store(i, SP, -16 + i * 4)]
  }

  lemma SettlesFrom(s: State, t: State, params: seq<nat>, regs: map<nat, int>, done: set<nat>, i: nat)
    requires ParamsOk(params, regs) && i < |params| && i !in done && forall k :: k in done ==> k < |params| && After(i, k)
    requires EnteringFrom(s, t, params, regs, done)
    ensures EnteringFrom(s, Run(Settling(params, regs, i), t), params, regs, done + {i})
  {
    var code := Settling(params, regs, i);
    var u := Run(code, t);
    if code != [] {
      RunOne(code[0], t);
    }
    forall k | k in done + {i} && k < |params| && !Lost(params, regs, k, done + {i})
      ensures Settled(params, regs, k, s, u)
    {
      if k != i {
        assert !Lost(params, regs, k, done) && !Shares(params, regs, k, i);
        assert Settled(params, regs, k, s, t);
      }
    }
  }

  lemma Settles(code: seq<Ins>, params: seq<nat>, regs: map<nat, int>, done: set<nat>, i: nat)
    requires ParamsOk(params, regs) && i < |params| && i !in done && forall k :: k in done ==> k < |params| && After(i, k)
    requires Entering(code, params, regs, done)
    ensures Entering(code + Settling(params, regs, i), params, regs, done + {i})
  {
    forall s: State ensures EnteringFrom(s, Run(code + Settling(params, regs, i), s), params, regs, done + {i}) {
      RunJoin(code, Settling(params, regs, i), s);
      SettlesFrom(s, Run(code, s), params, regs, done, i);
    }
  }

  lemma EntersTogether(code: seq<Ins>, rest: seq<Ins>, params: seq<nat>, regs: map<nat, int>, offsets: map<nat, int>,
                       stackSize: int, done: set<nat>)
    requires ParamsOk(params, regs) && (forall i: nat :: i in done <==> i < |params|)
    requires Entering(code, params, regs, done) && ParamSlots(params, regs, offsets, stackSize, done)
    requires forall s: State :: OpensFrom(s, Run(rest, s), stackSize)
    ensures Enters(code + rest, params, regs, offsets, stackSize)
  {
    forall s: State ensures EntersFrom(s, Run(code + rest, s), params, regs, offsets, stackSize) {
      RunJoin(code, rest, s);
      assert EnteringFrom(s, Run(code, s), params, regs, done);
      EntersAtLast(s, Run(code, s), params, regs, offsets, stackSize, done, Run(code + rest, s));
    }
  }

  /** Where an unregistered parameter's slot is. */
  function ParamOffset(i: nat, stackSize: int): int {
    if i >= 4 then (i - 4) * 4 + stackSize else -16 + i * 4 + stackSize
  }

  ghost predicate ParamSlots(params: seq<nat>, regs: map<nat, int>, offsets: map<nat, int>, stackSize: int, done: set<nat>) {
    && (forall i :: 0 <= i < |params| && i in done && params[i] !in regs ==>
          params[i] in offsets && offsets[params[i]] == ParamOffset(i, stackSize))
    && forall x :: x in offsets ==>
         exists i :: 0 <= i < |params| && i in done && params[i] == x && offsets[x] == ParamOffset(i, stackSize)
  }

  /** A frame with room for its parameters only. */
  lemma FrameOfParams(params: seq<nat>, regs: map<nat, int>, offsets: map<nat, int>, extent: map<nat, nat>,
                      o: map<nat, int>, e: map<nat, nat>, stackSize: int, done: set<nat>)
    requires ParamSlots(params, regs, offsets, stackSize, done) && Framed(o, e, 0, stackSize)
    requires extent.Keys == offsets.Keys && forall x :: x in extent ==> extent[x] == 4
    requires (forall k: nat :: k in done <==> k < |params|) && forall x :: x in offsets ==> x !in regs
    ensures Framed(offsets, extent, 0, stackSize)
    ensures forall x :: x in offsets <==> x in params && x !in regs
  {
    forall x | x in params && x !in regs ensures x in offsets {
      var i :| 0 <= i < |params| && params[i] == x;
    }
  }

  lemma ParamFound(s: State, t: State, params: seq<nat>, regs: map<nat, int>, offsets: map<nat, int>, stackSize: int,
                   done: set<nat>, u: State, i: nat)
    requires ParamsOk(params, regs) && i < |params| && i in done && t.reg(SP) == s.reg(SP)
    requires forall a :: a >= s.reg(SP) ==> t.mem(a) == s.mem(a)
    requires Settled(params, regs, i, s, t) && ParamSlots(params, regs, offsets, stackSize, done)
    requires OpensFrom(t, u, stackSize)
    ensures ParamValue(params[i], regs, offsets, u) == Incoming(i, s)
  {
  }

  /** Opening the frame once every parameter is settled. */
  lemma EntersAtLast(s: State, t: State, params: seq<nat>, regs: map<nat, int>, offsets: map<nat, int>, stackSize: int,
                     done: set<nat>, u: State)
    requires ParamsOk(params, regs) && (forall i: nat :: i in done <==> i < |params|)
    requires EnteringFrom(s, t, params, regs, done) && ParamSlots(params, regs, offsets, stackSize, done)
    requires OpensFrom(t, u, stackSize)
    ensures EntersFrom(s, u, params, regs, offsets, stackSize)
  {
    hide ParamSlots, ParamValue, Incoming, Settled, After, Shares, ParamsOk;
    forall i | 0 <= i < |params| && !LostParam(params, regs, i)
      ensures ParamValue(params[i], regs, offsets, u) == Incoming(i, s)
    {
      assert !Lost(params, regs, i, done) && Settled(params, regs, i, s, t);
      ParamFound(s, t, params, regs, offsets, stackSize, done, u, i);
    }
  }

  ghost predicate OpensFrom(s: State, u: State, stackSize: int) {
    && u.reg(SP) == s.reg(SP) - stackSize && u.mem(s.reg(SP) - 20) == s.reg(LR)
    && (forall r :: 4 <= r <= 12 ==> u.reg(r) == s.reg(r))
    && forall a :: a != s.reg(SP) - 20 ==> u.mem(a) == s.mem(a)
  }

  /** Saving the link register and moving the stack pointer, by a constant or through R0. */
  lemma OpensByConstant(stackSize: int, s: State)
    ensures OpensFrom(s, Run([Store(LR, SP, -20)] + [Subtract(SP, SP, stackSize)], s), stackSize)
  {
    var saved := Run([Store(LR, SP, -20)], s);
    RunOne(Store(LR, SP, -20), s);
    RunJoin([Store(LR, SP, -20)], [Subtract(SP, SP, stackSize)], s);
    RunOne(Subtract(SP, SP, stackSize), saved);
  }

  lemma OpensByRegister(stackSize: int, s: State)
    ensures OpensFrom(s, Run([Store(LR, SP, -20)] + [Constant(0, stackSize)] + [SubtractRegister(SP, SP, 0)], s), stackSize)
  {
    var saved := Run([Store(LR, SP, -20)], s);
    RunOne(Store(LR, SP, -20), s);
    RunJoin([Store(LR, SP, -20)], [Constant(0, stackSize)], s);
    RunOne(Constant(0, stackSize), saved);
    var loaded := Run([Store(LR, SP, -20)] + [Constant(0, stackSize)], s);
    RunJoin([Store(LR, SP, -20)] + [Constant(0, stackSize)], [SubtractRegister(SP, SP, 0)], s);
    RunOne(SubtractRegister(SP, SP, 0), loaded);
  }

  method OpenFrame(stackSize: int, fits: int -> bool) returns (code: seq<Ins>)
    ensures forall s: State :: OpensFrom(s, Run(code, s), stackSize)
  {
    hide *;
    code := [Store(LR, SP, -20)];
    if fits(stackSize) {
      code := code + [Subtract(SP, SP, stackSize)];
      forall s: State ensures OpensFrom(s, Run(code, s), stackSize) {
        OpensByConstant(stackSize, s);
      }
    } else {
      code := code + [Constant(0, stackSize)];
      code := code + [SubtractRegister(SP, SP, 0)];
      forall s: State ensures OpensFrom(s, Run(code, s), stackSize) {
        OpensByRegister(stackSize, s);
      }
    }
  }

  lemma SlotsNext(params: seq<nat>, regs: map<nat, int>, offsets: map<nat, int>, stackSize: int, done: set<nat>, i: nat)
    requires ParamsOk(params, regs) && i < |params| && ParamSlots(params, regs, offsets, stackSize, done)
    ensures var o := if params[i] in regs then offsets else offsets[params[i] := ParamOffset(i, stackSize)];
            ParamSlots(params, regs, o, stackSize, done + {i})
  {
  }

  lemma NothingSettled(params: seq<nat>, regs: map<nat, int>, stackSize: int)
    ensures Entering([], params, regs, {}) && ParamSlots(params, regs, map[], stackSize, {})
  {
  }

  /** Registered parameters go to their registers; the others get the offsets of their slots. */
  method SettleParameters(params: seq<nat>, regs: map<nat, int>, stackSize: int)
    returns (code: seq<Ins>, offsets: map<nat, int>, ghost done: set<nat>)
    requires ParamsOk(params, regs)
    ensures forall k: nat :: k in done <==> k < |params|
    ensures Entering(code, params, regs, done) && ParamSlots(params, regs, offsets, stackSize, done)
    ensures forall x :: x in offsets ==> x !in regs
  {
    hide Entering, ParamSlots, ParamsOk, Run;
    code, offsets := [], map[];
    done := {};
    NothingSettled(params, regs, stackSize);
    var i := 4;
    while i < |params|
      invariant 4 <= i && forall k: nat :: k in done <==> 4 <= k < i
      invariant i <= |params| || i == 4
      invariant Entering(code, params, regs, done) && ParamSlots(params, regs, offsets, stackSize, done)
      invariant forall x :: x in offsets ==> x !in regs
    {
      Settles(code, params, regs, done, i);
      SlotsNext(params, regs, offsets, stackSize, done, i);
      if params[i] in regs {
        code := code + [Load(regs[params[i]], SP, (i - 4) * 4)];
      } else {
        assert code + [] == code;
        offsets := offsets[params[i] := (i - 4) * 4 + stackSize];
      }
      done := done + {i};
      i := i + 1;
    }
    i := 0;
    while i < |params| && i < 4
      invariant 0 <= i <= 4 && i <= |params|
      invariant forall k: nat :: k in done <==> 4 <= k < |params| || k < i
      invariant Entering(code, params, regs, done) && ParamSlots(params, regs, offsets, stackSize, done)
      invariant forall x :: x in offsets ==> x !in regs
    {
      Settles(code, params, regs, done, i);
      SlotsNext(params, regs, offsets, stackSize, done, i);
      if params[i] !in regs {
        code := code + [Store(i, SP, -16 + i * 4)];
        offsets := offsets[params[i] := -16 + i * 4 + stackSize];
      } else {
        code := code + [Move(regs[params[i]], i)];
      }
      done := done + {i};
      i := i + 1;
    }
  }

  /** Among the parameters that take a lost parameter's register, one is not lost itself. */
  lemma LastSharing(params: seq<nat>, regs: map<nat, int>, i: nat) returns (k: nat)
    requires LostParam(params, regs, i)
    ensures k < |params| && After(k, i) && Shares(params, regs, i, k) && !LostParam(params, regs, k)
    decreases if i >= 4 then 4 + |params| - i else 4 - i
  {
    k :| 0 <= k < |params| && After(k, i) && Shares(params, regs, i, k);
    if LostParam(params, regs, k) {
      k := LastSharing(params, regs, k);
    }
  }

  /** Every parameter arrives whatever the state, exactly when no later one takes its register. */
  lemma ParametersArriveIff(code: seq<Ins>, params: seq<nat>, regs: map<nat, int>, offsets: map<nat, int>, stackSize: int)
    requires Enters(code, params, regs, offsets, stackSize)
    ensures (forall s: State, i :: 0 <= i < |params| ==>
               ParamValue(params[i], regs, offsets, Run(code, s)) == Incoming(i, s))
            <==> (forall i :: 0 <= i < |params| ==> !LostParam(params, regs, i))
  {
    if forall i :: 0 <= i < |params| ==> !LostParam(params, regs, i) {
      forall s: State, i | 0 <= i < |params|
        ensures ParamValue(params[i], regs, offsets, Run(code, s)) == Incoming(i, s)
      {
        assert EntersFrom(s, Run(code, s), params, regs, offsets, stackSize);
      }
    } else {
      var i: nat :| i < |params| && LostParam(params, regs, i);
      var k := LastSharing(params, regs, i);
      var s := State((x: int) => if x == k then 1 else 0, (a: int) => if a + 16 == 4 * k then 1 else 0, x => 0);
      if k >= 4 {
        s := s.(reg := x => 0);
      }
      assert EntersFrom(s, Run(code, s), params, regs, offsets, stackSize);
      assert ParamValue(params[i], regs, offsets, Run(code, s)) == Incoming(k, s) == 1;
      assert Incoming(i, s) == 0;
    }
  }

  /** Two parameters in R4, as an unused second one may be: the first is gone after the entry code. */
  lemma FirstOfTwoIsLost(code: seq<Ins>, offsets: map<nat, int>, stackSize: int)
    requires Enters(code, [0, 1], map[0 := 4, 1 := 4], offsets, stackSize)
    ensures LostParam([0, 1], map[0 := 4, 1 := 4], 0) && !LostParam([0, 1], map[0 := 4, 1 := 4], 1)
    ensures forall s: State :: ParamValue(0, map[0 := 4, 1 := 4], offsets, Run(code, s)) == s.reg(1)
  {
    assert After(1, 0) && Shares([0, 1], map[0 := 4, 1 := 4], 0, 1);
    forall s: State ensures ParamValue(0, map[0 := 4, 1 := 4], offsets, Run(code, s)) == s.reg(1) {
      assert EntersFrom(s, Run(code, s), [0, 1], map[0 := 4, 1 := 4], offsets, stackSize);
      assert ParamValue([0, 1][1], map[0 := 4, 1 := 4], offsets, Run(code, s)) == Incoming(1, s);
    }
  }

  // ----- code generation for one function -----

  class MachineFunc {
    var stackSize: int
    var stackPointer: int
    var var2offset: map<nat, int>
    const lValRegs: map<nat, int>

    /** Bytes of each slot. */
    ghost var extent: map<nat, nat>

    ghost predicate Valid()
      reads this
    {
      Framed(var2offset, extent, stackPointer, stackSize)
    }

    constructor (requiredStackSize: nat, regs: map<nat, int>)
      requires requiredStackSize >= 16
      ensures Valid() && stackSize == requiredStackSize + 4 && stackPointer == 0 && var2offset == map[] && lValRegs == regs
    {
      stackSize := requiredStackSize + 4;
      stackPointer := 0;
      var2offset := map[];
      lValRegs := regs;
      extent := map[];
    }

    /** Entry code: parameters from the fifth on, then the first four, the link register and the frame. */
    method ManageParameters(params: seq<nat>, fits: int -> bool) returns (code: seq<Ins>)
      requires Valid() && var2offset == map[] && stackPointer == 0 && ParamsOk(params, lValRegs)
      modifies this`var2offset, this`extent
      ensures Valid()
      ensures Enters(code, params, lValRegs, var2offset, stackSize)
      ensures forall x :: x in var2offset <==> x in params && x !in lValRegs
      ensures forall x :: x in extent ==> extent[x] == 4
    {
      FramedIsValid();
      hide *;
      var offsets;
      ghost var done;
      code, offsets, done := SettleParameters(params, lValRegs, stackSize);
      var rest := OpenFrame(stackSize, fits);
      EntersTogether(code, rest, params, lValRegs, offsets, stackSize, done);
      code := code + rest;
      ghost var words: map<nat, nat> := map x | x in offsets :: 4;
      FrameOfParams(params, lValRegs, offsets, words, var2offset, extent, stackSize, done);
      var2offset := offsets;
      extent := words;
      FramedIsValid();
    }

    lemma FramedIsValid()
      ensures Framed(var2offset, extent, stackPointer, stackSize) <==> Valid()
    {
    }

    /** Local arrays take their bytes at the allocation mark. */
    method GenAlloc(id: nat, bytes: nat)
      requires Valid() && id !in var2offset && stackPointer + bytes <= stackSize - 20
      modifies this`stackPointer, this`var2offset, this`extent
      ensures Valid() && stackPointer == old(stackPointer) + bytes
      ensures var2offset == old(var2offset)[id := old(stackPointer)] && extent == old(extent)[id := bytes]
    {
      FramedGrows(var2offset, extent, stackPointer, stackSize, id, bytes);
      var2offset := var2offset[id := stackPointer];
      stackPointer := stackPointer + bytes;
      extent := extent[id := bytes];
    }

    /** A value without a register takes one word, once, and is stored there. */
    method Store2Memory(des: int, id: nat, scratch: int) returns (code: seq<Ins>)
      requires Valid() && des != scratch && scratch != SP
      requires id !in var2offset ==> stackPointer + 4 <= stackSize - 20
      modifies this`stackPointer, this`var2offset, this`extent
      ensures Valid() && id in var2offset && Saves(code, des, var2offset[id], scratch)
      ensures id in old(var2offset) ==>
                stackPointer == old(stackPointer) && var2offset == old(var2offset) && extent == old(extent)
      ensures id !in old(var2offset) ==>
                && stackPointer == old(stackPointer) + 4 && var2offset == old(var2offset)[id := old(stackPointer)]
                && extent == old(extent)[id := 4]
    {
      if id !in var2offset {
        code := StoreAt(des, stackPointer, scratch);
        FramedGrows(var2offset, extent, stackPointer, stackSize, id, 4);
        var2offset := var2offset[id := stackPointer];
        extent := extent[id := 4];
        stackPointer := stackPointer + 4;
      } else {
        code := StoreAt(des, var2offset[id], scratch);
      }
    }

    /** Slots given out for one instruction; the registers of the stores do not matter here. */
    method GenInstruction(i: IrIns, des: int, scratch: int) returns (code: seq<Ins>)
      requires Valid() && des != scratch && scratch != SP
      requires i.kind.Alloc? ==> i.id !in var2offset
      requires i.kind.Alloc? ==> stackPointer + i.kind.bytes <= stackSize - 20
      requires Spills(i, lValRegs) ==> stackPointer + 4 <= stackSize - 20
      requires Spills(i, lValRegs) && i.id in extent ==> extent[i.id] >= 4
      modifies this`stackPointer, this`var2offset, this`extent
      ensures Valid() && old(stackPointer) <= stackPointer
      ensures stackPointer == old(stackPointer) + if i.kind.Alloc? then i.kind.bytes
                                                  else if Spills(i, lValRegs) && i.id !in old(var2offset) then 4 else 0
      ensures var2offset == if i.kind.Alloc? || (Spills(i, lValRegs) && i.id !in old(var2offset))
                            then old(var2offset)[i.id := old(stackPointer)] else old(var2offset)
      ensures Keeps(old(var2offset), old(extent), var2offset, extent)
      ensures forall x :: x in var2offset ==> x in old(var2offset) || x == i.id
      ensures Housed(i, lValRegs, var2offset, extent)
      ensures i.kind.Alloc? || Spills(i, lValRegs) || i.id in old(extent) || i.id !in extent
      ensures Spills(i, lValRegs) ==> Saves(code, des, var2offset[i.id], scratch)
    {
      code := [];
      if i.kind.Alloc? {
        GenAlloc(i.id, i.kind.bytes);
      } else if Spills(i, lValRegs) {
        code := Store2Memory(des, i.id, scratch);
      }
    }

    /** All blocks in order: no slot passes the link register, whatever the function. */
    method GenBlocks(blocks: seq<seq<IrIns>>, params: seq<nat>, des: int, scratch: int)
      requires Valid() && stackPointer == 0 && des != scratch && scratch != SP
      requires stackSize == 20 + Required(Flat(blocks), lValRegs) && WellNumbered(Flat(blocks), params)
      requires forall x :: x in var2offset ==> x in params
      requires forall x :: x in extent ==> extent[x] == 4
      modifies this`stackPointer, this`var2offset, this`extent
      ensures Valid() && Keeps(old(var2offset), old(extent), var2offset, extent)
      ensures forall i :: i in Flat(blocks) ==> Housed(i, lValRegs, var2offset, extent)
    {
      ghost var done: seq<IrIns> := [];
      for b := 0 to |blocks|
        invariant done == Flat(blocks[..b])
        invariant Valid() && stackPointer <= Required(done, lValRegs)
        invariant Keeps(old(var2offset), old(extent), var2offset, extent)
        invariant Generated(done, params, lValRegs, var2offset, extent)
      {
        ghost var start := done;
        var block := blocks[b];
        for k := 0 to |block|
          invariant done == start + block[..k]
          invariant Valid() && stackPointer <= Required(done, lValRegs)
          invariant Keeps(old(var2offset), old(extent), var2offset, extent)
          invariant Generated(done, params, lValRegs, var2offset, extent)
        {
          Next(blocks, b, k, lValRegs, params, done, var2offset, extent);
          ghost var offsets, extents := var2offset, extent;
          var code := GenInstruction(block[k], des, scratch);
          GeneratedNext(done, block[k], params, lValRegs, offsets, extents, var2offset, extent);
          KeepsOn(old(var2offset), old(extent), offsets, extents, var2offset, extent);
          done := done + [block[k]];
        }
        FlatWhole(blocks, b);
      }
      assert blocks[..|blocks|] == blocks;
    }
  }

  /** Slots once given stay where they are. */
  ghost predicate Keeps(o: map<nat, int>, e: map<nat, nat>, offsets: map<nat, int>, extent: map<nat, nat>) {
    && (forall x :: x in o ==> x in offsets && offsets[x] == o[x])
    && forall x :: x in e ==> x in extent && extent[x] == e[x]
  }

  /** The instruction has the room it needs. */
  ghost predicate Housed(i: IrIns, regs: map<nat, int>, offsets: map<nat, int>, extent: map<nat, nat>) {
    && (i.kind.Alloc? ==> i.id in offsets && i.id in extent && extent[i.id] == i.kind.bytes)
    && (Spills(i, regs) ==> i.id in offsets && i.id in extent && extent[i.id] >= 4)
  }

  ghost predicate Numbered(offsets: map<nat, int>, code: seq<IrIns>, params: seq<nat>) {
    forall x :: x in offsets ==> x in params || exists i :: i in code && i.id == x
  }

  /** An allocation has an id of its own, and its result is neither kind of value. */
  ghost predicate WellNumbered(code: seq<IrIns>, params: seq<nat>) {
    && (forall k :: 0 <= k < |code| && code[k].kind.Alloc? ==> code[k].id !in params && !code[k].lvalue)
    && forall k, m :: 0 <= k < |code| && 0 <= m < |code| && code[k].kind.Alloc? && code[k].id == code[m].id ==> k == m
  }

  ghost predicate Generated(code: seq<IrIns>, params: seq<nat>, regs: map<nat, int>,
                            offsets: map<nat, int>, extent: map<nat, nat>) {
    && Numbered(offsets, code, params)
    && Roomy(code, extent)
    && forall i :: i in code ==> Housed(i, regs, offsets, extent)
  }

  /** Only an allocation can have less than a word. */
  ghost predicate Roomy(code: seq<IrIns>, extent: map<nat, nat>) {
    forall x :: x in extent && extent[x] < 4 ==> exists i :: i in code && i.id == x && i.kind.Alloc?
  }

  lemma KeepsOn(o: map<nat, int>, e: map<nat, nat>, o': map<nat, int>, e': map<nat, nat>,
                offsets: map<nat, int>, extent: map<nat, nat>)
    requires Keeps(o, e, o', e') && Keeps(o', e', offsets, extent)
    ensures Keeps(o, e, offsets, extent)
  {
  }

  lemma GeneratedNext(code: seq<IrIns>, i: IrIns, params: seq<nat>, regs: map<nat, int>,
                      o: map<nat, int>, e: map<nat, nat>, offsets: map<nat, int>, extent: map<nat, nat>)
    requires Keeps(o, e, offsets, extent) && Generated(code, params, regs, o, e)
    requires Housed(i, regs, offsets, extent) && forall x :: x in offsets ==> x in o || x == i.id
    requires offsets.Keys == extent.Keys && o.Keys == e.Keys
    requires i.kind.Alloc? || Spills(i, regs) || i.id in e || i.id !in extent
    ensures Generated(code + [i], params, regs, offsets, extent)
  {
    forall x | x in extent && extent[x] < 4 ensures exists j :: j in code + [i] && j.id == x && j.kind.Alloc? {
      if x in e {
        var j :| j in code && j.id == x && j.kind.Alloc?;
        assert j in code + [i];
      } else {
        assert x in offsets && x == i.id;
        assert i in code + [i];
      }
    }
    forall x | x in offsets ensures x in params || exists j :: j in code + [i] && j.id == x {
      if x in o && x !in params {
        var j :| j in code && j.id == x;
        assert j in code + [i];
      } else if x == i.id {
        assert i in code + [i];
      }
    }
  }

  /** The room charged for the next instruction is there, and an allocation's id is new. */
  lemma Next(blocks: seq<seq<IrIns>>, b: nat, k: nat, regs: map<nat, int>, params: seq<nat>, done: seq<IrIns>,
             offsets: map<nat, int>, extent: map<nat, nat>)
    requires b < |blocks| && k < |blocks[b]| && done == Flat(blocks[..b]) + blocks[b][..k]
    requires WellNumbered(Flat(blocks), params) && Generated(done, params, regs, offsets, extent)
    ensures var i := blocks[b][k];
            && (i.kind.Alloc? ==> i.id !in offsets)
            && Required(done + [i], regs) <= Required(Flat(blocks), regs)
            && (i.kind.Alloc? ==> Required(done + [i], regs) == Required(done, regs) + i.kind.bytes)
            && (Spills(i, regs) ==> Required(done + [i], regs) == Required(done, regs) + 4)
            && Required(done, regs) <= Required(done + [i], regs)
            && (Spills(i, regs) && i.id in extent ==> extent[i.id] >= 4)
            && done + [i] == Flat(blocks[..b]) + blocks[b][..k + 1]
  {
    var i := blocks[b][k];
    FlatNext(blocks, b, k);
    FlatWhole(blocks, b);
    var rest := FlatPrefix(blocks, b + 1);
    var more := blocks[b][k + 1..] + rest;
    assert blocks[b][..|blocks[b]|] == blocks[b][..k] + [i] + blocks[b][k + 1..];
    assert Flat(blocks) == done + [i] + more;
    RequiredGrows(done + [i], more, regs);
    RequiredNext(done, i, regs);
    assert Flat(blocks)[|done|] == i;
    if Spills(i, regs) {
      forall m | 0 <= m < |done| && done[m].kind.Alloc? ensures done[m].id != i.id {
        assert Flat(blocks)[m] == done[m];
      }
    }
    if i.kind.Alloc? {
      forall m | 0 <= m < |done| ensures done[m].id != i.id {
        assert Flat(blocks)[m] == done[m];
      }
    }
  }

  /**
    The whole of it: the size is computed on the IR, then code is generated against it.
    Every slot lies below the saved link register or is a parameter's, and no two meet.
   */
  method BuildFrame(blocks: seq<seq<IrIns>>, params: seq<nat>, regs: map<nat, int>, fits: int -> bool,
                    des: int, scratch: int) returns (func: MachineFunc, entry: seq<Ins>)
    requires ParamsOk(params, regs) && WellNumbered(Flat(blocks), params) && des != scratch && scratch != SP
    ensures func.lValRegs == regs && func.stackSize == 20 + 4 * |WordPositions(Flat(blocks), regs)| + ArrayBytes(Flat(blocks), regs)
    ensures Framed(func.var2offset, func.extent, func.stackPointer, func.stackSize)
    ensures ClearOfLink(func.var2offset, func.extent, func.stackSize)
    ensures forall i :: i in Flat(blocks) ==> Housed(i, regs, func.var2offset, func.extent)
    ensures Enters(entry, params, regs, func.var2offset, func.stackSize)
  {
    var size := GetFunctionRequiredStackSize(blocks, regs);
    func := new MachineFunc(size, regs);
    entry := func.ManageParameters(params, fits);
    ghost var slots := func.var2offset;
    func.GenBlocks(blocks, params, des, scratch);
    EntersStill(entry, params, regs, slots, func.var2offset, func.stackSize);
    LinkRegisterIsSafe(func.var2offset, func.extent, func.stackPointer, func.stackSize);
  }

  lemma EntersStill(entry: seq<Ins>, params: seq<nat>, regs: map<nat, int>, slots: map<nat, int>,
                    offsets: map<nat, int>, stackSize: int)
    requires Enters(entry, params, regs, slots, stackSize)
    requires forall x :: x in slots <==> x in params && x !in regs
    requires forall x :: x in slots ==> x in offsets && offsets[x] == slots[x]
    ensures Enters(entry, params, regs, offsets, stackSize)
  {
    forall s: State ensures EntersFrom(s, Run(entry, s), params, regs, offsets, stackSize) {
      assert EntersFrom(s, Run(entry, s), params, regs, slots, stackSize);
      forall i | 0 <= i < |params| && !LostParam(params, regs, i)
        ensures ParamValue(params[i], regs, offsets, Run(entry, s)) == Incoming(i, s)
      {
        assert ParamValue(params[i], regs, slots, Run(entry, s)) == Incoming(i, s);
        assert params[i] in params;
      }
    }
  }
}
