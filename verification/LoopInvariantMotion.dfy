/**
  Loop-invariant code motion for one natural loop: which instructions leave the
  loop, how the new block is wired in front of the header, and why every run
  keeps its blocks, values, effects and result.
 */
module LoopInvariantMotion {
  import opened Cfg
  import opened NaturalLoops
  import opened MotionGraph
  import opened Ssa

  // ----- choosing the instructions -----

  function Remaining(code: seq<Ins>, gone: set<Id>): (r: seq<Ins>)
    ensures |r| <= |code|
  {
    if code == [] then []
    else if code[0].id in gone then Remaining(code[1..], gone)
    else [code[0]] + Remaining(code[1..], gone)
  }

  lemma {:induction false} RemainingSnoc(code: seq<Ins>, last: Ins, gone: set<Id>)
    ensures Remaining(code + [last], gone) == Remaining(code, gone) + if last.id in gone then [] else [last]
  {
    if code == [] {
      assert code + [last] == [last];
    } else {
      assert (code + [last])[1..] == code[1..] + [last];
      RemainingSnoc(code[1..], last, gone);
    }
  }

  lemma {:induction false} RemainingIrrelevant(code: seq<Ins>, gone: set<Id>, gone': set<Id>)
    requires forall i :: 0 <= i < |code| ==> (code[i].id in gone <==> code[i].id in gone')
    ensures Remaining(code, gone) == Remaining(code, gone')
  {
    if code != [] {
      RemainingIrrelevant(code[1..], gone, gone');
    }
  }

  function Ids(code: seq<Ins>): (s: set<Id>)
    ensures forall i :: 0 <= i < |code| ==> code[i].id in s
  {
    set i | i in code :: i.id
  }

  ghost predicate InLoopDef(p: Program, loop: set<Block>, x: Id) {
    exists d :: DefinedAt(p, x, d) && d.block in loop
  }

  /** An operand may be read in front of the loop: it is defined outside, or by an earlier hoisted instruction. */
  ghost predicate OperandOk(p: Program, loop: set<Block>, moved: seq<Ins>, n: nat, v: Value)
    requires n <= |moved|
  {
    v.Result? ==> !InLoopDef(p, loop, v.id) || v.id in Ids(moved[..n])
  }

  ghost predicate Hoistable(p: Program, loop: set<Block>, moved: seq<Ins>) {
    && (forall i :: 0 <= i < |moved| ==> moved[i].kind.UNARY? || moved[i].kind.BINARY?)
    && (forall i :: 0 <= i < |moved| ==> exists b :: b in loop && moved[i] in CodeOf(p, b))
    && (forall i, j :: 0 <= i < j < |moved| ==> moved[i].id != moved[j].id)
    && (forall i, v :: 0 <= i < |moved| && v in moved[i].args ==> OperandOk(p, loop, moved, i, v))
  }

  ghost predicate Extracted(p: Program, loop: set<Block>, code: map<Block, seq<Ins>>, moved: seq<Ins>) {
    && Hoistable(p, loop, moved)
    && (forall b :: b in loop ==> b in code && code[b] == Remaining(CodeOf(p, b), Ids(moved)))
    && (forall b :: b !in loop ==> (b in code <==> b in p.code) && (b in code ==> code[b] == p.code[b]))
  }

  /** home[x] is the block instruction x currently stands in. */
  ghost predicate HomesOk(p: Program, loop: set<Block>, home: map<Id, Block>, moved: seq<Ins>) {
    forall x :: (x in home && home[x] in loop) <==> InLoopDef(p, loop, x) && x !in Ids(moved)
  }

  /** True when v is an instruction standing in the loop. */
  predicate JudgeInLoop(v: Value, loop: set<Block>, home: map<Id, Block>) {
    v.Result? && v.id in home && home[v.id] in loop
  }

  predicate Invariant(i: Ins, loop: set<Block>, home: map<Id, Block>) {
    (i.kind.UNARY? || i.kind.BINARY?) && forall v :: v in i.args ==> !JudgeInLoop(v, loop, home)
  }

  predicate Pure(i: Ins) {
    i.kind.UNARY? || i.kind.BINARY?
  }

  ghost predicate DefinedBefore(code: seq<Ins>, n: nat, x: Id) {
    exists i :: 0 <= i < n && i < |code| && code[i].id == x
  }

  /** An operand of instruction n of bb stood in the loop when the instruction was looked at. */
  ghost predicate HeldBack(p: Program, loop: set<Block>, bb: Block, n: nat, moved0: seq<Ins>, moved: seq<Ins>)
    requires n < |CodeOf(p, bb)|
  {
    exists v :: v in CodeOf(p, bb)[n].args && v.Result? && InLoopDef(p, loop, v.id) && v.id !in Ids(moved0)
                && !(v.id in Ids(moved) && DefinedBefore(CodeOf(p, bb), n, v.id))
  }

  /** Of the first k instructions of bb, a pure one stays only if it is held back. */
  ghost predicate StaysIfHeld(p: Program, loop: set<Block>, bb: Block, k: nat, moved0: seq<Ins>, moved: seq<Ins>) {
    forall i :: 0 <= i < k && i < |CodeOf(p, bb)| && Pure(CodeOf(p, bb)[i]) && CodeOf(p, bb)[i].id !in Ids(moved) ==>
      HeldBack(p, loop, bb, i, moved0, moved)
  }

  lemma HoistHolds(p: Program, loop: set<Block>, bb: Block, k: nat, moved0: seq<Ins>, moved: seq<Ins>)
    requires UniqueDefs(p) && bb in p.g.blocks && k < |CodeOf(p, bb)| && StaysIfHeld(p, loop, bb, k, moved0, moved)
    ensures StaysIfHeld(p, loop, bb, k + 1, moved0, moved + [CodeOf(p, bb)[k]])
  {
    hide InLoopDef, UniqueDefs;
    DistinctIds(p, bb);
    var code, moved' := CodeOf(p, bb), moved + [CodeOf(p, bb)[k]];
    assert Ids(moved') == Ids(moved) + {code[k].id};
    forall i | 0 <= i < k + 1 && Pure(code[i]) && code[i].id !in Ids(moved') ensures HeldBack(p, loop, bb, i, moved0, moved') {
      assert i < k && HeldBack(p, loop, bb, i, moved0, moved);
    }
  }

  lemma KeepHolds(p: Program, loop: set<Block>, bb: Block, k: nat, home: map<Id, Block>, moved0: seq<Ins>, moved: seq<Ins>)
    requires k < |CodeOf(p, bb)| && StaysIfHeld(p, loop, bb, k, moved0, moved)
    requires HomesOk(p, loop, home, moved) && moved0 <= moved && !Invariant(CodeOf(p, bb)[k], loop, home)
    ensures StaysIfHeld(p, loop, bb, k + 1, moved0, moved)
  {
    var ins := CodeOf(p, bb)[k];
    if Pure(ins) {
      var v :| v in ins.args && JudgeInLoop(v, loop, home);
      assert v.id !in Ids(moved);
      assert forall i :: i in moved0 ==> i in moved;
      assert HeldBack(p, loop, bb, k, moved0, moved);
    }
  }

  lemma NothingHeld(p: Program, loop: set<Block>, bb: Block, moved: seq<Ins>)
    ensures StaysIfHeld(p, loop, bb, 0, moved, moved)
  {
  }

  /** Scans one block of the loop in instruction order. */
  method ScanBlock(p: Program, loop: set<Block>, bb: Block, newBlock: Block, home0: map<Id, Block>, moved0: seq<Ins>)
      returns (home: map<Id, Block>, moved: seq<Ins>, kept: seq<Ins>)
    requires UniqueDefs(p) && bb in loop && loop <= BlockSet(p.g) && newBlock !in loop
    requires Hoistable(p, loop, moved0) && HomesOk(p, loop, home0, moved0)
    requires forall i :: 0 <= i < |CodeOf(p, bb)| ==> CodeOf(p, bb)[i].id !in Ids(moved0)
    ensures Hoistable(p, loop, moved) && HomesOk(p, loop, home, moved)
    ensures moved0 <= moved && forall i :: |moved0| <= i < |moved| ==> moved[i] in CodeOf(p, bb)
    ensures kept == Remaining(CodeOf(p, bb), Ids(moved))
    ensures StaysIfHeld(p, loop, bb, |CodeOf(p, bb)|, moved0, moved)
  {
    hide *;
    var code := CodeOf(p, bb);
    home, moved, kept := home0, moved0, [];
    StartOfBlock(p, loop, bb, home, moved);
    NothingHeld(p, loop, bb, moved);
    assert bb in p.g.blocks by { InBlockSet(p.g, loop, bb); }
    for k := 0 to |code|
      invariant PartScanned(p, loop, bb, k, home, moved0, moved, kept)
      invariant StaysIfHeld(p, loop, bb, k, moved0, moved)
    {
      var ins := code[k];
      if Invariant(ins, loop, home) {
        HoistOne(p, loop, bb, k, newBlock, home, moved0, moved, kept);
        HoistHolds(p, loop, bb, k, moved0, moved);
        moved := moved + [ins];
        home := home[ins.id := newBlock];
      } else {
        PartScannedHomes(p, loop, bb, k, home, moved0, moved, kept);
        KeepHolds(p, loop, bb, k, home, moved0, moved);
        KeepOne(p, loop, bb, k, home, moved0, moved, kept);
        kept := kept + [ins];
      }
    }
    EndOfBlock(p, loop, bb, home, moved0, moved, kept);
  }

  /** The first k instructions of bb have been looked at. */
  ghost predicate PartScanned(p: Program, loop: set<Block>, bb: Block, k: nat, home: map<Id, Block>,
                              moved0: seq<Ins>, moved: seq<Ins>, kept: seq<Ins>) {
    var code := CodeOf(p, bb);
    && k <= |code|
    && Hoistable(p, loop, moved) && HomesOk(p, loop, home, moved)
    && moved0 <= moved && (forall i :: |moved0| <= i < |moved| ==> moved[i] in code[..k])
    && (forall i :: k <= i < |code| ==> code[i].id !in Ids(moved))
    && kept == Remaining(code[..k], Ids(moved))
  }

  lemma PartScannedHomes(p: Program, loop: set<Block>, bb: Block, k: nat, home: map<Id, Block>,
                         moved0: seq<Ins>, moved: seq<Ins>, kept: seq<Ins>)
    requires PartScanned(p, loop, bb, k, home, moved0, moved, kept)
    ensures HomesOk(p, loop, home, moved) && moved0 <= moved
  {
  }

  lemma InBlockSet(g: Graph, loop: set<Block>, bb: Block)
    requires bb in loop && loop <= BlockSet(g)
    ensures bb in g.blocks
  {
    assert bb in BlockSet(g);
  }

  lemma StartOfBlock(p: Program, loop: set<Block>, bb: Block, home: map<Id, Block>, moved: seq<Ins>)
    requires Hoistable(p, loop, moved) && HomesOk(p, loop, home, moved)
    requires forall i :: 0 <= i < |CodeOf(p, bb)| ==> CodeOf(p, bb)[i].id !in Ids(moved)
    ensures PartScanned(p, loop, bb, 0, home, moved, moved, [])
  {
    hide Hoistable, HomesOk;
  }

  lemma HoistOne(p: Program, loop: set<Block>, bb: Block, k: nat, newBlock: Block, home: map<Id, Block>,
                 moved0: seq<Ins>, moved: seq<Ins>, kept: seq<Ins>)
    requires UniqueDefs(p) && bb in loop && loop <= BlockSet(p.g) && newBlock !in loop
    requires PartScanned(p, loop, bb, k, home, moved0, moved, kept)
    requires k < |CodeOf(p, bb)| && Invariant(CodeOf(p, bb)[k], loop, home)
    ensures var ins := CodeOf(p, bb)[k];
            PartScanned(p, loop, bb, k + 1, home[ins.id := newBlock], moved0, moved + [ins], kept)
  {
    hide Hoistable, HomesOk, Remaining, Invariant, UniqueDefs;
    var code, ins := CodeOf(p, bb), CodeOf(p, bb)[k];
    Hoist(p, loop, bb, k, newBlock, home, moved);
    assert bb in BlockSet(p.g);
    DistinctIds(p, bb);
    assert code[..k + 1] == code[..k] + [ins];
    assert Ids(moved + [ins]) == Ids(moved) + {ins.id};
    RemainingSnoc(code[..k], ins, Ids(moved + [ins]));
    RemainingIrrelevant(code[..k], Ids(moved), Ids(moved + [ins]));
    assert kept + [] == kept;
  }

  lemma KeepOne(p: Program, loop: set<Block>, bb: Block, k: nat, home: map<Id, Block>,
                moved0: seq<Ins>, moved: seq<Ins>, kept: seq<Ins>)
    requires PartScanned(p, loop, bb, k, home, moved0, moved, kept) && k < |CodeOf(p, bb)|
    ensures PartScanned(p, loop, bb, k + 1, home, moved0, moved, kept + [CodeOf(p, bb)[k]])
  {
    hide Hoistable, HomesOk, Remaining;
    var code := CodeOf(p, bb);
    assert code[..k + 1] == code[..k] + [code[k]];
    RemainingSnoc(code[..k], code[k], Ids(moved));
  }

  lemma EndOfBlock(p: Program, loop: set<Block>, bb: Block, home: map<Id, Block>,
                   moved0: seq<Ins>, moved: seq<Ins>, kept: seq<Ins>)
    requires PartScanned(p, loop, bb, |CodeOf(p, bb)|, home, moved0, moved, kept)
    ensures Hoistable(p, loop, moved) && HomesOk(p, loop, home, moved)
    ensures moved0 <= moved && forall i :: |moved0| <= i < |moved| ==> moved[i] in CodeOf(p, bb)
    ensures kept == Remaining(CodeOf(p, bb), Ids(moved))
  {
    hide Hoistable, HomesOk, Remaining;
    assert CodeOf(p, bb)[..|CodeOf(p, bb)|] == CodeOf(p, bb);
  }

  lemma DistinctIds(p: Program, bb: Block)
    requires UniqueDefs(p) && bb in p.g.blocks
    ensures forall i, j :: 0 <= i < j < |CodeOf(p, bb)| ==> CodeOf(p, bb)[i].id != CodeOf(p, bb)[j].id
  {
    forall i, j | 0 <= i < j < |CodeOf(p, bb)| ensures CodeOf(p, bb)[i].id != CodeOf(p, bb)[j].id {
      if CodeOf(p, bb)[i].id == CodeOf(p, bb)[j].id {
        assert DefinedAt(p, CodeOf(p, bb)[i].id, AsIns(bb, i)) && DefinedAt(p, CodeOf(p, bb)[j].id, AsIns(bb, j));
      }
    }
  }

  /** Moving an instruction none of whose operands stands in the loop keeps both invariants. */
  lemma Hoist(p: Program, loop: set<Block>, bb: Block, k: nat, newBlock: Block, home: map<Id, Block>, moved: seq<Ins>)
    requires UniqueDefs(p) && bb in loop && loop <= BlockSet(p.g) && newBlock !in loop
    requires k < |CodeOf(p, bb)| && CodeOf(p, bb)[k].id !in Ids(moved)
    requires Hoistable(p, loop, moved) && HomesOk(p, loop, home, moved)
    requires Invariant(CodeOf(p, bb)[k], loop, home)
    ensures var ins := CodeOf(p, bb)[k];
            Hoistable(p, loop, moved + [ins]) && HomesOk(p, loop, home[ins.id := newBlock], moved + [ins])
  {
    var ins := CodeOf(p, bb)[k];
    var moved' := moved + [ins];
    forall i | 0 <= i < |moved'| ensures moved'[..i] == moved[..if i < |moved| then i else |moved|] {
    }
    forall i, v | 0 <= i < |moved'| && v in moved'[i].args ensures OperandOk(p, loop, moved', i, v) {
      if i < |moved| {
        assert OperandOk(p, loop, moved, i, v);
      } else {
        assert moved'[..i] == moved && moved[..|moved|] == moved;
        assert !JudgeInLoop(v, loop, home);
      }
    }
    assert Ids(moved') == Ids(moved) + {ins.id};
    assert DefinedAt(p, ins.id, AsIns(bb, k));
  }

  /** Collects the hoisted instructions of the whole loop, block by block. */
  method FindInvariantCodes(p: Program, loop: set<Block>, newBlock: Block, home0: map<Id, Block>)
      returns (code: map<Block, seq<Ins>>, moved: seq<Ins>)
    requires UniqueDefs(p) && loop <= BlockSet(p.g) && newBlock !in loop && HomesOk(p, loop, home0, [])
    ensures Extracted(p, loop, code, moved)
    ensures exists order :: OrderOk(p, loop, order) && Thorough(p, loop, order, |order|, moved)
  {
    hide *;
    code, moved := p.code, [];
    var home := home0;
    var order := Enumerate(loop);
    StartScan(p, loop, order, home);
    ThoroughStart(p, loop, order);
    for k := 0 to |order|
      invariant Scanned(p, loop, order, k, code, home, moved) && Thorough(p, loop, order, k, moved)
    {
      FreshBlock(p, loop, order, k, code, home, moved);
      var home', moved', kept := ScanBlock(p, loop, order[k], newBlock, home, moved);
      NextThorough(p, loop, order, k, code, home, moved, moved');
      NextScanned(p, loop, order, k, code, home, moved, home', moved', kept);
      home, moved := home', moved';
      code := code[order[k] := kept];
    }
    AllScanned(p, loop, order, code, home, moved);
  }

  ghost predicate Holds(p: Program, b: Block, i: Ins) {
    i in CodeOf(p, b)
  }

  /** The instructions hoisted so far come from the first k blocks of the scan. */
  ghost predicate FromFirst(p: Program, order: seq<Block>, k: nat, moved: seq<Ins>)
    requires k <= |order|
  {
    forall i :: i in moved ==> exists j :: 0 <= j < k && Holds(p, order[j], i)
  }

  lemma FromNext(p: Program, order: seq<Block>, k: nat, moved: seq<Ins>, moved': seq<Ins>)
    requires k < |order| && FromFirst(p, order, k, moved) && moved <= moved'
    requires forall i :: |moved| <= i < |moved'| ==> moved'[i] in CodeOf(p, order[k])
    ensures FromFirst(p, order, k + 1, moved')
  {
    forall i | i in moved' ensures exists j :: 0 <= j < k + 1 && Holds(p, order[j], i) {
      var n :| 0 <= n < |moved'| && moved'[n] == i;
      if n < |moved| {
        assert moved[n] == i && i in moved;
        var j :| 0 <= j < k && Holds(p, order[j], i);
      } else {
        assert Holds(p, order[k], i);
      }
    }
  }

  ghost predicate OrderOk(p: Program, loop: set<Block>, order: seq<Block>) {
    && (forall b :: b in order <==> b in loop)
    && (forall b :: b in order ==> b in p.g.blocks)
    && (forall i, j :: 0 <= i < j < |order| ==> order[i] != order[j])
  }

  /** The first k blocks of the loop have been scanned. */
  ghost predicate Scanned(p: Program, loop: set<Block>, order: seq<Block>, k: nat,
                          code: map<Block, seq<Ins>>, home: map<Id, Block>, moved: seq<Ins>) {
    && k <= |order| && OrderOk(p, loop, order)
    && Hoistable(p, loop, moved) && HomesOk(p, loop, home, moved)
    && FromFirst(p, order, k, moved)
    && (forall j :: 0 <= j < k ==> order[j] in code && code[order[j]] == Remaining(CodeOf(p, order[j]), Ids(moved)))
    && (forall b :: b !in order[..k] ==> (b in code <==> b in p.code) && (b in code ==> code[b] == p.code[b]))
  }

  /** x is the id of an instruction in front of instruction n of block order[k], in the order of the scan. */
  ghost predicate Earlier(p: Program, order: seq<Block>, k: nat, n: nat, x: Id)
    requires k < |order|
  {
    (exists j :: 0 <= j < k && DefinedBefore(CodeOf(p, order[j]), |CodeOf(p, order[j])|, x)) || DefinedBefore(CodeOf(p, order[k]), n, x)
  }

  /**
    A pure instruction that stays has an operand that stands in the loop when the scan comes
    to it: one defined in the loop and not hoisted, or hoisted only from further on.
   */
  ghost predicate StandsInLoop(p: Program, loop: set<Block>, order: seq<Block>, k: nat, n: nat, moved: seq<Ins>)
    requires k < |order| && n < |CodeOf(p, order[k])|
  {
    exists v :: v in CodeOf(p, order[k])[n].args && v.Result? && InLoopDef(p, loop, v.id)
                && !(v.id in Ids(moved) && Earlier(p, order, k, n, v.id))
  }

  /** In the first k blocks of the scan only such instructions stay. */
  ghost predicate Thorough(p: Program, loop: set<Block>, order: seq<Block>, k: nat, moved: seq<Ins>) {
    forall j, i ::
      0 <= j < k && j < |order| && 0 <= i < |CodeOf(p, order[j])| && Pure(CodeOf(p, order[j])[i]) && CodeOf(p, order[j])[i].id !in Ids(moved) ==>
        StandsInLoop(p, loop, order, j, i, moved)
  }

  lemma ThoroughStart(p: Program, loop: set<Block>, order: seq<Block>)
    ensures Thorough(p, loop, order, 0, [])
  {
  }

  lemma NextThorough(p: Program, loop: set<Block>, order: seq<Block>, k: nat, code: map<Block, seq<Ins>>,
                     home: map<Id, Block>, moved: seq<Ins>, moved': seq<Ins>)
    requires UniqueDefs(p) && k < |order| && Scanned(p, loop, order, k, code, home, moved) && Thorough(p, loop, order, k, moved)
    requires moved <= moved' && forall i :: |moved| <= i < |moved'| ==> moved'[i] in CodeOf(p, order[k])
    requires StaysIfHeld(p, loop, order[k], |CodeOf(p, order[k])|, moved, moved')
    ensures Thorough(p, loop, order, k + 1, moved')
  {
    assert OrderOk(p, loop, order);
    hide *;
    forall j, i | 0 <= j < k + 1 && 0 <= i < |CodeOf(p, order[j])| && Pure(CodeOf(p, order[j])[i])
                  && CodeOf(p, order[j])[i].id !in Ids(moved')
      ensures StandsInLoop(p, loop, order, j, i, moved')
    {
      if j < k {
        StandsAsBefore(p, loop, order, k, j, i, moved, moved');
      } else {
        StandsIfHeld(p, loop, order, k, i, moved, moved');
      }
    }
    ThoroughFrom(p, loop, order, k + 1, moved');
  }

  lemma ThoroughFrom(p: Program, loop: set<Block>, order: seq<Block>, k: nat, moved: seq<Ins>)
    requires forall j, i ::
               0 <= j < k && j < |order| && 0 <= i < |CodeOf(p, order[j])| && Pure(CodeOf(p, order[j])[i]) && CodeOf(p, order[j])[i].id !in Ids(moved) ==>
                 StandsInLoop(p, loop, order, j, i, moved)
    ensures Thorough(p, loop, order, k, moved)
  {
  }

  /** What is hoisted from block order[k] stands in no block scanned earlier. */
  lemma HoistedHere(p: Program, loop: set<Block>, order: seq<Block>, k: nat, j: nat, moved: seq<Ins>, moved': seq<Ins>, x: Id)
    requires UniqueDefs(p) && j < k < |order| && OrderOk(p, loop, order)
    requires moved <= moved' && forall i :: |moved| <= i < |moved'| ==> moved'[i] in CodeOf(p, order[k])
    requires x in Ids(moved') && x !in Ids(moved)
    ensures !DefinedBefore(CodeOf(p, order[j]), |CodeOf(p, order[j])|, x)
  {
    var m :| m in moved' && m.id == x;
    var n :| 0 <= n < |moved'| && moved'[n] == m;
    assert forall i :: 0 <= i < |moved| ==> moved'[i] == moved[i] && moved[i] in moved;
    var q :| 0 <= q < |CodeOf(p, order[k])| && CodeOf(p, order[k])[q] == m;
    if i :| 0 <= i < |CodeOf(p, order[j])| && CodeOf(p, order[j])[i].id == x {
      assert DefinedAt(p, x, AsIns(order[k], q)) && DefinedAt(p, x, AsIns(order[j], i));
    }
  }

  lemma StandsAsBefore(p: Program, loop: set<Block>, order: seq<Block>, k: nat, j: nat, i: nat, moved: seq<Ins>, moved': seq<Ins>)
    requires UniqueDefs(p) && j < k < |order| && OrderOk(p, loop, order) && Thorough(p, loop, order, k, moved)
    requires moved <= moved' && forall i :: |moved| <= i < |moved'| ==> moved'[i] in CodeOf(p, order[k])
    requires i < |CodeOf(p, order[j])| && Pure(CodeOf(p, order[j])[i]) && CodeOf(p, order[j])[i].id !in Ids(moved')
    ensures StandsInLoop(p, loop, order, j, i, moved')
  {
    hide InLoopDef, UniqueDefs, OrderOk, Pure;
    assert forall m :: m in moved ==> m in moved';
    assert StandsInLoop(p, loop, order, j, i, moved);
    var v :| v in CodeOf(p, order[j])[i].args && v.Result? && InLoopDef(p, loop, v.id)
             && !(v.id in Ids(moved) && Earlier(p, order, j, i, v.id));
    if v.id in Ids(moved') && v.id !in Ids(moved) {
      forall l | 0 <= l <= j ensures !DefinedBefore(CodeOf(p, order[l]), |CodeOf(p, order[l])|, v.id) {
        HoistedHere(p, loop, order, k, l, moved, moved', v.id);
      }
      assert !DefinedBefore(CodeOf(p, order[j]), i, v.id);
    }
    assert !(v.id in Ids(moved') && Earlier(p, order, j, i, v.id));
  }

  lemma StandsIfHeld(p: Program, loop: set<Block>, order: seq<Block>, k: nat, i: nat, moved: seq<Ins>, moved': seq<Ins>)
    requires UniqueDefs(p) && k < |order| && OrderOk(p, loop, order)
    requires moved <= moved' && forall i :: |moved| <= i < |moved'| ==> moved'[i] in CodeOf(p, order[k])
    requires StaysIfHeld(p, loop, order[k], |CodeOf(p, order[k])|, moved, moved')
    requires i < |CodeOf(p, order[k])| && Pure(CodeOf(p, order[k])[i]) && CodeOf(p, order[k])[i].id !in Ids(moved')
    ensures StandsInLoop(p, loop, order, k, i, moved')
  {
    hide InLoopDef, UniqueDefs, OrderOk, Pure;
    assert HeldBack(p, loop, order[k], i, moved, moved');
    var v :| v in CodeOf(p, order[k])[i].args && v.Result? && InLoopDef(p, loop, v.id) && v.id !in Ids(moved)
             && !(v.id in Ids(moved') && DefinedBefore(CodeOf(p, order[k]), i, v.id));
    if v.id in Ids(moved') {
      forall j | 0 <= j < k ensures !DefinedBefore(CodeOf(p, order[j]), |CodeOf(p, order[j])|, v.id) {
        HoistedHere(p, loop, order, k, j, moved, moved', v.id);
      }
    }
    assert !(v.id in Ids(moved') && Earlier(p, order, k, i, v.id));
  }

  lemma StartScan(p: Program, loop: set<Block>, order: seq<Block>, home: map<Id, Block>)
    requires loop <= BlockSet(p.g) && HomesOk(p, loop, home, [])
    requires (forall b :: b in order <==> b in loop) && (forall i, j :: 0 <= i < j < |order| ==> order[i] != order[j])
    ensures Scanned(p, loop, order, 0, p.code, home, [])
  {
    forall b | b in order ensures b in p.g.blocks {
      assert b in BlockSet(p.g);
    }
  }

  lemma FreshBlock(p: Program, loop: set<Block>, order: seq<Block>, k: nat,
                   code: map<Block, seq<Ins>>, home: map<Id, Block>, moved: seq<Ins>)
    requires UniqueDefs(p) && k < |order| && Scanned(p, loop, order, k, code, home, moved)
    ensures Hoistable(p, loop, moved) && HomesOk(p, loop, home, moved) && order[k] in loop
    ensures forall i :: 0 <= i < |CodeOf(p, order[k])| ==> CodeOf(p, order[k])[i].id !in Ids(moved)
  {
    hide Hoistable, HomesOk;
    forall i, m | 0 <= i < |CodeOf(p, order[k])| && 0 <= m < |moved| ensures CodeOf(p, order[k])[i].id != moved[m].id {
      assert moved[m] in moved;
      var j :| 0 <= j < k && Holds(p, order[j], moved[m]);
      var q :| 0 <= q < |CodeOf(p, order[j])| && CodeOf(p, order[j])[q] == moved[m];
      assert DefinedAt(p, moved[m].id, AsIns(order[j], q));
      assert DefinedAt(p, CodeOf(p, order[k])[i].id, AsIns(order[k], i));
    }
  }

  /** Hoisting from one block leaves what remains of the blocks already scanned. */
  lemma OthersKept(p: Program, loop: set<Block>, order: seq<Block>, k: nat, j: nat, moved: seq<Ins>, moved': seq<Ins>)
    requires UniqueDefs(p) && j < k < |order| && OrderOk(p, loop, order)
    requires moved <= moved' && forall i :: |moved| <= i < |moved'| ==> moved'[i] in CodeOf(p, order[k])
    ensures Remaining(CodeOf(p, order[j]), Ids(moved)) == Remaining(CodeOf(p, order[j]), Ids(moved'))
  {
    var code := CodeOf(p, order[j]);
    forall i | 0 <= i < |code| ensures code[i].id in Ids(moved) <==> code[i].id in Ids(moved') {
      if code[i].id in Ids(moved') && code[i].id !in Ids(moved) {
        var m :| m in moved' && m.id == code[i].id;
        var q :| 0 <= q < |CodeOf(p, order[k])| && CodeOf(p, order[k])[q] == m;
        assert DefinedAt(p, m.id, AsIns(order[k], q)) && DefinedAt(p, m.id, AsIns(order[j], i));
      }
    }
    RemainingIrrelevant(code, Ids(moved), Ids(moved'));
  }

  lemma NextScanned(p: Program, loop: set<Block>, order: seq<Block>, k: nat, code: map<Block, seq<Ins>>,
                    home: map<Id, Block>, moved: seq<Ins>, home': map<Id, Block>, moved': seq<Ins>, kept: seq<Ins>)
    requires UniqueDefs(p) && k < |order| && Scanned(p, loop, order, k, code, home, moved)
    requires Hoistable(p, loop, moved') && HomesOk(p, loop, home', moved')
    requires moved <= moved' && forall i :: |moved| <= i < |moved'| ==> moved'[i] in CodeOf(p, order[k])
    requires kept == Remaining(CodeOf(p, order[k]), Ids(moved'))
    ensures Scanned(p, loop, order, k + 1, code[order[k] := kept], home', moved')
  {
    hide Hoistable, HomesOk, Remaining, FromFirst, Ids;
    assert order[..k + 1] == order[..k] + [order[k]];
    FromNext(p, order, k, moved, moved');
    var code' := code[order[k] := kept];
    forall j | 0 <= j < k + 1 ensures order[j] in code' && code'[order[j]] == Remaining(CodeOf(p, order[j]), Ids(moved')) {
      if j < k {
        OthersKept(p, loop, order, k, j, moved, moved');
      }
    }
  }

  lemma AllScanned(p: Program, loop: set<Block>, order: seq<Block>,
                   code: map<Block, seq<Ins>>, home: map<Id, Block>, moved: seq<Ins>)
    requires Scanned(p, loop, order, |order|, code, home, moved)
    ensures Extracted(p, loop, code, moved) && OrderOk(p, loop, order)
  {
    hide Hoistable, HomesOk, Remaining, FromFirst;
    assert order[..|order|] == order;
    forall b | b in loop ensures b in code && code[b] == Remaining(CodeOf(p, b), Ids(moved)) {
      var j :| 0 <= j < |order| && order[j] == b;
    }
  }

  /** An operand is defined in the loop. */
  ghost predicate ReadsLoop(p: Program, loop: set<Block>, i: Ins) {
    exists v :: v in i.args && v.Result? && InLoopDef(p, loop, v.id)
  }

  /** Whatever the order of the scan: a pure instruction none of whose operands is defined in the loop has left it. */
  lemma ThoroughMovesInvariants(p: Program, loop: set<Block>, order: seq<Block>, moved: seq<Ins>, b: Block, i: nat)
    requires OrderOk(p, loop, order) && Thorough(p, loop, order, |order|, moved)
    requires b in loop && i < |CodeOf(p, b)| && Pure(CodeOf(p, b)[i])
    ensures CodeOf(p, b)[i].id in Ids(moved) || ReadsLoop(p, loop, CodeOf(p, b)[i])
  {
    hide InLoopDef, Pure;
    var j :| 0 <= j < |order| && order[j] == b;
    if CodeOf(p, b)[i].id !in Ids(moved) {
      assert StandsInLoop(p, loop, order, j, i, moved);
    }
  }

  // ----- wiring the new block -----

  /** What fixNewForwardBlock is given: the loop, its header, the new block, and a new id for each header phi. */
  datatype Motion = Motion(header: Block, loop: set<Block>, newBlock: Block, moved: seq<Ins>, newPhi: map<Id, Id>)

  ghost predicate MotionOk(p: Program, m: Motion, code: map<Block, seq<Ins>>) {
    && Strict(p) && IsHeader(p.g, m.header)
    && (forall b :: b in m.loop <==> InLoop(p.g, b, m.header))
    && m.loop <= BlockSet(p.g)
    && m.newBlock !in p.g.blocks && m.newBlock !in p.g.preds && m.newBlock !in p.g.succs
    && m.newBlock !in p.phis && m.newBlock !in p.code && m.newBlock !in p.term
    && Extracted(p, m.loop, code, m.moved) && m.moved != []
    && m.newPhi.Keys == PhisOf(p, m.header).Keys
    && (forall x :: x in m.newPhi ==> forall d :: !DefinedAt(p, m.newPhi[x], d))
    && (forall x, y :: x in m.newPhi && y in m.newPhi && m.newPhi[x] == m.newPhi[y] ==> x == y)
    && PhiKeysArePreds(p, m.header)
    && Reachable(p.g, m.header)
  }

  ghost predicate PhiKeysArePreds(p: Program, h: Block)
    requires WellFormed(p.g)
  {
    forall x :: x in PhisOf(p, h) && h in p.g.blocks ==> PhisOf(p, h)[x].Keys == p.g.preds[h]
  }

  function Outside(g: Graph, m: Motion): set<Block>
    requires m.header in g.preds
  {
    g.preds[m.header] - m.loop
  }

  function Retarget(t: Term, a: Block, b: Block): Term {
    match t
    case Jump(x) => Jump(if x == a then b else x)
    case Branch(c, x, y) => Branch(c, if x == a then b else x, if y == a then b else y)
    case Return(_) => t
  }

  /** A header phi keeps its operands from the loop and gets the new block's phi as the other one. */
  function InnerPhi(m: Motion, x: Id, operands: map<Block, Value>): map<Block, Value>
    requires x in m.newPhi
  {
    (map q | q in operands && q in m.loop :: operands[q])[m.newBlock := Result(m.newPhi[x])]
  }

  function OuterPhi(m: Motion, operands: map<Block, Value>): map<Block, Value> {
    map q | q in operands && q !in m.loop :: operands[q]
  }

  ghost predicate WiredTerms(p: Program, m: Motion, p': Program)
    requires m.header in p.g.preds
  {
    && (forall b :: b in p.g.blocks ==> TermOf(p', b) == if b in Outside(p.g, m) then Retarget(TermOf(p, b), m.header, m.newBlock) else TermOf(p, b))
    && TermOf(p', m.newBlock) == Jump(m.header)
  }

  ghost predicate WiredBodies(p: Program, m: Motion, code: map<Block, seq<Ins>>, p': Program) {
    && (forall b :: b in p.g.blocks ==> CodeOf(p', b) == if b in code then code[b] else [])
    && CodeOf(p', m.newBlock) == m.moved
  }

  ghost predicate WiredPhis(p: Program, m: Motion, p': Program)
    requires m.newPhi.Keys == PhisOf(p, m.header).Keys
  {
    && (forall b :: b != m.newBlock && b != m.header ==> PhisOf(p', b) == PhisOf(p, b))
    && PhisOf(p', m.header) == (map x | x in PhisOf(p, m.header) :: InnerPhi(m, x, PhisOf(p, m.header)[x]))
    && PhisOf(p', m.newBlock).Keys == m.newPhi.Values
    && (forall x :: x in m.newPhi ==> m.newPhi[x] in PhisOf(p', m.newBlock) && PhisOf(p', m.newBlock)[m.newPhi[x]] == OuterPhi(m, PhisOf(p, m.header)[x]))
  }

  ghost predicate Wired(p: Program, m: Motion, code: map<Block, seq<Ins>>, p': Program)
    requires MotionOk(p, m, code)
  {
    p'.g.entry == p.g.entry && WiredTerms(p, m, p') && WiredBodies(p, m, code, p') && WiredPhis(p, m, p')
  }

  // ----- facts about the loop -----

  /** The loop is entered only through its header. */
  lemma EnteredAtHeader(g: Graph, loop: set<Block>, h: Block, b: Block, s: Block)
    requires WellFormed(g) && (forall x :: x in loop <==> InLoop(g, x, h))
    requires b in g.blocks && s in g.succs[b] && s in loop && b !in loop
    ensures s == h
  {
    if s != h {
      PredecessorInLoop(g, b, s, h);
    }
  }

  lemma MovedPosition(p: Program, loop: set<Block>, moved: seq<Ins>, x: Id) returns (n: nat, b: Block, j: nat)
    requires Hoistable(p, loop, moved) && x in Ids(moved)
    ensures n < |moved| && moved[n].id == x && b in loop && j < |CodeOf(p, b)| && CodeOf(p, b)[j] == moved[n]
    ensures IsPure(moved[n])
  {
    var i :| i in moved && i.id == x;
    n :| 0 <= n < |moved| && moved[n] == i;
    b :| b in loop && i in CodeOf(p, b);
    j :| 0 <= j < |CodeOf(p, b)| && CodeOf(p, b)[j] == i;
  }

  /** Nothing hoisted is available at the header: its block is dominated by the header. */
  lemma HoistedNotAvailableAtHeader(p: Program, loop: set<Block>, h: Block, moved: seq<Ins>, x: Id)
    requires WellFormed(p.g) && UniqueDefs(p) && loop <= BlockSet(p.g) && Hoistable(p, loop, moved)
    requires (forall b :: b in loop ==> Dominates(p.g, h, b)) && Reachable(p.g, h)
    requires x in Ids(moved)
    ensures !AvailableIn(p, x, h)
  {
    if AvailableIn(p, x, h) {
      var n, b, j := MovedPosition(p, loop, moved, x);
      assert b in BlockSet(p.g);
      assert DefinedAt(p, x, AsIns(b, j));
      var d :| DefinedAt(p, x, d) && if d == AsPhi(h) then true else d.block != h && Dominates(p.g, d.block, h);
      assert d == AsIns(b, j);
      DominanceAntisymmetric(p.g, b, h);
    }
  }

  /** Neither the hoisted ids nor their operands are written by what stays in the loop. */
  ghost predicate Quiet(p: Program, loop: set<Block>, moved: seq<Ins>) {
    forall x, n :: InLoopDef(p, loop, x) && x !in Ids(moved) && 0 <= n < |moved| ==>
      x != moved[n].id && Result(x) !in moved[n].args
  }

  lemma HoistableIsQuiet(p: Program, loop: set<Block>, moved: seq<Ins>)
    requires Hoistable(p, loop, moved)
    ensures Quiet(p, loop, moved)
  {
    forall x, n | InLoopDef(p, loop, x) && x !in Ids(moved) && 0 <= n < |moved|
      ensures x != moved[n].id && Result(x) !in moved[n].args
    {
      assert Result(x) in moved[n].args ==> OperandOk(p, loop, moved, n, Result(x));
      assert x in Ids(moved[..n]) ==> x in Ids(moved);
    }
  }

  /** Every definition with a hoisted id is the hoisted instruction itself, and stands in the loop. */
  ghost predicate Located(p: Program, loop: set<Block>, moved: seq<Ins>) {
    forall b, i :: b in p.g.blocks && 0 <= i < |CodeOf(p, b)| && CodeOf(p, b)[i].id in Ids(moved) ==>
      b in loop && IsPure(CodeOf(p, b)[i]) && CodeOf(p, b)[i] in moved
  }

  lemma HoistableIsLocated(p: Program, loop: set<Block>, moved: seq<Ins>)
    requires Hoistable(p, loop, moved) && UniqueDefs(p) && loop <= BlockSet(p.g)
    ensures Located(p, loop, moved)
  {
    forall b, i | b in p.g.blocks && 0 <= i < |CodeOf(p, b)| && CodeOf(p, b)[i].id in Ids(moved)
      ensures b in loop && IsPure(CodeOf(p, b)[i]) && CodeOf(p, b)[i] in moved
    {
      var n, c, j := MovedPosition(p, loop, moved, CodeOf(p, b)[i].id);
      assert c in BlockSet(p.g);
      assert DefinedAt(p, moved[n].id, AsIns(c, j)) && DefinedAt(p, moved[n].id, AsIns(b, i));
    }
  }

  // ----- the two environments -----

  /** What both programs have computed so far is the same. */
  ghost predicate AgreeAt(p: Program, b: Block, i: nat, env: Env, env': Env) {
    forall x :: AvailableAt(p, x, b, i) ==> Get(env, x) == Get(env', x)
  }

  ghost predicate AgreeIn(p: Program, b: Block, env: Env, env': Env) {
    forall x :: AvailableIn(p, x, b) ==> Get(env, x) == Get(env', x)
  }

  /** In the moved program, every hoisted id holds its operator of the current operands. */
  ghost predicate Settled(moved: seq<Ins>, sem: Sem, env': Env) {
    forall i :: i in moved ==> Get(env', i.id) == PureValue(sem, env', i)
  }

  lemma SameOperands(sem: Sem, env: Env, env': Env, vs: seq<Value>)
    requires forall v :: v in vs ==> Read(sem, env, v) == Read(sem, env', v)
    ensures ReadAll(sem, env, vs) == ReadAll(sem, env', vs)
  {
    forall i | 0 <= i < |vs| ensures ReadAll(sem, env, vs)[i] == ReadAll(sem, env', vs)[i] {
      assert vs[i] in vs;
    }
  }

  lemma ReadsAgree(p: Program, sem: Sem, b: Block, i: nat, env: Env, env': Env, v: Value)
    requires AgreeAt(p, b, i, env, env') && UseOk(p, v, b, i)
    ensures Read(sem, env, v) == Read(sem, env', v)
  {
  }

  lemma OperandsAgree(p: Program, sem: Sem, b: Block, i: nat, env: Env, env': Env)
    requires CodeUsesOk(p) && b in p.g.blocks && i < |CodeOf(p, b)| && AgreeAt(p, b, i, env, env')
    ensures ReadAll(sem, env, CodeOf(p, b)[i].args) == ReadAll(sem, env', CodeOf(p, b)[i].args)
  {
    hide AgreeAt, ReadAll, UseOk;
    forall v | v in CodeOf(p, b)[i].args ensures Read(sem, env, v) == Read(sem, env', v) {
      ReadsAgree(p, sem, b, i, env, env', v);
    }
    SameOperands(sem, env, env', CodeOf(p, b)[i].args);
  }

  /** Writing the same value for the id just defined extends the agreement. */
  lemma AgreeNext(p: Program, b: Block, i: nat, env: Env, env': Env, next: Env, next': Env)
    requires b in p.g.blocks && i < |CodeOf(p, b)| && AgreeAt(p, b, i, env, env')
    requires forall x :: x != CodeOf(p, b)[i].id ==> Get(next, x) == Get(env, x) && Get(next', x) == Get(env', x)
    requires Get(next, CodeOf(p, b)[i].id) == Get(next', CodeOf(p, b)[i].id)
    ensures AgreeAt(p, b, i + 1, next, next')
  {
    hide AvailableAt;
    forall x | AvailableAt(p, x, b, i + 1) ensures Get(next, x) == Get(next', x) {
      AvailableNext(p, x, b, i);
    }
  }

  /** A write outside the hoisted ids and their operands leaves every hoisted equation standing. */
  lemma SettledKept(p: Program, loop: set<Block>, moved: seq<Ins>, sem: Sem, env': Env, x: Id, v: int)
    requires Quiet(p, loop, moved) && InLoopDef(p, loop, x) && x !in Ids(moved) && Settled(moved, sem, env')
    ensures Settled(moved, sem, env'[x := v])
  {
    hide InLoopDef, ReadAll;
    forall i | i in moved ensures Get(env'[x := v], i.id) == PureValue(sem, env'[x := v], i) {
      var n :| 0 <= n < |moved| && moved[n] == i;
      assert x != moved[n].id && Result(x) !in moved[n].args;
      SameOperands(sem, env', env'[x := v], i.args);
    }
  }

  ghost predicate BodyFacts(p: Program, loop: set<Block>, moved: seq<Ins>) {
    CodeUsesOk(p) && Quiet(p, loop, moved) && Located(p, loop, moved)
  }

  ghost predicate SameSoFar(p: Program, loop: set<Block>, moved: seq<Ins>, sem: Sem, b: Block, i: nat, st: State, st': State) {
    && st.world == st'.world
    && AgreeAt(p, b, i, st.env, st'.env)
    && (b in loop ==> Settled(moved, sem, st'.env))
  }

  lemma HoistedAgrees(p: Program, loop: set<Block>, moved: seq<Ins>, sem: Sem, b: Block, i: nat, st: State, st': State)
    requires BodyFacts(p, loop, moved) && b in p.g.blocks && i < |CodeOf(p, b)| && CodeOf(p, b)[i].id in Ids(moved)
    requires SameSoFar(p, loop, moved, sem, b, i, st, st')
    ensures SameSoFar(p, loop, moved, sem, b, i + 1, Execute(sem, CodeOf(p, b)[i], st), st')
  {
    hide AgreeAt, ReadAll, UseOk, Quiet, CodeUsesOk;
    var ins := CodeOf(p, b)[i];
    OperandsAgree(p, sem, b, i, st.env, st'.env);
    assert b in loop && IsPure(ins) && ins in moved;
    AgreeNext(p, b, i, st.env, st'.env, Execute(sem, ins, st).env, st'.env);
  }

  lemma KeptAgrees(p: Program, loop: set<Block>, moved: seq<Ins>, sem: Sem, b: Block, i: nat, st: State, st': State)
    requires BodyFacts(p, loop, moved) && b in p.g.blocks && i < |CodeOf(p, b)| && CodeOf(p, b)[i].id !in Ids(moved)
    requires SameSoFar(p, loop, moved, sem, b, i, st, st')
    ensures SameSoFar(p, loop, moved, sem, b, i + 1, Execute(sem, CodeOf(p, b)[i], st), Execute(sem, CodeOf(p, b)[i], st'))
  {
    hide AgreeAt, ReadAll, UseOk, Quiet, CodeUsesOk, Located, Settled;
    var ins := CodeOf(p, b)[i];
    OperandsAgree(p, sem, b, i, st.env, st'.env);
    var next, next' := Execute(sem, ins, st), Execute(sem, ins, st');
    AgreeNext(p, b, i, st.env, st'.env, next.env, next'.env);
    if b in loop {
      assert DefinedAt(p, ins.id, AsIns(b, i)) && AsIns(b, i).block in loop;
      SettledKept(p, loop, moved, sem, st'.env, ins.id, next'.env[ins.id]);
    }
  }

  lemma {:induction false} BodyAgrees(p: Program, loop: set<Block>, moved: seq<Ins>, sem: Sem, b: Block, i: nat, st: State, st': State)
    requires BodyFacts(p, loop, moved) && b in p.g.blocks && i <= |CodeOf(p, b)|
    requires SameSoFar(p, loop, moved, sem, b, 0, st, st')
    ensures SameSoFar(p, loop, moved, sem, b, i, RunCode(sem, CodeOf(p, b)[..i], st),
                                                 RunCode(sem, Remaining(CodeOf(p, b)[..i], Ids(moved)), st'))
  {
    hide BodyFacts, SameSoFar, Execute, Ids;
    if i > 0 {
      BodyAgrees(p, loop, moved, sem, b, i - 1, st, st');
      var c, ins := CodeOf(p, b)[..i - 1], CodeOf(p, b)[i - 1];
      var r := Remaining(c, Ids(moved));
      assert CodeOf(p, b)[..i] == c + [ins];
      RunCodeSnoc(sem, c, ins, st);
      RemainingSnoc(c, ins, Ids(moved));
      if ins.id in Ids(moved) {
        assert r + [] == r;
        HoistedAgrees(p, loop, moved, sem, b, i - 1, RunCode(sem, c, st), RunCode(sem, r, st'));
      } else {
        RunCodeSnoc(sem, r, ins, st');
        KeptAgrees(p, loop, moved, sem, b, i - 1, RunCode(sem, c, st), RunCode(sem, r, st'));
      }
    }
  }

  // ----- crossing an edge -----

  /** Entering a block other than through the new one. */
  lemma EdgeAgrees(p: Program, p': Program, sem: Sem, b: Block, s: Block, st: State, st': State)
    requires Strict(p) && b in p.g.blocks && s in p.g.succs[b]
    requires AgreeAt(p, b, |CodeOf(p, b)|, st.env, st'.env) && st.world == st'.world
    requires PhisOf(p', s).Keys == PhisOf(p, s).Keys
    requires forall x :: x in PhisOf(p, s) ==>
               Read(sem, st'.env, PhiOperand(PhisOf(p', s)[x], b)) == Read(sem, st'.env, PhiOperand(PhisOf(p, s)[x], b))
    ensures var next, next' := EnterBlock(p, sem, b, s, st), EnterBlock(p', sem, b, s, st');
            next.world == next'.world && AgreeIn(p, s, next.env, next'.env)
  {
    hide AgreeAt, UseOk, AvailableIn, CodeUsesOk, TermUsesOk, TargetsMatch, UniqueDefs;
    var next, next' := EnterBlock(p, sem, b, s, st), EnterBlock(p', sem, b, s, st');
    forall x | AvailableIn(p, x, s) ensures Get(next.env, x) == Get(next'.env, x) {
      if x in PhisOf(p, s) {
        assert b in p.g.preds[s];
        ReadsAgree(p, sem, b, |CodeOf(p, b)|, st.env, st'.env, PhiOperand(PhisOf(p, s)[x], b));
      } else {
        AvailableAcrossEdge(p, x, b, s);
        ReadsAgree(p, sem, b, |CodeOf(p, b)|, st.env, st'.env, Result(x));
      }
    }
  }

  /** Phis of a loop block leave the hoisted equations standing. */
  lemma {:induction false} SettledAcrossPhis(p: Program, loop: set<Block>, moved: seq<Ins>, sem: Sem, s: Block, env': Env, add: Env)
    requires Quiet(p, loop, moved) && Settled(moved, sem, env')
    requires forall x :: x in add ==> InLoopDef(p, loop, x) && x !in Ids(moved)
    ensures Settled(moved, sem, env' + add)
  {
    hide InLoopDef, ReadAll;
    forall i | i in moved ensures Get(env' + add, i.id) == PureValue(sem, env' + add, i) {
      var n :| 0 <= n < |moved| && moved[n] == i;
      assert forall x :: x in add ==> Result(x) !in moved[n].args && x != moved[n].id;
      SameOperands(sem, env', env' + add, i.args);
    }
  }

  /** After the hoisted code has run, every equation holds. */
  ghost predicate InOrder(moved: seq<Ins>) {
    && (forall n :: 0 <= n < |moved| ==> IsPure(moved[n]))
    && (forall k, n :: 0 <= k <= n < |moved| ==> Result(moved[n].id) !in moved[k].args)
    && (forall k, n :: 0 <= k < n < |moved| ==> moved[k].id != moved[n].id)
  }

  lemma SettledNext(moved: seq<Ins>, n: nat, sem: Sem, r0: State)
    requires InOrder(moved) && n < |moved| && Settled(moved[..n], sem, r0.env)
    ensures Settled(moved[..n + 1], sem, Execute(sem, moved[n], r0).env)
  {
    hide ReadAll;
    var r := Execute(sem, moved[n], r0);
    forall i | i in moved[..n + 1] ensures Get(r.env, i.id) == PureValue(sem, r.env, i) {
      var k :| 0 <= k < n + 1 && moved[k] == i;
      SameOperands(sem, r0.env, r.env, i.args);
      assert k < n ==> moved[..n][k] == i;
    }
  }

  lemma {:induction false} RunHoisted(moved: seq<Ins>, n: nat, sem: Sem, st: State)
    requires InOrder(moved) && n <= |moved|
    ensures var r := RunCode(sem, moved[..n], st);
            && r.world == st.world && Settled(moved[..n], sem, r.env)
            && forall x :: x !in Ids(moved[..n]) ==> Get(r.env, x) == Get(st.env, x)
  {
    if n > 0 {
      RunHoisted(moved, n - 1, sem, st);
      var c, ins := moved[..n - 1], moved[n - 1];
      assert moved[..n] == c + [ins];
      assert Ids(moved[..n]) == Ids(c) + {ins.id};
      RunCodeSnoc(sem, c, ins, st);
      assert IsPure(ins);
      hide Settled;
      SettledNext(moved, n - 1, sem, RunCode(sem, c, st));
    }
  }

  lemma HoistableInOrder(p: Program, loop: set<Block>, moved: seq<Ins>)
    requires Hoistable(p, loop, moved) && UniqueDefs(p) && loop <= BlockSet(p.g)
    ensures InOrder(moved)
  {
    forall k, n | 0 <= k <= n < |moved| ensures Result(moved[n].id) !in moved[k].args {
      if Result(moved[n].id) in moved[k].args {
        assert OperandOk(p, loop, moved, k, Result(moved[n].id));
        var m, b, j := MovedPosition(p, loop, moved, moved[n].id);
        assert b in BlockSet(p.g);
        assert DefinedAt(p, moved[n].id, AsIns(b, j)) && AsIns(b, j).block in loop;
      }
    }
  }

  // ----- one step -----

  ghost predicate Related(p: Program, m: Motion, sem: Sem, c: Config, c': Config) {
    match c
    case Done(r, w) => c' == c
    case At(b, st) =>
      && c'.At? && c'.block == b && b in p.g.blocks && Reachable(p.g, b)
      && c'.st.world == st.world && AgreeIn(p, b, st.env, c'.st.env)
      && (b in m.loop ==> Settled(m.moved, sem, c'.st.env))
  }

  lemma MotionFacts(p: Program, m: Motion, code: map<Block, seq<Ins>>)
    requires MotionOk(p, m, code)
    ensures Strict(p) && BodyFacts(p, m.loop, m.moved) && InOrder(m.moved) && m.header in m.loop && m.loop <= BlockSet(p.g)
    ensures forall b :: b in m.loop ==> Dominates(p.g, m.header, b)
    ensures forall x :: x in Ids(m.moved) ==> !AvailableIn(p, x, m.header)
  {
    hide Dominates, InLoop, AvailableIn, Reachable, Quiet, Located, InOrder, UniqueDefs, PhiKeysArePreds;
    HoistableIsQuiet(p, m.loop, m.moved);
    HoistableIsLocated(p, m.loop, m.moved);
    HoistableInOrder(p, m.loop, m.moved);
    forall b | b in m.loop ensures Dominates(p.g, m.header, b) {
      HeaderDominatesLoop(p.g, b, m.header);
    }
    forall x | x in Ids(m.moved) ensures !AvailableIn(p, x, m.header) {
      HoistedNotAvailableAtHeader(p, m.loop, m.header, m.moved, x);
    }
    HeaderInItsLoop(p.g, m.header);
  }

  lemma HeaderInItsLoop(g: Graph, h: Block)
    requires IsHeader(g, h)
    ensures InLoop(g, h, h)
  {
    var s :| BackEdge(g, s, h);
    assert InLoopOf(g, h, s, h);
  }

  lemma {:induction false} RemainingNone(code: seq<Ins>, gone: set<Id>)
    requires forall i :: 0 <= i < |code| ==> code[i].id !in gone
    ensures Remaining(code, gone) == code
  {
    if code != [] {
      RemainingNone(code[1..], gone);
    }
  }

  lemma WiredCode(p: Program, m: Motion, code: map<Block, seq<Ins>>, p': Program, b: Block)
    requires MotionOk(p, m, code) && Wired(p, m, code, p') && b in p.g.blocks
    ensures CodeOf(p', b) == Remaining(CodeOf(p, b), Ids(m.moved))
  {
    hide Strict, Reachable, IsHeader, InLoop, PhiKeysArePreds, Hoistable;
    if b !in m.loop {
      MotionFacts(p, m, code);
      RemainingNone(CodeOf(p, b), Ids(m.moved));
    }
  }

  lemma BodyStep(p: Program, m: Motion, code: map<Block, seq<Ins>>, p': Program, sem: Sem, b: Block, st: State, st': State)
    requires MotionOk(p, m, code) && Wired(p, m, code, p') && Related(p, m, sem, At(b, st), At(b, st'))
    ensures SameSoFar(p, m.loop, m.moved, sem, b, |CodeOf(p, b)|,
                      RunCode(sem, CodeOf(p, b), st), RunCode(sem, CodeOf(p', b), st'))
  {
    hide MotionOk, Wired, BodyFacts, RunCode, Remaining, Settled;
    MotionFacts(p, m, code);
    WiredCode(p, m, code, p', b);
    assert CodeOf(p, b)[..|CodeOf(p, b)|] == CodeOf(p, b);
    BodyAgrees(p, m.loop, m.moved, sem, b, |CodeOf(p, b)|, st, st');
  }

  /** Phis of loop blocks are neither hoisted nor operands of hoisted instructions. */
  lemma PhisAreQuiet(p: Program, loop: set<Block>, moved: seq<Ins>, s: Block, x: Id)
    requires Hoistable(p, loop, moved) && UniqueDefs(p) && loop <= BlockSet(p.g) && s in loop && x in PhisOf(p, s)
    ensures InLoopDef(p, loop, x) && x !in Ids(moved)
  {
    assert s in BlockSet(p.g);
    assert DefinedAt(p, x, AsPhi(s)) && AsPhi(s).block in loop;
    if x in Ids(moved) {
      var n, b, j := MovedPosition(p, loop, moved, x);
      assert b in BlockSet(p.g);
      assert DefinedAt(p, x, AsIns(b, j));
    }
  }

  lemma ReachNext(g: Graph, b: Block, s: Block)
    requires WellFormed(g) && Reachable(g, b) && b in g.blocks && s in g.succs[b]
    ensures s in g.blocks && Reachable(g, s)
  {
    var w :| Connects(g, w, g.entry, b);
    Extend(g, w, s);
  }

  /** Operands the inner phi keeps for an edge inside the loop. */
  lemma PhiUnchanged(p: Program, m: Motion, code: map<Block, seq<Ins>>, p': Program, b: Block, s: Block, x: Id)
    requires MotionOk(p, m, code) && Wired(p, m, code, p') && b in p.g.blocks && s in p.g.succs[b]
    requires s != m.header || b in m.loop
    requires x in PhisOf(p, s)
    ensures x in PhisOf(p', s) && PhiOperand(PhisOf(p', s)[x], b) == PhiOperand(PhisOf(p, s)[x], b)
  {
    hide Extracted, Reachable, IsHeader, InLoop, CodeUsesOk, TermUsesOk, PhiUsesOk, UniqueDefs, TargetsMatch;
    assert m.newBlock != b;
  }

  lemma WiredPhiKeys(p: Program, m: Motion, code: map<Block, seq<Ins>>, p': Program, s: Block)
    requires MotionOk(p, m, code) && Wired(p, m, code, p') && s in p.g.blocks
    ensures PhisOf(p', s).Keys == PhisOf(p, s).Keys
  {
    hide Extracted, Reachable, IsHeader, InLoop, Strict, PhiKeysArePreds;
  }

  lemma DirectEdge(p: Program, m: Motion, code: map<Block, seq<Ins>>, p': Program, sem: Sem, b: Block, s: Block, st: State, st': State)
    requires MotionOk(p, m, code) && Wired(p, m, code, p') && b in p.g.blocks && Reachable(p.g, b) && s in p.g.succs[b]
    requires s != m.header || b in m.loop
    requires SameSoFar(p, m.loop, m.moved, sem, b, |CodeOf(p, b)|, st, st')
    ensures Related(p, m, sem, At(s, EnterBlock(p, sem, b, s, st)), At(s, EnterBlock(p', sem, b, s, st')))
  {
    hide MotionOk, Wired, AgreeAt, AgreeIn, Reachable, Settled, Read;
    MotionStrict(p, m, code);
    ReachNext(p.g, b, s);
    WiredPhiKeys(p, m, code, p', s);
    forall x | x in PhisOf(p, s)
      ensures x in PhisOf(p', s) && PhiOperand(PhisOf(p', s)[x], b) == PhiOperand(PhisOf(p, s)[x], b)
    {
      PhiUnchanged(p, m, code, p', b, s, x);
    }
    EdgeAgrees(p, p', sem, b, s, st, st');
    if s in m.loop {
      LoopEdgeInside(p, m, code, b, s);
      LoopPhisSettled(p, m, code, p', sem, b, s, st');
    }
  }

  lemma MotionStrict(p: Program, m: Motion, code: map<Block, seq<Ins>>)
    requires MotionOk(p, m, code)
    ensures Strict(p)
  {
  }

  lemma LoopEdgeInside(p: Program, m: Motion, code: map<Block, seq<Ins>>, b: Block, s: Block)
    requires MotionOk(p, m, code) && b in p.g.blocks && s in p.g.succs[b] && s in m.loop
    requires s != m.header || b in m.loop
    ensures b in m.loop
  {
    hide Extracted, InLoop, Reachable;
    if b !in m.loop {
      EnteredAtHeader(p.g, m.loop, m.header, b, s);
    }
  }

  lemma LoopPhisSettled(p: Program, m: Motion, code: map<Block, seq<Ins>>, p': Program, sem: Sem, from: Block, s: Block, st': State)
    requires MotionOk(p, m, code) && Wired(p, m, code, p') && s in m.loop && Settled(m.moved, sem, st'.env)
    ensures Settled(m.moved, sem, EnterBlock(p', sem, from, s, st').env)
  {
    hide Reachable, InLoop, IsHeader, Settled, Read, InLoopDef, CodeUsesOk, TermUsesOk, PhiUsesOk, TargetsMatch;
    assert s in BlockSet(p.g);
    WiredPhiKeys(p, m, code, p', s);
    HoistableIsQuiet(p, m.loop, m.moved);
    forall x | x in PhisOf(p, s) ensures InLoopDef(p, m.loop, x) && x !in Ids(m.moved) {
      PhisAreQuiet(p, m.loop, m.moved, s, x);
    }
    var ps := PhisOf(p', s);
    var add := map x | x in ps :: Read(sem, st'.env, PhiOperand(ps[x], from));
    SettledAcrossPhis(p, m.loop, m.moved, sem, s, st'.env, add);
  }

  /** Fresh ids of the new block's phis. */
  lemma NewPhisFresh(p: Program, m: Motion, code: map<Block, seq<Ins>>, x: Id)
    requires MotionOk(p, m, code) && x in m.newPhi
    ensures m.newPhi[x] !in Ids(m.moved) && forall b :: !AvailableIn(p, m.newPhi[x], b)
  {
    hide Reachable, InLoop, IsHeader, PhiKeysArePreds, Dominates, CodeUsesOk, TermUsesOk, PhiUsesOk, TargetsMatch;
    if m.newPhi[x] in Ids(m.moved) {
      MovedDefined(p, m.loop, m.moved, m.newPhi[x]);
    }
  }

  lemma MovedDefined(p: Program, loop: set<Block>, moved: seq<Ins>, x: Id)
    requires Hoistable(p, loop, moved) && loop <= BlockSet(p.g) && x in Ids(moved)
    ensures exists d :: DefinedAt(p, x, d)
  {
    var n, b, j := MovedPosition(p, loop, moved, x);
    assert b in BlockSet(p.g);
    assert DefinedAt(p, x, AsIns(b, j));
  }

  /** The new block's phi takes the operand the header's phi had for the outside predecessor b. */
  lemma OuterOperand(p: Program, m: Motion, code: map<Block, seq<Ins>>, p': Program, b: Block, x: Id)
    requires MotionOk(p, m, code) && Wired(p, m, code, p') && x in PhisOf(p, m.header)
    requires b in p.g.blocks && m.header in p.g.succs[b] && b !in m.loop
    ensures x in m.newPhi && m.newPhi[x] in PhisOf(p', m.newBlock)
    ensures PhiOperand(PhisOf(p', m.newBlock)[m.newPhi[x]], b) == PhiOperand(PhisOf(p, m.header)[x], b)
    ensures x in PhisOf(p', m.header) && PhiOperand(PhisOf(p', m.header)[x], m.newBlock) == Result(m.newPhi[x])
  {
    hide Extracted, Reachable, IsHeader, InLoop, CodeUsesOk, TermUsesOk, PhiUsesOk, UniqueDefs, TargetsMatch;
  }

  lemma OuterKeys(p: Program, m: Motion, code: map<Block, seq<Ins>>, p': Program, y: Id)
    requires MotionOk(p, m, code) && Wired(p, m, code, p') && y in PhisOf(p', m.newBlock)
    ensures exists x :: x in m.newPhi && m.newPhi[x] == y
  {
    hide Extracted, Reachable, IsHeader, InLoop, Strict, PhiKeysArePreds;
    assert y in m.newPhi.Values;
  }

  /** Through the new block: its phis, the hoisted code, then the header's phis. */
  ghost function ThroughNew(p': Program, m: Motion, sem: Sem, b: Block, st': State): State {
    EnterBlock(p', sem, m.newBlock, m.header, RunCode(sem, m.moved, EnterBlock(p', sem, b, m.newBlock, st')))
  }

  lemma NewPhiValue(p: Program, m: Motion, code: map<Block, seq<Ins>>, p': Program, sem: Sem, b: Block, st': State, x: Id)
    requires MotionOk(p, m, code) && Wired(p, m, code, p') && x in PhisOf(p, m.header)
    requires b in p.g.blocks && m.header in p.g.succs[b] && b !in m.loop
    ensures Get(ThroughNew(p', m, sem, b, st').env, x) == Read(sem, st'.env, PhiOperand(PhisOf(p, m.header)[x], b))
  {
    hide MotionOk, Wired, RunCode, InOrder, Settled, Read;
    OuterOperand(p, m, code, p', b, x);
    NewPhisFresh(p, m, code, x);
    MotionFacts(p, m, code);
    var s1 := EnterBlock(p', sem, b, m.newBlock, st');
    RunHoisted(m.moved, |m.moved|, sem, s1);
    assert m.moved[..|m.moved|] == m.moved;
    var s2 := RunCode(sem, m.moved, s1);
    ReadResult(sem, s2.env, m.newPhi[x]);
  }

  lemma ReadResult(sem: Sem, env: Env, x: Id)
    ensures Read(sem, env, Result(x)) == Get(env, x)
  {
  }

  lemma OldValueKept(p: Program, m: Motion, code: map<Block, seq<Ins>>, p': Program, sem: Sem, b: Block, st': State, x: Id)
    requires MotionOk(p, m, code) && Wired(p, m, code, p') && AvailableIn(p, x, m.header) && x !in PhisOf(p, m.header)
    ensures Get(ThroughNew(p', m, sem, b, st').env, x) == Get(st'.env, x)
  {
    hide MotionOk, Wired, RunCode, InOrder, Settled, Read, AvailableIn;
    MotionFacts(p, m, code);
    assert m.header in BlockSet(p.g);
    WiredPhiKeys(p, m, code, p', m.header);
    var s1 := EnterBlock(p', sem, b, m.newBlock, st');
    if x in PhisOf(p', m.newBlock) {
      OuterKeys(p, m, code, p', x);
      var y :| y in m.newPhi && m.newPhi[y] == x;
      NewPhisFresh(p, m, code, y);
    }
    RunHoisted(m.moved, |m.moved|, sem, s1);
    assert m.moved[..|m.moved|] == m.moved;
  }

  lemma NewBlockEdge(p: Program, m: Motion, code: map<Block, seq<Ins>>, p': Program, sem: Sem, b: Block, st: State, st': State)
    requires MotionOk(p, m, code) && Wired(p, m, code, p') && b in p.g.blocks && Reachable(p.g, b)
    requires m.header in p.g.succs[b] && b !in m.loop
    requires SameSoFar(p, m.loop, m.moved, sem, b, |CodeOf(p, b)|, st, st')
    ensures Related(p, m, sem, At(m.header, EnterBlock(p, sem, b, m.header, st)), At(m.header, ThroughNew(p', m, sem, b, st')))
  {
    hide MotionOk, Wired, AgreeAt, Reachable, Settled, Read, AvailableIn, UseOk, RunCode, InOrder;
    hide CodeUsesOk, TermUsesOk, UniqueDefs, TargetsMatch, BodyFacts, ThroughNew;
    MotionFacts(p, m, code);
    ReachNext(p.g, b, m.header);
    var h := m.header;
    var next, next' := EnterBlock(p, sem, b, h, st), ThroughNew(p', m, sem, b, st');
    forall x | AvailableIn(p, x, h) ensures Get(next.env, x) == Get(next'.env, x) {
      if x in PhisOf(p, h) {
        NewPhiValue(p, m, code, p', sem, b, st', x);
        assert b in p.g.preds[h];
        ReadsAgree(p, sem, b, |CodeOf(p, b)|, st.env, st'.env, PhiOperand(PhisOf(p, h)[x], b));
      } else {
        OldValueKept(p, m, code, p', sem, b, st', x);
        AvailableAcrossEdge(p, x, b, h);
        AvailableIsUse(p, x, b);
        ReadsAgree(p, sem, b, |CodeOf(p, b)|, st.env, st'.env, Result(x));
        ReadResult(sem, st.env, x);
        ReadResult(sem, st'.env, x);
      }
    }
    SettledThroughNew(p, m, code, p', sem, b, st');
  }

  lemma AvailableIsUse(p: Program, x: Id, b: Block)
    requires AvailableOut(p, x, b)
    ensures UseOk(p, Result(x), b, |CodeOf(p, b)|)
  {
  }

  lemma SettledThroughNew(p: Program, m: Motion, code: map<Block, seq<Ins>>, p': Program, sem: Sem, b: Block, st': State)
    requires MotionOk(p, m, code) && Wired(p, m, code, p')
    ensures ThroughNew(p', m, sem, b, st').world == st'.world
    ensures Settled(m.moved, sem, ThroughNew(p', m, sem, b, st').env)
  {
    hide MotionOk, Wired, RunCode, InOrder, Settled, Read;
    MotionFacts(p, m, code);
    var s1 := EnterBlock(p', sem, b, m.newBlock, st');
    RunHoisted(m.moved, |m.moved|, sem, s1);
    assert m.moved[..|m.moved|] == m.moved;
    LoopPhisSettled(p, m, code, p', sem, m.newBlock, m.header, RunCode(sem, m.moved, s1));
  }

  lemma WiredTerm(p: Program, m: Motion, code: map<Block, seq<Ins>>, p': Program, sem: Sem, b: Block, env: Env)
    requires MotionOk(p, m, code) && Wired(p, m, code, p') && b in p.g.blocks
    ensures TermOf(p', b).Return? <==> TermOf(p, b).Return?
    ensures TermOf(p, b).Return? ==> TermOf(p', b) == TermOf(p, b)
    ensures !TermOf(p, b).Return? ==>
              var s, s' := Target(TermOf(p, b), sem, env), Target(TermOf(p', b), sem, env);
              s in p.g.succs[b] && s' == if s == m.header && b !in m.loop then m.newBlock else s
    ensures TermOf(p', m.newBlock) == Jump(m.header) && CodeOf(p', m.newBlock) == m.moved
  {
    hide Extracted, Reachable, IsHeader, InLoop, CodeUsesOk, TermUsesOk, PhiUsesOk, UniqueDefs, PhiKeysArePreds;
    assert p.g.succs[b] == TermTargets(TermOf(p, b));
  }

  lemma SameDecision(p: Program, sem: Sem, b: Block, st: State, st': State)
    requires Strict(p) && b in p.g.blocks && AgreeAt(p, b, |CodeOf(p, b)|, st.env, st'.env)
    ensures var t := TermOf(p, b);
            && (t.Return? ==> Read(sem, st.env, t.value) == Read(sem, st'.env, t.value))
            && (!t.Return? ==> Target(t, sem, st.env) == Target(t, sem, st'.env))
  {
    hide AgreeAt, UseOk, CodeUsesOk, PhiUsesOk, UniqueDefs, TargetsMatch;
    var t := TermOf(p, b);
    forall v | v in TermUses(t) ensures Read(sem, st.env, v) == Read(sem, st'.env, v) {
      ReadsAgree(p, sem, b, |CodeOf(p, b)|, st.env, st'.env, v);
    }
    match t
    case Jump(_) =>
    case Branch(c, _, _) => assert c in TermUses(t);
    case Return(v) => assert v in TermUses(t);
  }

  /** One step of the original program is one step of the moved one, or two through the new block. */
  lemma StepRelated(p: Program, m: Motion, code: map<Block, seq<Ins>>, p': Program, sem: Sem, c: Config, c': Config)
      returns (k: nat)
    requires MotionOk(p, m, code) && Wired(p, m, code, p') && Related(p, m, sem, c, c')
    ensures 1 <= k <= 2 && Related(p, m, sem, StepConfig(p, sem, c), Steps(p', sem, c', k))
  {
    hide MotionOk, Wired, AgreeAt, AgreeIn, Reachable, Settled, Read, RunCode, EnterBlock, Target;
    k := 1;
    assert Steps(p', sem, c', 1) == StepConfig(p', sem, c');
    if c.At? {
      var b, st, st' := c.block, c.st, c'.st;
      MotionStrict(p, m, code);
      BodyStep(p, m, code, p', sem, b, st, st');
      var end, end' := RunCode(sem, CodeOf(p, b), st), RunCode(sem, CodeOf(p', b), st');
      SameDecision(p, sem, b, end, end');
      WiredTerm(p, m, code, p', sem, b, end'.env);
      if !TermOf(p, b).Return? {
        var s := Target(TermOf(p, b), sem, end.env);
        if s == m.header && b !in m.loop {
          NewBlockEdge(p, m, code, p', sem, b, end, end');
          var c1 := StepConfig(p', sem, c');
          assert Steps(p', sem, c', 2) == StepConfig(p', sem, c1) by {
            assert Steps(p', sem, c', 2) == Steps(p', sem, c1, 1);
            assert Steps(p', sem, c1, 1) == Steps(p', sem, StepConfig(p', sem, c1), 0);
          }
          JumpTarget(sem, RunCode(sem, CodeOf(p', m.newBlock), c1.st).env, m.header);
          k := 2;
        } else {
          DirectEdge(p, m, code, p', sem, b, s, end, end');
        }
      }
    }
  }

  lemma JumpTarget(sem: Sem, env: Env, b: Block)
    ensures Target(Jump(b), sem, env) == b
  {
  }

  /**
    Motion preserves meaning: after every number of steps of the original program
    there is a corresponding point of the moved program at the same block, with
    the same effects, the same value in everything computed so far, and the same
    result once it has returned.
   */
  lemma {:induction false} MotionPreserves(p: Program, m: Motion, code: map<Block, seq<Ins>>, p': Program,
                                           sem: Sem, world: World, n: nat)
      returns (k: nat)
    requires MotionOk(p, m, code) && Wired(p, m, code, p')
    ensures n <= k <= 2 * n && Related(p, m, sem, Steps(p, sem, Start(p, world), n), Steps(p', sem, Start(p', world), k))
    decreases n
  {
    hide MotionOk, Wired, Related, StepConfig;
    if n == 0 {
      k := 0;
      StartRelated(p, m, code, p', sem, world);
    } else {
      var j := MotionPreserves(p, m, code, p', sem, world, n - 1);
      var c, c' := Steps(p, sem, Start(p, world), n - 1), Steps(p', sem, Start(p', world), j);
      var i := StepRelated(p, m, code, p', sem, c, c');
      StepsAdd(p, sem, Start(p, world), n - 1, 1);
      StepsAdd(p', sem, Start(p', world), j, i);
      assert Steps(p, sem, c, 1) == StepConfig(p, sem, c);
      k := j + i;
    }
  }

  lemma StartRelated(p: Program, m: Motion, code: map<Block, seq<Ins>>, p': Program, sem: Sem, world: World)
    requires MotionOk(p, m, code) && Wired(p, m, code, p')
    ensures Related(p, m, sem, Start(p, world), Start(p', world))
  {
    hide Extracted, AvailableIn, CodeUsesOk, TermUsesOk, PhiUsesOk, UniqueDefs, TargetsMatch;
    assert Connects(p.g, [p.g.entry], p.g.entry, p.g.entry);
    EntryNotInLoop(p, m.header);
  }

  /** The entry has no predecessor, so it is in no loop whose header it could only reach by itself. */
  lemma EntryNotInLoop(p: Program, h: Block)
    requires WellFormed(p.g) && p.g.preds[p.g.entry] == {} && IsHeader(p.g, h)
    ensures !InLoop(p.g, p.g.entry, h)
  {
    var s :| BackEdge(p.g, s, h);
    assert s in p.g.preds[h];
    if InLoop(p.g, p.g.entry, h) {
      HeaderDominatesLoop(p.g, p.g.entry, h);
      EntryDominatedOnlyByItself(p.g, h);
    }
  }

  /** A returned result of the moved program is a result of the original one. */
  lemma ResultsAreOriginal(p: Program, m: Motion, code: map<Block, seq<Ins>>, p': Program, sem: Sem, world: World, k: nat)
      returns (n: nat)
    requires MotionOk(p, m, code) && Wired(p, m, code, p') && Steps(p', sem, Start(p', world), k).Done?
    ensures Steps(p, sem, Start(p, world), n) == Steps(p', sem, Start(p', world), k)
  {
    hide MotionOk, Wired, Steps, AgreeIn, Settled, Reachable;
    var j := MotionPreserves(p, m, code, p', sem, world, k);
    StepsAdd(p', sem, Start(p', world), k, j - k);
    DoneStays(p', sem, Steps(p', sem, Start(p', world), k), j - k);
    n := k;
  }

  // ----- where the operands of hoisted code come from -----

  /** A walk from the header to a block of its loop that stays in the loop. */
  lemma WalkInside(g: Graph, loop: set<Block>, h: Block, b: Block) returns (v: seq<Block>)
    requires WellFormed(g) && (forall x :: x in loop <==> InLoop(g, x, h)) && b in loop && Reachable(g, b)
    ensures Connects(g, v, h, b) && forall x :: x in v ==> x in loop
  {
    HeaderDominatesLoop(g, b, h);
    var w :| Connects(g, w, g.entry, b);
    var k := LastOf(w, h);
    Suffix(g, w, k);
    v := w[k..];
    forall i | 0 <= i < |v| ensures v[i] in loop {
      SuffixInside(g, loop, h, v, i);
    }
  }

  lemma {:induction false} SuffixInside(g: Graph, loop: set<Block>, h: Block, v: seq<Block>, i: nat)
    requires WellFormed(g) && (forall x :: x in loop <==> InLoop(g, x, h))
    requires IsWalk(g, v) && v[0] == h && h !in v[1..] && Last(v) in loop && i < |v|
    ensures v[i] in loop
    decreases |v| - i
  {
    if i < |v| - 1 {
      SuffixInside(g, loop, h, v, i + 1);
      WalkInGraph(g, v);
      assert Edge(g, v[i], v[i + 1]);
      assert v[i + 1] == v[1..][i];
      PredecessorInLoop(g, v[i], v[i + 1], h);
    }
  }

  /** What a loop block uses but the loop does not define is defined in a block dominating the header. */
  lemma OutsideOperandDominatesHeader(p: Program, loop: set<Block>, h: Block, b: Block, d: Block)
    requires WellFormed(p.g) && (forall x :: x in loop <==> InLoop(p.g, x, h)) && Reachable(p.g, b)
    requires b in loop && d !in loop && Dominates(p.g, d, b)
    ensures Dominates(p.g, d, h)
  {
    var v := WalkInside(p.g, loop, h, b);
    forall w | Connects(p.g, w, p.g.entry, h) ensures d in w {
      Join(p.g, w, v);
      assert d in w + v[1..];
    }
  }

  /** Each operand of a hoisted instruction is defined by earlier hoisted code or in a block dominating the header. */
  lemma HoistedOperandsDefined(p: Program, m: Motion, code: map<Block, seq<Ins>>, n: nat, x: Id)
    requires MotionOk(p, m, code) && n < |m.moved| && Result(x) in m.moved[n].args
    requires forall b :: b in p.g.blocks ==> Reachable(p.g, b)
    ensures x in Ids(m.moved[..n]) || exists d :: DefinedAt(p, x, d) && d.block !in m.loop && Dominates(p.g, d.block, m.header)
  {
    assert OperandOk(p, m.loop, m.moved, n, Result(x));
    if x !in Ids(m.moved[..n]) {
      var b :| b in m.loop && m.moved[n] in CodeOf(p, b);
      var j :| 0 <= j < |CodeOf(p, b)| && CodeOf(p, b)[j] == m.moved[n];
      assert b in BlockSet(p.g);
      assert UseOk(p, Result(x), b, j);
      var d := AvailableDef(p, x, b, j);
      assert d.block !in m.loop;
      OutsideOperandDominatesHeader(p, m.loop, m.header, b, d.block);
    }
  }

  lemma AvailableDef(p: Program, x: Id, b: Block, j: nat) returns (d: Def)
    requires AvailableAt(p, x, b, j)
    ensures DefinedAt(p, x, d) && Dominates(p.g, d.block, b)
  {
    if AvailableIn(p, x, b) {
      d :| DefinedAt(p, x, d) && if d == AsPhi(b) then true else d.block != b && Dominates(p.g, d.block, b);
    } else {
      var i: nat :| i < j && DefinedAt(p, x, AsIns(b, i));
      d := AsIns(b, i);
    }
  }

  // ----- the pass: placing the new block -----

  /** The outside predecessors in `done` now lead to the new block. */
  ghost predicate Rewired(p: Program, m: Motion, done: set<Block>, g: Graph, term: map<Block, Term>)
    requires WellFormed(p.g) && m.header in p.g.blocks
  {
    && g.entry == p.g.entry && g.blocks == p.g.blocks
    && g.preds == p.g.preds[m.header := p.g.preds[m.header] - done][m.newBlock := done]
    && g.succs == (map b | b in p.g.succs :: NewSuccs(p, m, done, b))[m.newBlock := {}]
    && (forall b :: b in p.g.blocks ==> b in term && term[b] == NewTerm(p, m, done, b))
  }

  function NewSuccs(p: Program, m: Motion, done: set<Block>, b: Block): set<Block>
    requires b in p.g.succs
  {
    if b in done then p.g.succs[b] - {m.header} + {m.newBlock} else p.g.succs[b]
  }

  function NewTerm(p: Program, m: Motion, done: set<Block>, b: Block): Term {
    if b in done then Retarget(TermOf(p, b), m.header, m.newBlock) else TermOf(p, b)
  }

  /** Redirects every predecessor outside the loop to the new block. */
  method RewirePreds(p: Program, m: Motion) returns (g: Graph, term: map<Block, Term>)
    requires WellFormed(p.g) && m.header in p.g.blocks
    requires m.newBlock !in p.g.blocks && m.newBlock !in p.g.preds && m.newBlock !in p.g.succs
    ensures Rewired(p, m, Outside(p.g, m), g, term) && term.Keys == BlockSet(p.g)
  {
    g := p.g.(preds := p.g.preds[m.newBlock := {}], succs := p.g.succs[m.newBlock := {}]);
    term := map b | b in BlockSet(p.g) :: TermOf(p, b);
    var preds := Enumerate(p.g.preds[m.header]);
    ghost var done: set<Block> := {};
    NothingRewired(p, m, g, term);
    for k := 0 to |preds|
      invariant Rewired(p, m, done, g, term) && term.Keys == BlockSet(p.g)
      invariant forall b :: b in done <==> b in preds[..k] && b !in m.loop
    {
      var pred := preds[k];
      if pred !in m.loop {
        RewireOne(p, m, done, g, term, pred);
        g := g.(preds := g.preds[m.header := g.preds[m.header] - {pred}][m.newBlock := g.preds[m.newBlock] + {pred}],
                succs := g.succs[pred := g.succs[pred] - {m.header} + {m.newBlock}]);
        term := term[pred := Retarget(term[pred], m.header, m.newBlock)];
        done := done + {pred};
      }
      assert preds[..k + 1] == preds[..k] + [pred];
    }
    assert preds[..|preds|] == preds;
    assert done == Outside(p.g, m);
  }

  lemma NothingRewired(p: Program, m: Motion, g: Graph, term: map<Block, Term>)
    requires WellFormed(p.g) && m.header in p.g.blocks
    requires g == p.g.(preds := p.g.preds[m.newBlock := {}], succs := p.g.succs[m.newBlock := {}])
    requires forall b :: b in p.g.blocks ==> b in term && term[b] == TermOf(p, b)
    ensures Rewired(p, m, {}, g, term)
  {
    assert p.g.preds[m.header] - {} == p.g.preds[m.header];
  }

  lemma RewireOne(p: Program, m: Motion, done: set<Block>, g: Graph, term: map<Block, Term>, pred: Block)
    requires WellFormed(p.g) && m.header in p.g.blocks && m.newBlock !in p.g.blocks && m.newBlock !in p.g.preds && m.newBlock !in p.g.succs
    requires Rewired(p, m, done, g, term) && pred in p.g.blocks && pred !in done
    ensures m.header in g.preds && m.newBlock in g.preds && pred in g.succs && pred in term
    ensures Rewired(p, m, done + {pred},
                    g.(preds := g.preds[m.header := g.preds[m.header] - {pred}][m.newBlock := g.preds[m.newBlock] + {pred}],
                       succs := g.succs[pred := g.succs[pred] - {m.header} + {m.newBlock}]),
                    term[pred := Retarget(term[pred], m.header, m.newBlock)])
  {
    hide TermOf, Retarget;
    var done' := done + {pred};
    assert p.g.preds[m.header] - done - {pred} == p.g.preds[m.header] - done';
    var succs' := g.succs[pred := g.succs[pred] - {m.header} + {m.newBlock}];
    assert succs' == (map b | b in p.g.succs :: NewSuccs(p, m, done', b))[m.newBlock := {}];
  }

  /** Inner halves: split for the phis in `done`, still whole for the others. */
  function InnerPart(m: Motion, phis: map<Id, map<Block, Value>>, done: set<Id>): map<Id, map<Block, Value>>
    requires m.newPhi.Keys == phis.Keys
  {
    map x | x in phis :: if x in done then InnerPhi(m, x, phis[x]) else phis[x]
  }

  function Image(newPhi: map<Id, Id>, done: set<Id>): set<Id> {
    set x | x in done && x in newPhi :: newPhi[x]
  }

  ghost predicate OuterPart(m: Motion, phis: map<Id, map<Block, Value>>, done: set<Id>, outer: map<Id, map<Block, Value>>)
    requires m.newPhi.Keys == phis.Keys
  {
    && outer.Keys == Image(m.newPhi, done)
    && forall x :: x in done && x in phis ==> m.newPhi[x] in outer && outer[m.newPhi[x]] == OuterPhi(m, phis[x])
  }

  lemma InnerNext(m: Motion, phis: map<Id, map<Block, Value>>, done: set<Id>, x: Id)
    requires m.newPhi.Keys == phis.Keys && x in phis
    ensures InnerPart(m, phis, done)[x := InnerPhi(m, x, phis[x])] == InnerPart(m, phis, done + {x})
  {
    hide InnerPhi;
  }

  lemma ImageNext(newPhi: map<Id, Id>, done: set<Id>, x: Id)
    requires x in newPhi
    ensures Image(newPhi, done + {x}) == Image(newPhi, done) + {newPhi[x]}
  {
  }

  lemma OuterNext(m: Motion, phis: map<Id, map<Block, Value>>, done: set<Id>, outer: map<Id, map<Block, Value>>, x: Id)
    requires m.newPhi.Keys == phis.Keys && x in phis && OuterPart(m, phis, done, outer)
    requires forall y, z :: y in m.newPhi && z in m.newPhi && m.newPhi[y] == m.newPhi[z] ==> y == z
    ensures OuterPart(m, phis, done + {x}, outer[m.newPhi[x] := OuterPhi(m, phis[x])])
  {
    hide OuterPhi, Image;
    ImageNext(m.newPhi, done, x);
  }

  /** Splits every header phi between the header and the new block. */
  method SplitPhis(p: Program, m: Motion) returns (phis: map<Block, map<Id, map<Block, Value>>>)
    requires m.newPhi.Keys == PhisOf(p, m.header).Keys && m.newBlock !in p.phis && m.newBlock != m.header
    requires forall x, y :: x in m.newPhi && y in m.newPhi && m.newPhi[x] == m.newPhi[y] ==> x == y
    ensures WiredPhis(p, m, p.(phis := phis)) && phis.Keys == p.phis.Keys + {m.header, m.newBlock}
  {
    hide InnerPart, OuterPart, InnerPhi, OuterPhi, WiredPhis, Image;
    var before := PhisOf(p, m.header);
    var inner, outer := before, map[];
    var xs := Enumerate(before.Keys);
    ghost var done: set<Id> := {};
    NothingSplit(m, before);
    for k := 0 to |xs|
      invariant inner == InnerPart(m, before, done) && OuterPart(m, before, done, outer)
      invariant forall j :: 0 <= j < k ==> xs[j] in done
    {
      var x := xs[k];
      assert x in before.Keys;
      InnerNext(m, before, done, x);
      OuterNext(m, before, done, outer, x);
      inner := inner[x := InnerPhi(m, x, before[x])];
      outer := outer[m.newPhi[x] := OuterPhi(m, before[x])];
      done := done + {x};
    }
    phis := p.phis[m.header := inner][m.newBlock := outer];
    forall x | x in before ensures x in done {
      assert x in xs;
    }
    AllSplit(p, m, done, outer);
  }

  lemma NothingSplit(m: Motion, phis: map<Id, map<Block, Value>>)
    requires m.newPhi.Keys == phis.Keys
    ensures InnerPart(m, phis, {}) == phis && OuterPart(m, phis, {}, map[])
  {
  }

  lemma AllSplit(p: Program, m: Motion, done: set<Id>, outer: map<Id, map<Block, Value>>)
    requires m.newPhi.Keys == PhisOf(p, m.header).Keys && m.newBlock != m.header && m.newBlock !in p.phis
    requires (forall x :: x in PhisOf(p, m.header) ==> x in done) && OuterPart(m, PhisOf(p, m.header), done, outer)
    ensures WiredPhis(p, m, p.(phis := p.phis[m.header := InnerPart(m, PhisOf(p, m.header), done)][m.newBlock := outer]))
  {
    hide InnerPhi, OuterPhi, Image;
    FullImage(m.newPhi, done);
    var phis := PhisOf(p, m.header);
    assert InnerPart(m, phis, done) == map x | x in phis :: InnerPhi(m, x, phis[x]);
  }

  lemma FullImage(newPhi: map<Id, Id>, done: set<Id>)
    requires forall x :: x in newPhi ==> x in done
    ensures Image(newPhi, done) == newPhi.Values
  {
    forall y | y in newPhi.Values ensures y in Image(newPhi, done) {
      var x :| x in newPhi && newPhi[x] == y;
    }
  }

  /** The new block stands directly before the header in the function's block list. */
  function InsertBefore(blocks: seq<Block>, h: Block, b: Block): (r: seq<Block>)
    ensures forall x :: x in r <==> x in blocks || (x == b && h in blocks)
  {
    if blocks == [] then []
    else (if blocks[0] == h then [b] else []) + [blocks[0]] + InsertBefore(blocks[1..], h, b)
  }

  class FunctionIr {
    var ir: Program

    constructor (p: Program)
      ensures ir == p
    {
      ir := p;
    }

    method FixNewForwardBlock(m: Motion, code: map<Block, seq<Ins>>)
      requires MotionOk(ir, m, code)
      modifies this
      ensures Wired(old(ir), m, code, ir)
      ensures Inserted(old(ir).g, m.header, m.newBlock, Outside(old(ir).g, m), ir.g)
      ensures ir.g.blocks == InsertBefore(old(ir).g.blocks, m.header, m.newBlock)
      ensures ir.phis.Keys == old(ir).phis.Keys + {m.header, m.newBlock} && ir.code.Keys == code.Keys + {m.newBlock}
      ensures ir.term.Keys == BlockSet(old(ir).g) + {m.newBlock}
    {
      hide *;
      ghost var p := ir;
      MotionShape(p, m, code);
      var g, term := RewirePreds(ir, m);
      var phis := SplitPhis(ir, m);
      RewiredGraph(p, m, g, term);
      g := g.(preds := g.preds[m.header := g.preds[m.header] + {m.newBlock}],
              succs := g.succs[m.newBlock := {m.header}],
              blocks := InsertBefore(g.blocks, m.header, m.newBlock));
      ir := Program(g, phis, code[m.newBlock := m.moved], term[m.newBlock := Jump(m.header)]);
      WiredByConstruction(p, m, code, g, phis, term);
    }

    /**
      One loop: hoist what is invariant and, if anything moved, wire the new block.
      The result runs exactly as before.
     */
    method MoveLoop(header: Block, loop: set<Block>, newBlock: Block, home: map<Id, Block>, newPhi: map<Id, Id>)
        returns (m: Motion, ghost code: map<Block, seq<Ins>>)
      requires LoopOk(ir, header, loop, newBlock, home, newPhi)
      modifies this
      ensures m.moved == [] ==> ir == old(ir)
      ensures exists order :: OrderOk(old(ir), loop, order) && Thorough(old(ir), loop, order, |order|, m.moved)
      ensures forall b, i :: b in loop && 0 <= i < |CodeOf(old(ir), b)| && Pure(CodeOf(old(ir), b)[i]) ==>
                CodeOf(old(ir), b)[i].id in Ids(m.moved) || ReadsLoop(old(ir), loop, CodeOf(old(ir), b)[i])
      ensures m == Motion(header, loop, newBlock, m.moved, newPhi)
      ensures m.moved != [] ==> MotionOk(old(ir), m, code) && Wired(old(ir), m, code, ir)
      ensures m.moved != [] ==> Inserted(old(ir).g, header, newBlock, Outside(old(ir).g, m), ir.g) && ir.g.blocks == InsertBefore(old(ir).g.blocks, header, newBlock)
      ensures m.moved != [] ==> ir.phis.Keys == old(ir).phis.Keys + {header, newBlock} && ir.code.Keys == code.Keys + {newBlock} && ir.term.Keys == BlockSet(old(ir).g) + {newBlock}
    {
      hide Strict, InLoop, PhiKeysArePreds, Reachable, HomesOk, Extracted, OrderOk, Thorough, Pure, ReadsLoop, Ids, CodeOf;
      assert Strict(ir) ==> UniqueDefs(ir) by { StrictUnique(ir); }
      var c, moved := FindInvariantCodes(ir, loop, newBlock, home);
      m, code := Motion(header, loop, newBlock, moved, newPhi), c;
      ghost var order :| OrderOk(ir, loop, order) && Thorough(ir, loop, order, |order|, moved);
      forall b, i | b in loop && 0 <= i < |CodeOf(ir, b)| && Pure(CodeOf(ir, b)[i])
        ensures CodeOf(ir, b)[i].id in Ids(moved) || ReadsLoop(ir, loop, CodeOf(ir, b)[i])
      {
        ThoroughMovesInvariants(ir, loop, order, moved, b, i);
      }
      if moved != [] {
        FixNewForwardBlock(m, c);
      }
    }
  }

  lemma StrictUnique(p: Program)
    ensures Strict(p) ==> UniqueDefs(p)
  {
  }

  ghost predicate LoopOk(p: Program, header: Block, loop: set<Block>, newBlock: Block, home: map<Id, Block>, newPhi: map<Id, Id>) {
    && Strict(p) && IsHeader(p.g, header)
    && (forall b :: b in loop <==> InLoop(p.g, b, header))
    && loop <= BlockSet(p.g)
    && newBlock !in p.g.blocks && newBlock !in p.g.preds && newBlock !in p.g.succs
    && newBlock !in p.phis && newBlock !in p.code && newBlock !in p.term && newBlock !in loop
    && HomesOk(p, loop, home, [])
    && newPhi.Keys == PhisOf(p, header).Keys
    && (forall x :: x in newPhi ==> forall d :: !DefinedAt(p, newPhi[x], d))
    && (forall x, y :: x in newPhi && y in newPhi && newPhi[x] == newPhi[y] ==> x == y)
    && PhiKeysArePreds(p, header)
    && Reachable(p.g, header)
  }

  lemma MotionShape(p: Program, m: Motion, code: map<Block, seq<Ins>>)
    requires MotionOk(p, m, code)
    ensures WellFormed(p.g) && m.header in p.g.blocks && m.newBlock != m.header && m.newBlock !in m.loop
    ensures m.newBlock !in p.g.blocks && m.newBlock !in p.g.preds && m.newBlock !in p.g.succs && m.newBlock !in p.phis
    ensures m.newPhi.Keys == PhisOf(p, m.header).Keys
    ensures forall x, y :: x in m.newPhi && y in m.newPhi && m.newPhi[x] == m.newPhi[y] ==> x == y
    ensures forall b :: b in p.g.blocks ==> (b in code ==> b != m.newBlock)
  {
    hide Extracted, Dominates, CodeUsesOk, TermUsesOk, PhiUsesOk, UniqueDefs, TargetsMatch, PhiKeysArePreds, Reachable;
    HeaderInItsLoop(p.g, m.header);
    assert m.header in BlockSet(p.g) && m.newBlock !in BlockSet(p.g);
  }

  lemma RewiredGraph(p: Program, m: Motion, g: Graph, term: map<Block, Term>)
    requires WellFormed(p.g) && m.header in p.g.blocks && m.newBlock != m.header
    requires Rewired(p, m, Outside(p.g, m), g, term)
    requires m.newBlock !in p.g.blocks && term.Keys == BlockSet(p.g)
    ensures m.header in g.preds && g.blocks == p.g.blocks && g.entry == p.g.entry
    ensures Inserted(p.g, m.header, m.newBlock, Outside(p.g, m),
                     g.(preds := g.preds[m.header := g.preds[m.header] + {m.newBlock}],
                        succs := g.succs[m.newBlock := {m.header}],
                        blocks := InsertBefore(g.blocks, m.header, m.newBlock)))
  {
    RewiredEdges(p, m, g, term);
    hide Rewired, NewSuccs;
  }

  lemma RewiredEdges(p: Program, m: Motion, g: Graph, term: map<Block, Term>)
    requires WellFormed(p.g) && m.header in p.g.blocks && m.newBlock != m.header && m.newBlock !in p.g.blocks
    requires Rewired(p, m, Outside(p.g, m), g, term)
    ensures g.entry == p.g.entry && g.blocks == p.g.blocks && m.header in g.preds
    ensures g.preds[m.header := g.preds[m.header] + {m.newBlock}]
         == p.g.preds[m.header := p.g.preds[m.header] - Outside(p.g, m) + {m.newBlock}][m.newBlock := Outside(p.g, m)]
    ensures g.succs[m.newBlock := {m.header}]
         == (map b | b in p.g.succs :: if b in Outside(p.g, m) then p.g.succs[b] - {m.header} + {m.newBlock} else p.g.succs[b])[m.newBlock := {m.header}]
  {
    assert m.header in p.g.preds;
    hide Outside, NewTerm, WellFormed;
    var out := Outside(p.g, m);
    assert (map b | b in p.g.succs :: NewSuccs(p, m, out, b))
        == map b | b in p.g.succs :: if b in out then p.g.succs[b] - {m.header} + {m.newBlock} else p.g.succs[b];
    var a := p.g.preds[m.header] - out;
    var qs := p.g.preds[m.header := a][m.newBlock := out];
    assert g.preds == qs && qs[m.header] == a;
    assert qs[m.header := a + {m.newBlock}] == p.g.preds[m.header := a + {m.newBlock}][m.newBlock := out];
  }


  lemma WiredByConstruction(p: Program, m: Motion, code: map<Block, seq<Ins>>, g: Graph,
                            phis: map<Block, map<Id, map<Block, Value>>>, term: map<Block, Term>)
    requires MotionOk(p, m, code) && m.header in p.g.blocks && m.newBlock !in p.g.blocks && g.entry == p.g.entry
    requires WiredPhis(p, m, p.(phis := phis))
    requires forall b :: b in p.g.blocks ==> b in term && term[b] == NewTerm(p, m, Outside(p.g, m), b)
    ensures Wired(p, m, code, Program(g, phis, code[m.newBlock := m.moved], term[m.newBlock := Jump(m.header)]))
  {
    hide MotionOk, WiredPhis, NewTerm;
    MotionShape(p, m, code);
    var p' := Program(g, phis, code[m.newBlock := m.moved], term[m.newBlock := Jump(m.header)]);
    TermsByConstruction(p, m, p', term);
    PhisByConstruction(p, m, p.(phis := phis), p');
  }

  lemma TermsByConstruction(p: Program, m: Motion, p': Program, term: map<Block, Term>)
    requires m.header in p.g.preds && m.newBlock !in p.g.blocks && p'.term == term[m.newBlock := Jump(m.header)]
    requires forall b :: b in p.g.blocks ==> b in term && term[b] == NewTerm(p, m, Outside(p.g, m), b)
    ensures WiredTerms(p, m, p')
  {
  }

  lemma PhisByConstruction(p: Program, m: Motion, q: Program, p': Program)
    requires m.newPhi.Keys == PhisOf(p, m.header).Keys && WiredPhis(p, m, q) && p'.phis == q.phis
    ensures WiredPhis(p, m, p')
  {
    hide InnerPhi, OuterPhi;
    assert forall b :: PhisOf(p', b) == PhisOf(q, b);
  }
}
