/**
  The whole pass: every loop's invariant code is moved in front of it, and the phis of
  the new blocks and of the headers are removed where they merge a single value.
 */
module MotionPass {
  import opened Cfg
  import opened NaturalLoops
  import opened MotionGraph
  import opened Ssa
  import opened LoopInvariantMotion
  import opened MotionStrict
  import opened TrivialPhis
  import opened MotionThorough

  // ----- what the pass keeps -----

  ghost predicate WellMade(p: Program) {
    Strict(p) && AllPhiKeys(p) && AllReachable(p.g)
  }

  ghost predicate Returns(p: Program, sem: Sem, world: World, result: int, after: World) {
    exists n: nat :: Steps(p, sem, Start(p, world), n) == Done(result, after)
  }

  /** One program returns exactly what the other does, for every meaning of the operators. */
  ghost predicate SameResults(p: Program, p': Program) {
    forall sem, world, result, after :: Returns(p, sem, world, result, after) <==> Returns(p', sem, world, result, after)
  }

  lemma SameResultsTwice(p: Program, q: Program, r: Program)
    requires SameResults(p, q) && SameResults(q, r)
    ensures SameResults(p, r)
  {
    hide Returns;
  }

  lemma MotionResults(p: Program, m: Motion, code: map<Block, seq<Ins>>, p': Program)
    requires MotionOk(p, m, code) && Wired(p, m, code, p')
    ensures SameResults(p, p')
  {
    hide MotionOk, Wired, Steps;
    forall sem, world, result, after ensures Returns(p, sem, world, result, after) <==> Returns(p', sem, world, result, after) {
      if Returns(p, sem, world, result, after) {
        var n: nat :| Steps(p, sem, Start(p, world), n) == Done(result, after);
        var k := MotionPreserves(p, m, code, p', sem, world, n);
      }
      if Returns(p', sem, world, result, after) {
        var k: nat :| Steps(p', sem, Start(p', world), k) == Done(result, after);
        var n := ResultsAreOriginal(p, m, code, p', sem, world, k);
      }
    }
  }

  lemma RemovalResults(p: Program, b: Block, x: Id, a: Value)
    requires Removable(p, b, x, a)
    ensures SameResults(p, WithoutPhi(p, x, a))
  {
    hide Removable, Steps, WithoutPhi, SameIn;
    var p' := WithoutPhi(p, x, a);
    forall sem, world, result, after ensures Returns(p, sem, world, result, after) <==> Returns(p', sem, world, result, after) {
      forall n: nat
        ensures Steps(p, sem, Start(p, world), n) == Done(result, after) <==> Steps(p', sem, Start(p', world), n) == Done(result, after)
      {
        RemovalPreserves(p, b, x, a, sem, world, n);
      }
    }
  }

  /** home[x] is the block in which x is defined. */
  ghost predicate HomesAre(p: Program, home: map<Id, Block>) {
    && (forall x :: x in home ==> exists d :: DefinedAt(p, x, d))
    && (forall x, d :: DefinedAt(p, x, d) ==> x in home && home[x] == d.block)
  }

  lemma HomesSuffice(p: Program, loop: set<Block>, home: map<Id, Block>)
    requires HomesAre(p, home)
    ensures HomesOk(p, loop, home, [])
  {
    forall x ensures (x in home && home[x] in loop) <==> InLoopDef(p, loop, x) && x !in Ids([]) {
      if x in home {
        var d :| DefinedAt(p, x, d);
      }
    }
  }

  /** Blocks and ids from these numbers on are new. */
  ghost predicate Named(p: Program, nextBlock: nat, nextId: nat) {
    && (forall b :: (b in p.g.blocks || b in p.g.preds || b in p.g.succs || b in p.phis || b in p.code || b in p.term) ==> b.id < nextBlock)
    && (forall x, d :: DefinedAt(p, x, d) ==> x.serial < nextId)
  }

  /** Of two headers, the one listed first is not in the other's loop. */
  ghost predicate OuterFirst(blocks: seq<Block>, loops: map<Block, set<Block>>) {
    && (forall i, j :: 0 <= i < j < |blocks| ==> blocks[i] != blocks[j])
    && (forall i, j :: 0 <= i < j < |blocks| && blocks[i] in loops && blocks[j] in loops ==> blocks[i] !in loops[blocks[j]])
  }

  ghost predicate OuterLoopsFirst(g: Graph) {
    && (forall i, j :: 0 <= i < j < |g.blocks| ==> g.blocks[i] != g.blocks[j])
    && (forall i, j :: 0 <= i < j < |g.blocks| && IsHeader(g, g.blocks[i]) ==> !InLoop(g, g.blocks[i], g.blocks[j]))
  }

  /** The sets found at the start are the loops of the headers still to come. */
  ghost predicate LoopsAre(g: Graph, blocks: seq<Block>, i: nat, loops: map<Block, set<Block>>) {
    forall j :: i <= j < |blocks| && blocks[j] in loops ==> LoopIs(g, blocks[j], loops[blocks[j]])
  }

  /** A listing in which dominators come first lists outer headers before inner ones. */
  lemma DominatorsFirstSuffices(g: Graph)
    requires WellFormed(g) && DominatorsFirst(g)
    ensures OuterLoopsFirst(g)
  {
    forall i, j | 0 <= i < j < |g.blocks| && InLoop(g, g.blocks[i], g.blocks[j]) ensures false {
      HeaderDominatesLoop(g, g.blocks[i], g.blocks[j]);
    }
  }

  lemma LoopInBlocks(g: Graph, h: Block, loop: set<Block>)
    requires WellFormed(g) && LoopIs(g, h, loop)
    ensures loop <= BlockSet(g)
  {
    forall b | b in loop ensures b in g.blocks {
      var s :| BackEdge(g, s, h) && InLoopOf(g, b, s, h);
    }
  }

  lemma LoopsStay(p: Program, m: Motion, code: map<Block, seq<Ins>>, p': Program, blocks: seq<Block>, i: nat, loops: map<Block, set<Block>>)
    requires Moved(p, m, code, p') && i < |blocks| && blocks[i] == m.header && m.header in loops
    requires OuterFirst(blocks, loops) && LoopsAre(p.g, blocks, i, loops)
    ensures LoopsAre(p'.g, blocks, i + 1, loops)
  {
    hide Moved, InLoop, IsHeader, Inserted;
    MovedInserted(p, m, code, p');
    InsertedBlocks(p.g, m.header, m.newBlock, Outside(p.g, m), p'.g);
    forall j | i + 1 <= j < |blocks| && blocks[j] in loops ensures LoopIs(p'.g, blocks[j], loops[blocks[j]]) {
      assert LoopIs(p.g, blocks[j], loops[blocks[j]]);
      OtherLoops(p, m, code, p', blocks[j]);
    }
  }

  lemma HomesMoved(p: Program, m: Motion, code: map<Block, seq<Ins>>, p': Program, home: map<Id, Block>)
    requires Moved(p, m, code, p') && HomesAre(p, home)
    ensures HomesAre(p', NewHomes(m, home))
  {
    hide Moved, DefinedAt, Inserted;
    MovedUnique(p, m, code, p');
    var home' := NewHomes(m, home);
    forall x, d' | DefinedAt(p', x, d') ensures x in home' && home'[x] == d'.block {
      if d'.block == m.newBlock {
        NewDef(p, m, code, p', x, d');
      } else {
        var d := DefSource(p, m, code, p', x, d');
        MovedDefs(p, m, code, p', x, d);
      }
    }
    forall x | x in home' ensures exists d :: DefinedAt(p', x, d) {
      if x in Ids(m.moved) {
        var i :| 0 <= i < |m.moved| && m.moved[i].id == x;
        HoistedDef(p, m, code, p', i);
      } else if x in m.newPhi.Values {
        NewPhiDef(p, m, code, p', x);
      } else {
        var d :| DefinedAt(p, x, d);
        DefMoves(p, m, code, p', x, d);
      }
    }
  }

  lemma NewPhiDef(p: Program, m: Motion, code: map<Block, seq<Ins>>, p': Program, y: Id)
    requires Moved(p, m, code, p') && y in m.newPhi.Values
    ensures DefinedAt(p', y, AsPhi(m.newBlock))
  {
    MovedInserted(p, m, code, p');
    InsertedBlocks(p.g, m.header, m.newBlock, Outside(p.g, m), p'.g);
    MovedPhiKeys(p, m, code, p', m.newBlock);
  }

  function NewHomes(m: Motion, home: map<Id, Block>): map<Id, Block> {
    home + (map y | y in m.newPhi.Values :: m.newBlock) + (map x | x in Ids(m.moved) :: m.newBlock)
  }

  lemma NamesMoved(p: Program, m: Motion, code: map<Block, seq<Ins>>, p': Program, nextBlock: nat, nextId: nat, nextId': nat)
    requires Moved(p, m, code, p') && Named(p, nextBlock, nextId) && m.newBlock == Block(nextBlock)
    requires nextId <= nextId' && forall y :: y in m.newPhi.Values ==> y.serial < nextId'
    requires p'.phis.Keys == p.phis.Keys + {m.header, m.newBlock} && p'.code.Keys == code.Keys + {m.newBlock}
    requires p'.term.Keys == BlockSet(p.g) + {m.newBlock}
    ensures Named(p', nextBlock + 1, nextId')
  {
    hide *;
    KeysMoved(p, m, code, p', nextBlock, nextId);
    forall x, d' | DefinedAt(p', x, d') ensures x.serial < nextId' {
      IdMoved(p, m, code, p', x, d', nextBlock, nextId);
    }
    NamedBy(p', nextBlock + 1, nextId');
  }

  lemma NamedBy(p: Program, nextBlock: nat, nextId: nat)
    requires forall b :: (b in p.g.blocks || b in p.g.preds || b in p.g.succs || b in p.phis || b in p.code || b in p.term) ==> b.id < nextBlock
    requires forall x, d :: DefinedAt(p, x, d) ==> x.serial < nextId
    ensures Named(p, nextBlock, nextId)
  {
  }

  lemma IdMoved(p: Program, m: Motion, code: map<Block, seq<Ins>>, p': Program, x: Id, d': Def, nextBlock: nat, nextId: nat)
    requires Moved(p, m, code, p') && Named(p, nextBlock, nextId) && DefinedAt(p', x, d')
    ensures x in m.newPhi.Values || x.serial < nextId
  {
    assert forall y, d :: DefinedAt(p, y, d) ==> y.serial < nextId;
    hide Moved, DefinedAt, MoveDef;
    if d'.block == m.newBlock {
      NewDef(p, m, code, p', x, d');
      if d'.AsIns? {
        HoistedBefore(p, m, code, p', d'.index, nextBlock, nextId);
      }
    } else {
      var d := DefSource(p, m, code, p', x, d');
    }
  }

  lemma HoistedBefore(p: Program, m: Motion, code: map<Block, seq<Ins>>, p': Program, i: nat, nextBlock: nat, nextId: nat)
    requires Moved(p, m, code, p') && Named(p, nextBlock, nextId) && i < |m.moved|
    ensures m.moved[i].id.serial < nextId
  {
    assert forall y, d :: DefinedAt(p, y, d) ==> y.serial < nextId;
    hide *;
    MovedUnique(p, m, code, p');
    LoopInside(p, m, code, p');
    InIds(m.moved, i);
    MovedDefined(p, m.loop, m.moved, m.moved[i].id);
  }

  lemma InIds(code: seq<Ins>, i: nat)
    requires i < |code|
    ensures code[i].id in Ids(code)
  {
  }

  lemma LoopInside(p: Program, m: Motion, code: map<Block, seq<Ins>>, p': Program)
    requires Moved(p, m, code, p')
    ensures m.loop <= BlockSet(p.g)
  {
    hide Wired, Inserted, AllPhiKeys, AllReachable, Strict, InLoop;
  }

  lemma KeysMoved(p: Program, m: Motion, code: map<Block, seq<Ins>>, p': Program, nextBlock: nat, nextId: nat)
    requires Moved(p, m, code, p') && Named(p, nextBlock, nextId) && m.newBlock == Block(nextBlock)
    requires p'.phis.Keys == p.phis.Keys + {m.header, m.newBlock} && p'.code.Keys == code.Keys + {m.newBlock}
    requires p'.term.Keys == BlockSet(p.g) + {m.newBlock}
    ensures forall b :: (b in p'.g.blocks || b in p'.g.preds || b in p'.g.succs || b in p'.phis || b in p'.code || b in p'.term) ==> b.id < nextBlock + 1
  {
    MovedInserted(p, m, code, p');
    MovedGraphFacts(p, m, code, p');
    CodeKeys(p, m, code, p');
    hide Moved, Entered, Strict, AllReachable;
  }

  lemma CodeKeys(p: Program, m: Motion, code: map<Block, seq<Ins>>, p': Program)
    requires Moved(p, m, code, p')
    ensures forall b :: b in code ==> b in m.loop || b in p.code
  {
    hide Strict, Inserted, Hoistable, InLoop, Wired;
  }

  // ----- removing phis -----

  function PhiSet(p: Program): set<(Block, Id)> {
    set b, x | b in p.phis && x in p.phis[b] :: (b, x)
  }

  /** Whether the operands besides the phi itself are one value, and which. */
  method SingleOperand(x: Id, operands: map<Block, Value>) returns (single: bool, same: Value)
    requires exists q :: q in operands && operands[q] != Result(x)
    ensures single ==> same != Result(x) && forall q :: q in operands ==> operands[q] == same || operands[q] == Result(x)
    ensures !single ==> exists q, r :: q in operands && r in operands && operands[q] != operands[r] && operands[q] != Result(x) && operands[r] != Result(x)
  {
    var blocks := Enumerate(operands.Keys);
    var found := false;
    same := Result(x);
    for i := 0 to |blocks|
      invariant found <==> same != Result(x)
      invariant forall j :: 0 <= j < i ==> operands[blocks[j]] == same || operands[blocks[j]] == Result(x)
      invariant found ==> exists q :: q in operands && operands[q] == same
    {
      var v := operands[blocks[i]];
      if v != same && v != Result(x) {
        if found {
          var q :| q in operands && operands[q] == same;
          assert blocks[i] in operands.Keys;
          return false, same;
        }
        found, same := true, v;
      }
    }
    single := true;
    assert forall q :: q in operands ==> q in blocks;
  }

  lemma SingleIsTrivial(p: Program, b: Block, x: Id, a: Value)
    requires b in p.g.blocks && x in PhisOf(p, b) && a != Result(x)
    requires forall q :: q in PhisOf(p, b)[x] ==> PhisOf(p, b)[x][q] == a || PhisOf(p, b)[x][q] == Result(x)
    ensures IsTrivial(p, b, x)
  {
    assert OnlyMerges(PhisOf(p, b)[x], x, a);
  }

  lemma RemovedIsGone(p: Program, b: Block, x: Id, a: Value)
    ensures (b, x) !in PhiSet(WithoutPhi(p, x, a))
  {
  }

  lemma NotAPhi(p: Program, b: Block, x: Id)
    requires b !in p.g.blocks || x !in PhisOf(p, b)
    ensures !IsTrivial(p, b, x)
  {
  }

  lemma NotTrivial(p: Program, b: Block, x: Id)
    requires x in PhisOf(p, b)
    requires exists q, r :: q in PhisOf(p, b)[x] && r in PhisOf(p, b)[x] && PhisOf(p, b)[x][q] != PhisOf(p, b)[x][r]
                            && PhisOf(p, b)[x][q] != Result(x) && PhisOf(p, b)[x][r] != Result(x)
    ensures !IsTrivial(p, b, x)
  {
  }

  lemma TrivialIsPhi(p: Program, n: Block, phis: seq<Id>)
    requires forall x :: x in PhisOf(p, n).Keys ==> x in phis
    ensures forall y :: IsTrivial(p, n, y) ==> y in phis[..|phis|]
  {
    assert phis[..|phis|] == phis;
  }

  lemma UsersMayBeTrivial(p: Program, b: Block, x: Id, a: Value, users: seq<(Block, Id)>)
    requires forall c, y :: (c, y) in PhiUsers(p, x) ==> (c, y) in users
    ensures forall c, y :: IsTrivial(WithoutPhi(p, x, a), c, y) ==> (IsTrivial(p, c, y) && (c, y) != (b, x)) || (c, y) in users[0..]
  {
    hide IsTrivial, PhiUsers, WithoutPhi;
    assert users[0..] == users;
    forall c, y | IsTrivial(WithoutPhi(p, x, a), c, y) ensures (IsTrivial(p, c, y) && (c, y) != (b, x)) || (c, y) in users[0..] {
      RemovalMakesTrivial(p, b, x, a, c, y);
    }
  }

  /** A reachable phi has an operand other than itself. */
  lemma OtherOperand(p: Program, b: Block, x: Id)
    requires WellMade(p) && b in p.g.blocks && x in PhisOf(p, b)
    ensures exists q :: q in PhisOf(p, b)[x] && PhisOf(p, b)[x][q] != Result(x)
  {
    var operands := PhisOf(p, b)[x];
    if forall q :: q in operands ==> operands[q] == Result(x) {
      var w :| Connects(p.g, w, p.g.entry, b);
      assert PhiKeysArePreds(p, b);
      var a := Number(0);
      assert Removable(p, b, x, a);
      var k := FirstArrival(p, b, x, a, w);
    }
  }

  /** What a removal keeps besides the results: the graph, the homes and the names. */
  ghost predicate Cleaned(p: Program, p': Program, home': map<Id, Block>) {
    && WellMade(p') && SameResults(p, p') && p'.g == p.g && PhiSet(p') <= PhiSet(p) && HomesAre(p', home')
    && KeepsLeaving(p, p')
    && forall nextBlock, nextId :: Named(p, nextBlock, nextId) ==> Named(p', nextBlock, nextId)
  }

  lemma CleanedTwice(p: Program, q: Program, r: Program, home: map<Id, Block>, home': map<Id, Block>)
    requires Cleaned(p, q, home) && Cleaned(q, r, home')
    ensures Cleaned(p, r, home')
  {
    hide WellMade, Named, HomesAre, SameResults, KeepsLeaving;
    SameResultsTwice(p, q, r);
    KeepsLeavingTwice(p, q, r);
  }

  lemma NothingCleaned(p: Program, home: map<Id, Block>)
    requires WellMade(p) && HomesAre(p, home)
    ensures Cleaned(p, p, home)
  {
  }

  lemma IsRemovable(p: Program, b: Block, x: Id, a: Value)
    requires WellMade(p) && b in p.g.blocks && x in PhisOf(p, b) && a != Result(x)
    requires forall q :: q in PhisOf(p, b)[x] ==> PhisOf(p, b)[x][q] == a || PhisOf(p, b)[x][q] == Result(x)
    ensures Removable(p, b, x, a)
  {
    hide CodeUsesOk, TermUsesOk, PhiUsesOk, TargetsMatch, UniqueDefs;
    assert PhiKeysArePreds(p, b);
  }

  lemma RemovedIsCleaned(p: Program, b: Block, x: Id, a: Value, home: map<Id, Block>)
    requires WellMade(p) && Removable(p, b, x, a) && HomesAre(p, home)
    ensures Cleaned(p, WithoutPhi(p, x, a), home - {x})
    ensures PhiSet(WithoutPhi(p, x, a)) < PhiSet(p)
  {
    hide Removable, WithoutPhi, DefinedAt, SameResults, KeepsLeaving;
    var p' := WithoutPhi(p, x, a);
    StrictAfter(p, b, x, a);
    RemovalResults(p, b, x, a);
    RemovalKeepsLeaving(p, b, x, a);
    KeysAfter(p, b, x, a);
    FewerPhis(p, b, x, a);
    forall y, d ensures DefinedAt(p', y, d) <==> DefinedAt(p, y, d) && y != x {
      DefsAfter(p, b, x, a, y, d);
    }
  }

  lemma FewerPhis(p: Program, b: Block, x: Id, a: Value)
    requires Removable(p, b, x, a)
    ensures PhiSet(WithoutPhi(p, x, a)) < PhiSet(p)
  {
    RemovableParts(p, b, x, a);
    hide Removable, ReplOperands, ReplCode, ReplTerm;
    var p' := WithoutPhi(p, x, a);
    forall c, y | (c, y) in PhiSet(p') ensures (c, y) in PhiSet(p) {
      PhiKeysAfter(x, a, p.phis[c]);
    }
    PhiKeysAfter(x, a, p.phis[b]);
    assert (b, x) in PhiSet(p) && (b, x) !in PhiSet(p');
  }

  lemma KeysAfter(p: Program, b: Block, x: Id, a: Value)
    requires WellMade(p) && Removable(p, b, x, a)
    ensures AllPhiKeys(WithoutPhi(p, x, a))
    ensures var p' := WithoutPhi(p, x, a); p'.phis.Keys == p.phis.Keys && p'.code.Keys == p.code.Keys && p'.term.Keys == p.term.Keys
  {
    var p' := WithoutPhi(p, x, a);
    hide Strict, Removable, ReplCode, ReplTerm, AllReachable;
    forall c, y | c in p'.g.blocks && y in PhisOf(p', c) ensures PhisOf(p', c)[y].Keys == p'.g.preds[c] {
      PhisAfter(p, x, a, c);
      assert PhiKeysArePreds(p, c);
      OperandKeys(x, a, PhisOf(p, c)[y]);
    }
  }

  lemma OperandKeys(x: Id, a: Value, operands: map<Block, Value>)
    ensures ReplOperands(x, a, operands).Keys == operands.Keys
  {
  }

  // ----- the pass -----

  /** New ids for the phis of a header. */
  method NewPhis(xs: set<Id>, nextId: nat) returns (ids: map<Id, Id>, nextId': nat)
    ensures ids.Keys == xs && nextId <= nextId'
    ensures forall x :: x in ids ==> nextId <= ids[x].serial < nextId'
    ensures forall x, y :: x in ids && y in ids && ids[x] == ids[y] ==> x == y
  {
    var order := Enumerate(xs);
    ids, nextId' := map[], nextId;
    for i := 0 to |order|
      invariant nextId' == nextId + i && ids.Keys == set j | 0 <= j < i :: order[j]
      invariant forall x :: x in ids ==> nextId <= ids[x].serial < nextId'
      invariant forall x, y :: x in ids && y in ids && ids[x] == ids[y] ==> x == y
    {
      ids := ids[order[i] := Id(nextId')];
      nextId' := nextId' + 1;
    }
    assert forall x :: x in xs ==> x in order;
  }

  class MotionPass {
    const func: FunctionIr
    var home: map<Id, Block>
    var nextBlock: nat
    var nextId: nat

    constructor (func: FunctionIr, home: map<Id, Block>, nextBlock: nat, nextId: nat)
      ensures this.func == func && this.home == home && this.nextBlock == nextBlock && this.nextId == nextId
    {
      this.func, this.home, this.nextBlock, this.nextId := func, home, nextBlock, nextId;
    }

    ghost predicate Valid()
      reads this, func
    {
      WellMade(func.ir) && HomesAre(func.ir, home) && Named(func.ir, nextBlock, nextId)
    }

    /** Removes the phi if it merges a single value, and then those of its users that do. */
    method RemoveTrivialPhi(b: Block, x: Id)
      requires WellMade(func.ir) && HomesAre(func.ir, home)
      modifies func`ir, this`home
      ensures Cleaned(old(func.ir), func.ir, home)
      ensures if IsTrivial(old(func.ir), b, x) then (b, x) !in PhiSet(func.ir) else func.ir == old(func.ir) && home == old(home)
      ensures forall c, y :: IsTrivial(func.ir, c, y) ==> IsTrivial(old(func.ir), c, y) && (c, y) != (b, x)
      decreases PhiSet(func.ir), 0
    {
      hide *;
      NothingCleaned(func.ir, home);
      if b !in func.ir.g.blocks || x !in PhisOf(func.ir, b) {
        NotAPhi(func.ir, b, x);
        return;
      }
      OtherOperand(func.ir, b, x);
      var single, a := SingleOperand(x, PhisOf(func.ir, b)[x]);
      if !single {
        NotTrivial(func.ir, b, x);
        return;
      }
      SingleIsTrivial(func.ir, b, x, a);
      IsRemovable(func.ir, b, x, a);
      RemovedIsCleaned(func.ir, b, x, a, home);
      RemovedIsGone(func.ir, b, x, a);
      var users := Enumerate(PhiUsers(func.ir, x));
      UsersMayBeTrivial(func.ir, b, x, a, users);
      func.ir, home := WithoutPhi(func.ir, x, a), home - {x};
      for i := 0 to |users|
        invariant Cleaned(old(func.ir), func.ir, home) && PhiSet(func.ir) < PhiSet(old(func.ir)) && (b, x) !in PhiSet(func.ir)
        invariant forall c, y :: IsTrivial(func.ir, c, y) ==> (IsTrivial(old(func.ir), c, y) && (c, y) != (b, x)) || (c, y) in users[i..]
      {
        ghost var p, h := func.ir, home;
        CleanedParts(old(func.ir), func.ir, home);
        RemoveTrivialPhi(users[i].0, users[i].1);
        CleanedTwice(old(func.ir), p, func.ir, h, home);
        CleanedParts(p, func.ir, home);
      }
    }

    /** Every phi of the block. */
    method CleanUp(n: Block)
      requires Valid()
      modifies func`ir, this`home
      ensures Cleaned(old(func.ir), func.ir, home) && Valid()
      ensures forall c, y :: IsTrivial(func.ir, c, y) ==> IsTrivial(old(func.ir), c, y) && c != n
    {
      hide *;
      ValidParts();
      NothingCleaned(func.ir, home);
      var phis := Enumerate(PhisOf(func.ir, n).Keys);
      for i := 0 to |phis|
        invariant Cleaned(old(func.ir), func.ir, home)
        invariant forall c, y :: IsTrivial(func.ir, c, y) ==> IsTrivial(old(func.ir), c, y) && !(c == n && y in phis[..i])
      {
        ghost var p, h := func.ir, home;
        CleanedParts(old(func.ir), func.ir, home);
        RemoveTrivialPhi(n, phis[i]);
        CleanedTwice(old(func.ir), p, func.ir, h, home);
      }
      TrivialIsPhi(old(func.ir), n, phis);
      StillValid(old(func.ir));
    }

    lemma ValidParts()
      requires Valid()
      ensures WellMade(func.ir) && HomesAre(func.ir, home) && Named(func.ir, nextBlock, nextId)
    {
    }

    lemma StillValid(p: Program)
      requires Cleaned(p, func.ir, home) && Named(p, nextBlock, nextId)
      ensures Valid()
    {
      hide WellMade, HomesAre, Named, SameResults;
    }

    /** One loop: hoist, wire, and clean up the phis of the new block and of the header. */
    method MoveOne(header: Block, loop: set<Block>, ghost blocks: seq<Block>, ghost i: nat, ghost loops: map<Block, set<Block>>,
                   ghost p0: Program)
      requires Valid() && i < |blocks| && blocks[i] == header && header in loops && loops[header] == loop
      requires OuterFirst(blocks, loops) && LoopsAre(func.ir.g, blocks, i, loops) && LeftUpTo(p0, func.ir, blocks, i, loops)
      modifies this, func
      ensures Valid() && SameResults(old(func.ir), func.ir)
      ensures LoopsAre(func.ir.g, blocks, i + 1, loops)
      ensures LeftUpTo(p0, func.ir, blocks, i + 1, loops)
      ensures DominatorsFirst(old(func.ir).g) ==> DominatorsFirst(func.ir.g)
      ensures forall c, y :: IsTrivial(func.ir, c, y) ==> IsTrivial(old(func.ir), c, y)
    {
      hide *;
      ghost var p := func.ir;
      ValidParts();
      var newPhi, nextId' := NewPhis(PhisOf(func.ir, header).Keys, nextId);
      var newBlock := Block(nextBlock);
      LoopReady(p, header, loop, newBlock, home, newPhi, nextBlock, nextId, blocks, i, loops);
      var m, code := func.MoveLoop(header, loop, newBlock, home, newPhi);
      if m.moved == [] {
        SameResultsItself(p);
        FewerLoops(p.g, blocks, i, loops);
        OthersDiffer(blocks, i, loops);
        LeftAlone(p0, p, blocks, i, loops);
        BecomesValid();
      } else {
        HeaderKnown(p, m, code);
        IsMoved(p, m, code, func.ir);
        LeftByMotion(p0, p, m, code, func.ir, blocks, i, loops);
        if DominatorsFirst(p.g) {
          ListedAfterMotion(p, m, code, func.ir);
        }
        MovedAll(p, m, code, func.ir, home, nextBlock, nextId, nextId', blocks, i, loops);
        home, nextBlock, nextId := NewHomes(m, home), nextBlock + 1, nextId';
        ghost var p' := func.ir;
        BecomesValid();
        CleanUp(newBlock);
        ghost var p'', home'' := func.ir, home;
        CleanUp(header);
        CleanedTwice(p', p'', func.ir, home'', home);
        CleanedParts(p', func.ir, home);
        LoopsToCome(p'.g, blocks, i + 1, loops);
        LeftByCleaning(p0, p', func.ir, blocks, i + 1, loops);
        forall c, y | IsTrivial(func.ir, c, y) ensures IsTrivial(p, c, y) {
          MotionMakesTrivial(p, m, code, p', c, y);
        }
        SameResultsTwice(p, p', func.ir);
      }
    }

    lemma BecomesValid()
      requires WellMade(func.ir) && HomesAre(func.ir, home) && Named(func.ir, nextBlock, nextId)
      ensures Valid()
    {
    }

    /** The whole function. */
    method LoopInvariantMotion()
      requires Valid() && OuterLoopsFirst(func.ir.g)
      modifies this, func
      ensures Valid() && SameResults(old(func.ir), func.ir)
      ensures forall h, loop, x :: LoopIs(old(func.ir).g, h, loop) && MayLeave(old(func.ir), loop, x) ==> HasLeft(func.ir, loop, x)
      ensures forall c, y :: IsTrivial(func.ir, c, y) ==> IsTrivial(old(func.ir), c, y)
      ensures DominatorsFirst(old(func.ir).g) ==> DominatorsFirst(func.ir.g)
    {
      hide *;
      ghost var p := func.ir;
      ValidParts();
      GraphOf(p);
      var finder := new LoopFinder();
      finder.BuildDominateTree(func.ir.g);
      finder.FindLoopBlocks(func.ir.g);
      var blocks, loops := func.ir.g.blocks, finder.loopBlocks;
      LoopsFound(p.g, loops);
      SameResultsItself(p);
      LoopsInside(p.g, loops);
      LeftAtStart(p, blocks, loops);
      for i := 0 to |blocks|
        invariant Valid() && SameResults(p, func.ir) && OuterFirst(blocks, loops) && LoopsAre(func.ir.g, blocks, i, loops)
        invariant LeftUpTo(p, func.ir, blocks, i, loops)
        invariant forall c, y :: IsTrivial(func.ir, c, y) ==> IsTrivial(p, c, y)
        invariant DominatorsFirst(p.g) ==> DominatorsFirst(func.ir.g)
      {
        ghost var q := func.ir;
        if blocks[i] in loops {
          MoveOne(blocks[i], loops[blocks[i]], blocks, i, loops, p);
          SameResultsTwice(p, q, func.ir);
        } else {
          FewerLoops(q.g, blocks, i, loops);
          LeftSkips(p, q, blocks, i, loops);
        }
      }
      forall h, loop, x | LoopIs(p.g, h, loop) && MayLeave(p, loop, x) ensures HasLeft(func.ir, loop, x) {
        LeftInTheEnd(p, func.ir, loops, h, loop, x);
      }
    }
  }

  lemma OthersDiffer(blocks: seq<Block>, i: nat, loops: map<Block, set<Block>>)
    requires OuterFirst(blocks, loops) && i < |blocks|
    ensures forall j :: 0 <= j < |blocks| && j != i ==> blocks[j] != blocks[i]
  {
  }

  lemma LoopsToCome(g: Graph, blocks: seq<Block>, i: nat, loops: map<Block, set<Block>>)
    requires LoopsAre(g, blocks, i, loops)
    ensures forall j :: i <= j < |blocks| && blocks[j] in loops ==> LoopIs(g, blocks[j], loops[blocks[j]])
  {
  }

  lemma LoopsInside(g: Graph, loops: map<Block, set<Block>>)
    requires WellFormed(g) && LoopsAre(g, g.blocks, 0, loops)
    ensures forall j :: 0 <= j < |g.blocks| && g.blocks[j] in loops ==> loops[g.blocks[j]] <= BlockSet(g)
  {
    hide LoopIs;
    forall j | 0 <= j < |g.blocks| && g.blocks[j] in loops ensures loops[g.blocks[j]] <= BlockSet(g) {
      LoopInBlocks(g, g.blocks[j], loops[g.blocks[j]]);
    }
  }

  lemma LeftInTheEnd(p: Program, q: Program, loops: map<Block, set<Block>>, h: Block, loop: set<Block>, x: Id)
    requires LeftUpTo(p, q, p.g.blocks, |p.g.blocks|, loops) && LoopIs(p.g, h, loop) && MayLeave(p, loop, x)
    requires forall k :: k in loops <==> IsHeader(p.g, k)
    requires forall k, b :: k in loops ==> (b in loops[k] <==> InLoop(p.g, b, k))
    ensures HasLeft(q, loop, x)
  {
    hide MayLeave, HasLeft, IsHeader, InLoop;
    var j :| 0 <= j < |p.g.blocks| && p.g.blocks[j] == h;
    assert loops[h] == loop;
  }

  lemma CleanedParts(p: Program, p': Program, home: map<Id, Block>)
    requires Cleaned(p, p', home)
    ensures WellMade(p') && HomesAre(p', home) && SameResults(p, p') && p'.g == p.g && PhiSet(p') <= PhiSet(p) && KeepsLeaving(p, p')
  {
  }

  lemma SameResultsItself(p: Program)
    ensures SameResults(p, p)
  {
  }

  lemma FewerLoops(g: Graph, blocks: seq<Block>, i: nat, loops: map<Block, set<Block>>)
    requires LoopsAre(g, blocks, i, loops)
    ensures LoopsAre(g, blocks, i + 1, loops)
  {
  }

  lemma GraphOf(p: Program)
    requires WellMade(p)
    ensures WellFormed(p.g)
  {
  }

  lemma LoopsFound(g: Graph, loops: map<Block, set<Block>>)
    requires WellFormed(g) && OuterLoopsFirst(g)
    requires forall h :: h in loops <==> IsHeader(g, h)
    requires forall h, b :: h in loops ==> (b in loops[h] <==> InLoop(g, b, h))
    ensures OuterFirst(g.blocks, loops) && LoopsAre(g, g.blocks, 0, loops)
  {
    hide IsHeader, InLoop;
  }

  lemma LoopReady(p: Program, header: Block, loop: set<Block>, newBlock: Block, home: map<Id, Block>, newPhi: map<Id, Id>,
                  nextBlock: nat, nextId: nat, blocks: seq<Block>, i: nat, loops: map<Block, set<Block>>)
    requires WellMade(p) && HomesAre(p, home) && Named(p, nextBlock, nextId) && newBlock == Block(nextBlock)
    requires i < |blocks| && blocks[i] == header && header in loops && loops[header] == loop && LoopsAre(p.g, blocks, i, loops)
    requires newPhi.Keys == PhisOf(p, header).Keys && (forall x :: x in newPhi ==> nextId <= newPhi[x].serial)
    requires forall x, y :: x in newPhi && y in newPhi && newPhi[x] == newPhi[y] ==> x == y
    ensures LoopOk(p, header, loop, newBlock, home, newPhi)
  {
    assert LoopIs(p.g, header, loop);
    LoopInBlocks(p.g, header, loop);
    HomesSuffice(p, loop, home);
    assert PhiKeysArePreds(p, header);
    hide Strict, IsHeader, InLoop, HomesOk, HomesAre, DefinedAt, Reachable, PhiKeysArePreds;
    assert newBlock !in BlockSet(p.g);
  }

  lemma HeaderKnown(p: Program, m: Motion, code: map<Block, seq<Ins>>)
    requires MotionOk(p, m, code)
    ensures m.header in p.g.preds
  {
    MotionShape(p, m, code);
  }

  lemma IsMoved(p: Program, m: Motion, code: map<Block, seq<Ins>>, p': Program)
    requires WellMade(p) && MotionOk(p, m, code) && Wired(p, m, code, p')
    requires m.header in p.g.preds && Inserted(p.g, m.header, m.newBlock, Outside(p.g, m), p'.g)
    ensures Moved(p, m, code, p')
  {
    hide MotionOk, Wired, Inserted, Strict;
  }

  /** Everything the next loop needs. */
  lemma MovedAll(p: Program, m: Motion, code: map<Block, seq<Ins>>, p': Program, home: map<Id, Block>, nextBlock: nat, nextId: nat, nextId': nat,
                 blocks: seq<Block>, i: nat, loops: map<Block, set<Block>>)
    requires Moved(p, m, code, p') && HomesAre(p, home) && Named(p, nextBlock, nextId) && m.newBlock == Block(nextBlock)
    requires nextId <= nextId' && forall x :: x in m.newPhi ==> m.newPhi[x].serial < nextId'
    requires p'.phis.Keys == p.phis.Keys + {m.header, m.newBlock} && p'.code.Keys == code.Keys + {m.newBlock}
    requires p'.term.Keys == BlockSet(p.g) + {m.newBlock}
    requires i < |blocks| && blocks[i] == m.header && m.header in loops && OuterFirst(blocks, loops) && LoopsAre(p.g, blocks, i, loops)
    ensures WellMade(p') && HomesAre(p', NewHomes(m, home)) && Named(p', nextBlock + 1, nextId')
    ensures SameResults(p, p') && LoopsAre(p'.g, blocks, i + 1, loops)
  {
    hide Named, HomesAre, LoopsAre, OuterFirst, SameResults, Inserted, Strict, AllPhiKeys, AllReachable;
    MotionResults(p, m, code, p');
    StrictAgain(p, m, code, p');
    HomesMoved(p, m, code, p', home);
    hide Moved;
    NamesMoved(p, m, code, p', nextBlock, nextId, nextId');
    LoopsStay(p, m, code, p', blocks, i, loops);
  }
}
