/**
  The program with a loop's invariant code in front of it is in strict SSA form again.
 */
module MotionStrict {
  import opened Cfg
  import opened NaturalLoops
  import opened MotionGraph
  import opened Ssa
  import opened LoopInvariantMotion

  ghost predicate AllReachable(g: Graph) {
    forall b :: b in g.blocks ==> Reachable(g, b)
  }

  ghost predicate AllPhiKeys(p: Program) {
    WellFormed(p.g) && forall b :: b in p.g.blocks ==> PhiKeysArePreds(p, b)
  }

  /** One loop moved in a program all of whose blocks can be reached. */
  ghost predicate Moved(p: Program, m: Motion, code: map<Block, seq<Ins>>, p': Program) {
    && MotionOk(p, m, code) && Wired(p, m, code, p')
    && Inserted(p.g, m.header, m.newBlock, Outside(p.g, m), p'.g)
    && AllReachable(p.g) && AllPhiKeys(p)
  }

  // ----- what is left of a block's code -----

  lemma {:induction false} RemainingSplit(c: seq<Ins>, d: seq<Ins>, gone: set<Id>)
    ensures Remaining(c + d, gone) == Remaining(c, gone) + Remaining(d, gone)
  {
    if c == [] {
      assert c + d == d;
    } else {
      assert (c + d)[1..] == c[1..] + d;
      RemainingSplit(c[1..], d, gone);
    }
  }

  /** Where instruction i of the block stands among what is left. */
  function Place(c: seq<Ins>, gone: set<Id>, i: nat): nat
    requires i <= |c|
  {
    |Remaining(c[..i], gone)|
  }

  lemma PlaceOfKept(c: seq<Ins>, gone: set<Id>, i: nat)
    requires i < |c| && c[i].id !in gone
    ensures Place(c, gone, i) < |Remaining(c, gone)| && Remaining(c, gone)[Place(c, gone, i)] == c[i]
    ensures Place(c, gone, i + 1) == Place(c, gone, i) + 1
  {
    assert c == c[..i] + c[i..] && c[..i + 1] == c[..i] + [c[i]];
    RemainingSplit(c[..i], c[i..], gone);
    RemainingSplit(c[..i], [c[i]], gone);
  }

  lemma PlaceMonotone(c: seq<Ins>, gone: set<Id>, i: nat, j: nat)
    requires i <= j <= |c|
    ensures Place(c, gone, i) <= Place(c, gone, j)
  {
    assert c[..j] == c[..i] + c[i..j];
    RemainingSplit(c[..i], c[i..j], gone);
  }

  lemma {:induction false} KeptSource(c: seq<Ins>, gone: set<Id>, k: nat) returns (i: nat)
    requires k < |Remaining(c, gone)|
    ensures i < |c| && c[i].id !in gone && Place(c, gone, i) == k && Remaining(c, gone)[k] == c[i]
  {
    var n := |c| - 1;
    assert c == c[..n] + [c[n]];
    RemainingSnoc(c[..n], c[n], gone);
    if k < |Remaining(c[..n], gone)| {
      i := KeptSource(c[..n], gone, k);
      assert c[..n][..i] == c[..i];
    } else {
      i := n;
    }
  }

  // ----- the pieces of the moved program -----

  lemma MovedGraphFacts(p: Program, m: Motion, code: map<Block, seq<Ins>>, p': Program)
    requires Moved(p, m, code, p')
    ensures Inserted(p.g, m.header, m.newBlock, Outside(p.g, m), p'.g) && Entered(p.g, m.loop, m.header, Outside(p.g, m))
    ensures m.header in m.loop && m.newBlock !in m.loop && AllReachable(p.g) && WellFormed(p.g) && Strict(p)
    ensures forall b :: b in m.loop ==> b in p.g.blocks
  {
    hide Extracted, CodeUsesOk, TermUsesOk, PhiUsesOk, UniqueDefs, TargetsMatch, AllPhiKeys, Wired, InLoop, Reachable, AllReachable;
    HeaderInItsLoop(p.g, m.header);
    EntryNotInLoop(p, m.header);
    forall b | b in m.loop ensures b in p.g.blocks {
      assert b in BlockSet(p.g);
    }
  }

  lemma MovedCode(p: Program, m: Motion, code: map<Block, seq<Ins>>, p': Program, b: Block)
    requires Moved(p, m, code, p')
    ensures b in p.g.blocks ==> CodeOf(p', b) == Remaining(CodeOf(p, b), Ids(m.moved))
    ensures CodeOf(p', m.newBlock) == m.moved
  {
    hide Strict, Extracted, AllPhiKeys, Reachable, AllReachable, Inserted, InLoop, IsHeader, PhiKeysArePreds;
    if b in p.g.blocks {
      WiredCode(p, m, code, p', b);
    }
  }

  lemma MovedPhiKeys(p: Program, m: Motion, code: map<Block, seq<Ins>>, p': Program, b: Block)
    requires Moved(p, m, code, p')
    ensures b in p.g.blocks ==> PhisOf(p', b).Keys == PhisOf(p, b).Keys
    ensures PhisOf(p', m.newBlock).Keys == m.newPhi.Values
  {
    hide Strict, Extracted, AllPhiKeys, Reachable, AllReachable, Inserted, InLoop, IsHeader, PhiKeysArePreds;
    if b in p.g.blocks {
      WiredPhiKeys(p, m, code, p', b);
    }
  }

  /** Hoisted ids are defined by instructions of the loop only, and fresh ids nowhere. */
  lemma MovedDefs(p: Program, m: Motion, code: map<Block, seq<Ins>>, p': Program, x: Id, d: Def)
    requires Moved(p, m, code, p') && DefinedAt(p, x, d)
    ensures x in Ids(m.moved) ==> d.AsIns? && d.block in m.loop
    ensures x !in m.newPhi.Values
  {
    hide CodeUsesOk, TermUsesOk, PhiUsesOk, TargetsMatch, AllPhiKeys, Wired, InLoop, IsHeader, Reachable, AllReachable, Inserted, PhiKeysArePreds;
    if x in Ids(m.moved) {
      var n, b, j := MovedPosition(p, m.loop, m.moved, x);
      assert b in BlockSet(p.g);
      assert DefinedAt(p, x, AsIns(b, j));
    }
    assert forall y :: y in m.newPhi ==> m.newPhi[y] != x;
  }

  lemma MovedUnique(p: Program, m: Motion, code: map<Block, seq<Ins>>, p': Program)
    requires Moved(p, m, code, p')
    ensures UniqueDefs(p) && Hoistable(p, m.loop, m.moved)
    ensures forall i, j :: 0 <= i < j < |m.moved| ==> m.moved[i].id != m.moved[j].id
    ensures forall x :: x in Ids(m.moved) ==> x !in m.newPhi.Values
  {
    hide CodeUsesOk, TermUsesOk, PhiUsesOk, TargetsMatch, AllPhiKeys, Wired, InLoop, IsHeader, Reachable, AllReachable, Inserted, PhiKeysArePreds, UniqueDefs;
    forall x | x in Ids(m.moved) ensures x !in m.newPhi.Values {
      var n, b, j := MovedPosition(p, m.loop, m.moved, x);
      assert b in BlockSet(p.g);
      assert DefinedAt(p, x, AsIns(b, j));
      MovedDefs(p, m, code, p', x, AsIns(b, j));
    }
  }

  // ----- definitions -----

  function MoveDef(p: Program, gone: set<Id>, d: Def): Def {
    match d
    case AsPhi(_) => d
    case AsIns(b, i) => if i <= |CodeOf(p, b)| then AsIns(b, Place(CodeOf(p, b), gone, i)) else d
  }

  lemma DefMoves(p: Program, m: Motion, code: map<Block, seq<Ins>>, p': Program, x: Id, d: Def)
    requires Moved(p, m, code, p') && DefinedAt(p, x, d) && x !in Ids(m.moved)
    ensures DefinedAt(p', x, MoveDef(p, Ids(m.moved), d)) && MoveDef(p, Ids(m.moved), d).block == d.block
  {
    MovedGraphFacts(p, m, code, p');
    MovedCode(p, m, code, p', d.block);
    MovedPhiKeys(p, m, code, p', d.block);
    InsertedBlocks(p.g, m.header, m.newBlock, Outside(p.g, m), p'.g);
    if d.AsIns? {
      PlaceOfKept(CodeOf(p, d.block), Ids(m.moved), d.index);
    }
    hide Moved, Inserted, Entered, Place, Remaining, Strict;
  }

  lemma DefSource(p: Program, m: Motion, code: map<Block, seq<Ins>>, p': Program, x: Id, d': Def) returns (d: Def)
    requires Moved(p, m, code, p') && DefinedAt(p', x, d') && d'.block != m.newBlock
    ensures DefinedAt(p, x, d) && d' == MoveDef(p, Ids(m.moved), d) && x !in Ids(m.moved)
  {
    hide Moved, Inserted, Entered, Strict, Outside, Remaining, AllReachable;
    MovedGraphFacts(p, m, code, p');
    var b := d'.block;
    MovedCode(p, m, code, p', b);
    MovedPhiKeys(p, m, code, p', b);
    InsertedBlocks(p.g, m.header, m.newBlock, Outside(p.g, m), p'.g);
    if d'.AsIns? {
      var i := KeptSource(CodeOf(p, b), Ids(m.moved), d'.index);
      d := AsIns(b, i);
    } else {
      d := d';
      MovedDefs(p, m, code, p', x, d);
    }
  }

  lemma NewDef(p: Program, m: Motion, code: map<Block, seq<Ins>>, p': Program, x: Id, d': Def)
    requires Moved(p, m, code, p') && DefinedAt(p', x, d') && d'.block == m.newBlock
    ensures if d'.AsPhi? then x in m.newPhi.Values else d'.index < |m.moved| && m.moved[d'.index].id == x
  {
    hide Moved;
    MovedCode(p, m, code, p', m.newBlock);
    MovedPhiKeys(p, m, code, p', m.newBlock);
  }

  lemma UniqueAgain(p: Program, m: Motion, code: map<Block, seq<Ins>>, p': Program)
    requires Moved(p, m, code, p')
    ensures UniqueDefs(p')
  {
    hide Moved, MoveDef, DefinedAt, Hoistable;
    MovedUnique(p, m, code, p');
    forall x, d, e | DefinedAt(p', x, d) && DefinedAt(p', x, e) ensures d == e {
      if d.block == m.newBlock {
        NewDef(p, m, code, p', x, d);
      }
      if e.block == m.newBlock {
        NewDef(p, m, code, p', x, e);
      }
      if d.block != m.newBlock {
        var d0 := DefSource(p, m, code, p', x, d);
        MovedDefs(p, m, code, p', x, d0);
        if e.block != m.newBlock {
          var e0 := DefSource(p, m, code, p', x, e);
        }
      } else if e.block != m.newBlock {
        var e0 := DefSource(p, m, code, p', x, e);
        MovedDefs(p, m, code, p', x, e0);
      }
    }
  }

  // ----- availability -----

  /** What the loop computed is computed before the loop now. */
  lemma HoistedAvailable(p: Program, m: Motion, code: map<Block, seq<Ins>>, p': Program, x: Id, d: Block, b: Block)
    requires Moved(p, m, code, p') && x in Ids(m.moved) && d in m.loop && b in p.g.blocks && Dominates(p.g, d, b)
    ensures AvailableIn(p', x, b)
  {
    hide Moved, Inserted, Entered, Dominates, Strict, Hoistable;
    MovedGraphFacts(p, m, code, p');
    MovedUnique(p, m, code, p');
    MovedCode(p, m, code, p', b);
    InsertedBlocks(p.g, m.header, m.newBlock, Outside(p.g, m), p'.g);
    SameDominance(p.g, m.header, m.newBlock, Outside(p.g, m), p'.g, d, b);
    LoopBehindNew(p.g, m.loop, m.header, m.newBlock, Outside(p.g, m), p'.g, d);
    DominanceTransitive(p'.g, m.newBlock, d, b);
    var i :| 0 <= i < |m.moved| && m.moved[i].id == x;
    assert DefinedAt(p', x, AsIns(m.newBlock, i));
  }

  lemma DominatesItself(g: Graph, b: Block)
    ensures Dominates(g, b, b)
  {
  }

  lemma AvailableMovesIn(p: Program, m: Motion, code: map<Block, seq<Ins>>, p': Program, x: Id, b: Block)
    requires Moved(p, m, code, p') && b in p.g.blocks && AvailableIn(p, x, b)
    ensures AvailableIn(p', x, b)
  {
    hide Moved, Inserted, Entered, Dominates, Strict, DefinedAt;
    var d :| DefinedAt(p, x, d) && if d == AsPhi(b) then true else d.block != b && Dominates(p.g, d.block, b);
    MovedDefs(p, m, code, p', x, d);
    if x in Ids(m.moved) {
      HoistedAvailable(p, m, code, p', x, d.block, b);
    } else {
      MovedGraphFacts(p, m, code, p');
      DefMoves(p, m, code, p', x, d);
      InsertedBlocks(p.g, m.header, m.newBlock, Outside(p.g, m), p'.g);
      DefBlock(p, x, d);
      SameDominance(p.g, m.header, m.newBlock, Outside(p.g, m), p'.g, d.block, b);
    }
  }

  lemma DefBlock(p: Program, x: Id, d: Def)
    requires DefinedAt(p, x, d)
    ensures d.block in p.g.blocks
  {
  }

  lemma AvailableMoves(p: Program, m: Motion, code: map<Block, seq<Ins>>, p': Program, x: Id, b: Block, i: nat)
    requires Moved(p, m, code, p') && b in p.g.blocks && i <= |CodeOf(p, b)| && AvailableAt(p, x, b, i)
    ensures AvailableAt(p', x, b, Place(CodeOf(p, b), Ids(m.moved), i))
  {
    if AvailableIn(p, x, b) {
      AvailableMovesIn(p, m, code, p', x, b);
    } else {
      var j: nat :| j < i && DefinedAt(p, x, AsIns(b, j));
      hide Moved, AvailableIn, Dominates;
      MovedDefs(p, m, code, p', x, AsIns(b, j));
      if x in Ids(m.moved) {
        DominatesItself(p.g, b);
        HoistedAvailable(p, m, code, p', x, b, b);
      } else {
        DefMoves(p, m, code, p', x, AsIns(b, j));
        PlaceOfKept(CodeOf(p, b), Ids(m.moved), j);
        PlaceMonotone(CodeOf(p, b), Ids(m.moved), j + 1, i);
      }
    }
  }

  lemma UseMoves(p: Program, m: Motion, code: map<Block, seq<Ins>>, p': Program, v: Value, b: Block, i: nat)
    requires Moved(p, m, code, p') && b in p.g.blocks && i <= |CodeOf(p, b)| && UseOk(p, v, b, i)
    ensures UseOk(p', v, b, Place(CodeOf(p, b), Ids(m.moved), i))
  {
    hide Moved, AvailableAt;
    if v.Result? {
      AvailableMoves(p, m, code, p', v.id, b, i);
    }
  }

  /** At the end of a block. */
  lemma UseMovesOut(p: Program, m: Motion, code: map<Block, seq<Ins>>, p': Program, v: Value, b: Block)
    requires Moved(p, m, code, p') && b in p.g.blocks && UseOk(p, v, b, |CodeOf(p, b)|)
    ensures UseOk(p', v, b, |CodeOf(p', b)|)
  {
    hide Moved, UseOk;
    UseMoves(p, m, code, p', v, b, |CodeOf(p, b)|);
    MovedCode(p, m, code, p', b);
    assert CodeOf(p, b)[..|CodeOf(p, b)|] == CodeOf(p, b);
  }

  // ----- uses -----

  lemma KeptUses(p: Program, m: Motion, code: map<Block, seq<Ins>>, p': Program, b: Block, k: nat, v: Value)
    requires Moved(p, m, code, p') && b in p.g.blocks && k < |CodeOf(p', b)| && v in CodeOf(p', b)[k].args
    ensures UseOk(p', v, b, k)
  {
    MovedGraphFacts(p, m, code, p');
    hide Moved, UseOk, Entered, Inserted, AllReachable, TermUsesOk, PhiUsesOk, UniqueDefs, TargetsMatch;
    MovedCode(p, m, code, p', b);
    var i := KeptSource(CodeOf(p, b), Ids(m.moved), k);
    UseMoves(p, m, code, p', v, b, i);
  }

  /** A hoisted instruction finds its operands in the new block or in front of it. */
  lemma HoistedUses(p: Program, m: Motion, code: map<Block, seq<Ins>>, p': Program, n: nat, v: Value)
    requires Moved(p, m, code, p') && n < |m.moved| && v in m.moved[n].args
    ensures UseOk(p', v, m.newBlock, n)
  {
    if v.Result? {
      var x := v.id;
      HoistedOperandsDefined(p, m, code, n, x);
      MovedGraphFacts(p, m, code, p');
      hide Moved, Entered, Inserted, AllReachable, Dominates, DefinedAt, Strict;
      MovedCode(p, m, code, p', m.newBlock);
      if x in Ids(m.moved[..n]) {
        var i :| 0 <= i < n && m.moved[i].id == x;
        HoistedDef(p, m, code, p', i);
      } else {
        var d :| DefinedAt(p, x, d) && d.block !in m.loop && Dominates(p.g, d.block, m.header);
        MovedDefs(p, m, code, p', x, d);
        DefMoves(p, m, code, p', x, d);
        DefBlock(p, x, d);
        InsertedBlocks(p.g, m.header, m.newBlock, Outside(p.g, m), p'.g);
        DominatesNew(p.g, m.header, m.newBlock, Outside(p.g, m), p'.g, d.block);
        assert AvailableIn(p', x, m.newBlock);
      }
    }
  }

  lemma HoistedDef(p: Program, m: Motion, code: map<Block, seq<Ins>>, p': Program, i: nat)
    requires Moved(p, m, code, p') && i < |m.moved|
    ensures DefinedAt(p', m.moved[i].id, AsIns(m.newBlock, i))
  {
    hide Moved, Inserted, Entered, Strict;
    MovedGraphFacts(p, m, code, p');
    MovedCode(p, m, code, p', m.newBlock);
    InsertedBlocks(p.g, m.header, m.newBlock, Outside(p.g, m), p'.g);
  }

  lemma CodeUsesAgain(p: Program, m: Motion, code: map<Block, seq<Ins>>, p': Program)
    requires Moved(p, m, code, p')
    ensures CodeUsesOk(p')
  {
    hide Moved, UseOk, Inserted, Entered, Strict;
    MovedGraphFacts(p, m, code, p');
    MovedCode(p, m, code, p', m.newBlock);
    InsertedBlocks(p.g, m.header, m.newBlock, Outside(p.g, m), p'.g);
    forall b, i, v | b in p'.g.blocks && 0 <= i < |CodeOf(p', b)| && v in CodeOf(p', b)[i].args ensures UseOk(p', v, b, i) {
      if b == m.newBlock {
        HoistedUses(p, m, code, p', i, v);
      } else {
        KeptUses(p, m, code, p', b, i, v);
      }
    }
  }

  lemma MovedTerm(p: Program, m: Motion, code: map<Block, seq<Ins>>, p': Program, b: Block)
    requires Moved(p, m, code, p')
    ensures TermOf(p', m.newBlock) == Jump(m.header)
    ensures b in p.g.blocks ==> TermOf(p', b) == if b in Outside(p.g, m) then Retarget(TermOf(p, b), m.header, m.newBlock) else TermOf(p, b)
  {
    hide Strict, Extracted, AllPhiKeys, Reachable, AllReachable, InLoop, IsHeader, PhiKeysArePreds;
  }

  lemma TermUsesAgain(p: Program, m: Motion, code: map<Block, seq<Ins>>, p': Program)
    requires Moved(p, m, code, p')
    ensures TermUsesOk(p')
  {
    hide Moved, UseOk, Inserted, Entered, CodeUsesOk, PhiUsesOk, TargetsMatch, UniqueDefs;
    MovedGraphFacts(p, m, code, p');
    InsertedBlocks(p.g, m.header, m.newBlock, Outside(p.g, m), p'.g);
    forall b, v | b in p'.g.blocks && v in TermUses(TermOf(p', b)) ensures UseOk(p', v, b, |CodeOf(p', b)|) {
      MovedTerm(p, m, code, p', b);
      if b != m.newBlock {
        assert v in TermUses(TermOf(p, b));
        UseMovesOut(p, m, code, p', v, b);
      }
    }
  }

  lemma RetargetTargets(t: Term, a: Block, b: Block)
    requires a in TermTargets(t)
    ensures TermTargets(Retarget(t, a, b)) == TermTargets(t) - {a} + {b}
  {
  }

  lemma TargetsAgain(p: Program, m: Motion, code: map<Block, seq<Ins>>, p': Program)
    requires Moved(p, m, code, p') && WellFormed(p'.g)
    ensures TargetsMatch(p')
  {
    hide Moved, Inserted, Entered, CodeUsesOk, PhiUsesOk, TermUsesOk, UniqueDefs, TermTargets, Retarget;
    MovedGraphFacts(p, m, code, p');
    InsertedBlocks(p.g, m.header, m.newBlock, Outside(p.g, m), p'.g);
    InsertedSuccs(p.g, m.header, m.newBlock, Outside(p.g, m), p'.g);
    forall b | b in p'.g.blocks ensures p'.g.succs[b] == TermTargets(TermOf(p', b)) {
      MovedTerm(p, m, code, p', b);
      if b == m.newBlock {
        JumpTargets(m.header);
      } else if b in Outside(p.g, m) {
        RetargetTargets(TermOf(p, b), m.header, m.newBlock);
      }
    }
  }

  lemma JumpTargets(b: Block)
    ensures TermTargets(Jump(b)) == {b}
  {
  }

  // ----- phis -----

  lemma OtherPhis(p: Program, m: Motion, code: map<Block, seq<Ins>>, p': Program, b: Block)
    requires Moved(p, m, code, p')
    ensures b != m.header && b != m.newBlock ==> PhisOf(p', b) == PhisOf(p, b)
    ensures PhisOf(p', m.header).Keys == PhisOf(p, m.header).Keys == m.newPhi.Keys
    ensures forall x :: x in PhisOf(p, m.header) ==> PhisOf(p', m.header)[x] == InnerPhi(m, x, PhisOf(p, m.header)[x])
    ensures forall y :: y in PhisOf(p', m.newBlock) ==> exists x :: IsOuter(p, m, p', x, y)
  {
    hide Strict, Extracted, AllPhiKeys, Reachable, AllReachable, InLoop, IsHeader, PhiKeysArePreds, Inserted, InnerPhi, OuterPhi;
    forall y | y in PhisOf(p', m.newBlock) ensures exists x :: IsOuter(p, m, p', x, y) {
      assert y in m.newPhi.Values;
      var x :| x in m.newPhi && m.newPhi[x] == y;
      assert IsOuter(p, m, p', x, y);
    }
  }

  /** y is the new block's half of the header's phi x. */
  ghost predicate IsOuter(p: Program, m: Motion, p': Program, x: Id, y: Id) {
    && x in m.newPhi && m.newPhi[x] == y && x in PhisOf(p, m.header) && y in PhisOf(p', m.newBlock)
    && PhisOf(p', m.newBlock)[y] == OuterPhi(m, PhisOf(p, m.header)[x])
  }

  lemma HeaderKeys(p: Program, m: Motion, code: map<Block, seq<Ins>>, p': Program, x: Id)
    requires Moved(p, m, code, p') && x in PhisOf(p, m.header)
    ensures m.header in p.g.preds && PhisOf(p, m.header)[x].Keys == p.g.preds[m.header]
  {
    hide Strict, Extracted, AllReachable, InLoop, Reachable, Inserted, Wired;
    MovedGraphFacts(p, m, code, p');
  }

  lemma InnerKeys(m: Motion, x: Id, operands: map<Block, Value>)
    requires x in m.newPhi
    ensures InnerPhi(m, x, operands).Keys == operands.Keys - (operands.Keys - m.loop) + {m.newBlock}
  {
  }

  lemma OuterKeysOf(m: Motion, operands: map<Block, Value>)
    ensures OuterPhi(m, operands).Keys == operands.Keys - m.loop
  {
  }

  lemma PhiKeysAgain(p: Program, m: Motion, code: map<Block, seq<Ins>>, p': Program)
    requires Moved(p, m, code, p')
    ensures AllPhiKeys(p')
  {
    hide Moved, Inserted, PhiKeysArePreds;
    MovedInserted(p, m, code, p');
    InsertedWellFormed(p.g, m.header, m.newBlock, Outside(p.g, m), p'.g);
    forall b | b in p'.g.blocks ensures PhiKeysArePreds(p', b) {
      PhiKeysAt(p, m, code, p', b);
    }
  }

  lemma PhiKeysAt(p: Program, m: Motion, code: map<Block, seq<Ins>>, p': Program, b: Block)
    requires Moved(p, m, code, p') && b in p'.g.blocks && WellFormed(p'.g)
    ensures PhiKeysArePreds(p', b)
  {
    MovedInserted(p, m, code, p');
    InsertedPreds(p.g, m.header, m.newBlock, Outside(p.g, m), p'.g);
    InsertedBlocks(p.g, m.header, m.newBlock, Outside(p.g, m), p'.g);
    OtherPhis(p, m, code, p', b);
    PhiKeysBefore(p, m, code, p', b);
    hide Moved, Inserted, InnerPhi, OuterPhi, WellFormed;
    forall x | x in PhisOf(p', b) ensures PhisOf(p', b)[x].Keys == p'.g.preds[b] {
      if b == m.newBlock {
        var z :| IsOuter(p, m, p', z, x);
        HeaderKeys(p, m, code, p', z);
        OuterKeysOf(m, PhisOf(p, m.header)[z]);
      } else if b == m.header {
        HeaderKeys(p, m, code, p', x);
        InnerKeys(m, x, PhisOf(p, m.header)[x]);
      }
    }
  }

  lemma PhiKeysBefore(p: Program, m: Motion, code: map<Block, seq<Ins>>, p': Program, b: Block)
    requires Moved(p, m, code, p')
    ensures b in p.g.blocks ==> b in p.g.preds && forall x :: x in PhisOf(p, b) ==> PhisOf(p, b)[x].Keys == p.g.preds[b]
  {
    hide Strict, Extracted, AllReachable, InLoop, Reachable, Inserted, Wired, MotionOk;
    if b in p.g.blocks {
      assert PhiKeysArePreds(p, b);
    }
  }

  lemma PhiOperandAgain(p: Program, m: Motion, code: map<Block, seq<Ins>>, p': Program, b: Block, x: Id, q: Block)
    requires Moved(p, m, code, p') && b in p.g.blocks && x in PhisOf(p', b) && b in p'.g.preds && q in p'.g.preds[b]
    ensures UseOk(p', PhiOperand(PhisOf(p', b)[x], q), q, |CodeOf(p', q)|)
  {
    InsertedPreds(p.g, m.header, m.newBlock, Outside(p.g, m), p'.g);
    InsertedBlocks(p.g, m.header, m.newBlock, Outside(p.g, m), p'.g);
    MovedGraphFacts(p, m, code, p');
    OtherPhis(p, m, code, p', b);
    hide Moved, Inserted, Entered, UseOk, AllReachable, CodeUsesOk, TermUsesOk, TargetsMatch, UniqueDefs;
    if b != m.header {
      UseMovesOut(p, m, code, p', PhiOperand(PhisOf(p, b)[x], q), q);
    } else if q == m.newBlock {
      NewPhiAvailable(p, m, code, p', x);
    } else {
      HeaderKeys(p, m, code, p', x);
      UseMovesOut(p, m, code, p', PhiOperand(PhisOf(p, b)[x], q), q);
    }
  }

  lemma NewPhiAvailable(p: Program, m: Motion, code: map<Block, seq<Ins>>, p': Program, x: Id)
    requires Moved(p, m, code, p') && x in m.newPhi
    ensures UseOk(p', Result(m.newPhi[x]), m.newBlock, |CodeOf(p', m.newBlock)|)
  {
    hide Moved, Inserted, PhisOf;
    MovedPhiKeys(p, m, code, p', m.newBlock);
    MovedInserted(p, m, code, p');
    InsertedBlocks(p.g, m.header, m.newBlock, Outside(p.g, m), p'.g);
    assert m.newPhi[x] in m.newPhi.Values;
    assert DefinedAt(p', m.newPhi[x], AsPhi(m.newBlock));
    assert AvailableIn(p', m.newPhi[x], m.newBlock);
  }

  lemma OuterOperandAgain(p: Program, m: Motion, code: map<Block, seq<Ins>>, p': Program, y: Id, q: Block)
    requires Moved(p, m, code, p') && y in PhisOf(p', m.newBlock) && m.newBlock in p'.g.preds && q in p'.g.preds[m.newBlock]
    ensures UseOk(p', PhiOperand(PhisOf(p', m.newBlock)[y], q), q, |CodeOf(p', q)|)
  {
    InsertedPreds(p.g, m.header, m.newBlock, Outside(p.g, m), p'.g);
    InsertedBlocks(p.g, m.header, m.newBlock, Outside(p.g, m), p'.g);
    MovedGraphFacts(p, m, code, p');
    OtherPhis(p, m, code, p', m.newBlock);
    hide Moved, Inserted, Entered, UseOk, AllReachable, CodeUsesOk, TermUsesOk, TargetsMatch, UniqueDefs;
    var x :| IsOuter(p, m, p', x, y);
    HeaderKeys(p, m, code, p', x);
    UseMovesOut(p, m, code, p', PhiOperand(PhisOf(p, m.header)[x], q), q);
  }

  lemma PhiUsesAgain(p: Program, m: Motion, code: map<Block, seq<Ins>>, p': Program)
    requires Moved(p, m, code, p') && WellFormed(p'.g)
    ensures PhiUsesOk(p')
  {
    InsertedBlocks(p.g, m.header, m.newBlock, Outside(p.g, m), p'.g);
    hide Moved, UseOk;
    forall b, x, q | b in p'.g.blocks && x in PhisOf(p', b) && q in p'.g.preds[b]
      ensures UseOk(p', PhiOperand(PhisOf(p', b)[x], q), q, |CodeOf(p', q)|)
    {
      if b == m.newBlock {
        OuterOperandAgain(p, m, code, p', x, q);
      } else {
        PhiOperandAgain(p, m, code, p', b, x, q);
      }
    }
  }

  // ----- the theorems -----

  /** The moved program is in strict SSA form, so what holds of one motion holds of the next. */
  lemma StrictAgain(p: Program, m: Motion, code: map<Block, seq<Ins>>, p': Program)
    requires Moved(p, m, code, p')
    ensures Strict(p') && AllPhiKeys(p') && AllReachable(p'.g)
  {
    hide Moved, Inserted, CodeUsesOk, TermUsesOk, PhiUsesOk, TargetsMatch, UniqueDefs, AllPhiKeys, AllReachable;
    MovedInserted(p, m, code, p');
    InsertedWellFormed(p.g, m.header, m.newBlock, Outside(p.g, m), p'.g);
    EntryAgain(p, m, code, p');
    UniqueAgain(p, m, code, p');
    TargetsAgain(p, m, code, p');
    CodeUsesAgain(p, m, code, p');
    TermUsesAgain(p, m, code, p');
    PhiUsesAgain(p, m, code, p');
    PhiKeysAgain(p, m, code, p');
    ReachableAgain(p, m, code, p');
  }

  lemma MovedInserted(p: Program, m: Motion, code: map<Block, seq<Ins>>, p': Program)
    requires Moved(p, m, code, p')
    ensures m.header in p.g.preds && Inserted(p.g, m.header, m.newBlock, Outside(p.g, m), p'.g)
  {
  }

  lemma EntryAgain(p: Program, m: Motion, code: map<Block, seq<Ins>>, p': Program)
    requires Moved(p, m, code, p')
    ensures p'.g.entry in p'.g.preds && p'.g.preds[p'.g.entry] == {} && PhisOf(p', p'.g.entry) == map[]
  {
    InsertedPreds(p.g, m.header, m.newBlock, Outside(p.g, m), p'.g);
    InsertedBlocks(p.g, m.header, m.newBlock, Outside(p.g, m), p'.g);
    MovedGraphFacts(p, m, code, p');
    OtherPhis(p, m, code, p', p.g.entry);
  }

  lemma ReachableAgain(p: Program, m: Motion, code: map<Block, seq<Ins>>, p': Program)
    requires Moved(p, m, code, p')
    ensures AllReachable(p'.g)
  {
    hide Moved, Reachable, Inserted, Entered;
    MovedInserted(p, m, code, p');
    InsertedBlocks(p.g, m.header, m.newBlock, Outside(p.g, m), p'.g);
    MovedGraphFacts(p, m, code, p');
    forall b | b in p'.g.blocks ensures Reachable(p'.g, b) {
      if b == m.newBlock {
        NewReachable(p.g, m.loop, m.header, m.newBlock, Outside(p.g, m), p'.g);
      } else {
        StillReachable(p.g, m.header, m.newBlock, Outside(p.g, m), p'.g, b);
      }
    }
  }

  /** Loops that do not contain this header stay what they were. */
  lemma OtherLoops(p: Program, m: Motion, code: map<Block, seq<Ins>>, p': Program, k: Block)
    requires Moved(p, m, code, p') && k in p.g.blocks && k != m.header && !InLoop(p.g, m.header, k)
    ensures IsHeader(p'.g, k) <==> IsHeader(p.g, k)
    ensures forall b :: InLoop(p'.g, b, k) <==> InLoop(p.g, b, k)
  {
    hide Moved, InLoop, IsHeader, Inserted;
    MovedInserted(p, m, code, p');
    InsertedBlocks(p.g, m.header, m.newBlock, Outside(p.g, m), p'.g);
    SameHeaders(p.g, m.header, m.newBlock, Outside(p.g, m), p'.g, k);
    forall b ensures InLoop(p'.g, b, k) <==> InLoop(p.g, b, k) {
      SameLoop(p.g, m.header, m.newBlock, Outside(p.g, m), p'.g, k, b);
    }
  }
}
