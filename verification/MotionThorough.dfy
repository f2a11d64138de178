/**
  What the pass achieves besides keeping the results: code that is invariant in a loop
  leaves it, and no phi is left trivial by the pass.
 */
module MotionThorough {
  import opened Cfg
  import opened NaturalLoops
  import opened MotionGraph
  import opened Ssa
  import opened LoopInvariantMotion
  import opened MotionStrict
  import opened TrivialPhis

  ghost predicate LoopIs(g: Graph, h: Block, loop: set<Block>) {
    h in g.blocks && IsHeader(g, h) && forall b :: b in loop <==> InLoop(g, b, h)
  }

  // ----- invariant code -----

  /** Where an instruction of the loop computes x, it is a pure one and reads nothing defined in the loop. */
  ghost predicate MayLeave(p: Program, loop: set<Block>, x: Id) {
    forall b, i :: b in loop && 0 <= i < |CodeOf(p, b)| && CodeOf(p, b)[i].id == x ==>
      Pure(CodeOf(p, b)[i]) && !ReadsLoop(p, loop, CodeOf(p, b)[i])
  }

  /** No instruction of the loop computes x. */
  ghost predicate HasLeft(p: Program, loop: set<Block>, x: Id) {
    forall b, i :: b in loop && 0 <= i < |CodeOf(p, b)| ==> CodeOf(p, b)[i].id != x
  }

  lemma {:induction false} RemainingMember(code: seq<Ins>, gone: set<Id>, i: nat) returns (j: nat)
    requires i < |Remaining(code, gone)|
    ensures j < |code| && code[j] == Remaining(code, gone)[i] && code[j].id !in gone
  {
    if code[0].id in gone {
      j := RemainingMember(code[1..], gone, i);
      j := j + 1;
    } else if i == 0 {
      j := 0;
    } else {
      j := RemainingMember(code[1..], gone, i - 1);
      j := j + 1;
    }
  }

  /** An instruction of an old block was there before, and was not moved. */
  lemma MovedInsSource(p: Program, m: Motion, code: map<Block, seq<Ins>>, p': Program, b: Block, i: nat) returns (j: nat)
    requires Moved(p, m, code, p') && b in p.g.blocks && i < |CodeOf(p', b)|
    ensures j < |CodeOf(p, b)| && CodeOf(p, b)[j] == CodeOf(p', b)[i] && CodeOf(p, b)[j].id !in Ids(m.moved)
  {
    MovedCode(p, m, code, p', b);
    j := RemainingMember(CodeOf(p, b), Ids(m.moved), i);
  }

  lemma MotionLeaves(p: Program, m: Motion, code: map<Block, seq<Ins>>, p': Program, x: Id)
    requires Moved(p, m, code, p') && MayLeave(p, m.loop, x)
    requires forall b, i :: b in m.loop && 0 <= i < |CodeOf(p, b)| && Pure(CodeOf(p, b)[i]) ==>
               CodeOf(p, b)[i].id in Ids(m.moved) || ReadsLoop(p, m.loop, CodeOf(p, b)[i])
    ensures HasLeft(p', m.loop, x)
  {
    hide Moved, Pure, ReadsLoop, Ids, CodeOf;
    MovedGraphFacts(p, m, code, p');
    forall b, i | b in m.loop && 0 <= i < |CodeOf(p', b)| ensures CodeOf(p', b)[i].id != x {
      var j := MovedInsSource(p, m, code, p', b, i);
    }
  }

  lemma NothingToLeave(p: Program, loop: set<Block>, x: Id)
    requires MayLeave(p, loop, x)
    requires forall b, i :: b in loop && 0 <= i < |CodeOf(p, b)| && Pure(CodeOf(p, b)[i]) ==>
               CodeOf(p, b)[i].id in Ids([]) || ReadsLoop(p, loop, CodeOf(p, b)[i])
    ensures HasLeft(p, loop, x)
  {
    hide Pure, ReadsLoop, CodeOf;
  }

  /** Moving the code of one loop puts nothing into the old blocks of another. */
  lemma MotionKeepsLeft(p: Program, m: Motion, code: map<Block, seq<Ins>>, p': Program, loop: set<Block>, x: Id)
    requires Moved(p, m, code, p') && loop <= BlockSet(p.g) && HasLeft(p, loop, x)
    ensures HasLeft(p', loop, x)
  {
    hide Moved, CodeOf;
    forall b, i | b in loop && 0 <= i < |CodeOf(p', b)| ensures CodeOf(p', b)[i].id != x {
      assert b in BlockSet(p.g);
      var j := MovedInsSource(p, m, code, p', b, i);
    }
  }

  lemma MotionKeepsMay(p: Program, m: Motion, code: map<Block, seq<Ins>>, p': Program, loop: set<Block>, x: Id)
    requires Moved(p, m, code, p') && loop <= BlockSet(p.g) && MayLeave(p, loop, x)
    ensures MayLeave(p', loop, x)
  {
    hide Moved, CodeOf, Pure, ReadsLoop;
    forall b, i | b in loop && 0 <= i < |CodeOf(p', b)| && CodeOf(p', b)[i].id == x
      ensures Pure(CodeOf(p', b)[i]) && !ReadsLoop(p', loop, CodeOf(p', b)[i])
    {
      assert b in BlockSet(p.g);
      var j := MovedInsSource(p, m, code, p', b, i);
      MotionReads(p, m, code, p', loop, CodeOf(p, b)[j]);
    }
  }

  lemma MotionReads(p: Program, m: Motion, code: map<Block, seq<Ins>>, p': Program, loop: set<Block>, i: Ins)
    requires Moved(p, m, code, p') && loop <= BlockSet(p.g)
    ensures ReadsLoop(p', loop, i) ==> ReadsLoop(p, loop, i)
  {
    hide Moved, DefinedAt;
    MovedInserted(p, m, code, p');
    InsertedBlocks(p.g, m.header, m.newBlock, Outside(p.g, m), p'.g);
    if v :| v in i.args && v.Result? && InLoopDef(p', loop, v.id) {
      var d' :| DefinedAt(p', v.id, d') && d'.block in loop;
      assert d'.block in BlockSet(p.g);
      var d := DefSource(p, m, code, p', v.id, d');
      assert DefinedAt(p, v.id, d) && d.block in loop;
    }
  }

  // ----- removing a phi -----

  /** What a phi outside the loop merges, and code of the loop reads, is not defined in the loop either. */
  lemma MergedOutside(p: Program, b: Block, z: Id, a: Value, h: Block, loop: set<Block>, c: Block, i: nat)
    requires Removable(p, b, z, a) && LoopIs(p.g, h, loop) && c in loop && i < |CodeOf(p, c)| && Result(z) in CodeOf(p, c)[i].args
    requires a.Result? && InLoopDef(p, loop, a.id)
    ensures InLoopDef(p, loop, z)
  {
    RemovableParts(p, b, z, a);
    LoopBlocks(p.g, h, loop, c);
    assert Reachable(p.g, c) && UseOk(p, Result(z), c, i);
    hide Removable, InLoop, IsHeader, Reachable, DefinedAt, UniqueDefs, CodeUsesOk, TermUsesOk, PhiUsesOk, TargetsMatch, Dominates;
    if b !in loop {
      var d := AvailableDef(p, z, c, i);
      Here(p, b, z, a, d);
      OutsideOperandDominatesHeader(p, loop, h, c, b);
      var e := DefinedAbove(p, b, z, a);
      var f :| DefinedAt(p, a.id, f) && f.block in loop;
      OneDef(p, a.id, e, f);
      HeaderDominatesLoop(p.g, f.block, h);
      DominanceTransitive(p.g, h, f.block, b);
      ReachableHeader(p, b, z, a, h, b);
      DominanceAntisymmetric(p.g, h, b);
      HeaderInItsLoop(p.g, h);
    }
    assert DefinedAt(p, z, AsPhi(b));
  }

  lemma OneDef(p: Program, x: Id, d: Def, e: Def)
    requires UniqueDefs(p) && DefinedAt(p, x, d) && DefinedAt(p, x, e)
    ensures d == e
  {
  }

  lemma ReachableHeader(p: Program, b: Block, z: Id, a: Value, h: Block, c: Block)
    requires Removable(p, b, z, a) && c in p.g.blocks
    ensures Reachable(p.g, c)
  {
  }

  lemma LoopBlocks(g: Graph, h: Block, loop: set<Block>, c: Block)
    requires WellFormed(g) && LoopIs(g, h, loop) && c in loop
    ensures c in g.blocks
  {
    var s :| BackEdge(g, s, h) && InLoopOf(g, c, s, h);
  }

  lemma RemovalKeepsLeft(p: Program, z: Id, a: Value, loop: set<Block>, x: Id)
    requires HasLeft(p, loop, x)
    ensures HasLeft(WithoutPhi(p, z, a), loop, x)
  {
    forall b, i | b in loop && 0 <= i < |CodeOf(WithoutPhi(p, z, a), b)| ensures CodeOf(WithoutPhi(p, z, a), b)[i].id != x {
      CodeAfter(p, z, a, b);
    }
  }

  lemma RemovalKeepsMay(p: Program, b: Block, z: Id, a: Value, h: Block, loop: set<Block>, x: Id)
    requires Removable(p, b, z, a) && LoopIs(p.g, h, loop) && MayLeave(p, loop, x)
    ensures MayLeave(WithoutPhi(p, z, a), loop, x)
  {
    hide Removable, ReadsLoop, LoopIs, WithoutPhi;
    var p' := WithoutPhi(p, z, a);
    forall c, i | c in loop && 0 <= i < |CodeOf(p', c)| && CodeOf(p', c)[i].id == x
      ensures Pure(CodeOf(p', c)[i]) && !ReadsLoop(p', loop, CodeOf(p', c)[i])
    {
      CodeAfter(p, z, a, c);
      assert Pure(CodeOf(p, c)[i]);
      RemovalReads(p, b, z, a, h, loop, c, i);
    }
  }

  lemma RemovalReads(p: Program, b: Block, z: Id, a: Value, h: Block, loop: set<Block>, c: Block, i: nat)
    requires Removable(p, b, z, a) && LoopIs(p.g, h, loop) && c in loop && i < |CodeOf(p, c)|
    ensures i < |CodeOf(WithoutPhi(p, z, a), c)|
    ensures ReadsLoop(WithoutPhi(p, z, a), loop, CodeOf(WithoutPhi(p, z, a), c)[i]) ==> ReadsLoop(p, loop, CodeOf(p, c)[i])
  {
    hide Removable, LoopIs, DefinedAt, WithoutPhi, CodeOf;
    var p' := WithoutPhi(p, z, a);
    CodeAfter(p, z, a, c);
    if v' :| v' in CodeOf(p', c)[i].args && v'.Result? && InLoopDef(p', loop, v'.id) {
      var args := CodeOf(p, c)[i].args;
      var n :| 0 <= n < |args| && v' == Repl(z, a, args[n]);
      var d :| DefinedAt(p', v'.id, d) && d.block in loop;
      DefsAfter(p, b, z, a, v'.id, d);
      assert InLoopDef(p, loop, v'.id);
      if args[n] == Result(z) {
        MergedOutside(p, b, z, a, h, loop, c, i);
      }
      assert args[n] in args;
    }
  }

  /** Invariant code stays invariant, and what has left stays away. */
  ghost predicate KeepsLeaving(p: Program, p': Program) {
    && p'.g == p.g
    && (forall h, loop, x :: LoopIs(p.g, h, loop) && MayLeave(p, loop, x) ==> MayLeave(p', loop, x))
    && forall loop, x :: HasLeft(p, loop, x) ==> HasLeft(p', loop, x)
  }

  lemma RemovalKeepsLeaving(p: Program, b: Block, z: Id, a: Value)
    requires Removable(p, b, z, a)
    ensures KeepsLeaving(p, WithoutPhi(p, z, a))
  {
    hide Removable, MayLeave, HasLeft, LoopIs;
    var p' := WithoutPhi(p, z, a);
    forall h, loop, x | LoopIs(p.g, h, loop) && MayLeave(p, loop, x) ensures MayLeave(p', loop, x) {
      RemovalKeepsMay(p, b, z, a, h, loop, x);
    }
    forall loop, x | HasLeft(p, loop, x) ensures HasLeft(p', loop, x) {
      RemovalKeepsLeft(p, z, a, loop, x);
    }
  }

  lemma KeepsLeavingTwice(p: Program, q: Program, r: Program)
    requires KeepsLeaving(p, q) && KeepsLeaving(q, r)
    ensures KeepsLeaving(p, r)
  {
    hide MayLeave, HasLeft, LoopIs;
  }

  // ----- the whole pass -----

  /** The loops before number i have lost their invariant code; in the others it may still leave. */
  ghost predicate LeftUpTo(p: Program, q: Program, blocks: seq<Block>, i: nat, loops: map<Block, set<Block>>) {
    && (forall j :: 0 <= j < |blocks| && blocks[j] in loops ==> loops[blocks[j]] <= BlockSet(q.g))
    && forall j, x :: 0 <= j < |blocks| && blocks[j] in loops && MayLeave(p, loops[blocks[j]], x) ==>
         if j < i then HasLeft(q, loops[blocks[j]], x) else MayLeave(q, loops[blocks[j]], x)
  }

  lemma LeftAtStart(p: Program, blocks: seq<Block>, loops: map<Block, set<Block>>)
    requires forall j :: 0 <= j < |blocks| && blocks[j] in loops ==> loops[blocks[j]] <= BlockSet(p.g)
    ensures LeftUpTo(p, p, blocks, 0, loops)
  {
    hide MayLeave, HasLeft;
  }

  lemma LeftSkips(p: Program, q: Program, blocks: seq<Block>, i: nat, loops: map<Block, set<Block>>)
    requires i < |blocks| && blocks[i] !in loops && LeftUpTo(p, q, blocks, i, loops)
    ensures LeftUpTo(p, q, blocks, i + 1, loops)
  {
    hide MayLeave, HasLeft;
  }

  /** A loop with nothing to move. */
  lemma LeftAlone(p: Program, q: Program, blocks: seq<Block>, i: nat, loops: map<Block, set<Block>>)
    requires i < |blocks| && blocks[i] in loops && (forall j :: 0 <= j < |blocks| && j != i ==> blocks[j] != blocks[i])
    requires LeftUpTo(p, q, blocks, i, loops)
    requires var loop := loops[blocks[i]];
             forall b, n :: b in loop && 0 <= n < |CodeOf(q, b)| && Pure(CodeOf(q, b)[n]) ==>
               CodeOf(q, b)[n].id in Ids([]) || ReadsLoop(q, loop, CodeOf(q, b)[n])
    ensures LeftUpTo(p, q, blocks, i + 1, loops)
  {
    hide MayLeave, HasLeft, Pure, ReadsLoop, CodeOf, Ids;
    forall x | MayLeave(p, loops[blocks[i]], x) ensures HasLeft(q, loops[blocks[i]], x) {
      NothingToLeave(q, loops[blocks[i]], x);
    }
  }

  lemma LeftByMotion(p: Program, q: Program, m: Motion, code: map<Block, seq<Ins>>, q': Program, blocks: seq<Block>, i: nat,
                     loops: map<Block, set<Block>>)
    requires Moved(q, m, code, q') && i < |blocks| && blocks[i] in loops && loops[blocks[i]] == m.loop
    requires LeftUpTo(p, q, blocks, i, loops)
    requires forall b, n :: b in m.loop && 0 <= n < |CodeOf(q, b)| && Pure(CodeOf(q, b)[n]) ==>
               CodeOf(q, b)[n].id in Ids(m.moved) || ReadsLoop(q, m.loop, CodeOf(q, b)[n])
    ensures LeftUpTo(p, q', blocks, i + 1, loops)
  {
    hide MayLeave, HasLeft, Pure, ReadsLoop, CodeOf, Ids, Moved, BlockSet;
    BlocksGrow(q, m, code, q');
    forall j, x | 0 <= j < |blocks| && blocks[j] in loops && MayLeave(p, loops[blocks[j]], x)
      ensures if j < i + 1 then HasLeft(q', loops[blocks[j]], x) else MayLeave(q', loops[blocks[j]], x)
    {
      var loop := loops[blocks[j]];
      if j < i {
        MotionKeepsLeft(q, m, code, q', loop, x);
      } else if j == i {
        MotionLeaves(q, m, code, q', x);
      } else {
        MotionKeepsMay(q, m, code, q', loop, x);
      }
    }
  }

  lemma BlocksGrow(p: Program, m: Motion, code: map<Block, seq<Ins>>, p': Program)
    requires Moved(p, m, code, p')
    ensures BlockSet(p.g) <= BlockSet(p'.g)
  {
    hide Moved;
    MovedInserted(p, m, code, p');
    InsertedBlocks(p.g, m.header, m.newBlock, Outside(p.g, m), p'.g);
  }

  lemma LeftByCleaning(p: Program, q: Program, q': Program, blocks: seq<Block>, i: nat, loops: map<Block, set<Block>>)
    requires LeftUpTo(p, q, blocks, i, loops) && KeepsLeaving(q, q')
    requires forall j :: i <= j < |blocks| && blocks[j] in loops ==> LoopIs(q.g, blocks[j], loops[blocks[j]])
    ensures LeftUpTo(p, q', blocks, i, loops)
  {
    hide MayLeave, HasLeft, LoopIs;
  }

  // ----- the list of blocks -----

  lemma {:induction false} InsertedAt(blocks: seq<Block>, h: Block, n: Block) returns (i: nat)
    requires h in blocks && forall j, k :: 0 <= j < k < |blocks| ==> blocks[j] != blocks[k]
    ensures i < |blocks| && blocks[i] == h && InsertBefore(blocks, h, n) == blocks[..i] + [n] + blocks[i..]
  {
    if blocks[0] == h {
      i := 0;
      NotThere(blocks[1..], h, n);
      assert h !in blocks[1..];
    } else {
      i := InsertedAt(blocks[1..], h, n);
      i := i + 1;
    }
  }

  lemma {:induction false} NotThere(blocks: seq<Block>, h: Block, n: Block)
    ensures h !in blocks ==> InsertBefore(blocks, h, n) == blocks
  {
    if blocks != [] {
      NotThere(blocks[1..], h, n);
    }
  }

  /** What the new block dominates the header dominates. */
  lemma BehindNewBehindHeader(p: Program, m: Motion, code: map<Block, seq<Ins>>, p': Program, x: Block)
    requires Moved(p, m, code, p') && x != m.newBlock && Dominates(p'.g, m.newBlock, x)
    ensures Dominates(p'.g, m.header, x)
  {
    hide Moved, Inserted;
    MovedInserted(p, m, code, p');
    var out := Outside(p.g, m);
    InsertedEdges(p.g, m.header, m.newBlock, out, p'.g);
    forall w | Connects(p'.g, w, p'.g.entry, x) ensures m.header in w {
      var k :| 0 <= k < |w| && w[k] == m.newBlock;
      assert Edge(p'.g, w[k], w[k + 1]);
    }
  }

  /** The new block does not come before a block that dominates it, nor behind one it dominates. */
  lemma NewInPlace(p: Program, m: Motion, code: map<Block, seq<Ins>>, p': Program, x: Block)
    requires Moved(p, m, code, p') && x in p.g.blocks
    ensures Dominates(p'.g, x, m.newBlock) ==> x != m.header && Dominates(p.g, x, m.header)
    ensures Dominates(p'.g, m.newBlock, x) ==> Dominates(p.g, m.header, x)
  {
    hide Moved, Inserted, Dominates, Entered, Reachable;
    MovedInserted(p, m, code, p');
    var g, g', h, n, out := p.g, p'.g, m.header, m.newBlock, Outside(p.g, m);
    InsertedBlocks(g, h, n, out, g');
    MovedGraphFacts(p, m, code, p');
    if Dominates(g', x, n) {
      LoopBehindNew(g, m.loop, h, n, out, g', h);
      NewReachable(g, m.loop, h, n, out, g');
      if x == h {
        DominanceAntisymmetric(g', h, n);
      } else {
        DominanceTransitive(g', x, n, h);
        SameDominance(g, h, n, out, g', x, h);
      }
    }
    if Dominates(g', n, x) {
      BehindNewBehindHeader(p, m, code, p', x);
      SameDominance(g, h, n, out, g', h, x);
    }
  }

  /** Dominators stay in front: the new block stands directly before the header. */
  lemma ListedAfterMotion(p: Program, m: Motion, code: map<Block, seq<Ins>>, p': Program)
    requires Moved(p, m, code, p') && DominatorsFirst(p.g) && p'.g.blocks == InsertBefore(p.g.blocks, m.header, m.newBlock)
    ensures DominatorsFirst(p'.g)
  {
    hide Moved, Inserted, Dominates, InsertBefore;
    MovedInserted(p, m, code, p');
    var g, g', h, n, out := p.g, p'.g, m.header, m.newBlock, Outside(p.g, m);
    InsertedBlocks(g, h, n, out, g');
    var i := InsertedAt(g.blocks, h, n);
    forall a, b | 0 <= a < b < |g'.blocks| ensures g'.blocks[a] != g'.blocks[b] && !Dominates(g', g'.blocks[b], g'.blocks[a]) {
      var x, y := g'.blocks[a], g'.blocks[b];
      assert x == if a < i then g.blocks[a] else if a == i then n else g.blocks[a - 1];
      assert y == if b < i then g.blocks[b] else if b == i then n else g.blocks[b - 1];
      if a == i {
        NewInPlace(p, m, code, p', y);
      } else if b == i {
        NewInPlace(p, m, code, p', x);
      } else {
        SameDominance(g, h, n, out, g', y, x);
      }
    }
  }

  // ----- trivial phis -----

  /** A phi of the graph merges a single value other than itself. */
  ghost predicate IsTrivial(p: Program, b: Block, x: Id) {
    b in p.g.blocks && x in PhisOf(p, b) && exists a :: OnlyMerges(PhisOf(p, b)[x], x, a)
  }

  ghost predicate OnlyMerges(operands: map<Block, Value>, x: Id, a: Value) {
    a != Result(x) && forall q :: q in operands ==> operands[q] == a || operands[q] == Result(x)
  }

  function PhiUsers(p: Program, x: Id): set<(Block, Id)> {
    set b, y | b in p.phis && y in p.phis[b] && y != x && Result(x) in p.phis[b][y].Values :: (b, y)
  }

  /** Only phis that read the removed one can become trivial. */
  lemma RemovalMakesTrivial(p: Program, b: Block, x: Id, a: Value, c: Block, y: Id)
    requires IsTrivial(WithoutPhi(p, x, a), c, y)
    ensures y != x && (IsTrivial(p, c, y) || (c, y) in PhiUsers(p, x))
  {
    PhisAfter(p, x, a, c);
    PhiKeysAfter(x, a, PhisOf(p, c));
    var operands := PhisOf(p, c)[y];
    if Result(x) !in operands.Values {
      assert ReplOperands(x, a, operands) == operands;
    }
  }

  /** Motion leaves the phis of blocks other than the header and the new one alone. */
  lemma MotionMakesTrivial(p: Program, m: Motion, code: map<Block, seq<Ins>>, p': Program, c: Block, y: Id)
    requires Moved(p, m, code, p') && c != m.header && c != m.newBlock && IsTrivial(p', c, y)
    ensures IsTrivial(p, c, y)
  {
    MovedInserted(p, m, code, p');
    InsertedBlocks(p.g, m.header, m.newBlock, Outside(p.g, m), p'.g);
    assert WiredPhis(p, m, p');
    hide Moved, PhisOf;
    assert PhisOf(p', c) == PhisOf(p, c);
  }
}
