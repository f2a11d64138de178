/**
  Dominator sets by iteration to a fixpoint, and the natural loops found from
  the back edges.
 */
module NaturalLoops {
  import opened Cfg

  // ----- dominators: the equations and their solution -----

  ghost function Intersection(out: map<Block, set<Block>>, ps: set<Block>, all: set<Block>): set<Block>
    requires forall p :: p in ps ==> p in out
  {
    set d | d in all && forall p :: p in ps ==> d in out[p]
  }

  ghost function Step(g: Graph, out: map<Block, set<Block>>, b: Block): set<Block>
    requires WellFormed(g) && b in g.blocks && OutOk(g, out)
  {
    Intersection(out, g.preds[b], BlockSet(g)) + {b}
  }

  ghost predicate OutOk(g: Graph, out: map<Block, set<Block>>) {
    forall b :: b in g.blocks ==> b in out && out[b] <= BlockSet(g)
  }

  /** Nothing that dominates is missing, and each set is at least its equation. */
  ghost predicate Above(g: Graph, out: map<Block, set<Block>>)
    requires WellFormed(g)
  {
    && OutOk(g, out)
    && out[g.entry] == {g.entry}
    && (forall b, d :: b in g.blocks && d in g.blocks && Dominates(g, d, b) ==> d in out[b])
    && (forall b :: b in g.blocks && b != g.entry ==> Step(g, out, b) <= out[b])
  }

  ghost predicate Solved(g: Graph, out: map<Block, set<Block>>, b: Block)
    requires WellFormed(g) && OutOk(g, out) && b in g.blocks
  {
    b == g.entry || out[b] == Step(g, out, b)
  }

  lemma EntryDominatedOnlyByItself(g: Graph, d: Block)
    requires WellFormed(g) && Dominates(g, d, g.entry)
    ensures d == g.entry
  {
    assert Connects(g, [g.entry], g.entry, g.entry);
  }

  /** Replacing one set by its equation keeps every invariant of the iteration. */
  lemma StepKeepsAbove(g: Graph, out: map<Block, set<Block>>, b: Block)
    requires WellFormed(g) && Above(g, out) && b in g.blocks && b != g.entry
    ensures Above(g, out[b := Step(g, out, b)])
  {
    var out' := out[b := Step(g, out, b)];
    forall d | d in g.blocks && Dominates(g, d, b) ensures d in out'[b] {
      if d != b {
        forall p | p in g.preds[b] ensures d in out[p] {
          DominatesPred(g, d, p, b);
        }
      }
    }
  }

  lemma DominatesPred(g: Graph, d: Block, p: Block, b: Block)
    requires WellFormed(g) && b in g.blocks && p in g.preds[b] && Dominates(g, d, b) && d != b
    ensures Dominates(g, d, p)
  {
    forall w | Connects(g, w, g.entry, p) ensures d in w {
      Extend(g, w, b);
      assert d in w + [b];
    }
  }

  /** A solution contains nothing that some walk avoids. */
  lemma {:induction false} SolutionIsDominance(g: Graph, out: map<Block, set<Block>>, d: Block, w: seq<Block>)
    requires WellFormed(g) && OutOk(g, out) && out[g.entry] == {g.entry}
    requires forall b :: b in g.blocks ==> Solved(g, out, b)
    requires IsWalk(g, w) && w[0] == g.entry && Last(w) in g.blocks && d in out[Last(w)]
    ensures d in w
    decreases |w|
  {
    WalkInGraph(g, w);
    var b := Last(w);
    if b != g.entry && d != b {
      var v := w[..|w| - 1];
      assert Edge(g, w[|w| - 2], w[|w| - 2 + 1]);
      Prefix(g, w, |w| - 1);
      assert Solved(g, out, b);
      SolutionIsDominance(g, out, d, v);
    }
  }

  lemma SolvedIsExact(g: Graph, out: map<Block, set<Block>>)
    requires WellFormed(g) && Above(g, out)
    requires forall b :: b in g.blocks ==> Solved(g, out, b)
    ensures forall b, d :: b in g.blocks && d in g.blocks ==> (d in out[b] <==> Dominates(g, d, b))
  {
    forall b, d | b in g.blocks && d in out[b] ensures Dominates(g, d, b) {
      forall w | Connects(g, w, g.entry, b) ensures d in w {
        SolutionIsDominance(g, out, d, w);
      }
    }
  }

  lemma InitiallyAbove(g: Graph, out: map<Block, set<Block>>)
    requires WellFormed(g)
    requires forall b :: b in g.blocks ==> b in out && out[b] == if b == g.entry then {g.entry} else BlockSet(g)
    ensures Above(g, out)
  {
    forall d | Dominates(g, d, g.entry) ensures d == g.entry {
      EntryDominatedOnlyByItself(g, d);
    }
  }

  // ----- the iteration's measure -----

  ghost function TotalSize(out: map<Block, set<Block>>, bs: seq<Block>): nat
    requires forall b :: b in bs ==> b in out
  {
    if bs == [] then 0 else |out[bs[0]]| + TotalSize(out, bs[1..])
  }

  lemma SubsetSize<T>(a: set<T>, b: set<T>)
    requires a <= b
    ensures |a| <= |b| && (|a| == |b| ==> a == b)
  {
    assert b == a + (b - a);
  }

  lemma {:induction false} TotalShrinks(out: map<Block, set<Block>>, bs: seq<Block>, b: Block, s: set<Block>)
    requires (forall c :: c in bs ==> c in out) && b in out && s <= out[b]
    ensures TotalSize(out[b := s], bs) <= TotalSize(out, bs)
    ensures b in bs && s != out[b] ==> TotalSize(out[b := s], bs) < TotalSize(out, bs)
  {
    SubsetSize(s, out[b]);
    if bs != [] {
      TotalShrinks(out, bs[1..], b, s);
    }
  }

  // ----- natural loops -----

  ghost predicate BackEdge(g: Graph, s: Block, h: Block) {
    Edge(g, s, h) && Dominates(g, h, s)
  }

  ghost predicate IsHeader(g: Graph, h: Block) {
    exists s :: BackEdge(g, s, h)
  }

  /** b reaches the back edge source s without passing the header h. */
  ghost predicate ReachesAvoiding(g: Graph, b: Block, s: Block, h: Block) {
    exists w :: Connects(g, w, b, s) && h !in w
  }

  ghost predicate InLoopOf(g: Graph, b: Block, s: Block, h: Block) {
    b == h || ReachesAvoiding(g, b, s, h)
  }

  ghost predicate InLoop(g: Graph, b: Block, h: Block) {
    exists s :: BackEdge(g, s, h) && InLoopOf(g, b, s, h)
  }

  lemma HeaderDominatesLoop(g: Graph, b: Block, h: Block)
    requires WellFormed(g) && InLoop(g, b, h)
    ensures Dominates(g, h, b)
  {
    var s :| BackEdge(g, s, h) && InLoopOf(g, b, s, h);
    if b != h {
      var v :| Connects(g, v, b, s) && h !in v;
      forall w | Connects(g, w, g.entry, b) ensures h in w {
        Join(g, w, v);
        assert h in w + v[1..];
      }
    }
  }

  lemma PredecessorInLoop(g: Graph, p: Block, b: Block, h: Block)
    requires WellFormed(g) && InLoop(g, b, h) && b in g.blocks && b != h && p in g.preds[b]
    ensures InLoop(g, p, h)
  {
    var s :| BackEdge(g, s, h) && InLoopOf(g, b, s, h);
    if p != h {
      var v :| Connects(g, v, b, s) && h !in v;
      assert Edge(g, p, b);
      assert IsWalk(g, [p, b]);
      Join(g, [p, b], v);
      assert Connects(g, [p, b] + v[1..], p, s) && h !in [p, b] + v[1..];
      assert InLoopOf(g, p, s, h);
    }
  }

  /** A set closed under predecessors up to h swallows every walk to one of its members. */
  lemma {:induction false} ClosedSetSwallows(g: Graph, c: set<Block>, h: Block, w: seq<Block>)
    requires WellFormed(g) && IsWalk(g, w) && h !in w && Last(w) in c
    requires forall b, p :: b in c && b in g.blocks && b != h && p in g.preds[b] ==> p in c
    ensures w[0] in c
    decreases |w|
  {
    if |w| > 1 {
      WalkInGraph(g, w);
      var n := |w| - 1;
      assert Edge(g, w[n - 1], w[n - 1 + 1]);
      Prefix(g, w, n);
      ClosedSetSwallows(g, c, h, w[..n]);
    }
  }

  /** The loops collected so far are those of the back edges already treated. */
  ghost predicate Describes(g: Graph, loops: map<Block, set<Block>>, done: set<(Block, Block)>) {
    && (forall h :: h in loops <==> exists s :: (s, h) in done)
    && (forall h, b :: h in loops ==> (b in loops[h] <==> exists s :: (s, h) in done && InLoopOf(g, b, s, h)))
  }

  lemma NoLoopsYet(g: Graph)
    ensures Describes(g, map[], {})
  {
  }

  lemma CompleteDescription(g: Graph, loops: map<Block, set<Block>>, done: set<(Block, Block)>)
    requires Describes(g, loops, done)
    requires forall s: Block, h: Block :: BackEdge(g, s, h) <==> (s, h) in done
    ensures forall h :: h in loops <==> IsHeader(g, h)
    ensures forall h, b :: h in loops ==> (b in loops[h] <==> InLoop(g, b, h))
  {
    hide InLoopOf;
    forall h ensures h in loops <==> IsHeader(g, h) {
      if IsHeader(g, h) { var s :| BackEdge(g, s, h); assert (s, h) in done; }
    }
    forall h, b | h in loops ensures b in loops[h] <==> InLoop(g, b, h) {
      if InLoop(g, b, h) {
        var s :| BackEdge(g, s, h) && InLoopOf(g, b, s, h);
        assert (s, h) in done;
      }
    }
  }

  class LoopFinder {
    var inDominate: map<Block, set<Block>>
    var outDominate: map<Block, set<Block>>
    var loopBlocks: map<Block, set<Block>>

    constructor ()
      ensures inDominate == map[] && outDominate == map[] && loopBlocks == map[]
    {
      inDominate, outDominate, loopBlocks := map[], map[], map[];
    }

    /** The intersection of the predecessors' sets, taken one predecessor at a time. */
    method IntersectPreds(g: Graph, bb: Block) returns (inSet: set<Block>)
      requires WellFormed(g) && bb in g.blocks && OutOk(g, outDominate)
      ensures inSet == Intersection(outDominate, g.preds[bb], BlockSet(g))
    {
      inSet := BlockSet(g);
      var rest := g.preds[bb];
      while rest != {}
        invariant rest <= g.preds[bb]
        invariant inSet == Intersection(outDominate, g.preds[bb] - rest, BlockSet(g))
        decreases rest
      {
        var pred :| pred in rest;
        var tempSet := outDominate[pred];
        assert g.preds[bb] - (rest - {pred}) == (g.preds[bb] - rest) + {pred};
        inSet := set item | item in inSet && item in tempSet;
        rest := rest - {pred};
      }
      assert g.preds[bb] - {} == g.preds[bb];
    }

    /** On return outDominate[b] is exactly the set of blocks dominating b. */
    method BuildDominateTree(g: Graph)
      requires WellFormed(g)
      modifies this
      ensures OutOk(g, outDominate)
      ensures forall b, d :: b in g.blocks && d in g.blocks ==> (d in outDominate[b] <==> Dominates(g, d, b))
      ensures loopBlocks == old(loopBlocks)
    {
      var uSet := BlockSet(g);
      outDominate := (map b | b in uSet :: uSet)[g.entry := {g.entry}];
      inDominate := map b | b in uSet && b != g.entry :: {};
      InitiallyAbove(g, outDominate);
      hide Step, TotalSize, Dominates;
      var outChanged := true;
      while outChanged
        invariant Above(g, outDominate)
        invariant !outChanged ==> forall b :: b in g.blocks ==> Solved(g, outDominate, b)
        invariant loopBlocks == old(loopBlocks)
        decreases TotalSize(outDominate, g.blocks), outChanged
      {
        outChanged := Pass(g);
      }
      SolvedIsExact(g, outDominate);
    }

    /** Recomputes the sets of one block; the sizes alone tell whether they changed. */
    method Update(g: Graph, bb: Block) returns (changed: bool)
      requires WellFormed(g) && Above(g, outDominate) && bb in g.blocks && bb != g.entry
      modifies this`inDominate, this`outDominate
      ensures Above(g, outDominate)
      ensures !changed ==> outDominate == old(outDominate) && Solved(g, outDominate, bb)
      ensures changed ==> TotalSize(outDominate, g.blocks) < TotalSize(old(outDominate), g.blocks)
    {
      var inSet := IntersectPreds(g, bb);
      inDominate := inDominate[bb := inSet];
      var outSet := inSet + {bb};
      assert outSet == Step(g, outDominate, bb);
      StepKeepsAbove(g, outDominate, bb);
      hide *;
      SubsetSize(outSet, outDominate[bb]);
      TotalShrinks(outDominate, g.blocks, bb, outSet);
      changed := |outSet| != |outDominate[bb]|;
      assert !changed ==> outDominate[bb := outSet] == outDominate;
      outDominate := outDominate[bb := outSet];
    }

    /** One sweep over the blocks, updating the sets in place. */
    method Pass(g: Graph) returns (outChanged: bool)
      requires WellFormed(g) && Above(g, outDominate)
      modifies this`inDominate, this`outDominate
      ensures Above(g, outDominate)
      ensures !outChanged ==> outDominate == old(outDominate) && forall b :: b in g.blocks ==> Solved(g, outDominate, b)
      ensures outChanged ==> TotalSize(outDominate, g.blocks) < TotalSize(old(outDominate), g.blocks)
    {
      hide Step, TotalSize, Dominates;
      outChanged := false;
      for i := 0 to |g.blocks|
        invariant Above(g, outDominate)
        invariant !outChanged ==> outDominate == old(outDominate)
        invariant !outChanged ==> forall j :: 0 <= j < i ==> Solved(g, outDominate, g.blocks[j])
        invariant outChanged ==> TotalSize(outDominate, g.blocks) < TotalSize(old(outDominate), g.blocks)
      {
        var bb := g.blocks[i];
        if bb != g.entry {
          var changed := Update(g, bb);
          outChanged := outChanged || changed;
        }
      }
    }

    /** The backward search from one back edge bb -> suc. */
    method CollectLoop(g: Graph, bb: Block, suc: Block) returns (tempLoopSet: set<Block>)
      requires WellFormed(g) && BackEdge(g, bb, suc)
      ensures forall b :: b in tempLoopSet <==> InLoopOf(g, b, bb, suc)
    {
      var loopQueue := [bb];
      tempLoopSet := {bb, suc};
      assert bb != suc ==> Connects(g, [bb], bb, bb) && suc !in [bb];
      while loopQueue != []
        invariant tempLoopSet <= BlockSet(g) && bb in tempLoopSet && suc in tempLoopSet
        invariant forall b :: b in loopQueue ==> b in tempLoopSet
        invariant forall b :: b in tempLoopSet ==> InLoopOf(g, b, bb, suc)
        invariant forall b: Block, p: Block :: b in tempLoopSet && b in g.blocks && b != suc && b !in loopQueue && p in g.preds[b] ==> p in tempLoopSet
        decreases BlockSet(g) - tempLoopSet, |loopQueue|
      {
        var top := loopQueue[0];
        assert top in tempLoopSet && top in BlockSet(g);
        loopQueue := loopQueue[1..];
        if top != suc {
          var preds := g.preds[top];
          var fresh' := preds - tempLoopSet;
          forall p | p in fresh' ensures InLoopOf(g, p, bb, suc) {
            var v :| Connects(g, v, top, bb) && suc !in v;
            assert Edge(g, p, top);
            assert IsWalk(g, [p, top]);
            Join(g, [p, top], v);
            assert suc !in [p, top] + v[1..];
          }
          assert fresh' <= BlockSet(g);
          var order := Enqueue(fresh');
          tempLoopSet := tempLoopSet + fresh';
          loopQueue := loopQueue + order;
        }
      }
      forall b | InLoopOf(g, b, bb, suc) && b != suc ensures b in tempLoopSet {
        var w :| Connects(g, w, b, bb) && suc !in w;
        ClosedSetSwallows(g, tempLoopSet, suc, w);
      }
    }

    /** Predecessors are visited in the arbitrary order of an unordered set. */
    method Enqueue(s: set<Block>) returns (q: seq<Block>)
      ensures forall b :: b in q <==> b in s
      ensures s == {} ==> q == []
    {
      q := [];
      var rest := s;
      while rest != {}
        invariant rest <= s && forall b :: b in q <==> b in s - rest
        invariant s == {} ==> q == []
        decreases rest
      {
        var b :| b in rest;
        q, rest := q + [b], rest - {b};
      }
    }

    /** Adds the loop of one back edge to what its header already has. */
    method Merge(g: Graph, bb: Block, suc: Block, ghost done: set<(Block, Block)>)
      requires WellFormed(g) && BackEdge(g, bb, suc) && Describes(g, loopBlocks, done)
      modifies this`loopBlocks
      ensures Describes(g, loopBlocks, done + {(bb, suc)})
    {
      var tempLoopSet := CollectLoop(g, bb, suc);
      var newLoopSet := tempLoopSet + if suc in loopBlocks then loopBlocks[suc] else {};
      forall b ensures b in newLoopSet <==> exists s :: (s, suc) in done + {(bb, suc)} && InLoopOf(g, b, s, suc) {
        if b in tempLoopSet { assert (bb, suc) in done + {(bb, suc)}; }
        if suc in loopBlocks && b in loopBlocks[suc] {
          var s :| (s, suc) in done && InLoopOf(g, b, s, suc);
          assert (s, suc) in done + {(bb, suc)};
        }
      }
      hide InLoopOf;
      ghost var before := loopBlocks;
      loopBlocks := loopBlocks[suc := newLoopSet];
      forall h | h != suc ensures h in before <==> exists s :: (s, h) in done + {(bb, suc)} {
        if h in before { var s :| (s, h) in done; assert (s, h) in done + {(bb, suc)}; }
      }
      forall h, b | h != suc && h in before
        ensures b in before[h] <==> exists s :: (s, h) in done + {(bb, suc)} && InLoopOf(g, b, s, h)
      {
        if b in before[h] { var s :| (s, h) in done && InLoopOf(g, b, s, h); assert (s, h) in done + {(bb, suc)}; }
      }
      assert (bb, suc) in done + {(bb, suc)};
    }

    /** Treats every back edge leaving bb. */
    method ScanSuccessors(g: Graph, bb: Block, ghost done0: set<(Block, Block)>) returns (ghost done: set<(Block, Block)>)
      requires WellFormed(g) && bb in g.blocks && bb in outDominate && Describes(g, loopBlocks, done0)
      requires forall d :: d in g.blocks ==> (d in outDominate[bb] <==> Dominates(g, d, bb))
      requires forall e :: e in done0 ==> BackEdge(g, e.0, e.1)
      modifies this`loopBlocks
      ensures Describes(g, loopBlocks, done) && done0 <= done
      ensures forall e :: e in done ==> BackEdge(g, e.0, e.1)
      ensures forall h: Block :: BackEdge(g, bb, h) ==> (bb, h) in done
    {
      done := done0;
      var rest := g.succs[bb];
      while rest != {}
        invariant rest <= g.succs[bb] && done0 <= done
        invariant forall e :: e in done ==> BackEdge(g, e.0, e.1)
        invariant forall h: Block :: BackEdge(g, bb, h) && h !in rest ==> (bb, h) in done
        invariant Describes(g, loopBlocks, done)
        decreases rest
      {
        var suc :| suc in rest;
        if suc in outDominate[bb] {
          Merge(g, bb, suc, done);
          done := done + {(bb, suc)};
        }
        rest := rest - {suc};
      }
    }

    /** loopBlocks maps exactly the headers, each to exactly its natural loop. */
    method FindLoopBlocks(g: Graph)
      requires WellFormed(g) && OutOk(g, outDominate) && loopBlocks == map[]
      requires forall b, d :: b in g.blocks && d in g.blocks ==> (d in outDominate[b] <==> Dominates(g, d, b))
      modifies this`loopBlocks
      ensures forall h :: h in loopBlocks <==> IsHeader(g, h)
      ensures forall h, b :: h in loopBlocks ==> (b in loopBlocks[h] <==> InLoop(g, b, h))
    {
      hide InLoopOf, Describes, InLoop, IsHeader, Dominates;
      ghost var done: set<(Block, Block)> := {};
      NoLoopsYet(g);
      for i := 0 to |g.blocks|
        invariant forall e :: e in done ==> BackEdge(g, e.0, e.1)
        invariant forall j: nat, h: Block :: j < i && BackEdge(g, g.blocks[j], h) ==> (g.blocks[j], h) in done
        invariant Describes(g, loopBlocks, done)
      {
        done := ScanSuccessors(g, g.blocks[i], done);
      }
      forall s: Block, h: Block ensures BackEdge(g, s, h) <==> (s, h) in done {
        if BackEdge(g, s, h) {
          var j :| 0 <= j < |g.blocks| && g.blocks[j] == s;
        }
      }
      CompleteDescription(g, loopBlocks, done);
    }
  }
}
