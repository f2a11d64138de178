/**
  The control-flow graph with a new block in front of a loop's header: walks,
  dominance and the other loops are what they were.
 */
module MotionGraph {
  import opened Cfg
  import opened NaturalLoops

  /** g' is g with n between the predecessors in `out` and h. */
  ghost predicate Inserted(g: Graph, h: Block, n: Block, out: set<Block>, g': Graph) {
    && WellFormed(g) && h in g.blocks && n !in g.blocks && out <= g.preds[h]
    && g'.entry == g.entry
    && (forall b :: b in g'.blocks <==> b in g.blocks || b == n)
    && g'.preds == g.preds[h := g.preds[h] - out + {n}][n := out]
    && g'.succs == (map b | b in g.succs :: if b in out then g.succs[b] - {h} + {n} else g.succs[b])[n := {h}]
  }

  lemma InsertedSuccs(g: Graph, h: Block, n: Block, out: set<Block>, g': Graph)
    requires Inserted(g, h, n, out, g')
    ensures n in g'.succs && g'.succs[n] == {h} && h != n && n !in out
    ensures forall b :: b in g.blocks ==> b in g.succs && b in g'.succs && g'.succs[b] == if b in out then g.succs[b] - {h} + {n} else g.succs[b]
    ensures forall b :: b in out ==> b in g.blocks && h in g.succs[b]
    ensures forall b, s :: b in g.blocks && s in g.succs[b] ==> s in g.blocks && s != n
  {
  }

  lemma InsertedPreds(g: Graph, h: Block, n: Block, out: set<Block>, g': Graph)
    requires Inserted(g, h, n, out, g')
    ensures n in g'.preds && g'.preds[n] == out && h != n
    ensures forall b :: b in g.blocks ==> b in g.preds && b in g'.preds && g'.preds[b] == if b == h then g.preds[h] - out + {n} else g.preds[b]
    ensures forall b, q :: b in g.blocks && q in g.preds[b] ==> q in g.blocks && q != n
  {
  }

  lemma InsertedEdges(g: Graph, h: Block, n: Block, out: set<Block>, g': Graph)
    requires Inserted(g, h, n, out, g')
    ensures n != h
    ensures forall a, b :: a != n && b != n ==> (Edge(g', a, b) <==> Edge(g, a, b) && !(a in out && b == h))
    ensures forall a :: Edge(g', a, n) <==> a in out
    ensures forall b :: Edge(g', n, b) <==> b == h
    ensures forall a :: a in out ==> Edge(g, a, h) && a != n
    ensures forall a, b :: Edge(g, a, b) ==> a != n && b != n
  {
    InsertedSuccs(g, h, n, out, g');
    InsertedBlocks(g, h, n, out, g');
    hide Inserted, WellFormed;
  }

  lemma InsertedWellFormed(g: Graph, h: Block, n: Block, out: set<Block>, g': Graph)
    requires Inserted(g, h, n, out, g')
    ensures WellFormed(g')
  {
    InsertedSuccs(g, h, n, out, g');
    InsertedPreds(g, h, n, out, g');
    InsertedBlocks(g, h, n, out, g');
    assert forall b, q :: b in g.blocks && q in g.preds[b] ==> b in g.succs[q];
    assert forall b, s :: b in g.blocks && s in g.succs[b] ==> b in g.preds[s];
    assert out <= g.preds[h];
    hide Inserted, WellFormed;
    forall b | b in g'.blocks ensures b in g'.preds && b in g'.succs {
    }
    forall b, q | b in g'.blocks && q in g'.preds[b] ensures q in g'.blocks && b in g'.succs[q] {
    }
    forall b, s | b in g'.blocks && s in g'.succs[b] ensures s in g'.blocks && b in g'.preds[s] {
    }
    WellFormedBy(g');
  }

  lemma WellFormedBy(g: Graph)
    requires g.entry in g.blocks && forall b :: b in g.blocks ==> b in g.preds && b in g.succs
    requires forall b, q :: b in g.blocks && q in g.preds[b] ==> q in g.blocks && b in g.succs[q]
    requires forall b, s :: b in g.blocks && s in g.succs[b] ==> s in g.blocks && b in g.preds[s]
    ensures WellFormed(g)
  {
  }

  /** A walk around n, with n left out. */
  lemma {:induction false} Contract(g: Graph, h: Block, n: Block, out: set<Block>, g': Graph, w': seq<Block>) returns (w: seq<Block>)
    requires Inserted(g, h, n, out, g') && IsWalk(g', w') && w'[0] != n && Last(w') != n
    ensures Connects(g, w, w'[0], Last(w')) && forall x :: x in w ==> x in w'
    decreases |w'|
  {
    hide Inserted;
    InsertedEdges(g, h, n, out, g');
    InsertedBlocks(g, h, n, out, g');
    if |w'| == 1 {
      w := w';
    } else {
      var k := |w'| - 1;
      assert Edge(g', w'[k - 1], w'[k - 1 + 1]);
      var j := if w'[k - 1] == n then k - 1 else k;
      if w'[k - 1] == n {
        assert k - 1 > 0;
        assert Edge(g', w'[k - 2], w'[k - 2 + 1]);
      }
      Prefix(g', w', j);
      var v := Contract(g, h, n, out, g', w'[..j]);
      assert Edge(g, w'[j - 1], w'[k]);
      Extend(g, v, w'[k]);
      w := v + [w'[k]];
    }
  }

  lemma InsertedBlocks(g: Graph, h: Block, n: Block, out: set<Block>, g': Graph)
    requires Inserted(g, h, n, out, g')
    ensures g'.entry == g.entry && g.entry in g.blocks && h in g.blocks && n !in g.blocks
    ensures forall b :: b in g'.blocks <==> b in g.blocks || b == n
    ensures WellFormed(g)
  {
  }

  /** A walk with n put in wherever it now lies on the way. */
  lemma {:induction false} Expand(g: Graph, h: Block, n: Block, out: set<Block>, g': Graph, w: seq<Block>) returns (w': seq<Block>)
    requires Inserted(g, h, n, out, g') && IsWalk(g, w)
    ensures Connects(g', w', w[0], Last(w)) && forall x :: x in w' ==> x in w || x == n
    decreases |w|
  {
    hide Inserted;
    InsertedEdges(g, h, n, out, g');
    InsertedBlocks(g, h, n, out, g');
    if |w| == 1 {
      w' := w;
    } else {
      var k := |w| - 1;
      assert Edge(g, w[k - 1], w[k - 1 + 1]);
      Prefix(g, w, k);
      var v := Expand(g, h, n, out, g', w[..k]);
      if w[k - 1] in out && w[k] == h {
        Extend(g', v, n);
        v := v + [n];
      }
      Extend(g', v, w[k]);
      w' := v + [w[k]];
    }
  }

  lemma SameDominance(g: Graph, h: Block, n: Block, out: set<Block>, g': Graph, d: Block, b: Block)
    requires Inserted(g, h, n, out, g') && d != n && b != n
    ensures Dominates(g', d, b) <==> Dominates(g, d, b)
  {
    hide Inserted, IsWalk;
    InsertedBlocks(g, h, n, out, g');
    if Dominates(g, d, b) {
      forall w' | Connects(g', w', g'.entry, b) ensures d in w' {
        var w := Contract(g, h, n, out, g', w');
      }
    }
    if Dominates(g', d, b) {
      forall w | Connects(g, w, g.entry, b) ensures d in w {
        var w' := Expand(g, h, n, out, g', w);
      }
    }
  }

  lemma StillReachable(g: Graph, h: Block, n: Block, out: set<Block>, g': Graph, b: Block)
    requires Inserted(g, h, n, out, g') && Reachable(g, b)
    ensures Reachable(g', b)
  {
    InsertedBlocks(g, h, n, out, g');
    var w :| Connects(g, w, g.entry, b);
    var w' := Expand(g, h, n, out, g', w);
  }

  // ----- the loop of the new block -----

  ghost predicate Entered(g: Graph, loop: set<Block>, h: Block, out: set<Block>) {
    && WellFormed(g) && h in g.blocks && g.entry !in loop
    && (forall x :: x in loop <==> InLoop(g, x, h))
    && out == g.preds[h] - loop
  }

  /** Every way into the loop leads through n. */
  lemma {:induction false} ThroughNewBlock(g: Graph, loop: set<Block>, h: Block, n: Block, out: set<Block>, g': Graph, w': seq<Block>)
    requires Inserted(g, h, n, out, g') && Entered(g, loop, h, out)
    requires IsWalk(g', w') && w'[0] == g.entry && Last(w') in loop
    ensures n in w'
    decreases |w'|
  {
    hide Inserted;
    InsertedEdges(g, h, n, out, g');
    InsertedBlocks(g, h, n, out, g');
    var k := |w'| - 1;
    assert k > 0;
    var a := w'[k - 1];
    assert Edge(g', w'[k - 1], w'[k - 1 + 1]);
    if a != n {
      if a in loop {
        Prefix(g', w', k);
        ThroughNewBlock(g, loop, h, n, out, g', w'[..k]);
      } else {
        NotEntered(g, loop, h, n, out, g', a, w'[k]);
      }
    }
  }

  lemma NotEntered(g: Graph, loop: set<Block>, h: Block, n: Block, out: set<Block>, g': Graph, a: Block, b: Block)
    requires Inserted(g, h, n, out, g') && Entered(g, loop, h, out)
    requires a != n && a !in loop && b in loop && b != n
    ensures !Edge(g', a, b)
  {
    hide Inserted, InLoop;
    InsertedEdges(g, h, n, out, g');
    if Edge(g, a, b) && b != h {
      PredecessorInLoop(g, a, b, h);
    }
  }

  lemma LoopBehindNew(g: Graph, loop: set<Block>, h: Block, n: Block, out: set<Block>, g': Graph, b: Block)
    requires Inserted(g, h, n, out, g') && Entered(g, loop, h, out) && b in loop
    ensures Dominates(g', n, b)
  {
    InsertedBlocks(g, h, n, out, g');
    forall w' | Connects(g', w', g'.entry, b) ensures n in w' {
      ThroughNewBlock(g, loop, h, n, out, g', w');
    }
  }

  lemma NewReachable(g: Graph, loop: set<Block>, h: Block, n: Block, out: set<Block>, g': Graph)
    requires Inserted(g, h, n, out, g') && Entered(g, loop, h, out) && h in loop && Reachable(g, h)
    ensures Reachable(g', n)
  {
    InsertedBlocks(g, h, n, out, g');
    var w :| Connects(g, w, g.entry, h);
    var w' := Expand(g, h, n, out, g', w);
    ThroughNewBlock(g, loop, h, n, out, g', w');
    var k := First(w', n);
    Prefix(g', w', k + 1);
    assert Connects(g', w'[..k + 1], g'.entry, n);
  }

  /** Whatever dominates the header from outside the loop dominates the new block. */
  lemma DominatesNew(g: Graph, h: Block, n: Block, out: set<Block>, g': Graph, d: Block)
    requires Inserted(g, h, n, out, g') && Dominates(g, d, h) && d != h && d != n
    ensures Dominates(g', d, n)
  {
    InsertedEdges(g, h, n, out, g');
    SameDominance(g, h, n, out, g', d, h);
    forall w' | Connects(g', w', g'.entry, n) ensures d in w' {
      Extend(g', w', h);
      assert d in w' + [h];
    }
  }

  // ----- other loops -----

  lemma SameBackEdges(g: Graph, h: Block, n: Block, out: set<Block>, g': Graph, s: Block, k: Block)
    requires Inserted(g, h, n, out, g') && k != h && k != n
    ensures BackEdge(g', s, k) <==> BackEdge(g, s, k)
  {
    InsertedEdges(g, h, n, out, g');
    if s != n {
      SameDominance(g, h, n, out, g', k, s);
    }
  }

  lemma SameReach(g: Graph, h: Block, n: Block, out: set<Block>, g': Graph, b: Block, s: Block, k: Block)
    requires Inserted(g, h, n, out, g') && k != n && b != n && s != n
    ensures ReachesAvoiding(g', b, s, k) <==> ReachesAvoiding(g, b, s, k)
  {
    InsertedBlocks(g, h, n, out, g');
    if ReachesAvoiding(g', b, s, k) {
      var w' :| Connects(g', w', b, s) && k !in w';
      var w := Contract(g, h, n, out, g', w');
    }
    if ReachesAvoiding(g, b, s, k) {
      var w :| Connects(g, w, b, s) && k !in w;
      var w' := Expand(g, h, n, out, g', w);
    }
  }

  /** The new block is in another loop exactly when the header is. */
  lemma NewReaches(g: Graph, h: Block, n: Block, out: set<Block>, g': Graph, s: Block, k: Block)
    requires Inserted(g, h, n, out, g') && k != n && k != h && s != n
    ensures ReachesAvoiding(g', n, s, k) ==> ReachesAvoiding(g, h, s, k)
  {
    InsertedEdges(g, h, n, out, g');
    if ReachesAvoiding(g', n, s, k) {
      var w' :| Connects(g', w', n, s) && k !in w';
      assert |w'| > 1;
      assert Edge(g', w'[0], w'[0 + 1]);
      Suffix(g', w', 1);
      var w := Contract(g, h, n, out, g', w'[1..]);
    }
  }

  lemma SameLoopOf(g: Graph, h: Block, n: Block, out: set<Block>, g': Graph, k: Block, b: Block, s: Block)
    requires Inserted(g, h, n, out, g') && k in g.blocks && k != h && !InLoop(g, h, k)
    ensures BackEdge(g', s, k) <==> BackEdge(g, s, k)
    ensures BackEdge(g, s, k) ==> (InLoopOf(g', b, s, k) <==> InLoopOf(g, b, s, k))
  {
    hide Inserted, ReachesAvoiding, BackEdge;
    InsertedBlocks(g, h, n, out, g');
    SameBackEdges(g, h, n, out, g', s, k);
    if BackEdge(g, s, k) {
      BackEdgeFrom(g, s, k);
      if b == n {
        NewReaches(g, h, n, out, g', s, k);
        OutsideGraph(g, n, s, k);
        assert InLoopOf(g, h, s, k) ==> InLoop(g, h, k);
      } else {
        SameReach(g, h, n, out, g', b, s, k);
      }
    }
  }

  /** A loop that does not contain the header is as it was. */
  lemma SameLoop(g: Graph, h: Block, n: Block, out: set<Block>, g': Graph, k: Block, b: Block)
    requires Inserted(g, h, n, out, g') && k in g.blocks && k != h && !InLoop(g, h, k)
    ensures InLoop(g', b, k) <==> InLoop(g, b, k)
  {
    hide Inserted, InLoopOf, BackEdge;
    if InLoop(g', b, k) {
      var s :| BackEdge(g', s, k) && InLoopOf(g', b, s, k);
      SameLoopOf(g, h, n, out, g', k, b, s);
    }
    if InLoop(g, b, k) {
      var s :| BackEdge(g, s, k) && InLoopOf(g, b, s, k);
      SameLoopOf(g, h, n, out, g', k, b, s);
    }
  }

  lemma BackEdgeFrom(g: Graph, s: Block, k: Block)
    requires BackEdge(g, s, k)
    ensures s in g.blocks
  {
  }

  lemma OutsideGraph(g: Graph, n: Block, s: Block, k: Block)
    requires n !in g.blocks
    ensures !ReachesAvoiding(g, n, s, k)
  {
  }

  lemma SameHeaders(g: Graph, h: Block, n: Block, out: set<Block>, g': Graph, k: Block)
    requires Inserted(g, h, n, out, g') && k != h && k != n
    ensures IsHeader(g', k) <==> IsHeader(g, k)
  {
    if IsHeader(g, k) {
      var s :| BackEdge(g, s, k);
      SameBackEdges(g, h, n, out, g', s, k);
    }
    if IsHeader(g', k) {
      var s :| BackEdge(g', s, k);
      SameBackEdges(g, h, n, out, g', s, k);
    }
  }
}
