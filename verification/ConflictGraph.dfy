/**
  Which values are alive where, and which conflict: every use marks the path from
  its definition, whole blocks on the way and single instructions at both ends.
 */
module ConflictGraph {
  import opened Cfg
  import opened Ssa

  datatype Point = Point(block: Block, index: nat)

  /** What an instruction means for allocation: the variable it defines, if any, and the values it reads. */
  datatype Slot = Slot(defines: set<Value>, uses: set<Value>)

  /** Where a variable's life starts: the first instruction after its definition. */
  datatype Home = Home(block: Block, start: nat)

  /**
    homes: parameters and instructions with a result of their own; users: where
    each value is read, a phi's operand by the move in the predecessor.  moves: for
    the temporary of a phi, the place of the phi; each predecessor defines it.
   */
  datatype Unit = Unit(g: Graph, code: map<Block, seq<Slot>>, homes: map<Value, Home>, users: map<Value, set<Point>>, moves: map<Value, Point>)

  // ----- walks that stay away from a block -----

  /** b is reached from a by at least one edge, never entering d. */
  ghost predicate ReachedBeside(g: Graph, a: Block, b: Block, d: Block) {
    exists w :: Connects(g, w, a, b) && |w| > 1 && d !in w[1..]
  }

  /** The blocks other than d on the way from d to b. */
  ghost predicate OnPath(g: Graph, d: Block, x: Block, b: Block) {
    x != d && ReachedBeside(g, d, x, d) && ReachedBeside(g, x, b, d)
  }

  lemma BesideJoin(g: Graph, a: Block, b: Block, c: Block, d: Block)
    requires ReachedBeside(g, a, b, d) && ReachedBeside(g, b, c, d)
    ensures ReachedBeside(g, a, c, d)
  {
    var v :| Connects(g, v, a, b) && |v| > 1 && d !in v[1..];
    var w :| Connects(g, w, b, c) && |w| > 1 && d !in w[1..];
    Join(g, v, w);
    var u := v + w[1..];
    assert u[1..] == v[1..] + w[1..];
  }

  lemma BesideEdge(g: Graph, a: Block, b: Block, d: Block)
    requires Edge(g, a, b) && b != d
    ensures ReachedBeside(g, a, b, d)
  {
    assert Connects(g, [a, b], a, b) && d !in [a, b][1..];
  }

  lemma OnPathOnward(g: Graph, d: Block, x: Block, b: Block, c: Block)
    requires OnPath(g, d, x, b) && OnPath(g, d, b, c)
    ensures OnPath(g, d, x, c)
  {
    BesideJoin(g, x, b, c, d);
  }

  /** A block that d dominates is reached from d without coming back to d. */
  lemma DominatedIsReached(g: Graph, d: Block, b: Block)
    requires WellFormed(g) && Dominates(g, d, b) && d != b && Reachable(g, b)
    ensures ReachedBeside(g, d, b, d)
  {
    var w :| Connects(g, w, g.entry, b);
    var k := LastOf(w, d);
    Suffix(g, w, k);
    assert w[k..][1..] == w[k + 1..];
  }

  /** Whatever reaches a dominated block beside d is dominated too. */
  lemma ReachingIsDominated(g: Graph, d: Block, x: Block, b: Block)
    requires WellFormed(g) && Dominates(g, d, b) && ReachedBeside(g, x, b, d)
    ensures Dominates(g, d, x)
  {
    var v :| Connects(g, v, x, b) && |v| > 1 && d !in v[1..];
    forall w | Connects(g, w, g.entry, x) ensures d in w {
      Join(g, w, v);
      assert d in w + v[1..];
    }
  }

  /** Every predecessor of a dominated block is d itself or lies on the way. */
  lemma PredecessorOnPath(g: Graph, d: Block, p: Block, b: Block)
    requires WellFormed(g) && Dominates(g, d, b) && d != b && Edge(g, p, b) && p != d && Reachable(g, p)
    ensures OnPath(g, d, p, b)
  {
    forall w | Connects(g, w, g.entry, p) ensures d in w {
      Extend(g, w, b);
      assert d in w + [b];
    }
    DominatedIsReached(g, d, p);
    BesideEdge(g, p, b, d);
  }

  // ----- the two searches -----

  lemma ReachedNext(g: Graph, a: Block, b: Block, c: Block, d: Block)
    requires (a == b || ReachedBeside(g, a, b, d)) && Edge(g, b, c) && c != d
    ensures ReachedBeside(g, a, c, d)
  {
    BesideEdge(g, b, c, d);
    if ReachedBeside(g, a, b, d) {
      BesideJoin(g, a, b, c, d);
    }
  }

  /** A set closed under successors except d takes in every walk beside d. */
  lemma {:induction false} ClosedTakesIn(g: Graph, ans: set<Block>, d: Block, w: seq<Block>)
    requires WellFormed(g) && IsWalk(g, w) && d !in w && w[0] in ans
    requires forall b, s :: b in ans && Edge(g, b, s) && s != d ==> s in ans
    ensures Last(w) in ans
    decreases |w|
  {
    if |w| > 1 {
      assert Edge(g, w[0], w[0 + 1]);
      Suffix(g, w, 1);
      ClosedTakesIn(g, ans, d, w[1..]);
    }
  }

  method GetBlockReachableBlocks(g: Graph, bb: Block, cannotArrive: Block) returns (ans: set<Block>)
    requires WellFormed(g) && bb in g.blocks
    ensures forall b :: b in ans <==> ReachedBeside(g, bb, b, cannotArrive)
  {
    hide ReachedBeside;
    var blockQueue := [bb];
    ans := {};
    ghost var all := BlockSet(g);
    while blockQueue != []
      invariant ans <= all
      invariant forall b :: b in blockQueue ==> b in all && (b == bb || b in ans)
      invariant forall b :: b in ans ==> ReachedBeside(g, bb, b, cannotArrive)
      invariant forall b, s :: (b == bb || b in ans) && b !in blockQueue && Edge(g, b, s) && s != cannotArrive ==> s in ans
      decreases all - ans, |blockQueue|
    {
      var top := blockQueue[0];
      assert top in blockQueue;
      ghost var queued, before := blockQueue, ans;
      blockQueue := blockQueue[1..];
      var succs := Enumerate(g.succs[top]);
      SuccessorsInGraph(g, top);
      for i := 0 to |succs|
        invariant before <= ans <= all
        invariant forall b :: b in blockQueue <==> b in queued[1..] || (b in ans && b !in before)
        invariant ans == before ==> blockQueue == queued[1..]
        invariant forall b :: b in ans ==> ReachedBeside(g, bb, b, cannotArrive)
        invariant forall j :: 0 <= j < i && succs[j] != cannotArrive ==> succs[j] in ans
      {
        var suc := succs[i];
        assert suc in succs;
        if suc !in ans && suc != cannotArrive {
          assert top in queued;
          ReachedNext(g, bb, top, suc, cannotArrive);
          ans := ans + {suc};
          blockQueue := blockQueue + [suc];
        }
      }
      forall b, s | (b == bb || b in ans) && b !in blockQueue && Edge(g, b, s) && s != cannotArrive ensures s in ans {
        if b == top {
          assert s in succs;
        } else {
          assert b in queued <==> b in queued[1..];
        }
      }
    }
    forall b | ReachedBeside(g, bb, b, cannotArrive) ensures b in ans {
      FoundAll(g, ans, bb, b, cannotArrive);
    }
  }

  lemma SuccessorsInGraph(g: Graph, b: Block)
    requires WellFormed(g) && b in g.blocks
    ensures forall s :: s in g.succs[b] ==> s in BlockSet(g) && Edge(g, b, s)
  {
  }

  lemma FoundAll(g: Graph, ans: set<Block>, a: Block, b: Block, d: Block)
    requires WellFormed(g) && ReachedBeside(g, a, b, d)
    requires forall x, s :: (x == a || x in ans) && Edge(g, x, s) && s != d ==> s in ans
    ensures b in ans
  {
    var w :| Connects(g, w, a, b) && |w| > 1 && d !in w[1..];
    assert Edge(g, w[0], w[0 + 1]);
    Suffix(g, w, 1);
    ClosedTakesIn(g, ans, d, w[1..]);
  }

  method GetBlockPathPoints(g: Graph, from: Block, to: Block) returns (ans: set<Block>)
    requires WellFormed(g) && from in g.blocks
    ensures forall x :: x in ans <==> OnPath(g, from, x, to)
  {
    hide ReachedBeside;
    var fromReachable := GetBlockReachableBlocks(g, from, from);
    ans := {};
    var order := Enumerate(fromReachable);
    for i := 0 to |order|
      invariant forall x :: x in ans <==> x in order[..i] && ReachedBeside(g, x, to, from)
    {
      var bb := order[i];
      assert bb in order;
      BesideInGraph(g, from, bb, from);
      var tempReachable := GetBlockReachableBlocks(g, bb, from);
      if to in tempReachable {
        ans := ans + {bb};
      }
    }
    assert order[..|order|] == order;
    ans := ans - {from};
  }

  lemma BesideInGraph(g: Graph, a: Block, b: Block, d: Block)
    requires WellFormed(g) && ReachedBeside(g, a, b, d)
    ensures b in g.blocks
  {
    var w :| Connects(g, w, a, b) && |w| > 1 && d !in w[1..];
    WalkInGraph(g, w);
  }

  // ----- what a unit is -----

  ghost predicate DefinesIn(u: Unit, v: Value, b: Block) {
    b in u.code && exists m :: 0 <= m < |u.code[b]| && v in u.code[b][m].defines
  }

  /** Blocks are reachable and end in an instruction without a result. */
  ghost predicate BlocksOk(u: Unit) {
    && WellFormed(u.g) && u.g.preds[u.g.entry] == {}
    && (forall b :: b in u.g.blocks ==> b in u.code && |u.code[b]| > 0 && u.code[b][|u.code[b]| - 1].defines == {} && Reachable(u.g, b))
  }

  /** Each variable has one definition, parameters before the entry block; the temporaries of phis aside. */
  ghost predicate HomesOk(u: Unit) {
    && u.code.Keys == BlockSet(u.g)
    && (forall v :: v in u.homes ==> v !in u.moves && u.homes[v].block in u.code && u.homes[v].start <= |u.code[u.homes[v].block]|)
    && (forall v :: v in u.homes && u.homes[v].start == 0 ==> u.homes[v].block == u.g.entry)
    && (forall v :: v in u.homes && u.homes[v].start > 0 ==> v in u.code[u.homes[v].block][u.homes[v].start - 1].defines)
    && (forall b, m, v :: b in u.code && 0 <= m < |u.code[b]| && v in u.code[b][m].defines ==>
         v in u.moves || (v in u.homes && u.homes[v] == Home(b, m + 1)))
  }

  ghost predicate IsUse(u: Unit, v: Value, p: Point) {
    p.block in u.code && p.index < |u.code[p.block]| && v in u.code[p.block][p.index].uses
  }

  /** Uses come after the definition, in its block or in one it dominates. */
  ghost predicate UsesOk(u: Unit) {
    && (forall v :: v in u.homes ==> v in u.users)
    && (forall v, p :: v in u.homes ==> (p in u.users[v] <==> IsUse(u, v, p)))
    && (forall v, p :: IsUse(u, v, p) ==> v in u.homes || v in u.moves)
    && (forall v, p :: v in u.homes && IsUse(u, v, p) ==> AfterHome(u, v, p))
  }

  ghost predicate AfterHome(u: Unit, v: Value, p: Point)
    requires v in u.homes
  {
    var h := u.homes[v];
    if p.block == h.block then h.start <= p.index else Dominates(u.g, h.block, p.block)
  }

  /** The temporary of a phi is defined once in each predecessor of the phi's block, and used by the phi alone. */
  ghost predicate MovesOk(u: Unit) {
    && (forall t :: t in u.moves ==> IsUse(u, t, u.moves[t]) && u.moves[t].block != u.g.entry)
    && (forall t, p :: t in u.moves && IsUse(u, t, p) ==> p == u.moves[t])
    && (forall t, b :: t in u.moves && b in u.g.blocks ==> (DefinesIn(u, t, b) <==> Edge(u.g, b, u.moves[t].block)))
    && (forall t, b, m, n :: t in u.moves && b in u.code && 0 <= m < |u.code[b]| && 0 <= n < |u.code[b]| && t in u.code[b][m].defines && t in u.code[b][n].defines ==> m == n)
    && (forall t, b, m :: t in u.moves && b in u.code && 0 <= m < |u.code[b]| && t in u.code[b][m].defines && b == u.moves[t].block ==> u.moves[t].index < m)
  }

  ghost predicate UnitOk(u: Unit) {
    BlocksOk(u) && HomesOk(u) && UsesOk(u) && MovesOk(u)
  }

  // ----- what has been marked -----

  type AliveBlocks = set<(Block, Value)>
  type AliveIns = set<(Point, Value)>

  ghost predicate IsAlive(ab: AliveBlocks, ai: AliveIns, v: Value, b: Block, j: nat) {
    (b, v) in ab || (Point(b, j), v) in ai
  }

  ghost predicate TailMarked(u: Unit, ai: AliveIns, v: Value)
    requires v in u.homes && u.homes[v].block in u.code
  {
    var h := u.homes[v];
    forall j: nat :: h.start <= j < |u.code[h.block]| ==> (Point(h.block, j), v) in ai
  }

  ghost predicate PathMarked(u: Unit, ab: AliveBlocks, v: Value, b: Block)
    requires v in u.homes
  {
    forall x :: OnPath(u.g, u.homes[v].block, x, b) ==> (x, v) in ab
  }

  /** What comes with a mark outside the home block. */
  ghost predicate Accompanied(u: Unit, ab: AliveBlocks, ai: AliveIns, v: Value, b: Block)
    requires v in u.homes && u.homes[v].block in u.code
  {
    b != u.homes[v].block && b in u.g.blocks && Dominates(u.g, u.homes[v].block, b) && TailMarked(u, ai, v) && PathMarked(u, ab, v, b)
  }

  /** Marks of v are contiguous from its home; nothing is marked without the way to it. */
  ghost predicate Contiguous(u: Unit, ab: AliveBlocks, ai: AliveIns, v: Value)
    requires v in u.homes && u.homes[v].block in u.code
  {
    var h := u.homes[v];
    && (forall b :: (b, v) in ab ==> Accompanied(u, ab, ai, v, b))
    && (forall b, j: nat :: b != h.block && (Point(b, j), v) in ai ==> Accompanied(u, ab, ai, v, b) && forall m: nat :: m <= j ==> (Point(b, m), v) in ai)
    && (forall j: nat :: (Point(h.block, j), v) in ai ==> h.start <= j < |u.code[h.block]| && forall m: nat :: h.start <= m <= j ==> (Point(h.block, m), v) in ai)
  }

  /** The whole way from the definition of v to the use p is marked. */
  ghost predicate Covered(u: Unit, ab: AliveBlocks, ai: AliveIns, v: Value, p: Point)
    requires v in u.homes && u.homes[v].block in u.code
  {
    var h := u.homes[v];
    if p.block == h.block then forall m: nat :: h.start <= m <= p.index ==> (Point(h.block, m), v) in ai
    else TailMarked(u, ai, v) && PathMarked(u, ab, v, p.block) && ((p.block, v) in ab || forall m: nat :: m <= p.index ==> (Point(p.block, m), v) in ai)
  }

  /** A use that already carries a mark needs nothing more. */
  lemma AlreadyCovered(u: Unit, ab: AliveBlocks, ai: AliveIns, v: Value, p: Point)
    requires v in u.homes && u.homes[v].block in u.code && Contiguous(u, ab, ai, v) && IsAlive(ab, ai, v, p.block, p.index)
    ensures Covered(u, ab, ai, v, p)
  {
    hide OnPath, Dominates;
  }

  function Span(b: Block, lo: nat, hi: nat, v: Value): AliveIns {
    set m: nat | lo <= m < hi :: (Point(b, m), v)
  }

  function Whole(bs: set<Block>, v: Value): AliveBlocks {
    set b | b in bs :: (b, v)
  }

  lemma SpanHas(b: Block, lo: nat, hi: nat, v: Value, c: Block, m: nat, w: Value)
    ensures (Point(c, m), w) in Span(b, lo, hi, v) <==> c == b && w == v && lo <= m < hi
  {
  }

  /** The use stands behind the definition in the same block. */
  lemma MarkedAtHome(u: Unit, ab: AliveBlocks, ai: AliveIns, v: Value, p: Point)
    requires v in u.homes && u.homes[v].block in u.code && Contiguous(u, ab, ai, v)
    requires p.block == u.homes[v].block && p.index < |u.code[p.block]|
    ensures var ai' := ai + Span(p.block, u.homes[v].start, p.index + 1, v); Contiguous(u, ab, ai', v) && Covered(u, ab, ai', v, p)
  {
    hide OnPath, Dominates;
  }

  /** The use stands in another block: the rest of the home block, the way, and the start of the user's block. */
  lemma MarkedBeyond(u: Unit, ab: AliveBlocks, ai: AliveIns, v: Value, p: Point, nodes: set<Block>)
    requires UnitOk(u) && v in u.homes && u.homes[v].block in u.code && Contiguous(u, ab, ai, v)
    requires p.block != u.homes[v].block && p.block in u.g.blocks && Dominates(u.g, u.homes[v].block, p.block)
    requires forall x :: x in nodes <==> OnPath(u.g, u.homes[v].block, x, p.block)
    ensures var d := u.homes[v].block;
            var ai' := ai + Span(d, u.homes[v].start, |u.code[d]|, v) + Span(p.block, 0, p.index + 1, v);
            Contiguous(u, ab + Whole(nodes, v), ai', v) && Covered(u, ab + Whole(nodes, v), ai', v, p)
  {
    var d := u.homes[v].block;
    var ab', ai' := ab + Whole(nodes, v), ai + Span(d, u.homes[v].start, |u.code[d]|, v) + Span(p.block, 0, p.index + 1, v);
    hide UnitOk, OnPath, Dominates, Reachable, TailMarked, PathMarked, Contiguous;
    NowTail(u, ai, v, ai');
    NowPath(u, ab, v, p.block, nodes);
    assert Accompanied(u, ab', ai', v, p.block);
    forall b | Accompanied(u, ab, ai, v, b) || b in nodes ensures Accompanied(u, ab', ai', v, b) {
      if b in nodes {
        NodeAccompanied(u, v, p.block, b);
        PathOnward(u, ab', v, p.block, b);
      } else {
        PathGrows(u, ab, ab', v, b);
      }
    }
    StillContiguous(u, ab, ai, v, p, nodes);
  }

  lemma NowTail(u: Unit, ai: AliveIns, v: Value, ai': AliveIns)
    requires v in u.homes && u.homes[v].block in u.code && ai <= ai'
    requires Span(u.homes[v].block, u.homes[v].start, |u.code[u.homes[v].block]|, v) <= ai'
    ensures TailMarked(u, ai', v)
  {
    forall j: nat | u.homes[v].start <= j < |u.code[u.homes[v].block]| ensures (Point(u.homes[v].block, j), v) in ai' {
      SpanHas(u.homes[v].block, u.homes[v].start, |u.code[u.homes[v].block]|, v, u.homes[v].block, j, v);
    }
  }

  lemma NowPath(u: Unit, ab: AliveBlocks, v: Value, b: Block, nodes: set<Block>)
    requires v in u.homes && forall x :: x in nodes <==> OnPath(u.g, u.homes[v].block, x, b)
    ensures PathMarked(u, ab + Whole(nodes, v), v, b)
  {
    hide OnPath;
  }

  lemma PathOnward(u: Unit, ab: AliveBlocks, v: Value, to: Block, b: Block)
    requires v in u.homes && PathMarked(u, ab, v, to) && forall x :: OnPath(u.g, u.homes[v].block, x, b) ==> OnPath(u.g, u.homes[v].block, x, to)
    ensures PathMarked(u, ab, v, b)
  {
    hide OnPath;
  }

  lemma PathGrows(u: Unit, ab: AliveBlocks, ab': AliveBlocks, v: Value, b: Block)
    requires v in u.homes && PathMarked(u, ab, v, b) && ab <= ab'
    ensures PathMarked(u, ab', v, b)
  {
    hide OnPath;
  }

  lemma StillContiguous(u: Unit, ab: AliveBlocks, ai: AliveIns, v: Value, p: Point, nodes: set<Block>)
    requires v in u.homes && u.homes[v].block in u.code && Contiguous(u, ab, ai, v) && p.block != u.homes[v].block
    requires var d := u.homes[v].block;
             var ai' := ai + Span(d, u.homes[v].start, |u.code[d]|, v) + Span(p.block, 0, p.index + 1, v);
             forall b :: Accompanied(u, ab, ai, v, b) || b in nodes || b == p.block ==> Accompanied(u, ab + Whole(nodes, v), ai', v, b)
    ensures var d := u.homes[v].block;
            var ai' := ai + Span(d, u.homes[v].start, |u.code[d]|, v) + Span(p.block, 0, p.index + 1, v);
            Contiguous(u, ab + Whole(nodes, v), ai', v) && Covered(u, ab + Whole(nodes, v), ai', v, p)
  {
    hide TailMarked, PathMarked, Dominates;
    var d := u.homes[v].block;
    var ai' := ai + Span(d, u.homes[v].start, |u.code[d]|, v) + Span(p.block, 0, p.index + 1, v);
    assert Accompanied(u, ab + Whole(nodes, v), ai', v, p.block);
  }

  lemma NodeAccompanied(u: Unit, v: Value, to: Block, b: Block)
    requires UnitOk(u) && v in u.homes && Dominates(u.g, u.homes[v].block, to) && OnPath(u.g, u.homes[v].block, b, to)
    ensures b in u.g.blocks && b != u.homes[v].block && Dominates(u.g, u.homes[v].block, b)
    ensures forall x :: OnPath(u.g, u.homes[v].block, x, b) ==> OnPath(u.g, u.homes[v].block, x, to)
  {
    var d := u.homes[v].block;
    BesideInGraph(u.g, d, b, d);
    ReachingIsDominated(u.g, d, b, to);
    forall x | OnPath(u.g, d, x, b) ensures OnPath(u.g, d, x, to) {
      OnPathOnward(u.g, d, x, b, to);
    }
  }

  // ----- the temporaries of phis -----

  /** Marks of t lie behind its definitions and before its phi. */
  ghost predicate MoveShape(u: Unit, ab: AliveBlocks, ai: AliveIns, t: Value)
    requires t in u.moves
  {
    && (forall b :: (b, t) !in ab)
    && (forall b, j: nat :: (Point(b, j), t) in ai ==>
         (b == u.moves[t].block && j <= u.moves[t].index) || (DefinedBefore(u, t, b, j) && j < |u.code[b]|))
    && ((u.moves[t], t) in ai ==> forall j: nat :: j <= u.moves[t].index ==> (Point(u.moves[t].block, j), t) in ai)
  }

  ghost predicate DefinedBefore(u: Unit, v: Value, b: Block, j: nat) {
    b in u.code && exists m :: 0 <= m < j && m < |u.code[b]| && v in u.code[b][m].defines
  }

  /** From its definition in b, t is marked to the end of b and up to the phi. */
  ghost predicate MoveCovered(u: Unit, ai: AliveIns, t: Value, b: Block)
    requires t in u.moves
  {
    && (b in u.code && forall m, j: nat :: 0 <= m < |u.code[b]| && t in u.code[b][m].defines && m < j < |u.code[b]| ==> (Point(b, j), t) in ai)
    && forall j: nat :: j <= u.moves[t].index ==> (Point(u.moves[t].block, j), t) in ai
  }

  /** Every use of every variable, and every move, has been dealt with. */
  ghost predicate AllMarked(u: Unit, ab: AliveBlocks, ai: AliveIns)
    requires HomesOk(u) && UsesOk(u)
  {
    && (forall v :: v in u.homes ==> Contiguous(u, ab, ai, v))
    && (forall v, p :: v in u.homes && p in u.users[v] ==> Covered(u, ab, ai, v, p))
    && (forall t :: t in u.moves ==> MoveShape(u, ab, ai, t))
    && (forall t, b :: t in u.moves && b in u.g.blocks && DefinesIn(u, t, b) ==> MoveCovered(u, ai, t, b))
    && (forall v, b :: (b, v) in ab ==> v in u.homes)
    && (forall v, p :: (p, v) in ai ==> v in u.homes || v in u.moves)
    && OnlyTowardsUses(u, ab, ai)
  }

  ghost predicate Marked(u: Unit, v: Value) {
    v in u.homes && v in u.users && u.homes[v].block in u.code
  }

  /** Block b lies between the definition of v and its use p in another block. */
  ghost predicate OnWay(u: Unit, v: Value, b: Block, p: Point)
    requires Marked(u, v)
  {
    p in u.users[v] && p.block != u.homes[v].block && OnPath(u.g, u.homes[v].block, b, p.block)
  }

  /** Instruction q is behind the definition of v in its block, or in front of the use p in its block. */
  ghost predicate Towards(u: Unit, v: Value, q: Point, p: Point)
    requires Marked(u, v)
  {
    var h := u.homes[v];
    && p in u.users[v]
    && if q.block == h.block then h.start <= q.index < |u.code[h.block]| && (p.block == h.block ==> q.index <= p.index)
       else q.block == p.block && q.index <= p.index
  }

  /** Nothing is marked but on the way to a use. */
  ghost predicate OnlyTowardsUses(u: Unit, ab: AliveBlocks, ai: AliveIns) {
    && (forall b, v :: (b, v) in ab ==> Marked(u, v) && exists p :: OnWay(u, v, b, p))
    && (forall q, v :: (q, v) in ai && v !in u.moves ==> Marked(u, v) && exists p :: Towards(u, v, q, p))
  }

  /** The new marks of v are on the way to the use p. */
  ghost predicate AddsTowards(u: Unit, ab: AliveBlocks, ai: AliveIns, ab': AliveBlocks, ai': AliveIns, v: Value, p: Point)
    requires Marked(u, v)
  {
    && (forall b :: (b, v) in ab' && (b, v) !in ab ==> OnWay(u, v, b, p))
    && (forall q :: (q, v) in ai' && (q, v) !in ai ==> Towards(u, v, q, p))
  }

  // ----- liveness -----

  /** From instruction j of w[0], the walk comes to instruction k of its last block without passing a definition of v. */
  ghost predicate Undefined(u: Unit, v: Value, w: seq<Block>, j: nat, k: nat)
    requires |w| > 0 && forall i :: 0 <= i < |w| ==> w[i] in u.code
  {
    if |w| == 1 then
      j <= k < |u.code[w[0]]| && forall m :: j <= m < k ==> v !in u.code[w[0]][m].defines
    else
      && k < |u.code[Last(w)]|
      && (forall m :: j <= m < |u.code[w[0]]| ==> v !in u.code[w[0]][m].defines)
      && (forall i :: 0 < i < |w| - 1 ==> !DefinesIn(u, v, w[i]))
      && (forall m :: 0 <= m < k ==> v !in u.code[Last(w)][m].defines)
  }

  ghost predicate LiveVia(u: Unit, v: Value, b: Block, j: nat, w: seq<Block>, k: nat) {
    && Connects(u.g, w, b, Last2(w, b)) && (forall i :: 0 <= i < |w| ==> w[i] in u.code)
    && IsUse(u, v, Point(Last(w), k)) && Undefined(u, v, w, j, k)
  }

  function Last2(w: seq<Block>, b: Block): Block {
    if |w| > 0 then Last(w) else b
  }

  /** v is live before instruction j of b: some walk comes to a use of it before any definition. */
  ghost predicate LiveAt(u: Unit, v: Value, b: Block, j: nat) {
    b in u.g.blocks && b in u.code && j < |u.code[b]| && exists w, k :: LiveVia(u, v, b, j, w, k)
  }

  /** A live walk leaves the home block behind. */
  lemma BeyondHome(u: Unit, v: Value, b: Block, j: nat, w: seq<Block>, k: nat)
    requires UnitOk(u) && v in u.homes && LiveVia(u, v, b, j, w, k) && |w| > 1
    ensures u.homes[v].block !in w[1..] && (b == u.homes[v].block ==> u.homes[v].start <= j)
  {
    hide BlocksOk, MovesOk, Dominates, IsWalk;
    var h := u.homes[v];
    assert AfterHome(u, v, Point(Last(w), k));
    if h.start > 0 {
      assert v in u.code[h.block][h.start - 1].defines;
      assert DefinesIn(u, v, h.block);
    }
    forall i | 1 <= i < |w| ensures w[i] != h.block {
      if h.start == 0 {
        NotEntry(u, w, b, i);
      } else if i == |w| - 1 {
        assert w[i] == Last(w);
      }
    }
  }

  lemma NotEntry(u: Unit, w: seq<Block>, b: Block, i: nat)
    requires BlocksOk(u) && 1 <= i < |w| && Connects(u.g, w, b, Last(w))
    ensures w[i] != u.g.entry
  {
    assert Edge(u.g, w[i - 1], w[i - 1 + 1]);
  }

  /** Liveness is marked, for variables with one definition. */
  lemma LiveIsAlive(u: Unit, ab: AliveBlocks, ai: AliveIns, v: Value, b: Block, j: nat, w: seq<Block>, k: nat)
    requires UnitOk(u) && AllMarked(u, ab, ai) && v in u.homes && b in u.g.blocks && j < |u.code[b]| && LiveVia(u, v, b, j, w, k)
    ensures IsAlive(ab, ai, v, b, j)
  {
    var h, p := u.homes[v], Point(Last(w), k);
    assert p in u.users[v];
    assert Covered(u, ab, ai, v, p);
    if |w| == 1 {
      LiveInBlock(u, ab, ai, v, b, j, k);
    } else {
      BeyondHome(u, v, b, j, w, k);
      hide BlocksOk, MovesOk, Dominates, OnPath;
      assert Last(w) in w[1..];
      if b != h.block {
        WayToUse(u, v, b, w, k);
        assert OnPath(u.g, h.block, b, p.block);
      }
    }
  }

  lemma LiveInBlock(u: Unit, ab: AliveBlocks, ai: AliveIns, v: Value, b: Block, j: nat, k: nat)
    requires HomesOk(u) && UsesOk(u) && v in u.homes && b in u.code && j <= k < |u.code[b]| && Covered(u, ab, ai, v, Point(b, k)) && IsUse(u, v, Point(b, k))
    requires forall m :: j <= m < k ==> v !in u.code[b][m].defines
    ensures IsAlive(ab, ai, v, b, j)
  {
    hide Dominates, OnPath;
    var h := u.homes[v];
    if b == h.block {
      assert AfterHome(u, v, Point(b, k));
      if h.start > 0 {
        assert v in u.code[b][h.start - 1].defines;
      }
    }
  }

  lemma WayToUse(u: Unit, v: Value, b: Block, w: seq<Block>, k: nat)
    requires UnitOk(u) && v in u.homes && b in u.g.blocks && b != u.homes[v].block && |w| > 1 && Connects(u.g, w, b, Last(w))
    requires u.homes[v].block !in w[1..] && IsUse(u, v, Point(Last(w), k))
    ensures OnPath(u.g, u.homes[v].block, b, Last(w))
  {
    var d := u.homes[v].block;
    assert AfterHome(u, v, Point(Last(w), k));
    assert Last(w) in w[1..];
    assert ReachedBeside(u.g, b, Last(w), d);
    ReachingIsDominated(u.g, d, b, Last(w));
    DominatedIsReached(u.g, d, b);
  }

  /** Liveness is marked, for the temporaries of phis. */
  lemma LiveMoveIsAlive(u: Unit, ab: AliveBlocks, ai: AliveIns, t: Value, b: Block, j: nat, w: seq<Block>, k: nat)
    requires UnitOk(u) && AllMarked(u, ab, ai) && t in u.moves && b in u.g.blocks && j < |u.code[b]| && LiveVia(u, t, b, j, w, k)
    ensures IsAlive(ab, ai, t, b, j)
  {
    hide Dominates, Contiguous, Covered, MoveShape;
    var q := u.moves[t];
    assert Point(Last(w), k) == q;
    if |w| == 1 {
      var l := SomePredecessor(u, q.block);
      assert DefinesIn(u, t, l);
      assert MoveCovered(u, ai, t, l);
    } else {
      var l := w[|w| - 2];
      assert Edge(u.g, l, w[|w| - 2 + 1]);
      assert DefinesIn(u, t, l);
      assert l == b;
      assert MoveCovered(u, ai, t, b);
      var m :| 0 <= m < |u.code[b]| && t in u.code[b][m].defines;
    }
  }

  lemma SomePredecessor(u: Unit, b: Block) returns (p: Block)
    requires BlocksOk(u) && b in u.g.blocks && b != u.g.entry
    ensures p in u.g.blocks && Edge(u.g, p, b)
  {
    var w :| Connects(u.g, w, u.g.entry, b);
    p := w[|w| - 2];
    assert Edge(u.g, w[|w| - 2], w[|w| - 2 + 1]);
  }

  /** Every value live before an instruction is in that instruction's or that block's alive set. */
  lemma LivenessIsSound(u: Unit, ab: AliveBlocks, ai: AliveIns, v: Value, b: Block, j: nat)
    requires UnitOk(u) && AllMarked(u, ab, ai) && LiveAt(u, v, b, j)
    ensures IsAlive(ab, ai, v, b, j)
  {
    hide BlocksOk, HomesOk, MovesOk, AllMarked, Undefined;
    var w, k :| LiveVia(u, v, b, j, w, k);
    assert IsUse(u, v, Point(Last(w), k));
    if v in u.homes {
      LiveIsAlive(u, ab, ai, v, b, j, w, k);
    } else {
      LiveMoveIsAlive(u, ab, ai, v, b, j, w, k);
    }
  }

  // ----- what is marked is live -----

  lemma OneDefinition(u: Unit, v: Value, b: Block)
    requires HomesOk(u) && v in u.homes
    ensures forall m :: b in u.code && 0 <= m < |u.code[b]| && v in u.code[b][m].defines ==>
              b == u.homes[v].block && m + 1 == u.homes[v].start
  {
  }

  /** Past the definition, a walk that stays away from its block comes to the use undisturbed. */
  lemma LiveAlong(u: Unit, v: Value, b: Block, j: nat, w: seq<Block>, k: nat)
    requires UnitOk(u) && v in u.homes && |w| > 1 && Connects(u.g, w, b, Last(w)) && u.homes[v].block !in w[1..]
    requires b in u.g.blocks && j < |u.code[b]| && (b == u.homes[v].block ==> u.homes[v].start <= j)
    requires IsUse(u, v, Point(Last(w), k))
    ensures LiveAt(u, v, b, j)
  {
    hide Dominates, Reachable, AfterHome, MovesOk;
    WalkInGraph(u.g, w);
    forall i | 0 <= i < |w| ensures w[i] in u.code && (i > 0 ==> w[i] != u.homes[v].block) {
      assert w[i] in BlockSet(u.g);
      if i > 0 {
        assert w[1..][i - 1] == w[i];
      }
      OneDefinition(u, v, w[i]);
    }
    assert Last(w) == w[|w| - 1];
    assert w[0] == b;
    assert LiveVia(u, v, b, j, w, k);
  }

  lemma LiveBlock(u: Unit, v: Value, b: Block, p: Point, j: nat)
    requires UnitOk(u) && Marked(u, v) && OnWay(u, v, b, p) && b in u.g.blocks && j < |u.code[b]|
    ensures LiveAt(u, v, b, j)
  {
    var d := u.homes[v].block;
    var w :| Connects(u.g, w, b, p.block) && |w| > 1 && d !in w[1..];
    hide OnPath, Dominates, LiveAt;
    assert IsUse(u, v, p);
    LiveAlong(u, v, b, j, w, p.index);
  }

  lemma LiveInside(u: Unit, v: Value, b: Block, j: nat, k: nat)
    requires HomesOk(u) && b in u.g.blocks && v in u.homes && IsUse(u, v, Point(b, k)) && j <= k
    requires b == u.homes[v].block ==> u.homes[v].start <= j
    ensures LiveAt(u, v, b, j)
  {
    OneDefinition(u, v, b);
    assert Connects(u.g, [b], b, b);
    assert LiveVia(u, v, b, j, [b], k);
  }

  lemma LivePoint(u: Unit, v: Value, q: Point, p: Point)
    requires UnitOk(u) && Marked(u, v) && Towards(u, v, q, p) && InRange(u, q)
    ensures LiveAt(u, v, q.block, q.index)
  {
    hide LiveAt, BlocksOk, MovesOk, Dominates;
    var d := u.homes[v].block;
    assert IsUse(u, v, p) && AfterHome(u, v, p);
    if q.block == p.block {
      LiveInside(u, v, q.block, q.index, p.index);
    } else {
      UseReached(u, v, p);
      var w :| Connects(u.g, w, d, p.block) && |w| > 1 && d !in w[1..];
      LiveAlong(u, v, d, q.index, w, p.index);
    }
  }

  lemma UseReached(u: Unit, v: Value, p: Point)
    requires UnitOk(u) && v in u.homes && IsUse(u, v, p) && AfterHome(u, v, p) && p.block != u.homes[v].block
    ensures ReachedBeside(u.g, u.homes[v].block, p.block, u.homes[v].block)
  {
    assert p.block in BlockSet(u.g);
    DominatedIsReached(u.g, u.homes[v].block, p.block);
  }

  /** The temporary of a phi is live wherever it is marked. */
  lemma LiveMove(u: Unit, ab: AliveBlocks, ai: AliveIns, t: Value, q: Point)
    requires UnitOk(u) && t in u.moves && MoveShape(u, ab, ai, t) && (q, t) in ai && InRange(u, q)
    ensures LiveAt(u, t, q.block, q.index)
  {
    var c, k := u.moves[t].block, u.moves[t].index;
    assert IsUse(u, t, u.moves[t]) && Point(c, k) == u.moves[t];
    hide BlocksOk, HomesOk, UsesOk, MoveShape, DefinedBefore, IsUse;
    MovePlaces(u, ab, ai, t, q);
    if q.block == c && q.index <= k {
      assert Connects(u.g, [c], c, c);
      assert LiveVia(u, t, c, q.index, [c], k);
    } else {
      MoveLeaves(u, t, q.block, q.index);
      var w := [q.block, c];
      assert Connects(u.g, w, q.block, c);
      assert LiveVia(u, t, q.block, q.index, w, k);
    }
  }

  lemma MovePlaces(u: Unit, ab: AliveBlocks, ai: AliveIns, t: Value, q: Point)
    requires t in u.moves && MoveShape(u, ab, ai, t) && (q, t) in ai
    ensures (q.block == u.moves[t].block && q.index <= u.moves[t].index) || DefinedBefore(u, t, q.block, q.index)
    ensures q == Point(q.block, q.index)
  {
    assert q == Point(q.block, q.index);
  }

  /** Behind its definition in b a temporary is not defined again, and b leads to the phi. */
  lemma MoveLeaves(u: Unit, t: Value, b: Block, j: nat)
    requires UnitOk(u) && t in u.moves && DefinedBefore(u, t, b, j) && b in u.g.blocks
    ensures Edge(u.g, b, u.moves[t].block)
    ensures forall m :: j <= m < |u.code[b]| ==> t !in u.code[b][m].defines
  {
    hide BlocksOk, HomesOk, UsesOk, Edge;
    var n :| 0 <= n < j && n < |u.code[b]| && t in u.code[b][n].defines;
    assert DefinesIn(u, t, b);
  }

  /** Converse of soundness: what is alive at an instruction is live there. */
  lemma MarkedIsLive(u: Unit, ab: AliveBlocks, ai: AliveIns, v: Value, b: Block, j: nat)
    requires UnitOk(u) && AllMarked(u, ab, ai) && IsAlive(ab, ai, v, b, j) && InRange(u, Point(b, j))
    ensures LiveAt(u, v, b, j)
  {
    hide UnitOk, LiveAt, OnWay, Towards, Contiguous, Covered, MoveShape, MoveCovered;
    if (b, v) in ab {
      var p :| OnWay(u, v, b, p);
      LiveBlock(u, v, b, p, j);
    } else if v in u.moves {
      LiveMove(u, ab, ai, v, Point(b, j));
    } else {
      var p :| Towards(u, v, Point(b, j), p);
      LivePoint(u, v, Point(b, j), p);
    }
  }

  /** Alive and live are the same. */
  lemma AliveIsLive(u: Unit, ab: AliveBlocks, ai: AliveIns, v: Value, b: Block, j: nat)
    requires UnitOk(u) && AllMarked(u, ab, ai) && InRange(u, Point(b, j))
    ensures IsAlive(ab, ai, v, b, j) <==> LiveAt(u, v, b, j)
  {
    hide UnitOk, AllMarked, LiveAt, IsAlive;
    if LiveAt(u, v, b, j) {
      LivenessIsSound(u, ab, ai, v, b, j);
    }
    if IsAlive(ab, ai, v, b, j) {
      MarkedIsLive(u, ab, ai, v, b, j);
    }
  }

  // ----- the edges -----

  /** Both alive in a block, one alive in a block that defines the other, or both alive at an instruction. */
  ghost predicate Conflict(u: Unit, ab: AliveBlocks, ai: AliveIns, v: Value, w: Value) {
    && v != w
    && ( || (exists b :: (b, v) in ab && (b, w) in ab)
         || (exists b :: (b, v) in ab && DefinesIn(u, w, b))
         || (exists b :: (b, w) in ab && DefinesIn(u, v, b))
         || (exists p :: InRange(u, p) && (p, v) in ai && (p, w) in ai))
  }

  ghost predicate InRange(u: Unit, p: Point) {
    p.block in u.g.blocks && p.block in u.code && p.index < |u.code[p.block]|
  }

  /** Fully alive when p ends: through the block, or from the definition in it on. */
  ghost predicate AliveOut(u: Unit, ab: AliveBlocks, ai: AliveIns, v: Value, p: Block) {
    p in u.code && |u.code[p]| > 0 && ((p, v) in ab || ((DefinesIn(u, v, p) || p == u.g.entry) && (Point(p, |u.code[p]| - 1), v) in ai))
  }

  lemma OutAfterHome(u: Unit, ab: AliveBlocks, ai: AliveIns, v: Value)
    requires BlocksOk(u) && HomesOk(u) && v in u.homes && TailMarked(u, ai, v)
    ensures AliveOut(u, ab, ai, v, u.homes[v].block)
  {
    var h := u.homes[v];
    assert h.block in BlockSet(u.g);
    if h.start > 0 {
      assert v in u.code[h.block][h.start - 1].defines;
    }
    assert h.start <= |u.code[h.block]| - 1;
  }

  /** What is marked where it is not defined was alive at the end of every predecessor. */
  lemma AliveBefore(u: Unit, ab: AliveBlocks, ai: AliveIns, v: Value, b: Block, p: Block)
    requires UnitOk(u) && v in u.homes && Accompanied(u, ab, ai, v, b) && Edge(u.g, p, b)
    ensures AliveOut(u, ab, ai, v, p)
  {
    var d := u.homes[v].block;
    if p == d {
      OutAfterHome(u, ab, ai, v);
    } else {
      PredecessorOnPath(u.g, d, p, b);
    }
  }

  lemma MoveAliveBefore(u: Unit, ab: AliveBlocks, ai: AliveIns, t: Value, p: Block)
    requires UnitOk(u) && AllMarked(u, ab, ai) && t in u.moves && Edge(u.g, p, u.moves[t].block)
    ensures AliveOut(u, ab, ai, t, p)
  {
    hide Dominates, Contiguous, Covered, MoveShape, Reachable;
    assert DefinesIn(u, t, p);
    assert MoveCovered(u, ai, t, p);
    var m :| 0 <= m < |u.code[p]| && t in u.code[p][m].defines;
    assert m < |u.code[p]| - 1;
  }

  /** Two values alive at the end of one block conflict. */
  lemma OutConflict(u: Unit, ab: AliveBlocks, ai: AliveIns, v: Value, w: Value, p: Block)
    requires AliveOut(u, ab, ai, v, p) && AliveOut(u, ab, ai, w, p) && v != w && p in u.g.blocks
    requires (u.g.entry, v) !in ab && (u.g.entry, w) !in ab
    ensures Conflict(u, ab, ai, v, w)
  {
    if (p, v) !in ab && (p, w) !in ab {
      assert InRange(u, Point(p, |u.code[p]| - 1));
    }
  }

  /** Nothing is alive throughout the entry block: what is alive there started there. */
  lemma EntryNotAlive(u: Unit, ab: AliveBlocks, ai: AliveIns, v: Value)
    requires UnitOk(u) && AllMarked(u, ab, ai)
    ensures (u.g.entry, v) !in ab
  {
    hide Contiguous, Covered, MoveShape, MoveCovered, Dominates, ReachedBeside, Reachable;
    forall d, b ensures !OnPath(u.g, d, u.g.entry, b) {
      EntryNotReached(u, d);
    }
  }

  lemma EntryNotReached(u: Unit, d: Block)
    requires BlocksOk(u)
    ensures !ReachedBeside(u.g, d, u.g.entry, d)
  {
    if w :| Connects(u.g, w, d, u.g.entry) && |w| > 1 && d !in w[1..] {
      NotEntry(u, w, d, |w| - 1);
    }
  }

  /** One alive through b, the other marked inside it. */
  lemma MixedConflict(u: Unit, ab: AliveBlocks, ai: AliveIns, v: Value, w: Value, b: Block, j: nat)
    requires UnitOk(u) && AllMarked(u, ab, ai) && v != w && (b, v) in ab && (Point(b, j), w) in ai
    ensures Conflict(u, ab, ai, v, w)
  {
    hide BlocksOk, UsesOk, MovesOk, TailMarked, PathMarked, Covered, MoveCovered, AliveOut, Dominates;
    EntryNotAlive(u, ab, ai, v);
    EntryNotAlive(u, ab, ai, w);
    assert Contiguous(u, ab, ai, v);
    assert Accompanied(u, ab, ai, v, b);
    if !DefinesIn(u, w, b) {
      var p := SomePredecessor(u, b);
      AliveBefore(u, ab, ai, v, b, p);
      if w in u.homes {
        AwayFromHome(u, ab, ai, w, b, j);
        AliveBefore(u, ab, ai, w, b, p);
      } else {
        assert MoveShape(u, ab, ai, w);
        MoveAliveBefore(u, ab, ai, w, p);
      }
      OutConflict(u, ab, ai, v, w, p);
    }
  }

  lemma AwayFromHome(u: Unit, ab: AliveBlocks, ai: AliveIns, w: Value, b: Block, j: nat)
    requires UnitOk(u) && AllMarked(u, ab, ai) && w in u.homes && (Point(b, j), w) in ai && !DefinesIn(u, w, b) && b != u.g.entry
    ensures Accompanied(u, ab, ai, w, b)
  {
    hide BlocksOk, UsesOk, MovesOk, TailMarked, PathMarked, Covered, Dominates, MoveShape, MoveCovered;
    assert Contiguous(u, ab, ai, w);
    var h := u.homes[w];
    HomeDefines(u, w);
  }

  lemma HomeDefines(u: Unit, w: Value)
    requires HomesOk(u) && w in u.homes
    ensures u.homes[w].start == 0 ==> u.homes[w].block == u.g.entry
    ensures u.homes[w].start > 0 ==> DefinesIn(u, w, u.homes[w].block)
  {
    if u.homes[w].start > 0 {
      assert w in u.code[u.homes[w].block][u.homes[w].start - 1].defines;
    }
  }

  lemma ConflictSymmetric(u: Unit, ab: AliveBlocks, ai: AliveIns, v: Value, w: Value)
    requires Conflict(u, ab, ai, v, w)
    ensures Conflict(u, ab, ai, w, v)
  {
  }

  lemma ConflictSymmetricIff(u: Unit, ab: AliveBlocks, ai: AliveIns, v: Value, w: Value)
    ensures Conflict(u, ab, ai, v, w) <==> Conflict(u, ab, ai, w, v)
  {
  }

  /** Two different values live before the same instruction conflict. */
  lemma LiveValuesConflict(u: Unit, ab: AliveBlocks, ai: AliveIns, v: Value, w: Value, b: Block, j: nat)
    requires UnitOk(u) && AllMarked(u, ab, ai) && v != w && LiveAt(u, v, b, j) && LiveAt(u, w, b, j)
    ensures Conflict(u, ab, ai, v, w) && Conflict(u, ab, ai, w, v)
  {
    hide UnitOk, AllMarked, LiveAt;
    LivenessIsSound(u, ab, ai, v, b, j);
    LivenessIsSound(u, ab, ai, w, b, j);
    if (b, v) in ab && (Point(b, j), w) in ai {
      MixedConflict(u, ab, ai, v, w, b, j);
    } else if (b, w) in ab && (Point(b, j), v) in ai {
      MixedConflict(u, ab, ai, w, v, b, j);
      ConflictSymmetric(u, ab, ai, w, v);
    }
    if (Point(b, j), v) in ai && (Point(b, j), w) in ai {
      InLiveRange(u, v, b, j);
    }
    ConflictSymmetric(u, ab, ai, v, w);
  }

  /** v passes through all of b on the way to a use in another block. */
  ghost predicate PassesThrough(u: Unit, v: Value, b: Block) {
    Marked(u, v) && exists p :: OnWay(u, v, b, p)
  }

  /** Two values interfere: somewhere both are live, or one is defined in a block the other passes through. */
  ghost predicate Interfere(u: Unit, v: Value, w: Value) {
    && v != w
    && ( || (exists b, j :: LiveAt(u, v, b, j) && LiveAt(u, w, b, j))
         || (exists b :: PassesThrough(u, v, b) && DefinesIn(u, w, b))
         || (exists b :: PassesThrough(u, w, b) && DefinesIn(u, v, b)))
  }

  lemma AliveThrough(u: Unit, ab: AliveBlocks, ai: AliveIns, v: Value, b: Block)
    requires UnitOk(u) && AllMarked(u, ab, ai)
    ensures (b, v) in ab <==> PassesThrough(u, v, b)
    ensures (b, v) in ab ==> InRange(u, Point(b, 0))
  {
    hide OnPath, MoveShape, MoveCovered, MovesOk, Dominates, Reachable;
    if (b, v) in ab {
      assert Contiguous(u, ab, ai, v);
      assert Accompanied(u, ab, ai, v, b);
    }
    if p :| Marked(u, v) && OnWay(u, v, b, p) {
      assert Covered(u, ab, ai, v, p);
    }
  }

  /** The conflicts are a matter of liveness alone, whatever the order in which uses were marked. */
  lemma ConflictIff(u: Unit, ab: AliveBlocks, ai: AliveIns, v: Value, w: Value)
    requires UnitOk(u) && AllMarked(u, ab, ai)
    ensures Conflict(u, ab, ai, v, w) <==> Interfere(u, v, w)
  {
    hide UnitOk, AllMarked, LiveAt, DefinesIn, PassesThrough;
    forall b ensures ((b, v) in ab <==> PassesThrough(u, v, b)) && ((b, w) in ab <==> PassesThrough(u, w, b)) {
      AliveThrough(u, ab, ai, v, b);
      AliveThrough(u, ab, ai, w, b);
    }
    if Conflict(u, ab, ai, v, w) {
      if b :| (b, v) in ab && (b, w) in ab {
        AliveThrough(u, ab, ai, v, b);
        AliveIsLive(u, ab, ai, v, b, 0);
        AliveIsLive(u, ab, ai, w, b, 0);
      } else if p :| InRange(u, p) && (p, v) in ai && (p, w) in ai {
        assert p == Point(p.block, p.index);
        AliveIsLive(u, ab, ai, v, p.block, p.index);
        AliveIsLive(u, ab, ai, w, p.block, p.index);
      }
    }
    if v != w {
      if b, j: nat :| LiveAt(u, v, b, j) && LiveAt(u, w, b, j) {
        LiveValuesConflict(u, ab, ai, v, w, b, j);
      }
    }
  }

  /** A definition nobody uses is kept apart from what is alive in its whole block, and from nothing else. */
  lemma UnusedConflictIff(u: Unit, ab: AliveBlocks, ai: AliveIns, v: Value, w: Value)
    requires HomesOk(u) && UsesOk(u) && AllMarked(u, ab, ai) && w in u.homes && u.users[w] == {}
    ensures Conflict(u, ab, ai, v, w) <==> v != w && exists b :: (b, v) in ab && DefinesIn(u, w, b)
  {
    assert w !in u.moves;
    hide OnPath, Contiguous, Covered, MoveShape, MoveCovered;
    NoMarks(u, ab, ai, w);
  }

  lemma NoMarks(u: Unit, ab: AliveBlocks, ai: AliveIns, w: Value)
    requires OnlyTowardsUses(u, ab, ai) && w in u.homes && w in u.users && w !in u.moves && u.users[w] == {}
    ensures forall b :: (b, w) !in ab
    ensures forall q :: (q, w) !in ai
  {
    hide OnPath;
  }

  /** A parameter nobody uses is kept apart from nothing. */
  lemma UnusedParameterIsIsolated(u: Unit, ab: AliveBlocks, ai: AliveIns, v: Value, w: Value)
    requires HomesOk(u) && UsesOk(u) && AllMarked(u, ab, ai)
    requires w in u.homes && u.homes[w].start == 0 && u.users[w] == {}
    ensures !Conflict(u, ab, ai, v, w) && !Conflict(u, ab, ai, w, v)
  {
    UnusedConflictIff(u, ab, ai, v, w);
    ConflictSymmetricIff(u, ab, ai, v, w);
    forall b ensures !DefinesIn(u, w, b) {
    }
  }

  lemma InLiveRange(u: Unit, v: Value, b: Block, j: nat)
    requires LiveAt(u, v, b, j)
    ensures InRange(u, Point(b, j))
  {
  }

  // ----- building it -----

  /** Only marks of v were added. */
  ghost predicate AddsOnly(ab: AliveBlocks, ai: AliveIns, ab': AliveBlocks, ai': AliveIns, v: Value) {
    && ab <= ab' && ai <= ai'
    && (forall b, w :: (b, w) in ab' && w != v ==> (b, w) in ab)
    && (forall p, w :: (p, w) in ai' && w != v ==> (p, w) in ai)
  }

  type Conflicts = map<Value, set<Value>>

  predicate HasEdge(g: Conflicts, v: Value, w: Value) {
    v in g && w in g[v]
  }

  function Inserted(g: Conflicts, v: Value, w: Value): Conflicts
    requires v in g
  {
    g[v := g[v] + {w}]
  }

  lemma InsertedEdge(g: Conflicts, v: Value, w: Value)
    requires v in g
    ensures Inserted(g, v, w).Keys == g.Keys
    ensures forall a, b :: HasEdge(Inserted(g, v, w), a, b) <==> HasEdge(g, a, b) || (a == v && b == w)
  {
  }

  lemma FrontIn(order: seq<Value>, i: nat)
    requires i < |order|
    ensures forall x :: x in order[..i + 1] <==> x in order[..i] || x == order[i]
  {
    assert order[..i + 1] == order[..i] + [order[i]];
  }

  /** aliveVal against the others of the set. */
  method ConnectOne(g0: Conflicts, aliveVal: Value, values: set<Value>) returns (g: Conflicts)
    requires aliveVal in g0
    ensures g.Keys == g0.Keys
    ensures forall v, w :: HasEdge(g, v, w) <==> HasEdge(g0, v, w) || (v == aliveVal && w in values && w != aliveVal)
  {
    hide HasEdge, Inserted;
    var inside := Enumerate(values);
    g := g0;
    for j := 0 to |inside|
      invariant g.Keys == g0.Keys
      invariant forall v, w :: HasEdge(g, v, w) <==> HasEdge(g0, v, w) || (v == aliveVal && w in inside[..j] && w != aliveVal)
    {
      FrontIn(inside, j);
      if aliveVal != inside[j] {
        assert aliveVal in g.Keys;
        InsertedEdge(g, aliveVal, inside[j]);
        g := Inserted(g, aliveVal, inside[j]);
      }
    }
    assert inside[..|inside|] == inside;
  }

  /** All pairs of different values alive together. */
  method ConnectAlive(g0: Conflicts, values: set<Value>) returns (g: Conflicts)
    requires forall v :: v in values ==> v in g0
    ensures g.Keys == g0.Keys
    ensures forall v, w :: HasEdge(g, v, w) <==> HasEdge(g0, v, w) || (v in values && w in values && v != w)
  {
    hide HasEdge;
    var order := Enumerate(values);
    g := g0;
    for i := 0 to |order|
      invariant g.Keys == g0.Keys
      invariant forall v, w :: HasEdge(g, v, w) <==> HasEdge(g0, v, w) || (v in order[..i] && w in values && v != w)
    {
      FrontIn(order, i);
      assert order[i] in order;
      assert order[i] in g0.Keys;
      g := ConnectOne(g, order[i], values);
    }
    assert order[..|order|] == order;
  }

  /** Values alive throughout a block against a variable defined in it, both ways. */
  method ConnectDefined(g0: Conflicts, values: set<Value>, x: Value) returns (g: Conflicts)
    requires (forall v :: v in values ==> v in g0) && x in g0
    ensures g.Keys == g0.Keys
    ensures forall v, w :: HasEdge(g, v, w) <==> HasEdge(g0, v, w) || (v in values && w == x) || (v == x && w in values)
  {
    hide HasEdge, Inserted;
    var order := Enumerate(values);
    g := g0;
    for i := 0 to |order|
      invariant g.Keys == g0.Keys
      invariant forall v, w :: HasEdge(g, v, w) <==> HasEdge(g0, v, w) || (v in order[..i] && w == x) || (v == x && w in order[..i])
    {
      FrontIn(order, i);
      assert order[i] in order;
      assert order[i] in g0.Keys && x in g0.Keys;
      InsertedEdge(g, order[i], x);
      g := Inserted(g, order[i], x);
      InsertedEdge(g, x, order[i]);
      g := Inserted(g, x, order[i]);
    }
    assert order[..|order|] == order;
  }

  class ConflictBuilder {
    var aliveBlocks: AliveBlocks
    var aliveIns: AliveIns
    var blockPath: map<(Block, Block), set<Block>>
    var conflictGraph: map<Value, set<Value>>

    constructor ()
      ensures aliveBlocks == {} && aliveIns == {} && blockPath == map[] && conflictGraph == map[]
    {
      aliveBlocks, aliveIns, blockPath, conflictGraph := {}, {}, map[], map[];
    }

    /** The searches done so far are remembered. */
    method PathPoints(g: Graph, from: Block, to: Block) returns (nodes: set<Block>)
      requires WellFormed(g) && from in g.blocks && PathsRemembered(g, blockPath)
      modifies this`blockPath
      ensures forall x :: x in nodes <==> OnPath(g, from, x, to)
      ensures PathsRemembered(g, blockPath)
    {
      hide OnPath, WellFormed;
      if (from, to) in blockPath {
        nodes := blockPath[(from, to)];
      } else {
        nodes := GetBlockPathPoints(g, from, to);
        blockPath := blockPath[(from, to) := nodes];
      }
    }

    /** addAliveValue over instructions lo..hi of b. */
    method AddAliveValues(b: Block, lo: nat, hi: nat, v: Value)
      modifies this`aliveIns
      ensures aliveIns == old(aliveIns) + Span(b, lo, if lo <= hi then hi else lo, v)
    {
      var j := lo;
      SpanEmpty(b, lo, v);
      while j < hi
        invariant lo <= j && (lo <= hi ==> j <= hi) && (hi < lo ==> j == lo)
        invariant aliveIns == old(aliveIns) + Span(b, lo, j, v)
      {
        SpanNext(b, lo, j, v);
        aliveIns := aliveIns + {(Point(b, j), v)};
        j := j + 1;
      }
    }

    /** Marks v from its definition to one use. */
    method MarkUse(u: Unit, v: Value, p: Point)
      requires UnitOk(u) && v in u.homes && v in u.users && p in u.users[v] && u.homes[v].block in u.code
      requires Contiguous(u, aliveBlocks, aliveIns, v) && PathsRemembered(u.g, blockPath)
      modifies this`aliveBlocks, this`aliveIns, this`blockPath
      ensures Contiguous(u, aliveBlocks, aliveIns, v) && Covered(u, aliveBlocks, aliveIns, v, p)
      ensures AddsOnly(old(aliveBlocks), old(aliveIns), aliveBlocks, aliveIns, v) && PathsRemembered(u.g, blockPath)
      ensures Marked(u, v) && AddsTowards(u, old(aliveBlocks), old(aliveIns), aliveBlocks, aliveIns, v, p)
    {
      hide *;
      UseFacts(u, v, p);
      assert Marked(u, v) by { IsMarked(u, v); }
      var h := u.homes[v];
      if (p.block, v) in aliveBlocks || (p, v) in aliveIns {
        IsAliveFrom(aliveBlocks, aliveIns, v, p);
        AlreadyCovered(u, aliveBlocks, aliveIns, v, p);
        NothingAdded(aliveBlocks, aliveIns, v);
        NothingTowards(u, aliveBlocks, aliveIns, v, p);
        return;
      }
      if p.block == h.block && h.start <= p.index {
        MarkedAtHome(u, aliveBlocks, aliveIns, v, p);
        AddAliveValues(h.block, h.start, p.index + 1, v);
        SpanAdds(old(aliveBlocks), old(aliveIns), h.block, h.start, p.index + 1, v);
        SpanTowards(u, old(aliveBlocks), old(aliveIns), v, p);
      } else {
        AddAliveValues(h.block, h.start, |u.code[h.block]|, v);
        var pathNodes := PathPoints(u.g, h.block, p.block);
        MarkedBeyond(u, old(aliveBlocks), old(aliveIns), v, p, pathNodes);
        WholeAdds(old(aliveBlocks), old(aliveIns), h.block, h.start, |u.code[h.block]|, p.block, p.index + 1, v, pathNodes);
        WholeTowards(u, old(aliveBlocks), old(aliveIns), v, p, pathNodes);
        AddAliveBlocks(pathNodes, v);
        AddAliveValues(p.block, 0, p.index + 1, v);
      }
    }

    /** All uses of v in turn. */
    method MarkVariable(u: Unit, v: Value, ghost done: set<Value>, ghost moved: set<(Value, Block)>)
      requires UnitOk(u) && v in u.homes && v in u.users && u.homes[v].block in u.code
      requires Progress(u, aliveBlocks, aliveIns, done, moved) && PathsRemembered(u.g, blockPath)
      modifies this`aliveBlocks, this`aliveIns, this`blockPath
      ensures Progress(u, aliveBlocks, aliveIns, done + {v}, moved) && PathsRemembered(u.g, blockPath)
    {
      hide *;
      HomeParts(u, v);
      var users := Enumerate(u.users[v]);
      for i := 0 to |users|
        invariant Progress(u, aliveBlocks, aliveIns, done, moved) && PathsRemembered(u.g, blockPath)
        invariant forall j :: 0 <= j < i ==> Covered(u, aliveBlocks, aliveIns, v, users[j])
      {
        ghost var ab, ai := aliveBlocks, aliveIns;
        assert users[i] in users;
        ProgressParts(u, ab, ai, done, moved, v);
        MarkUse(u, v, users[i]);
        AddsParts(ab, ai, aliveBlocks, aliveIns, v);
        ProgressUse(u, ab, ai, aliveBlocks, aliveIns, v, users[i], done, moved);
        forall j | 0 <= j < i ensures Covered(u, aliveBlocks, aliveIns, v, users[j]) {
          CoveredGrows(u, ab, ai, aliveBlocks, aliveIns, v, users[j]);
        }
      }
      forall p | p in u.users[v] ensures Covered(u, aliveBlocks, aliveIns, v, p) {
        assert p in users;
      }
      ProgressDone(u, aliveBlocks, aliveIns, v, done, moved);
    }

    /** The temporary of a phi, from its move in b to the phi. */
    method MarkMove(u: Unit, t: Value, b: Block, m: nat, ghost done: set<Value>, ghost moved: set<(Value, Block)>)
      requires UnitOk(u) && t in u.moves && b in u.code && m < |u.code[b]| && t in u.code[b][m].defines
      requires Progress(u, aliveBlocks, aliveIns, done, moved)
      modifies this`aliveIns
      ensures Progress(u, aliveBlocks, aliveIns, done, moved + {(t, b)})
    {
      hide *;
      var q := u.moves[t];
      MoveMarked(u, aliveBlocks, aliveIns, t, b, m, done, moved);
      AddAliveValues(b, m + 1, |u.code[b]|, t);
      if (q.block, t) in aliveBlocks || (q, t) in aliveIns {
        return;
      }
      AddAliveValues(q.block, 0, q.index + 1, t);
    }

    /** Parameters first, then every instruction of every block. */
    method BuildAlive(u: Unit)
      requires UnitOk(u) && aliveBlocks == {} && aliveIns == {} && blockPath == map[]
      requires HomesOk(u) && UsesOk(u)
      modifies this`aliveBlocks, this`aliveIns, this`blockPath
      ensures AllMarked(u, aliveBlocks, aliveIns)
    {
      hide *;
      ghost var done, moved: set<(Value, Block)> := {}, {};
      NothingMarked(u);
      var params := Enumerate(set v | v in u.homes && u.homes[v].start == 0);
      for i := 0 to |params|
        invariant Progress(u, aliveBlocks, aliveIns, done, moved) && PathsRemembered(u.g, blockPath)
        invariant forall j :: 0 <= j < i ==> params[j] in done
      {
        var v := params[i];
        assert v in params;
        HomeParts(u, v);
        MarkVariable(u, v, done, moved);
        done := done + {v};
      }
      var blocks := u.g.blocks;
      for i := 0 to |blocks|
        invariant Progress(u, aliveBlocks, aliveIns, done, moved) && PathsRemembered(u.g, blockPath)
        invariant forall j :: 0 <= j < |params| ==> params[j] in done
        invariant forall j :: 0 <= j < i ==> BlockDone(u, blocks[j], done, moved)
      {
        ghost var done0, moved0 := done, moved;
        done, moved := MarkBlock(u, blocks[i], done, moved);
        forall j | 0 <= j < i ensures BlockDone(u, blocks[j], done, moved) {
          BlockStaysDone(u, blocks[j], done0, moved0, done, moved);
        }
      }
      forall v | v in u.homes && u.homes[v].start == 0 ensures v in done {
        assert v in params;
      }
      Finished(u, aliveBlocks, aliveIns, done, moved);
    }

    method MarkBlock(u: Unit, b: Block, ghost done0: set<Value>, ghost moved0: set<(Value, Block)>) returns (ghost done: set<Value>, ghost moved: set<(Value, Block)>)
      requires UnitOk(u) && b in u.g.blocks && Progress(u, aliveBlocks, aliveIns, done0, moved0) && PathsRemembered(u.g, blockPath)
      modifies this`aliveBlocks, this`aliveIns, this`blockPath
      ensures Progress(u, aliveBlocks, aliveIns, done, moved) && PathsRemembered(u.g, blockPath) && done0 <= done && moved0 <= moved
      ensures BlockDone(u, b, done, moved)
    {
      hide *;
      BlockHasCode(u, b);
      done, moved := done0, moved0;
      for m := 0 to |u.code[b]|
        invariant Progress(u, aliveBlocks, aliveIns, done, moved) && PathsRemembered(u.g, blockPath) && done0 <= done && moved0 <= moved
        invariant SlotsDone(u, b, m, done, moved)
      {
        var defined := Enumerate(u.code[b][m].defines);
        ghost var done1, moved1 := done, moved;
        for i := 0 to |defined|
          invariant Progress(u, aliveBlocks, aliveIns, done, moved) && PathsRemembered(u.g, blockPath)
          invariant done0 <= done && moved0 <= moved && done1 <= done && moved1 <= moved
          invariant forall j :: 0 <= j < i ==> if defined[j] in u.moves then (defined[j], b) in moved else defined[j] in done
        {
          var v := defined[i];
          assert v in defined;
          if v in u.moves {
            MarkMove(u, v, b, m, done, moved);
            moved := moved + {(v, b)};
          } else {
            DefinedHasHome(u, b, m, v);
            MarkVariable(u, v, done, moved);
            done := done + {v};
          }
        }
        forall v | v in u.code[b][m].defines ensures if v in u.moves then (v, b) in moved else v in done {
          assert v in defined;
        }
        SlotDone(u, b, m, done1, moved1, done, moved);
      }
      AllSlotsDone(u, b, done, moved);
    }

    /** Edges that block b contributes. */
    method ConnectBlock(u: Unit, b: Block)
      requires UnitOk(u) && b in u.g.blocks && AllKnown(u, aliveBlocks, aliveIns, conflictGraph)
      modifies this`conflictGraph
      ensures conflictGraph.Keys == old(conflictGraph).Keys
      ensures forall v, w :: HasEdge(conflictGraph, v, w) <==> HasEdge(old(conflictGraph), v, w) || BlockRule(u, aliveBlocks, aliveIns, b, v, w)
    {
      hide *;
      BlockHasCode(u, b);
      var g0 := conflictGraph;
      var aliveValues := set x | x in aliveBlocks && x.0 == b :: x.1;
      AliveValues(aliveBlocks, b, aliveValues);
      AliveKnown(u, aliveBlocks, aliveIns, g0);
      var g := ConnectAlive(g0, aliveValues);
      ghost var g1 := g;
      DefinedZero(u, b);
      for m := 0 to |u.code[b]|
        invariant g.Keys == g0.Keys
        invariant forall v, w :: HasEdge(g, v, w) <==> HasEdge(g1, v, w) || (v in aliveValues && DefinedBefore(u, w, b, m)) || (w in aliveValues && DefinedBefore(u, v, b, m))
      {
        ghost var g2 := g;
        var defined := Enumerate(u.code[b][m].defines);
        for i := 0 to |defined|
          invariant g.Keys == g0.Keys
          invariant forall v, w :: HasEdge(g, v, w) <==> HasEdge(g2, v, w) || (v in aliveValues && w in defined[..i]) || (w in aliveValues && v in defined[..i])
        {
          assert defined[i] in defined;
          FrontIn(defined, i);
          DefinedKnown(u, aliveBlocks, aliveIns, g0, b, m, defined[i]);
          KeysSame(g0, g);
          g := ConnectDefined(g, aliveValues, defined[i]);
        }
        assert defined[..|defined|] == defined;
        DefinedNext(u, b, m);
      }
      ghost var g3 := g;
      AllDefined(u, b);
      TogetherZero(aliveIns, b);
      for m := 0 to |u.code[b]|
        invariant g.Keys == g0.Keys
        invariant forall v, w :: HasEdge(g, v, w) <==> HasEdge(g3, v, w) || TogetherBefore(aliveIns, b, m, v, w)
      {
        var values := set x | x in aliveIns && x.0 == Point(b, m) :: x.1;
        PointValues(aliveIns, Point(b, m), values);
        KeysSame(g0, g);
        g := ConnectAlive(g, values);
        TogetherNext(aliveIns, b, m);
      }
      BlockRuleFrom(u, aliveBlocks, aliveIns, b, aliveValues, g0, g1, g3, g);
      conflictGraph := g;
    }

    /** The whole graph: every variable is a vertex, and the edges are the conflicts. */
    method ConnectAll(u: Unit)
      requires UnitOk(u) && HomesOk(u) && UsesOk(u) && AllMarked(u, aliveBlocks, aliveIns)
      modifies this`conflictGraph
      ensures conflictGraph.Keys == u.homes.Keys + u.moves.Keys
      ensures forall v, w :: HasEdge(conflictGraph, v, w) <==> Conflict(u, aliveBlocks, aliveIns, v, w)
    {
      hide *;
      conflictGraph := map v | v in u.homes.Keys + u.moves.Keys :: {};
      NoEdges(u, conflictGraph);
      MarkedKnown(u, aliveBlocks, aliveIns, conflictGraph);
      var blocks := u.g.blocks;
      for i := 0 to |blocks|
        invariant conflictGraph.Keys == u.homes.Keys + u.moves.Keys && AllKnown(u, aliveBlocks, aliveIns, conflictGraph)
        invariant forall v, w :: HasEdge(conflictGraph, v, w) <==> RuleIn(u, aliveBlocks, aliveIns, blocks[..i], v, w)
      {
        ghost var g0 := conflictGraph;
        assert blocks[i] in blocks;
        ConnectBlock(u, blocks[i]);
        KnownSame(u, aliveBlocks, aliveIns, g0, conflictGraph);
        RuleNext(u, aliveBlocks, aliveIns, blocks, i);
      }
      assert blocks[..|blocks|] == blocks;
      RuleIsConflict(u, aliveBlocks, aliveIns);
    }

    method AddAliveBlocks(nodes: set<Block>, v: Value)
      modifies this`aliveBlocks
      ensures aliveBlocks == old(aliveBlocks) + Whole(nodes, v)
    {
      var order := Enumerate(nodes);
      WholeEmpty(order, v);
      for i := 0 to |order|
        invariant aliveBlocks == old(aliveBlocks) + Whole(Front(order, i), v)
      {
        WholeNext(order, i, v);
        aliveBlocks := aliveBlocks + {(order[i], v)};
      }
      assert Front(order, |order|) == nodes;
    }
  }

  function Front(order: seq<Block>, i: nat): set<Block>
    requires i <= |order|
  {
    set b | b in order[..i]
  }

  lemma WholeEmpty(order: seq<Block>, v: Value)
    ensures Whole(Front(order, 0), v) == {}
  {
  }

  lemma WholeNext(order: seq<Block>, i: nat, v: Value)
    requires i < |order|
    ensures Whole(Front(order, i + 1), v) == Whole(Front(order, i), v) + {(order[i], v)}
  {
    assert Front(order, i + 1) == Front(order, i) + {order[i]};
  }

  ghost predicate PathsRemembered(g: Graph, paths: map<(Block, Block), set<Block>>) {
    forall k :: k in paths ==> forall x :: x in paths[k] <==> OnPath(g, k.0, x, k.1)
  }

  lemma SpanEmpty(b: Block, lo: nat, v: Value)
    ensures Span(b, lo, lo, v) == {}
  {
  }

  lemma SpanNext(b: Block, lo: nat, j: nat, v: Value)
    requires lo <= j
    ensures Span(b, lo, j + 1, v) == Span(b, lo, j, v) + {(Point(b, j), v)}
  {
  }

  lemma UseFacts(u: Unit, v: Value, p: Point)
    requires UnitOk(u) && v in u.homes && v in u.users && p in u.users[v]
    ensures u.homes[v].block in u.code && u.homes[v].block in u.g.blocks && p.block in u.g.blocks && p.block in u.code && p.index < |u.code[p.block]|
    ensures p.block == u.homes[v].block ==> u.homes[v].start <= p.index
    ensures p.block != u.homes[v].block ==> Dominates(u.g, u.homes[v].block, p.block)
    ensures u.homes[v].start <= |u.code[u.homes[v].block]| && WellFormed(u.g)
  {
    assert IsUse(u, v, p);
    assert u.homes[v].block in BlockSet(u.g) && p.block in BlockSet(u.g);
  }

  lemma IsAliveFrom(ab: AliveBlocks, ai: AliveIns, v: Value, p: Point)
    requires (p.block, v) in ab || (p, v) in ai
    ensures IsAlive(ab, ai, v, p.block, p.index)
  {
  }

  lemma NothingAdded(ab: AliveBlocks, ai: AliveIns, v: Value)
    ensures AddsOnly(ab, ai, ab, ai, v)
  {
  }

  lemma SpanAdds(ab: AliveBlocks, ai: AliveIns, b: Block, lo: nat, hi: nat, v: Value)
    ensures AddsOnly(ab, ai, ab, ai + Span(b, lo, hi, v), v)
  {
  }

  lemma WholeAdds(ab: AliveBlocks, ai: AliveIns, b: Block, lo: nat, hi: nat, c: Block, to: nat, v: Value, nodes: set<Block>)
    ensures AddsOnly(ab, ai, ab + Whole(nodes, v), ai + Span(b, lo, hi, v) + Span(c, 0, to, v), v)
  {
  }

  /** Marks made so far are well-formed; the values in done, and the moves in moved, are covered. */
  ghost predicate Progress(u: Unit, ab: AliveBlocks, ai: AliveIns, done: set<Value>, moved: set<(Value, Block)>) {
    && (forall v :: v in u.homes ==> u.homes[v].block in u.code && v in u.users && Contiguous(u, ab, ai, v))
    && (forall t :: t in u.moves ==> MoveShape(u, ab, ai, t))
    && (forall b, v :: (b, v) in ab ==> v in u.homes)
    && (forall p, v :: (p, v) in ai ==> v in u.homes || v in u.moves)
    && (forall v, p :: v in done && v in u.homes && p in u.users[v] ==> Covered(u, ab, ai, v, p))
    && (forall t, b :: (t, b) in moved && t in u.moves ==> MoveCovered(u, ai, t, b))
    && OnlyTowardsUses(u, ab, ai)
  }

  lemma ProgressParts(u: Unit, ab: AliveBlocks, ai: AliveIns, done: set<Value>, moved: set<(Value, Block)>, v: Value)
    requires Progress(u, ab, ai, done, moved) && v in u.homes
    ensures u.homes[v].block in u.code && v in u.users && Contiguous(u, ab, ai, v)
  {
  }

  lemma IsMarked(u: Unit, v: Value)
    requires v in u.homes && v in u.users && u.homes[v].block in u.code
    ensures Marked(u, v)
  {
  }

  lemma NothingTowards(u: Unit, ab: AliveBlocks, ai: AliveIns, v: Value, p: Point)
    requires Marked(u, v)
    ensures AddsTowards(u, ab, ai, ab, ai, v, p)
  {
  }

  lemma SpanTowards(u: Unit, ab: AliveBlocks, ai: AliveIns, v: Value, p: Point)
    requires Marked(u, v) && p in u.users[v] && p.block == u.homes[v].block && p.index < |u.code[p.block]|
    ensures AddsTowards(u, ab, ai, ab, ai + Span(p.block, u.homes[v].start, p.index + 1, v), v, p)
  {
  }

  lemma WholeTowards(u: Unit, ab: AliveBlocks, ai: AliveIns, v: Value, p: Point, nodes: set<Block>)
    requires Marked(u, v) && p in u.users[v] && p.block != u.homes[v].block
    requires forall x :: x in nodes <==> OnPath(u.g, u.homes[v].block, x, p.block)
    ensures var d := u.homes[v].block;
            AddsTowards(u, ab, ai, ab + Whole(nodes, v),
                        ai + Span(d, u.homes[v].start, |u.code[d]|, v) + Span(p.block, 0, p.index + 1, v), v, p)
  {
    hide OnPath;
  }

  lemma StillTowards(u: Unit, ab: AliveBlocks, ai: AliveIns, ab': AliveBlocks, ai': AliveIns, v: Value, p: Point)
    requires OnlyTowardsUses(u, ab, ai) && AddsOnly(ab, ai, ab', ai', v) && Marked(u, v) && AddsTowards(u, ab, ai, ab', ai', v, p)
    ensures OnlyTowardsUses(u, ab', ai')
  {
    hide OnWay, Towards, Marked;
  }

  lemma AddsParts(ab: AliveBlocks, ai: AliveIns, ab': AliveBlocks, ai': AliveIns, v: Value)
    requires AddsOnly(ab, ai, ab', ai', v)
    ensures ab <= ab' && ai <= ai'
  {
  }

  lemma CoveredGrows(u: Unit, ab: AliveBlocks, ai: AliveIns, ab': AliveBlocks, ai': AliveIns, v: Value, p: Point)
    requires v in u.homes && u.homes[v].block in u.code && Covered(u, ab, ai, v, p) && ab <= ab' && ai <= ai'
    ensures Covered(u, ab', ai', v, p)
  {
    hide OnPath;
  }

  /** Marks of v leave what is said of other variables as it is. */
  lemma OthersSame(u: Unit, ab: AliveBlocks, ai: AliveIns, ab': AliveBlocks, ai': AliveIns, v: Value, w: Value)
    requires AddsOnly(ab, ai, ab', ai', v) && w != v
    ensures w in u.homes && u.homes[w].block in u.code && Contiguous(u, ab, ai, w) ==> Contiguous(u, ab', ai', w)
    ensures w in u.moves && MoveShape(u, ab, ai, w) ==> MoveShape(u, ab', ai', w)
  {
    hide OnPath, Dominates, DefinedBefore;
  }

  lemma MoveCoveredGrows(u: Unit, ai: AliveIns, ai': AliveIns, t: Value, b: Block)
    requires t in u.moves && MoveCovered(u, ai, t, b) && ai <= ai'
    ensures MoveCovered(u, ai', t, b)
  {
  }

  lemma ProgressUse(u: Unit, ab: AliveBlocks, ai: AliveIns, ab': AliveBlocks, ai': AliveIns, v: Value, p: Point, done: set<Value>, moved: set<(Value, Block)>)
    requires Progress(u, ab, ai, done, moved) && AddsOnly(ab, ai, ab', ai', v) && v in u.homes && v !in u.moves
    requires u.homes[v].block in u.code && Contiguous(u, ab', ai', v) && Marked(u, v) && AddsTowards(u, ab, ai, ab', ai', v, p)
    ensures Progress(u, ab', ai', done, moved)
  {
    StillTowards(u, ab, ai, ab', ai', v, p);
    hide Contiguous, MoveShape, Covered, MoveCovered, OnlyTowardsUses, AddsTowards, Marked;
    forall w | w in u.homes ensures Contiguous(u, ab', ai', w) {
      if w != v {
        OthersSame(u, ab, ai, ab', ai', v, w);
      }
    }
    forall t | t in u.moves ensures MoveShape(u, ab', ai', t) {
      OthersSame(u, ab, ai, ab', ai', v, t);
    }
    forall w, q | w in done && w in u.homes && q in u.users[w] ensures Covered(u, ab', ai', w, q) {
      CoveredGrows(u, ab, ai, ab', ai', w, q);
    }
    forall t, b | (t, b) in moved && t in u.moves ensures MoveCovered(u, ai', t, b) {
      MoveCoveredGrows(u, ai, ai', t, b);
    }
  }

  lemma ProgressDone(u: Unit, ab: AliveBlocks, ai: AliveIns, v: Value, done: set<Value>, moved: set<(Value, Block)>)
    requires Progress(u, ab, ai, done, moved) && v in u.homes && forall p :: p in u.users[v] ==> Covered(u, ab, ai, v, p)
    ensures Progress(u, ab, ai, done + {v}, moved)
  {
    hide Contiguous, MoveShape, Covered, MoveCovered;
  }

  /** The two ways MarkMove can go. */
  lemma MoveMarked(u: Unit, ab: AliveBlocks, ai: AliveIns, t: Value, b: Block, m: nat, done: set<Value>, moved: set<(Value, Block)>)
    requires UnitOk(u) && t in u.moves && b in u.code && m < |u.code[b]| && t in u.code[b][m].defines && Progress(u, ab, ai, done, moved)
    ensures var q := u.moves[t];
            var ai1 := ai + Span(b, m + 1, |u.code[b]|, t);
            && ((q.block, t) in ab || (q, t) in ai1 ==> Progress(u, ab, ai1, done, moved + {(t, b)}))
            && Progress(u, ab, ai1 + Span(q.block, 0, q.index + 1, t), done, moved + {(t, b)})
  {
    var q := u.moves[t];
    var ai1 := ai + Span(b, m + 1, |u.code[b]|, t);
    var ai2 := ai1 + Span(q.block, 0, q.index + 1, t);
    MoveTail(u, ab, ai, t, b, m);
    MoveAll(u, ab, ai1, t, b, m);
    hide UnitOk, MoveShape, MoveCovered;
    if (q.block, t) in ab || (q, t) in ai1 {
      ProgressMove(u, ab, ai, ai1, t, b, done, moved);
    }
    ProgressMove(u, ab, ai, ai2, t, b, done, moved);
  }

  lemma MoveTail(u: Unit, ab: AliveBlocks, ai: AliveIns, t: Value, b: Block, m: nat)
    requires UnitOk(u) && t in u.moves && b in u.code && m < |u.code[b]| && t in u.code[b][m].defines && MoveShape(u, ab, ai, t)
    ensures var ai1 := ai + Span(b, m + 1, |u.code[b]|, t);
            && MoveShape(u, ab, ai1, t)
            && ((u.moves[t], t) in ai1 ==> MoveCovered(u, ai1, t, b))
  {
    hide BlocksOk, HomesOk, UsesOk;
    forall n, j: nat | 0 <= n < |u.code[b]| && t in u.code[b][n].defines && n < j < |u.code[b]| ensures (Point(b, j), t) in ai + Span(b, m + 1, |u.code[b]|, t) {
      assert n == m;
    }
  }

  lemma MoveAll(u: Unit, ab: AliveBlocks, ai1: AliveIns, t: Value, b: Block, m: nat)
    requires UnitOk(u) && t in u.moves && b in u.code && m < |u.code[b]| && t in u.code[b][m].defines && MoveShape(u, ab, ai1, t)
    requires Span(b, m + 1, |u.code[b]|, t) <= ai1
    ensures var ai2 := ai1 + Span(u.moves[t].block, 0, u.moves[t].index + 1, t); MoveShape(u, ab, ai2, t) && MoveCovered(u, ai2, t, b)
  {
    hide BlocksOk, HomesOk, UsesOk;
    forall n, j: nat | 0 <= n < |u.code[b]| && t in u.code[b][n].defines && n < j < |u.code[b]| ensures (Point(b, j), t) in ai1 {
      assert n == m;
      SpanHas(b, m + 1, |u.code[b]|, t, b, j, t);
    }
  }

  lemma ProgressMove(u: Unit, ab: AliveBlocks, ai: AliveIns, ai': AliveIns, t: Value, b: Block, done: set<Value>, moved: set<(Value, Block)>)
    requires Progress(u, ab, ai, done, moved) && AddsOnly(ab, ai, ab, ai', t) && t in u.moves && t !in u.homes && MoveShape(u, ab, ai', t) && MoveCovered(u, ai', t, b)
    ensures Progress(u, ab, ai', done, moved + {(t, b)})
  {
    hide Contiguous, MoveShape, Covered, MoveCovered;
    forall w | w in u.homes ensures Contiguous(u, ab, ai', w) {
      OthersSame(u, ab, ai, ab, ai', t, w);
    }
    forall s | s in u.moves ensures MoveShape(u, ab, ai', s) {
      if s != t {
        OthersSame(u, ab, ai, ab, ai', t, s);
      }
    }
    forall w, p | w in done && w in u.homes && p in u.users[w] ensures Covered(u, ab, ai', w, p) {
      CoveredGrows(u, ab, ai, ab, ai', w, p);
    }
    forall s, c | (s, c) in moved && s in u.moves ensures MoveCovered(u, ai', s, c) {
      MoveCoveredGrows(u, ai, ai', s, c);
    }
  }

  /** The first m instructions of b have been dealt with. */
  ghost predicate SlotsDone(u: Unit, b: Block, m: nat, done: set<Value>, moved: set<(Value, Block)>) {
    b in u.code && m <= |u.code[b]|
    && forall n, v :: 0 <= n < m && v in u.code[b][n].defines ==> if v in u.moves then (v, b) in moved else v in done
  }

  ghost predicate BlockDone(u: Unit, b: Block, done: set<Value>, moved: set<(Value, Block)>) {
    b in u.code && SlotsDone(u, b, |u.code[b]|, done, moved)
  }

  lemma BlockHasCode(u: Unit, b: Block)
    requires UnitOk(u) && b in u.g.blocks
    ensures b in u.code && SlotsDone(u, b, 0, {}, {}) && forall done, moved :: SlotsDone(u, b, 0, done, moved)
  {
  }

  lemma SlotDone(u: Unit, b: Block, m: nat, done0: set<Value>, moved0: set<(Value, Block)>, done: set<Value>, moved: set<(Value, Block)>)
    requires SlotsDone(u, b, m, done0, moved0) && done0 <= done && moved0 <= moved && b in u.code && m < |u.code[b]|
    requires forall v :: v in u.code[b][m].defines ==> if v in u.moves then (v, b) in moved else v in done
    ensures SlotsDone(u, b, m + 1, done, moved)
  {
  }

  lemma AllSlotsDone(u: Unit, b: Block, done: set<Value>, moved: set<(Value, Block)>)
    requires b in u.code && SlotsDone(u, b, |u.code[b]|, done, moved)
    ensures BlockDone(u, b, done, moved)
  {
  }

  lemma BlockStaysDone(u: Unit, b: Block, done0: set<Value>, moved0: set<(Value, Block)>, done: set<Value>, moved: set<(Value, Block)>)
    requires BlockDone(u, b, done0, moved0) && done0 <= done && moved0 <= moved
    ensures BlockDone(u, b, done, moved)
  {
  }

  lemma DefinedHasHome(u: Unit, b: Block, m: nat, v: Value)
    requires UnitOk(u) && b in u.code && m < |u.code[b]| && v in u.code[b][m].defines && v !in u.moves
    ensures v in u.homes && v in u.users && u.homes[v].block in u.code
  {
  }

  lemma HomeParts(u: Unit, v: Value)
    requires UnitOk(u) && v in u.homes
    ensures v in u.users && u.homes[v].block in u.code && v !in u.moves
  {
  }

  lemma NothingMarked(u: Unit)
    requires UnitOk(u)
    ensures Progress(u, {}, {}, {}, {}) && PathsRemembered(u.g, map[])
  {
    hide UnitOk;
    forall v | v in u.homes ensures v in u.users && u.homes[v].block in u.code && Contiguous(u, {}, {}, v) {
      HomeParts(u, v);
    }
  }

  lemma Finished(u: Unit, ab: AliveBlocks, ai: AliveIns, done: set<Value>, moved: set<(Value, Block)>)
    requires UnitOk(u) && Progress(u, ab, ai, done, moved)
    requires forall j :: 0 <= j < |u.g.blocks| ==> BlockDone(u, u.g.blocks[j], done, moved)
    requires forall v :: v in u.homes && u.homes[v].start == 0 ==> v in done
    ensures HomesOk(u) && UsesOk(u) && AllMarked(u, ab, ai)
  {
    hide BlocksOk, MovesOk, Contiguous, Covered, MoveShape, MoveCovered;
    forall v | v in u.homes ensures v in done {
      if u.homes[v].start > 0 {
        ListedBlock(u, u.homes[v].block);
      }
    }
    forall t, b | t in u.moves && b in u.g.blocks && DefinesIn(u, t, b) ensures (t, b) in moved {
      ListedBlock(u, b);
    }
  }

  lemma ListedBlock(u: Unit, b: Block)
    requires HomesOk(u) && (b in u.code || b in u.g.blocks)
    ensures exists j :: 0 <= j < |u.g.blocks| && u.g.blocks[j] == b
  {
    assert b in BlockSet(u.g) <==> b in u.code.Keys;
  }

  /** Edges that come from block b. */
  ghost predicate BlockRule(u: Unit, ab: AliveBlocks, ai: AliveIns, b: Block, v: Value, w: Value) {
    || ((b, v) in ab && (b, w) in ab && v != w)
    || ((b, v) in ab && DefinesIn(u, w, b))
    || ((b, w) in ab && DefinesIn(u, v, b))
    || (b in u.code && TogetherBefore(ai, b, |u.code[b]|, v, w))
  }

  ghost predicate TogetherBefore(ai: AliveIns, b: Block, m: nat, v: Value, w: Value) {
    v != w && exists j: nat :: j < m && (Point(b, j), v) in ai && (Point(b, j), w) in ai
  }

  ghost predicate RuleIn(u: Unit, ab: AliveBlocks, ai: AliveIns, blocks: seq<Block>, v: Value, w: Value) {
    exists b :: b in blocks && BlockRule(u, ab, ai, b, v, w)
  }

  /** Everything alive, and everything defined, is a vertex. */
  ghost predicate AllKnown(u: Unit, ab: AliveBlocks, ai: AliveIns, g: Conflicts) {
    && (forall b, v :: (b, v) in ab ==> v in g)
    && (forall p, v :: (p, v) in ai ==> v in g)
    && (forall b, m, v :: b in u.code && 0 <= m < |u.code[b]| && v in u.code[b][m].defines ==> v in g)
  }

  lemma AliveValues(ab: AliveBlocks, b: Block, values: set<Value>)
    requires values == set x | x in ab && x.0 == b :: x.1
    ensures forall v :: v in values <==> (b, v) in ab
  {
  }

  lemma PointValues(ai: AliveIns, p: Point, values: set<Value>)
    requires values == set x | x in ai && x.0 == p :: x.1
    ensures forall v :: v in values <==> (p, v) in ai
  {
  }

  lemma AliveKnown(u: Unit, ab: AliveBlocks, ai: AliveIns, g: Conflicts)
    requires AllKnown(u, ab, ai, g)
    ensures forall b, v :: (b, v) in ab ==> v in g
    ensures forall p, v :: (p, v) in ai ==> v in g
  {
  }

  lemma DefinedKnown(u: Unit, ab: AliveBlocks, ai: AliveIns, g: Conflicts, b: Block, m: nat, v: Value)
    requires AllKnown(u, ab, ai, g) && b in u.code && m < |u.code[b]| && v in u.code[b][m].defines
    ensures v in g
  {
  }

  lemma KeysSame(g: Conflicts, h: Conflicts)
    requires g.Keys == h.Keys
    ensures forall v :: v in g <==> v in h
  {
    assert forall v :: v in g.Keys <==> v in h.Keys;
  }

  lemma DefinedNext(u: Unit, b: Block, m: nat)
    requires b in u.code && m < |u.code[b]|
    ensures forall v :: DefinedBefore(u, v, b, m + 1) <==> DefinedBefore(u, v, b, m) || v in u.code[b][m].defines
  {
  }

  lemma DefinedZero(u: Unit, b: Block)
    ensures forall v :: !DefinedBefore(u, v, b, 0)
  {
  }

  lemma AllDefined(u: Unit, b: Block)
    requires b in u.code
    ensures forall v :: DefinedBefore(u, v, b, |u.code[b]|) <==> DefinesIn(u, v, b)
  {
  }

  lemma TogetherNext(ai: AliveIns, b: Block, m: nat)
    ensures forall v, w :: TogetherBefore(ai, b, m + 1, v, w) <==> TogetherBefore(ai, b, m, v, w) || (v != w && (Point(b, m), v) in ai && (Point(b, m), w) in ai)
  {
  }

  lemma TogetherZero(ai: AliveIns, b: Block)
    ensures forall v, w :: !TogetherBefore(ai, b, 0, v, w)
  {
  }

  lemma BlockRuleFrom(u: Unit, ab: AliveBlocks, ai: AliveIns, b: Block, values: set<Value>, g0: Conflicts, g1: Conflicts, g3: Conflicts, g: Conflicts)
    requires b in u.code && forall v :: v in values <==> (b, v) in ab
    requires forall v, w :: HasEdge(g1, v, w) <==> HasEdge(g0, v, w) || (v in values && w in values && v != w)
    requires forall v, w :: HasEdge(g3, v, w) <==> HasEdge(g1, v, w) || (v in values && DefinesIn(u, w, b)) || (w in values && DefinesIn(u, v, b))
    requires forall v, w :: HasEdge(g, v, w) <==> HasEdge(g3, v, w) || TogetherBefore(ai, b, |u.code[b]|, v, w)
    ensures forall v, w :: HasEdge(g, v, w) <==> HasEdge(g0, v, w) || BlockRule(u, ab, ai, b, v, w)
  {
    hide HasEdge, DefinesIn, TogetherBefore;
  }

  lemma NoEdges(u: Unit, g: Conflicts)
    requires g == map v | v in u.homes.Keys + u.moves.Keys :: {}
    ensures forall v, w :: !HasEdge(g, v, w)
    ensures g.Keys == u.homes.Keys + u.moves.Keys
    ensures forall ab, ai, v, w :: !RuleIn(u, ab, ai, [], v, w)
  {
  }

  lemma MarkedKnown(u: Unit, ab: AliveBlocks, ai: AliveIns, g: Conflicts)
    requires HomesOk(u) && UsesOk(u) && AllMarked(u, ab, ai) && g.Keys == u.homes.Keys + u.moves.Keys
    ensures AllKnown(u, ab, ai, g)
  {
    hide UsesOk, Contiguous, Covered, MoveShape, MoveCovered;
    assert forall v :: v in g.Keys <==> v in u.homes || v in u.moves;
  }

  lemma KnownSame(u: Unit, ab: AliveBlocks, ai: AliveIns, g: Conflicts, h: Conflicts)
    requires AllKnown(u, ab, ai, g) && h.Keys == g.Keys
    ensures AllKnown(u, ab, ai, h)
  {
    KeysSame(g, h);
  }

  lemma RuleNext(u: Unit, ab: AliveBlocks, ai: AliveIns, blocks: seq<Block>, i: nat)
    requires i < |blocks|
    ensures forall v, w :: RuleIn(u, ab, ai, blocks[..i + 1], v, w) <==> RuleIn(u, ab, ai, blocks[..i], v, w) || BlockRule(u, ab, ai, blocks[i], v, w)
  {
    hide BlockRule;
    assert blocks[..i + 1] == blocks[..i] + [blocks[i]];
  }

  lemma RuleIsConflict(u: Unit, ab: AliveBlocks, ai: AliveIns)
    requires UnitOk(u) && HomesOk(u) && UsesOk(u) && AllMarked(u, ab, ai)
    ensures forall v, w :: RuleIn(u, ab, ai, u.g.blocks, v, w) <==> Conflict(u, ab, ai, v, w)
  {
    hide BlocksOk, MovesOk, UsesOk, Covered, MoveCovered, MoveShape, TailMarked, PathMarked, Dominates;
    forall b, v | (b, v) in ab ensures b in u.g.blocks && !DefinesIn(u, v, b) {
      AliveElsewhere(u, ab, ai, v, b);
    }
    forall v, w | RuleIn(u, ab, ai, u.g.blocks, v, w) ensures Conflict(u, ab, ai, v, w) {
      var b :| b in u.g.blocks && BlockRule(u, ab, ai, b, v, w);
      RuleGives(u, ab, ai, b, v, w);
    }
    forall v, w | Conflict(u, ab, ai, v, w) ensures RuleIn(u, ab, ai, u.g.blocks, v, w) {
      ConflictGives(u, ab, ai, v, w);
    }
  }

  lemma AliveElsewhere(u: Unit, ab: AliveBlocks, ai: AliveIns, v: Value, b: Block)
    requires UnitOk(u) && AllMarked(u, ab, ai) && (b, v) in ab
    ensures b in u.g.blocks && !DefinesIn(u, v, b)
  {
    assert Contiguous(u, ab, ai, v);
    assert Accompanied(u, ab, ai, v, b);
  }

  lemma RuleGives(u: Unit, ab: AliveBlocks, ai: AliveIns, b: Block, v: Value, w: Value)
    requires BlockRule(u, ab, ai, b, v, w) && b in u.g.blocks
    requires (b, v) in ab ==> !DefinesIn(u, v, b)
    requires (b, w) in ab ==> !DefinesIn(u, w, b)
    ensures Conflict(u, ab, ai, v, w)
  {
    hide DefinesIn;
    if b in u.code && TogetherBefore(ai, b, |u.code[b]|, v, w) {
      var j: nat :| j < |u.code[b]| && (Point(b, j), v) in ai && (Point(b, j), w) in ai;
      assert InRange(u, Point(b, j));
    }
  }

  lemma ConflictGives(u: Unit, ab: AliveBlocks, ai: AliveIns, v: Value, w: Value)
    requires Conflict(u, ab, ai, v, w) && forall b, x :: (b, x) in ab ==> b in u.g.blocks
    ensures RuleIn(u, ab, ai, u.g.blocks, v, w)
  {
    hide DefinesIn;
    if p :| InRange(u, p) && (p, v) in ai && (p, w) in ai {
      assert Point(p.block, p.index) == p;
      assert BlockRule(u, ab, ai, p.block, v, w);
    } else if b :| (b, v) in ab && (b, w) in ab {
      assert BlockRule(u, ab, ai, b, v, w);
    } else if b :| (b, v) in ab && DefinesIn(u, w, b) {
      assert BlockRule(u, ab, ai, b, v, w);
    } else {
      var b :| (b, w) in ab && DefinesIn(u, v, b);
      assert BlockRule(u, ab, ai, b, v, w);
    }
  }
}
