/**
  Control-flow graphs, walks and dominance: the vocabulary shared by the passes
  over the intermediate representation.
 */
module Cfg {

  datatype Block = Block(id: nat)

  /** A function's blocks in their vector order, with both edge directions stored. */
  datatype Graph = Graph(blocks: seq<Block>, entry: Block,
                         preds: map<Block, set<Block>>, succs: map<Block, set<Block>>)

  ghost predicate WellFormed(g: Graph) {
    && g.entry in g.blocks
    && (forall b :: b in g.blocks ==> b in g.preds && b in g.succs)
    && (forall b, p :: b in g.blocks && p in g.preds[b] ==> p in g.blocks && b in g.succs[p])
    && (forall b, s :: b in g.blocks && s in g.succs[b] ==> s in g.blocks && b in g.preds[s])
  }

  function BlockSet(g: Graph): set<Block> {
    set b | b in g.blocks
  }

  ghost predicate Edge(g: Graph, a: Block, b: Block) {
    a in g.blocks && a in g.succs && b in g.succs[a]
  }

  ghost predicate IsWalk(g: Graph, w: seq<Block>) {
    && |w| > 0
    && w[0] in g.blocks
    && forall i :: 0 <= i < |w| - 1 ==> Edge(g, w[i], w[i + 1])
  }

  function Last(w: seq<Block>): Block
    requires |w| > 0
  {
    w[|w| - 1]
  }

  ghost predicate Connects(g: Graph, w: seq<Block>, a: Block, b: Block) {
    IsWalk(g, w) && w[0] == a && Last(w) == b
  }

  /** Every walk from the entry to b meets d. */
  ghost predicate Dominates(g: Graph, d: Block, b: Block) {
    forall w :: Connects(g, w, g.entry, b) ==> d in w
  }

  ghost predicate Reachable(g: Graph, b: Block) {
    exists w :: Connects(g, w, g.entry, b)
  }

  /** No block is listed twice, and none before one that dominates it. */
  ghost predicate DominatorsFirst(g: Graph) {
    forall i, j :: 0 <= i < j < |g.blocks| ==> g.blocks[i] != g.blocks[j] && !Dominates(g, g.blocks[j], g.blocks[i])
  }

  lemma WalkInGraph(g: Graph, w: seq<Block>)
    requires WellFormed(g) && IsWalk(g, w)
    ensures forall i :: 0 <= i < |w| ==> w[i] in g.blocks
  {
    forall i | 0 <= i < |w| ensures w[i] in g.blocks {
      if i > 0 {
        assert Edge(g, w[i - 1], w[i - 1 + 1]);
      }
    }
  }

  lemma Extend(g: Graph, w: seq<Block>, b: Block)
    requires IsWalk(g, w) && Edge(g, Last(w), b)
    ensures Connects(g, w + [b], w[0], b)
  {
    var v := w + [b];
    forall i | 0 <= i < |v| - 1 ensures Edge(g, v[i], v[i + 1]) {
      if i < |w| - 1 {
        assert Edge(g, w[i], w[i + 1]);
      }
    }
  }

  lemma Prefix(g: Graph, w: seq<Block>, n: nat)
    requires IsWalk(g, w) && 0 < n <= |w|
    ensures Connects(g, w[..n], w[0], w[n - 1])
  {
    var v := w[..n];
    forall i | 0 <= i < |v| - 1 ensures Edge(g, v[i], v[i + 1]) {
      assert Edge(g, w[i], w[i + 1]);
    }
  }

  lemma Suffix(g: Graph, w: seq<Block>, n: nat)
    requires WellFormed(g) && IsWalk(g, w) && n < |w|
    ensures Connects(g, w[n..], w[n], Last(w))
  {
    WalkInGraph(g, w);
    var v := w[n..];
    forall i | 0 <= i < |v| - 1 ensures Edge(g, v[i], v[i + 1]) {
      assert Edge(g, w[n + i], w[n + i + 1]);
    }
  }

  /** Joins two walks that share an end point. */
  lemma Join(g: Graph, v: seq<Block>, w: seq<Block>)
    requires IsWalk(g, v) && IsWalk(g, w) && Last(v) == w[0]
    ensures Connects(g, v + w[1..], v[0], Last(w))
  {
    var u := v + w[1..];
    forall i | 0 <= i < |u| - 1 ensures Edge(g, u[i], u[i + 1]) {
      if i < |v| - 1 {
        assert Edge(g, v[i], v[i + 1]);
      } else {
        var j := i - (|v| - 1);
        assert Edge(g, w[j], w[j + 1]);
        assert u[i] == w[j];
      }
    }
  }

  /** Position of the first occurrence. */
  lemma First(w: seq<Block>, b: Block) returns (k: nat)
    requires b in w
    ensures k < |w| && w[k] == b && b !in w[..k]
  {
    k := 0;
    while w[k] != b
      invariant k < |w| && b !in w[..k]
      invariant b in w[k..]
      decreases |w| - k
    {
      k := k + 1;
    }
  }

  /** Position of the last occurrence. */
  lemma LastOf(w: seq<Block>, b: Block) returns (k: nat)
    requires b in w
    ensures k < |w| && w[k] == b && b !in w[k + 1..]
  {
    k := |w| - 1;
    while w[k] != b
      invariant k < |w| && b !in w[k + 1..]
      invariant b in w[..k + 1]
      decreases k
    {
      k := k - 1;
    }
  }

  lemma DominanceTransitive(g: Graph, a: Block, b: Block, c: Block)
    requires Dominates(g, a, b) && Dominates(g, b, c)
    ensures Dominates(g, a, c)
  {
    forall w | Connects(g, w, g.entry, c) ensures a in w {
      var k := First(w, b);
      Prefix(g, w, k + 1);
      assert a in w[..k + 1];
    }
  }

  /** A reachable block has a walk to it that avoids whatever else does not dominate it. */
  lemma DominanceAntisymmetric(g: Graph, a: Block, b: Block)
    requires Dominates(g, a, b) && Dominates(g, b, a) && Reachable(g, b)
    ensures a == b
  {
    if a != b {
      var w :| Connects(g, w, g.entry, b);
      var k := First(w, b);
      Prefix(g, w, k + 1);
      assert a in w[..k + 1];
      var j := First(w[..k + 1], a);
      assert j < k;
      Prefix(g, w, j + 1);
    }
  }

  /** The elements of an unordered set in some arbitrary order, as its iterator delivers them. */
  method Enumerate<T(==)>(s: set<T>) returns (q: seq<T>)
    ensures forall x :: x in q <==> x in s
    ensures forall i, j :: 0 <= i < j < |q| ==> q[i] != q[j]
  {
    q := [];
    var rest := s;
    while rest != {}
      invariant rest <= s
      invariant forall x :: x in s <==> x in q || x in rest
      invariant forall x :: x in q ==> x !in rest
      invariant forall i, j :: 0 <= i < j < |q| ==> q[i] != q[j]
      decreases rest
    {
      var x :| x in rest;
      q, rest := q + [x], rest - {x};
    }
  }
}
