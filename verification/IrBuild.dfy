/**
  The functions that lower statements and conditions, block by block, and keep the
  stored edges in step with the branches and jumps they emit.
 */
module IrBuild {
  import opened Wrappers
  import opened Cfg
  import opened Lowering

  // ----- the function under construction -----

  function Targets(code: seq<Ins>): set<Block> {
    if code == [] then {}
    else
      match code[|code| - 1]
      case Jump(t) => {t}
      case Branch(_, t, e) => {t, e}
      case _ => {}
  }

  ghost predicate Created(f: Func, next: nat) {
    && f.code.Keys == f.preds.Keys == f.succs.Keys
    && (forall b :: b in f.code ==> b.id < next)
    && (forall b :: b in f.blocks ==> b in f.code)
  }

  predicate HasSucc(f: Func, b: Block, c: Block) {
    b in f.succs && c in f.succs[b]
  }

  predicate HasPred(f: Func, b: Block, c: Block) {
    c in f.preds && b in f.preds[c]
  }

  /** Both directions of every edge are stored. */
  ghost predicate Paired(f: Func) {
    forall b, c :: HasSucc(f, b, c) <==> HasPred(f, b, c)
  }

  /** Stored edges are the targets of the last instruction; pending blocks wait for theirs. */
  ghost predicate Stored(f: Func, pending: set<Block>) {
    f.code.Keys == f.succs.Keys && forall b :: b in f.code ==> f.succs[b] == if b in pending then {} else Targets(f.code[b])
  }

  ghost predicate Mirrors(f: Func, pending: set<Block>) {
    Paired(f) && Stored(f, pending)
  }

  /** Instructions may still be appended to b. */
  ghost predicate Open(f: Func, b: Block) {
    b in f.blocks && b in f.code && Targets(f.code[b]) == {}
  }

  /** From f to g, of the blocks of f only b got instructions. */
  ghost predicate Grown(f: Func, g: Func, b: Block) {
    && Extends(f, g)
    && forall c :: c in f.code && c != b ==> c in g.code && g.code[c] == f.code[c]
  }

  /** Predecessors are only added, and only to the blocks in but. */
  ghost predicate PredsKept(f: Func, g: Func, but: set<Block>) {
    forall c :: c in f.preds ==> c in g.preds && f.preds[c] <= g.preds[c] && (c !in but ==> g.preds[c] == f.preds[c])
  }

  function WithBlock(f: Func, b: Block): Func {
    f.(code := f.code[b := []], preds := f.preds[b := {}], succs := f.succs[b := {}])
  }

  function Listed(f: Func, b: Block): Func {
    f.(blocks := f.blocks + [b])
  }

  function Emitted(f: Func, b: Block, ins: Ins): Func
    requires b in f.code
  {
    f.(code := f.code[b := f.code[b] + [ins]])
  }

  /** a -> t is stored on both sides. */
  function Linked(f: Func, a: Block, t: Block): Func
    requires a in f.succs && t in f.preds
  {
    f.(succs := f.succs[a := f.succs[a] + {t}], preds := f.preds[t := f.preds[t] + {a}])
  }

  /** A jump with its edge. */
  function Jumped(f: Func, b: Block, t: Block): Func
    requires b in f.code && b in f.succs && t in f.preds
  {
    Linked(Emitted(f, b, Jump(t)), b, t)
  }

  lemma SamePairs(f: Func, g: Func)
    requires Paired(f)
    requires forall b, c :: (HasSucc(g, b, c) <==> HasSucc(f, b, c)) && (HasPred(g, b, c) <==> HasPred(f, b, c))
    ensures Paired(g)
  {
  }

  lemma NewBlockKeeps(f: Func, next: nat)
    requires Created(f, next) && Mirrors(f, {})
    ensures var g := WithBlock(f, Block(next));
            && Created(g, next + 1) && Mirrors(g, {}) && Grown(f, g, Block(next)) && PredsKept(f, g, {})
            && Block(next) !in f.code && Block(next) in g.code && g.code[Block(next)] == [] && Block(next) in g.preds && g.preds[Block(next)] == {}
  {
    var b := Block(next);
    var g := WithBlock(f, b);
    NewIsNew(f, next);
    NewIsFree(f, b);
    NewPairs(f, b);
    hide Paired, Created, Stored, Grown, PredsKept;
  }

  lemma NewPairs(f: Func, b: Block)
    requires Paired(f) && b !in f.succs && b !in f.preds
    ensures Paired(WithBlock(f, b))
  {
    hide Paired;
    SamePairs(f, WithBlock(f, b));
  }

  lemma NewIsFree(f: Func, b: Block)
    requires Stored(f, {}) && b !in f.code && b !in f.preds
    ensures var g := WithBlock(f, b); Stored(g, {}) && Grown(f, g, b) && PredsKept(f, g, {})
  {
  }

  lemma NewIsNew(f: Func, next: nat)
    requires Created(f, next)
    ensures Block(next) !in f.code && Block(next) !in f.preds && Block(next) !in f.succs && Created(WithBlock(f, Block(next)), next + 1)
  {
    assert Block(next) !in f.code.Keys;
  }

  lemma ListKeeps(f: Func, next: nat, b: Block, pending: set<Block>)
    requires Created(f, next) && Mirrors(f, pending) && b in f.code
    ensures var g := Listed(f, b); Created(g, next) && Mirrors(g, pending) && Extends(f, g) && b in g.blocks
  {
    hide Paired;
    SamePairs(f, Listed(f, b));
  }

  lemma LinkedPaired(f: Func, a: Block, t: Block)
    requires Paired(f) && a in f.succs && t in f.preds
    ensures Paired(Linked(f, a, t))
  {
    var g := Linked(f, a, t);
    forall b, c ensures HasSucc(g, b, c) <==> HasPred(g, b, c) {
      assert HasSucc(f, b, c) <==> HasPred(f, b, c);
    }
  }

  lemma EmitKeeps(f: Func, next: nat, b: Block, ins: Ins)
    requires Created(f, next) && Mirrors(f, {}) && Open(f, b)
    ensures var g := Emitted(f, b, ins);
            && Created(g, next) && Grown(f, g, b) && HasAt(g, b, |f.code[b]|, ins) && Mirrors(g, if Targets([ins]) == {} then {} else {b})
            && PredsKept(f, g, {}) && Targets(g.code[b]) == Targets([ins])
  {
    hide Paired;
    var g := Emitted(f, b, ins);
    assert Targets(g.code[b]) == Targets([ins]);
    SamePairs(f, g);
  }

  /** The two edges of a branch, or the one of a jump, that was just emitted. */
  lemma LinkKeeps(f: Func, next: nat, b: Block, t: Block, e: Block)
    requires Created(f, next) && Mirrors(f, {b}) && b in f.code && b in f.succs && t in f.preds && e in f.preds && Targets(f.code[b]) == {t, e}
    ensures var g := Linked(Linked(f, b, t), b, e);
            Created(g, next) && Mirrors(g, {}) && Extends(f, g) && g.code == f.code && g.blocks == f.blocks && PredsKept(f, g, {t, e}) && g.preds[t] != {}
  {
    hide Paired, Targets, Created, Stored, PredsKept;
    LinkedPaired(f, b, t);
    LinkedPaired(Linked(f, b, t), b, e);
    LinkedStored(f, next, b, t, e);
  }

  lemma LinkedStored(f: Func, next: nat, b: Block, t: Block, e: Block)
    requires Created(f, next) && Stored(f, {b}) && b in f.code && b in f.succs && t in f.preds && e in f.preds && Targets(f.code[b]) == {t, e}
    ensures var g := Linked(Linked(f, b, t), b, e);
            && Created(g, next) && Stored(g, {}) && Extends(f, g) && PredsKept(f, g, {t, e}) && t in g.preds && g.preds[t] != {}
  {
    hide Linked, Targets;
    LinkedOne(f, next, b, t);
    var g := Linked(f, b, t);
    LinkedOne(g, next, b, e);
    assert b in g.preds[t];
    assert f.succs[b] == {} && {} + {t} + {e} == {t, e};
    PredsTwice(f, g, Linked(g, b, e), {t}, {e});
    assert {t} + {e} == {t, e};
  }

  lemma LinkedOne(f: Func, next: nat, a: Block, t: Block)
    requires Created(f, next) && a in f.succs && t in f.preds
    ensures var g := Linked(f, a, t);
            && Created(g, next) && g.code == f.code && g.blocks == f.blocks && PredsKept(f, g, {t})
            && t in g.preds && g.preds[t] == f.preds[t] + {a} && a in g.succs && g.succs == f.succs[a := f.succs[a] + {t}]
  {
  }

  lemma JumpKeeps(f: Func, next: nat, b: Block, t: Block)
    requires Created(f, next) && Mirrors(f, {}) && Open(f, b) && t in f.preds && b in f.succs
    ensures b in f.code
    ensures var g := Jumped(f, b, t);
            Created(g, next) && Mirrors(g, {}) && Grown(f, g, b) && HasAt(g, b, |f.code[b]|, Jump(t)) && PredsKept(f, g, {t}) && t in g.preds && g.preds[t] != {}
  {
    OpenParts(f, b);
    EmitKeeps(f, next, b, Jump(t));
    JumpTargets(t);
    hide Mirrors, Created, Open, Grown, PredsKept, Targets, Extends;
    var e := Emitted(f, b, Jump(t));
    LinkKeeps(e, next, b, t, t);
    LinkAgain(e, b, t);
    var g := Linked(e, b, t);
    SameCodeGrown(f, e, g, b);
    PredsTwice(f, e, g, {}, {t});
    assert {} + {t} == {t};
  }

  lemma JumpTargets(t: Block)
    ensures Targets([Jump(t)]) == {t, t} && {t, t} == {t}
  {
  }

  lemma SameCodeGrown(f: Func, g: Func, h: Func, b: Block)
    requires Grown(f, g, b) && h.code == g.code && h.blocks == g.blocks
    ensures Grown(f, h, b)
  {
  }

  lemma LinkAgain(f: Func, b: Block, t: Block)
    requires b in f.succs && t in f.preds
    ensures Linked(Linked(f, b, t), b, t) == Linked(f, b, t)
  {
    var g := Linked(f, b, t);
    assert g.succs[b] + {t} == g.succs[b] && g.preds[t] + {b} == g.preds[t];
    assert g.succs[b := g.succs[b]] == g.succs && g.preds[t := g.preds[t]] == g.preds;
  }

  lemma OpenParts(f: Func, b: Block)
    requires Open(f, b)
    ensures b in f.blocks && b in f.code && Targets(f.code[b]) == {}
  {
  }

  lemma ExtendsTwice(f: Func, g: Func, h: Func)
    requires Extends(f, g) && Extends(g, h)
    ensures Extends(f, h)
  {
    forall b | b in f.code ensures b in h.code && f.code[b] <= h.code[b] {
      Prefixes(f.code[b], g.code[b], h.code[b]);
    }
  }

  lemma Prefixes(a: seq<Ins>, b: seq<Ins>, c: seq<Ins>)
    requires a <= b && b <= c
    ensures a <= c
  {
  }

  /** Growing twice, the second time in a block that f did not have or in the same one. */
  lemma GrownTwice(f: Func, g: Func, h: Func, b: Block, c: Block)
    requires Grown(f, g, b) && Grown(g, h, c) && (c == b || c !in f.code)
    ensures Grown(f, h, b)
  {
    ExtendsTwice(f, g, h);
  }

  lemma PredsTwice(f: Func, g: Func, h: Func, but: set<Block>, more: set<Block>)
    requires PredsKept(f, g, but) && PredsKept(g, h, more)
    ensures PredsKept(f, h, but + more)
  {
  }

  ghost predicate Good(f: Func, next: nat) {
    Created(f, next) && Mirrors(f, {})
  }

  // ----- the order of the list -----

  /** Some block listed before number i leads to it. */
  ghost predicate LedTo(f: Func, i: nat)
    requires i < |f.blocks|
  {
    exists j :: 0 <= j < i && HasPred(f, f.blocks[j], f.blocks[i])
  }

  /** No block is listed twice, each but the first is led to from further up, and edges start in listed blocks. */
  ghost predicate InOrder(f: Func) {
    && (forall i, j :: 0 <= i < j < |f.blocks| ==> f.blocks[i] != f.blocks[j])
    && (forall i :: 0 < i < |f.blocks| ==> LedTo(f, i))
    && (forall b, c :: HasPred(f, b, c) ==> b in f.blocks)
  }

  ghost predicate Unlisted(f: Func, m: Block) {
    m in f.code && m !in f.blocks
  }

  /** Blocks of f that are not listed are not listed in g either, and what f lists stays in front. */
  ghost predicate ListKept(f: Func, g: Func) {
    f.blocks <= g.blocks && forall m :: Unlisted(f, m) ==> Unlisted(g, m)
  }

  /** Since f, blocks got listed in order; a new block that something leads to is listed, or waits in open. */
  ghost predicate Lists(f: Func, g: Func, open: set<Block>) {
    && InOrder(g) && ListKept(f, g)
    && forall c :: c in g.preds && c !in f.preds && g.preds[c] != {} ==> c in g.blocks || c in open
  }

  lemma ListsItself(f: Func)
    requires InOrder(f)
    ensures Lists(f, f, {})
  {
  }

  lemma ListsParts(f: Func, g: Func, open: set<Block>)
    requires Lists(f, g, open)
    ensures InOrder(g) && ListKept(f, g)
  {
  }

  lemma ListKeptTwice(f: Func, g: Func, h: Func)
    requires ListKept(f, g) && ListKept(g, h)
    ensures ListKept(f, h)
  {
    hide Unlisted;
  }

  lemma StaysUnlisted(f: Func, g: Func, m: Block)
    requires ListKept(f, g) && Unlisted(f, m)
    ensures Unlisted(g, m)
  {
  }

  lemma StaysListed(f: Func, g: Func, m: Block)
    requires ListKept(f, g) && m in f.blocks
    ensures m in g.blocks
  {
  }

  /** One stretch after another: whatever gained a predecessor in the second one may wait. */
  lemma ListsTwice(f: Func, g: Func, h: Func, open: set<Block>, but: set<Block>)
    requires Lists(f, g, open) && Lists(g, h, {}) && PredsKept(g, h, but)
    ensures Lists(f, h, open + but)
  {
    hide InOrder, Unlisted;
    ListKeptTwice(f, g, h);
  }

  /** Only blocks that are new, not listed and led to have to wait. */
  lemma NoLongerOpen(f: Func, g: Func, open: set<Block>, rest: set<Block>)
    requires Lists(f, g, open)
    requires forall c :: c in open && c !in rest ==> c in g.blocks || c in f.preds || c !in g.preds || g.preds[c] == {}
    ensures Lists(f, g, rest)
  {
    hide InOrder, ListKept;
  }

  lemma NewInOrder(f: Func, m: Block)
    requires InOrder(f) && m !in f.code && m !in f.preds && m !in f.blocks
    ensures Lists(f, WithBlock(f, m), {}) && Unlisted(WithBlock(f, m), m)
  {
    hide Unlisted;
    var g := WithBlock(f, m);
    SameOrder(f, g);
    forall x | Unlisted(f, x) ensures Unlisted(g, x) {
      UnlistedIff(f, x);
      UnlistedIff(g, x);
    }
    UnlistedIff(g, m);
  }

  lemma UnlistedIff(f: Func, m: Block)
    ensures Unlisted(f, m) <==> m in f.code && m !in f.blocks
  {
  }

  lemma SameOrder(f: Func, g: Func)
    requires InOrder(f) && g.blocks == f.blocks && forall b, c :: HasPred(g, b, c) <==> HasPred(f, b, c)
    ensures InOrder(g)
  {
    hide HasPred;
    forall i | 0 < i < |g.blocks| ensures LedTo(g, i) {
      assert LedTo(f, i);
      var j :| 0 <= j < i && HasPred(f, f.blocks[j], f.blocks[i]);
      assert HasPred(g, g.blocks[j], g.blocks[i]);
    }
  }

  lemma EmittedInOrder(f0: Func, f: Func, open: set<Block>, b: Block, ins: Ins)
    requires Lists(f0, f, open) && b in f.code
    ensures Lists(f0, Emitted(f, b, ins), open)
  {
    var g := Emitted(f, b, ins);
    SameOrder(f, g);
    hide InOrder;
    ListKeptTwice(f0, f, g);
  }

  /** Linking from a listed block keeps the order; the target may have to wait. */
  lemma LinkedInOrder(f0: Func, f: Func, open: set<Block>, a: Block, t: Block)
    requires Lists(f0, f, open) && a in f.blocks && a in f.succs && t in f.preds && (t in open || t in f0.preds)
    ensures Lists(f0, Linked(f, a, t), open)
  {
    var g := Linked(f, a, t);
    forall b, c ensures HasPred(g, b, c) <==> HasPred(f, b, c) || (b == a && c == t) {
    }
    MoreEdges(f, g, a, t);
    hide InOrder, Unlisted, HasPred;
    assert ListKept(f, g) by {
      forall m | Unlisted(f, m) ensures Unlisted(g, m) {
        UnlistedIff(f, m);
        UnlistedIff(g, m);
      }
    }
    ListKeptTwice(f0, f, g);
  }

  lemma MoreEdges(f: Func, g: Func, a: Block, t: Block)
    requires InOrder(f) && g.blocks == f.blocks && a in f.blocks
    requires forall b, c :: HasPred(g, b, c) <==> HasPred(f, b, c) || (b == a && c == t)
    ensures InOrder(g)
  {
    hide HasPred;
    forall i | 0 < i < |g.blocks| ensures LedTo(g, i) {
      assert LedTo(f, i);
      var j :| 0 <= j < i && HasPred(f, f.blocks[j], f.blocks[i]);
      assert HasPred(g, g.blocks[j], g.blocks[i]);
    }
  }

  /** Listing a new block something leads to. */
  lemma ListedInOrder(f0: Func, f: Func, open: set<Block>, m: Block)
    requires Lists(f0, f, open) && m !in f0.code && Unlisted(f, m) && m in f.preds && f.preds[m] != {}
    ensures Lists(f0, Listed(f, m), open)
  {
    var g := Listed(f, m);
    var p :| p in f.preds[m];
    assert HasPred(f, p, m);
    forall b, c ensures HasPred(g, b, c) <==> HasPred(f, b, c) {
    }
    hide HasPred;
    var n := |f.blocks|;
    forall i | 0 < i < |g.blocks| ensures LedTo(g, i) {
      if i < n {
        assert LedTo(f, i);
        var j :| 0 <= j < i && HasPred(f, f.blocks[j], f.blocks[i]);
        assert HasPred(g, g.blocks[j], g.blocks[i]);
      } else {
        var j :| 0 <= j < n && f.blocks[j] == p;
        assert HasPred(g, g.blocks[j], g.blocks[i]);
      }
    }
    forall x | Unlisted(f0, x) ensures Unlisted(g, x) {
      assert Unlisted(f, x) && x in f0.code;
    }
  }

  /** After a condition: both edges of its last branch, and the block m that one of them leads to. */
  lemma JoinedInOrder(f0: Func, f: Func, open: set<Block>, last: Block, t: Block, e: Block, m: Block)
    requires Lists(f0, f, open) && last in f.blocks && last in f.succs && t in f.preds && e in f.preds && (m == t || m == e)
    requires (t in open || t in f0.preds) && (e in open || e in f0.preds) && m !in f0.code && Unlisted(f, m)
    ensures Lists(f0, Joined(f, last, t, e, m), open)
    ensures forall x :: Unlisted(f, x) && x != m ==> Unlisted(Joined(f, last, t, e, m), x)
    ensures m in Joined(f, last, t, e, m).blocks && e in Joined(f, last, t, e, m).preds && Joined(f, last, t, e, m).preds[e] != {}
  {
    hide Lists;
    LinkedInOrder(f0, f, open, last, t);
    var g := Linked(f, last, t);
    LinkedInOrder(f0, g, open, last, e);
    var h := Linked(g, last, e);
    assert last in h.preds[t] && last in h.preds[e];
    ListedInOrder(f0, h, open, m);
  }

  // ----- conditions -----

  /** The condition is lowered from bb on; its last branch stands in last, whose edges are not stored yet. */
  ghost predicate CondDone(f: Func, g: Func, next: nat, c: Cond, bb: Block, last: Block, t: Block, e: Block) {
    && Created(g, next) && Mirrors(g, {last}) && Grown(f, g, bb) && PredsKept(f, g, {t, e})
    && bb in f.code && CondIn(g, c, bb, |f.code[bb]|, t, e)
    && last in g.blocks && last in g.code && Targets(g.code[last]) == {t, e} && (last == bb || last !in f.code)
  }

  lemma TestDone(f: Func, next: nat, x: nat, bb: Block, t: Block, e: Block)
    requires Good(f, next) && Open(f, bb)
    ensures CondDone(f, Emitted(f, bb, Branch(x, t, e)), next, Test(x), bb, bb, t, e)
  {
    EmitKeeps(f, next, bb, Branch(x, t, e));
  }

  /** After a condition that leads to m: its edges stored, and m listed. */
  function Joined(f: Func, last: Block, t: Block, e: Block, m: Block): Func
    requires last in f.succs && t in f.preds && e in f.preds
  {
    Listed(Linked(Linked(f, last, t), last, e), m)
  }

  lemma KeysGrow(f: Func, g: Func, next: nat, b: Block)
    requires Created(g, next) && Grown(f, g, b) && f.code.Keys == f.preds.Keys == f.succs.Keys
    ensures forall c :: c in f.preds ==> c in g.preds && c in g.code && c in g.succs
  {
    assert forall c :: c in f.preds.Keys ==> c in f.code;
    assert forall c :: c in g.code.Keys ==> c in g.preds && c in g.succs;
  }

  /** The block m, where the second part of a condition goes, is ready for it. */
  lemma HalfWay(f: Func, g: Func, next: nat, c: Cond, bb: Block, last: Block, t: Block, e: Block, m: Block)
    requires CondDone(f, g, next, c, bb, last, t, e) && f.code.Keys == f.preds.Keys == f.succs.Keys
    requires t in f.preds && e in f.preds && m in f.preds && m != bb && f.code[m] == []
    ensures last in g.succs && t in g.preds && e in g.preds && m in g.code
    ensures var h := Joined(g, last, t, e, m);
            Good(h, next) && Open(h, m) && Extends(g, h) && h.code == g.code && PredsKept(g, h, {t, e}) && h.preds[t] != {} && forall c :: c in f.preds ==> c in h.preds
  {
    KeysGrow(f, g, next, bb);
    hide Created, Mirrors, Extends, PredsKept, CondIn;
    GrownKeeps(f, g, bb, m);
    LinkKeeps(g, next, last, t, e);
    var l := Linked(Linked(g, last, t), last, e);
    ListKeeps(l, next, m, {});
    ExtendsTwice(g, l, Listed(l, m));
    SamePredsKept(g, l, Listed(l, m), {t, e});
  }

  lemma GrownKeeps(f: Func, g: Func, b: Block, m: Block)
    requires Grown(f, g, b) && m in f.code && m != b
    ensures m in g.code && g.code[m] == f.code[m]
  {
  }

  lemma SamePredsKept(f: Func, g: Func, h: Func, but: set<Block>)
    requires PredsKept(f, g, but) && h.preds == g.preds
    ensures PredsKept(f, h, but)
  {
  }

  /** Left part from bb to t or e, then the right part from m. */
  lemma BothDone(f0: Func, f1: Func, f2: Func, f3: Func, f4: Func, next: nat, n2: nat, l: Cond, r: Cond, bb: Block, m: Block,
                 last: Block, last': Block, t: Block, e: Block, isOr: bool)
    requires bb in f0.code && bb != m && m !in f0.code && Grown(f0, f1, m) && PredsKept(f0, f1, {}) && bb in f1.code && f1.code[bb] == f0.code[bb]
    requires CondDone(f1, f2, n2, l, bb, last, if isOr then t else m, if isOr then m else e)
    requires Extends(f2, f3) && f3.code == f2.code && PredsKept(f2, f3, if isOr then {t, m} else {m, e})
    requires CondDone(f3, f4, next, r, m, last', t, e) && m in f1.code && f1.code[m] == []
    requires forall b :: b in f0.preds ==> b in f0.code
    ensures CondDone(f0, f4, next, if isOr then Or(l, r) else And(l, r), bb, last', t, e)
  {
    hide Created, Mirrors, Extends, PredsKept, CondIn;
    GrownKeeps(f1, f2, bb, m);
    BothGrown(f0, f1, f2, f3, f4, bb, m);
    BothPreds(f0, f1, f2, f3, f4, m, t, e, isOr);
    BothCond(f1, f2, f3, f4, l, r, bb, m, t, e, isOr);
    LastIsNew(f0, f1, f2, f3, last', bb, m);
  }

  lemma LastIsNew(f0: Func, f1: Func, f2: Func, f3: Func, last: Block, bb: Block, m: Block)
    requires Extends(f0, f1) && Extends(f1, f2) && f3.code == f2.code && m !in f0.code && (last == m || last !in f3.code)
    ensures last !in f0.code
  {
  }

  lemma BothGrown(f0: Func, f1: Func, f2: Func, f3: Func, f4: Func, bb: Block, m: Block)
    requires Grown(f0, f1, m) && Grown(f1, f2, bb) && Extends(f2, f3) && f3.code == f2.code && Grown(f3, f4, m) && m !in f0.code && bb in f1.code
    requires bb in f0.code && f1.code[bb] == f0.code[bb]
    ensures Grown(f0, f4, bb) && Extends(f3, f4) && Extends(f2, f4)
  {
    ExtendsTwice(f0, f1, f2);
    ExtendsTwice(f0, f2, f3);
    ExtendsTwice(f0, f3, f4);
    ExtendsTwice(f2, f3, f4);
  }

  lemma BothPreds(f0: Func, f1: Func, f2: Func, f3: Func, f4: Func, m: Block, t: Block, e: Block, isOr: bool)
    requires PredsKept(f0, f1, {}) && PredsKept(f1, f2, if isOr then {t, m} else {m, e}) && PredsKept(f2, f3, if isOr then {t, m} else {m, e})
    requires PredsKept(f3, f4, {t, e}) && m !in f0.code && forall b :: b in f0.preds ==> b in f0.code
    ensures PredsKept(f0, f4, {t, e})
  {
  }

  lemma BothCond(f1: Func, f2: Func, f3: Func, f4: Func, l: Cond, r: Cond, bb: Block, m: Block, t: Block, e: Block, isOr: bool)
    requires bb in f1.code && CondIn(f2, l, bb, |f1.code[bb]|, if isOr then t else m, if isOr then m else e) && Extends(f2, f4)
    requires m in f3.code && f3.code[m] == [] && CondIn(f4, r, m, |f3.code[m]|, t, e)
    ensures CondIn(f4, if isOr then Or(l, r) else And(l, r), bb, |f1.code[bb]|, t, e)
  {
    CondStays(f2, f4, l, bb, |f1.code[bb]|, if isOr then t else m, if isOr then m else e);
    if isOr {
      assert CondIn(f4, l, bb, |f1.code[bb]|, t, m) && CondIn(f4, r, m, 0, t, e);
    } else {
      assert CondIn(f4, l, bb, |f1.code[bb]|, m, e) && CondIn(f4, r, m, 0, t, e);
    }
  }

  // ----- statements -----

  /** While nothing led to the judge block before, something does now exactly if continues holds. */
  ghost predicate JudgeReached(f: Func, g: Func, judge: Block, continues: bool) {
    judge in f.preds && f.preds[judge] == {} ==> judge in g.preds && (g.preds[judge] != {} <==> continues)
  }

  /** Who may get predecessors: the loop's own blocks, and d. */
  function Outside(loop: Loop, inLoop: bool): set<Block> {
    if inLoop then {loop.judge, loop.end} else {}
  }

  /** The statement is lowered from bb on, and leaves at the end of last unless it jumps. */
  ghost predicate StmtDone(f: Func, g: Func, next: nat, s: Stmt, bb: Block, last: Block, loop: Loop, inLoop: bool) {
    && Good(g, next) && Grown(f, g, bb) && PredsKept(f, g, Outside(loop, inLoop))
    && bb in f.code && last in g.code && StmtIn(g, s, bb, |f.code[bb]|, last, |g.code[last]|, loop)
    && (!Jumps(s) ==> Open(g, last) && (last == bb || last !in f.code))
    && (inLoop ==> JudgeReached(f, g, loop.judge, Continues(s)))
  }

  /** A branch is lowered from t on, and goes on to d unless it jumps. */
  ghost predicate BranchDone(f: Func, g: Func, next: nat, whole: Stmt, s: Stmt, t: Block, d: Block, loop: Loop, inLoop: bool)
    requires s < whole
  {
    && Good(g, next) && Grown(f, g, t) && PredsKept(f, g, Outside(loop, inLoop) + {d})
    && BranchIn(g, whole, s, t, d, loop)
    && (inLoop ==> JudgeReached(f, g, loop.judge, Continues(s) || (d == loop.judge && !Jumps(s))))
  }

  lemma GoodParts(f: Func, next: nat)
    requires Good(f, next)
    ensures Created(f, next) && Mirrors(f, {})
  {
  }

  lemma GoodFrom(f: Func, next: nat)
    requires Created(f, next) && Mirrors(f, {})
    ensures Good(f, next)
  {
  }

  /** Where a statement left off, a jump to d can be emitted. */
  lemma LastIsOpen(f: Func, g: Func, next: nat, s: Stmt, t: Block, last: Block, loop: Loop, inLoop: bool, d: Block)
    requires StmtDone(f, g, next, s, t, last, loop, inLoop) && !Jumps(s) && d in f.code
    ensures Open(g, last) && last in g.succs && last in g.code && d in g.preds && d in g.code
  {
    hide StmtIn;
    GoodKeys(g, next);
  }

  lemma BranchJumps(f: Func, g: Func, next: nat, whole: Stmt, s: Stmt, t: Block, d: Block, last: Block, loop: Loop, inLoop: bool)
    requires s < whole && StmtDone(f, g, next, s, t, last, loop, inLoop) && Jumps(s) && f.code[t] == []
    ensures BranchDone(f, g, next, whole, s, t, d, loop, inLoop)
  {
    hide Good, Grown, Jumps, Continues;
    assert StmtIn(g, s, t, 0, last, |g.code[last]|, loop);
    assert BranchIn(g, whole, s, t, d, loop);
  }

  lemma BranchGoesOn(f: Func, g: Func, n: nat, h: Func, next: nat, whole: Stmt, s: Stmt, t: Block, d: Block, last: Block, loop: Loop, inLoop: bool)
    requires s < whole && StmtDone(f, g, n, s, t, last, loop, inLoop) && !Jumps(s) && f.code[t] == []
    requires Good(h, next) && Grown(g, h, last) && HasAt(h, last, |g.code[last]|, Jump(d)) && PredsKept(g, h, {d}) && d in h.preds && h.preds[d] != {}
    ensures BranchDone(f, h, next, whole, s, t, d, loop, inLoop)
  {
    hide *;
    StmtParts(f, g, n, s, t, last, loop, inLoop);
    GrownTwice(f, g, h, t, last);
    PredsTwice(f, g, h, Outside(loop, inLoop), {d});
    GrownExtends(g, h, last);
    StmtStays(g, h, s, t, 0, last, |g.code[last]|, loop);
    BranchThrough(h, whole, s, t, d, last, |g.code[last]|, loop);
    if inLoop {
      if d != loop.judge {
        JudgeKept(f, g, h, loop.judge, {d}, Continues(s));
      } else {
        JudgeJumped(f, g, h, loop.judge, Continues(s));
      }
    }
    BranchDoneFrom(f, h, next, whole, s, t, d, loop, inLoop);
  }

  lemma StmtParts(f: Func, g: Func, n: nat, s: Stmt, t: Block, last: Block, loop: Loop, inLoop: bool)
    requires StmtDone(f, g, n, s, t, last, loop, inLoop)
    ensures Grown(f, g, t) && PredsKept(f, g, Outside(loop, inLoop)) && t in f.code && last in g.code
    ensures StmtIn(g, s, t, |f.code[t]|, last, |g.code[last]|, loop)
    ensures !Jumps(s) ==> last == t || last !in f.code
    ensures inLoop ==> JudgeReached(f, g, loop.judge, Continues(s))
  {
  }

  lemma GrownExtends(f: Func, g: Func, b: Block)
    requires Grown(f, g, b)
    ensures Extends(f, g)
  {
  }

  lemma JudgeJumped(f: Func, g: Func, h: Func, judge: Block, continues: bool)
    requires JudgeReached(f, g, judge, continues) && judge in h.preds && h.preds[judge] != {}
    ensures JudgeReached(f, h, judge, true)
  {
  }

  lemma BranchDoneFrom(f: Func, h: Func, next: nat, whole: Stmt, s: Stmt, t: Block, d: Block, loop: Loop, inLoop: bool)
    requires s < whole && Good(h, next) && Grown(f, h, t) && PredsKept(f, h, Outside(loop, inLoop) + {d}) && BranchIn(h, whole, s, t, d, loop) && !Jumps(s)
    requires inLoop ==> JudgeReached(f, h, loop.judge, if d == loop.judge then true else Continues(s))
    ensures BranchDone(f, h, next, whole, s, t, d, loop, inLoop)
  {
    hide Good, Grown, PredsKept, BranchIn, Jumps, Continues;
  }

  lemma BranchThrough(h: Func, whole: Stmt, s: Stmt, t: Block, d: Block, last: Block, k: nat, loop: Loop)
    requires s < whole && StmtIn(h, s, t, 0, last, k, loop) && HasAt(h, last, k, Jump(d))
    ensures BranchIn(h, whole, s, t, d, loop)
  {
  }

  lemma JudgeKept(f: Func, g: Func, h: Func, judge: Block, but: set<Block>, continues: bool)
    requires JudgeReached(f, g, judge, continues) && PredsKept(g, h, but) && judge !in but
    ensures JudgeReached(f, h, judge, continues)
  {
  }

  class FunctionBuilder {
    var f: Func
    var next: nat

    constructor ()
      ensures f == Func([], map[], map[], map[]) && next == 0 && Good(f, next)
    {
      f, next := Func([], map[], map[], map[]), 0;
    }

    /**
      A whole function body.  For any meaning of its actions and tests, the blocks
      return exactly when the body does, with the same value and the same store.
     */
    method FunctionToIr(body: Stmt) returns (entry: Block)
      requires body.Scope? && WellNested(body, false) && f == Func([], map[], map[], map[]) && Good(f, next)
      modifies this
      ensures Mirrors(f, {}) && f.blocks != [] && f.blocks[0] == entry
      ensures forall sem, st, v, end :: ReturnsAlike(f, sem, body, entry, st, v, end)
      ensures var g := GraphOf(f, entry);
              WellFormed(g) && g.preds[entry] == {} && DominatorsFirst(g) && forall b :: b in g.blocks ==> Reachable(g, b)
    {
      hide *;
      entry := NewBlock();
      EntryReady(f, next, entry);
      EntryInOrder(f, entry);
      f := Listed(f, entry);
      ghost var f0 := f;
      var loop := Loop(entry, entry);
      var last, jumped := BlockToIr(body, entry, loop, false);
      FunctionDone(f0, f, next, body, entry, last, loop);
      StmtIsGood(f0, f, next, body, entry, last, loop, false);
      StmtParts(f0, f, next, body, entry, last, loop, false);
      GraphMade(f0, f, next, entry);
    }

    /** A block without instructions and edges, not listed yet. */
    method NewBlock() returns (b: Block)
      requires Good(f, next)
      modifies this
      ensures b == Block(old(next)) && f == WithBlock(old(f), b) && next == old(next) + 1
      ensures Good(f, next) && Grown(old(f), f, b) && PredsKept(old(f), f, {}) && b !in old(f).code
      ensures InOrder(old(f)) ==> Lists(old(f), f, {}) && InOrder(f) && Unlisted(f, b)
    {
      hide InOrder, Lists, Unlisted, LedTo;
      NewBlockKeeps(f, next);
      FreshIsUnlisted(f, next);
      if InOrder(f) {
        NewInOrder(f, Block(next));
        ListsParts(f, WithBlock(f, Block(next)), {});
      }
      b := Block(next);
      f, next := WithBlock(f, b), next + 1;
    }

    method ConditionToIr(c: Cond, bb: Block, t: Block, e: Block) returns (last: Block)
      requires Good(f, next) && Open(f, bb) && t in f.preds && e in f.preds && InOrder(f)
      modifies this
      ensures CondDone(old(f), f, next, c, bb, last, t, e) && Lists(old(f), f, {})
      decreases c
    {
      hide *;
      OpenParts(f, bb);
      GoodKeys(f, next);
      match c
      case Test(x) =>
        TestDone(f, next, x, bb, t, e);
        ListsItself(f);
        EmittedInOrder(f, f, {}, bb, Branch(x, t, e));
        f := Emitted(f, bb, Branch(x, t, e));
        last := bb;
      case Or(l, r) =>
        var m := NewBlock();
        ghost var f1 := f;
        NewReady(old(f), f1, next, bb, m, t, e);
        last := ConditionToIr(l, bb, t, m);
        ghost var f2, n2 := f, next;
        HalfWay(f1, f2, n2, l, bb, last, t, m, m);
        CondListed(old(f), f1, f2, n2, {}, l, bb, last, t, m, m);
        f := Joined(f, last, t, m, m);
        ghost var f3, last1 := f, last;
        last := ConditionToIr(r, m, t, e);
        BothDone(old(f), f1, f2, f3, f, next, n2, l, r, bb, m, last1, last, t, e, true);
        RightListed(old(f), f3, f, next, r, {} + {t, m}, m, last, t, e);
      case And(l, r) =>
        var m := NewBlock();
        ghost var f1 := f;
        NewReady(old(f), f1, next, bb, m, t, e);
        last := ConditionToIr(l, bb, m, e);
        ghost var f2, n2 := f, next;
        HalfWay(f1, f2, n2, l, bb, last, m, e, m);
        CondListed(old(f), f1, f2, n2, {}, l, bb, last, m, e, m);
        f := Joined(f, last, m, e, m);
        ghost var f3, last1 := f, last;
        last := ConditionToIr(r, m, t, e);
        BothDone(old(f), f1, f2, f3, f, next, n2, l, r, bb, m, last1, last, t, e, false);
        RightListed(old(f), f3, f, next, r, {} + {m, e}, m, last, t, e);
    }

    /** A branch starts in t and goes on to d when control does not leave it. */
    method BranchToIr(s: Stmt, ghost whole: Stmt, t: Block, d: Block, loop: Loop, ghost inLoop: bool) returns (jumped: bool)
      requires s < whole && Good(f, next) && Open(f, t) && f.code[t] == [] && d in f.code && WellNested(s, inLoop) && InOrder(f)
      requires inLoop ==> loop.judge in f.code && loop.end in f.code && loop.judge != loop.end
      modifies this
      ensures BranchDone(old(f), f, next, whole, s, t, d, loop, inLoop) && jumped == Jumps(s) && Lists(old(f), f, {})
      ensures if jumped then PredsKept(old(f), f, Outside(loop, inLoop)) else d in f.preds && f.preds[d] != {}
      decreases s, 1
    {
      hide *;
      ghost var oldNext := next;
      OpenParts(f, t);
      var last;
      last, jumped := StmtToIr(s, t, loop, inLoop);
      if jumped {
        BranchJumps(old(f), f, next, whole, s, t, d, last, loop, inLoop);
        StmtParts(old(f), f, next, s, t, last, loop, inLoop);
      } else {
        ghost var f1 := f;
        LastIsOpen(old(f), f, next, s, t, last, loop, inLoop, d);
        StmtIsGood(old(f), f, next, s, t, last, loop, inLoop);
        JumpKeeps(f, next, last, d);
        GoodKeys(old(f), oldNext);
        JumpedInOrder(old(f), f, last, d);
        f := Jumped(f, last, d);
        GoodFrom(f, next);
        BranchGoesOn(old(f), f1, next, f, next, whole, s, t, d, last, loop, inLoop);
      }
    }

    method StmtToIr(s: Stmt, bb: Block, loop: Loop, ghost inLoop: bool) returns (last: Block, jumped: bool)
      requires Good(f, next) && Open(f, bb) && WellNested(s, inLoop) && InOrder(f)
      requires inLoop ==> loop.judge in f.code && loop.end in f.code && loop.judge != loop.end
      modifies this
      ensures StmtDone(old(f), f, next, s, bb, last, loop, inLoop) && jumped == Jumps(s) && Lists(old(f), f, {})
      decreases s, 0
    {
      hide *;
      OpenParts(f, bb);
      GoodParts(f, next);
      GoodKeys(f, next);
      ListsItself(f);
      match s
      case Empty =>
        last, jumped := bb, false;
        EmptyDone(f, next, bb, loop, inLoop);
      case Act(a) =>
        EmitDone(f, next, Do(a), s, bb, loop, inLoop);
        EmittedInOrder(f, f, {}, bb, Do(a));
        f := Emitted(f, bb, Do(a));
        last, jumped := bb, false;
      case Return(v) =>
        EmitDone(f, next, Ret(v), s, bb, loop, inLoop);
        EmittedInOrder(f, f, {}, bb, Ret(v));
        f := Emitted(f, bb, Ret(v));
        last, jumped := bb, true;
      case Break =>
        LeavesLoop(s, inLoop);
        LeaveDone(f, next, loop.end, s, bb, loop, inLoop);
        JumpedInOrder(f, f, bb, loop.end);
        f := Jumped(f, bb, loop.end);
        last, jumped := bb, true;
      case Continue =>
        LeavesLoop(s, inLoop);
        LeaveDone(f, next, loop.judge, s, bb, loop, inLoop);
        JumpedInOrder(f, f, bb, loop.judge);
        f := Jumped(f, bb, loop.judge);
        last, jumped := bb, true;
      case Scope(items) =>
        last, jumped := BlockToIr(s, bb, loop, inLoop);
      case If(_, _) => last, jumped := IfToIr(s, bb, loop, inLoop);
      case IfElse(_, _, _) => last, jumped := IfElseToIr(s, bb, loop, inLoop);
      case While(_, _) => last, jumped := WhileToIr(s, bb, loop, inLoop);
    }

    method IfToIr(s: Stmt, bb: Block, loop: Loop, ghost inLoop: bool) returns (last: Block, jumped: bool)
      requires s.If? && Good(f, next) && Open(f, bb) && WellNested(s, inLoop) && InOrder(f)
      requires inLoop ==> loop.judge in f.code && loop.end in f.code && loop.judge != loop.end
      modifies this
      ensures StmtDone(old(f), f, next, s, bb, last, loop, inLoop) && jumped == Jumps(s) && Lists(old(f), f, {})
      decreases s, 0, 0
    {
      hide *;
      OpenParts(f, bb);
      var c, taken := s.cond, s.taken;
      ghost var made0: set<Block> := {};
      PreparedStart(f, next, bb);
      var endIf := NewBlock();
      ghost var p1 := f;
      ghost var made1 := made0 + {endIf};
      PreparedNext(old(f), old(f), f, next, bb, made0, endIf);
      var ifStmt := NewBlock();
      PreparedNext(old(f), p1, f, next, bb, made1, ifStmt);
      AnotherNew(old(f), p1, f, made1, ifStmt);
      ghost var f1, made := f, made1 + {ifStmt};
      PreparedFor(old(f), f1, next, bb, made, ifStmt, endIf);
      var b := ConditionToIr(c, bb, ifStmt, endIf);
      ghost var f2, n2 := f, next;
      HalfWay(f1, f2, n2, c, bb, b, ifStmt, endIf, ifStmt);
      PreparedMade(old(f), f1, bb, made);
      CondListed(old(f), f1, f2, n2, {}, c, bb, b, ifStmt, endIf, ifStmt);
      f := Joined(f, b, ifStmt, endIf, ifStmt);
      ghost var f3, open := f, {} + {ifStmt, endIf};
      AfterCond(old(f), f1, f2, f3, n2, c, bb, made, b, ifStmt, endIf, loop);
      NestedIn(s, inLoop);
      var ifAfterJump := BranchToIr(taken, s, ifStmt, endIf, loop, inLoop);
      ghost var f4 := f;
      AfterBranch(old(f), f3, f4, next, s, taken, bb, ifStmt, endIf, loop, inLoop, {}, false);
      BranchKeepsEmpty(f3, f4, next, s, taken, ifStmt, endIf, loop, inLoop, endIf);
      ListIt(old(f), f, next, bb, endIf, loop, inLoop, Continues(taken));
      BranchListed(old(f), f3, f4, open, next, s, taken, ifStmt, endIf, loop, inLoop);
      MadeListed(old(f), f4, open + Outside(loop, inLoop) + {endIf}, endIf);
      f := Listed(f, endIf);
      StmtListed(old(f), f, open + Outside(loop, inLoop) + {endIf}, loop, inLoop);
      IfDone(old(f), f3, f4, f, next, s, bb, ifStmt, endIf, loop, inLoop);
      last, jumped := endIf, false;
    }

    method IfElseToIr(s: Stmt, bb: Block, loop: Loop, ghost inLoop: bool) returns (last: Block, jumped: bool)
      requires s.IfElse? && Good(f, next) && Open(f, bb) && WellNested(s, inLoop) && InOrder(f)
      requires inLoop ==> loop.judge in f.code && loop.end in f.code && loop.judge != loop.end
      modifies this
      ensures StmtDone(old(f), f, next, s, bb, last, loop, inLoop) && jumped == Jumps(s) && Lists(old(f), f, {})
      decreases s, 0, 0
    {
      hide *;
      OpenParts(f, bb);
      var c, taken, otherwise := s.cond, s.taken, s.otherwise;
      ghost var made0: set<Block> := {};
      PreparedStart(f, next, bb);
      var endIf := NewBlock();
      ghost var p1 := f;
      ghost var made1 := made0 + {endIf};
      PreparedNext(old(f), old(f), f, next, bb, made0, endIf);
      var ifStmt := NewBlock();
      ghost var p2 := f;
      PreparedNext(old(f), p1, f, next, bb, made1, ifStmt);
      AnotherNew(old(f), p1, f, made1, ifStmt);
      var elseStmt := NewBlock();
      PreparedNext(old(f), p2, f, next, bb, made1 + {ifStmt}, elseStmt);
      AnotherNew(old(f), p2, f, made1 + {ifStmt}, elseStmt);
      ghost var f1, made := f, made1 + {ifStmt} + {elseStmt};
      PreparedFor(old(f), f1, next, bb, made, ifStmt, elseStmt);
      var b := ConditionToIr(c, bb, ifStmt, elseStmt);
      ghost var f2, n2 := f, next;
      HalfWay(f1, f2, n2, c, bb, b, ifStmt, elseStmt, ifStmt);
      PreparedMade(old(f), f1, bb, made);
      CondListed(old(f), f1, f2, n2, {}, c, bb, b, ifStmt, elseStmt, ifStmt);
      f := Joined(f, b, ifStmt, elseStmt, ifStmt);
      ghost var f3, open := f, {} + {ifStmt, elseStmt};
      AfterCond(old(f), f1, f2, f3, n2, c, bb, made, b, ifStmt, elseStmt, loop);
      JudgeUnreached(old(f), f1, f2, f3, n2, c, bb, made, b, ifStmt, elseStmt, endIf);
      NestedIn(s, inLoop);
      var ifAfterJump := BranchToIr(taken, s, ifStmt, endIf, loop, inLoop);
      ghost var f4, n4 := f, next;
      AfterBranch(old(f), f3, f4, next, s, taken, bb, ifStmt, endIf, loop, inLoop, {}, false);
      BranchKeepsEmpty(f3, f4, next, s, taken, ifStmt, endIf, loop, inLoop, endIf);
      BranchKeepsEmpty(f3, f4, next, s, taken, ifStmt, endIf, loop, inLoop, elseStmt);
      ListIt(old(f), f, next, bb, elseStmt, loop, inLoop, Continues(taken));
      BranchListed(old(f), f3, f4, open, next, s, taken, ifStmt, endIf, loop, inLoop);
      ghost var open4 := open + Outside(loop, inLoop) + {endIf};
      MadeListed(old(f), f4, open4, elseStmt);
      f := Listed(f, elseStmt);
      ghost var f5 := f;
      var elseAfterJump := BranchToIr(otherwise, s, elseStmt, endIf, loop, inLoop);
      ghost var f6 := f;
      AfterBranch(old(f), f5, f6, next, s, otherwise, bb, elseStmt, endIf, loop, inLoop, Outside(loop, inLoop), Continues(taken));
      BranchKeepsEmpty(f5, f6, next, s, otherwise, elseStmt, endIf, loop, inLoop, endIf);
      BranchListed(old(f), f5, f6, open4, next, s, otherwise, elseStmt, endIf, loop, inLoop);
      ghost var open6 := open4 + Outside(loop, inLoop) + {endIf};
      IfElseIn(old(f), f3, f4, f5, f6, s, bb, ifStmt, elseStmt, endIf, loop);
      last, jumped := endIf, ifAfterJump && elseAfterJump;
      if jumped {
        BothJump(old(f), f, next, s, bb, endIf, loop, inLoop);
        NothingGoesOn(old(f), f3, f4, f5, f, endIf, loop, inLoop);
        StmtListed(old(f), f, open6, loop, inLoop);
      } else {
        ListIt(old(f), f, next, bb, endIf, loop, inLoop, Continues(taken) || Continues(otherwise));
        MadeListed(old(f), f6, open6, endIf);
        f := Listed(f, endIf);
        StmtListed(old(f), f, open6, loop, inLoop);
        IfElseDone(old(f), f6, f, next, s, bb, endIf, loop, inLoop);
      }
    }

    /** The condition stands before the loop and, if anything comes back, once more behind the body. */
    method WhileToIr(s: Stmt, bb: Block, loop: Loop, ghost inLoop: bool) returns (last: Block, jumped: bool)
      requires s.While? && Good(f, next) && Open(f, bb) && WellNested(s, inLoop) && InOrder(f)
      requires inLoop ==> loop.judge in f.code && loop.end in f.code && loop.judge != loop.end
      modifies this
      ensures StmtDone(old(f), f, next, s, bb, last, loop, inLoop) && jumped == Jumps(s) && Lists(old(f), f, {})
      decreases s, 0, 0
    {
      hide *;
      OpenParts(f, bb);
      var c, body := s.cond, s.body;
      ghost var made0: set<Block> := {};
      PreparedStart(f, next, bb);
      var whileEnd := NewBlock();
      ghost var p1 := f;
      ghost var made1 := made0 + {whileEnd};
      PreparedNext(old(f), old(f), f, next, bb, made0, whileEnd);
      var whileJudge := NewBlock();
      ghost var p2 := f;
      PreparedNext(old(f), p1, f, next, bb, made1, whileJudge);
      AnotherNew(old(f), p1, f, made1, whileJudge);
      var whileBody := NewBlock();
      PreparedNext(old(f), p2, f, next, bb, made1 + {whileJudge}, whileBody);
      AnotherNew(old(f), p2, f, made1 + {whileJudge}, whileBody);
      ghost var f1, made := f, made1 + {whileJudge} + {whileBody};
      PreparedFor(old(f), f1, next, bb, made, whileBody, whileEnd);
      var b := ConditionToIr(c, bb, whileBody, whileEnd);
      ghost var f2, n2 := f, next;
      HalfWay(f1, f2, n2, c, bb, b, whileBody, whileEnd, whileBody);
      PreparedMade(old(f), f1, bb, made);
      CondListed(old(f), f1, f2, n2, {}, c, bb, b, whileBody, whileEnd, whileBody);
      f := Joined(f, b, whileBody, whileEnd, whileBody);
      ghost var f3, open := f, {} + {whileBody, whileEnd};
      AfterCond(old(f), f1, f2, f3, n2, c, bb, made, b, whileBody, whileEnd, loop);
      JudgeUnreached(old(f), f1, f2, f3, n2, c, bb, made, b, whileBody, whileEnd, whileJudge);
      NestedIn(s, inLoop);
      var own := Loop(whileJudge, whileEnd);
      var whileBodyAfterJump := BranchToIr(body, s, whileBody, whileJudge, own, true);
      ghost var f4, n4 := f, next;
      AfterBody(old(f), f3, f4, next, s, bb, whileBody, own, loop);
      BranchListed(old(f), f3, f4, open, next, s, body, whileBody, whileJudge, own, true);
      ghost var open4 := open + Outside(own, true) + {whileJudge};
      OwnOutside(own);
      if f.preds[whileJudge] != {} {
        ListJudge(old(f), f, next, bb, whileJudge, whileBody, whileEnd, loop);
        MadeListed(old(f), f4, open4, whileJudge);
        f := Listed(f, whileJudge);
        ghost var f5 := f;
        var j := ConditionToIr(c, whileJudge, whileBody, whileEnd);
        ghost var f6, n6 := f, next;
        HalfWay(f5, f6, n6, c, whileJudge, j, whileBody, whileEnd, whileEnd);
        CondListed(old(f), f5, f6, n6, open4, c, whileJudge, j, whileBody, whileEnd, whileEnd);
        f := Joined(f, j, whileBody, whileEnd, whileEnd);
        JudgeListed(f3, f4, f5, f6, f, whileBody, whileJudge, whileEnd, j);
        StmtListed(old(f), f, open4 + {whileBody, whileEnd}, loop, inLoop);
        JudgeDone(old(f), f3, f4, f5, f6, f, n6, s, bb, whileBody, j, own, loop);
        WhileDone(old(f), f3, f, n6, s, bb, whileBody, own, loop, inLoop);
      } else {
        ListEnd(old(f), f3, f4, next, s, bb, whileBody, own, loop);
        MadeListed(old(f), f4, open4, whileEnd);
        f := Listed(f, whileEnd);
        StmtListed(old(f), f, open4, loop, inLoop);
        WhileDone(old(f), f3, f, next, s, bb, whileBody, own, loop, inLoop);
      }
      last, jumped := whileEnd, false;
    }

    /** The items in turn; what follows a jump is dropped. */
    method BlockToIr(s: Stmt, bb: Block, loop: Loop, ghost inLoop: bool) returns (last: Block, jumped: bool)
      requires s.Scope? && Good(f, next) && Open(f, bb) && WellNested(s, inLoop) && InOrder(f)
      requires inLoop ==> loop.judge in f.code && loop.end in f.code && loop.judge != loop.end
      modifies this
      ensures StmtDone(old(f), f, next, s, bb, last, loop, inLoop) && jumped == Jumps(s) && Lists(old(f), f, {})
      decreases s, 0, 0
    {
      hide *;
      OpenParts(f, bb);
      last, jumped := bb, false;
      NoItems(f, next, s, bb, loop, inLoop);
      ListsItself(f);
      GoodKeys(f, next);
      for i := 0 to |s.items|
        invariant Lists(old(f), f, {})
        invariant ItemsDone(old(f), f, next, s, i, bb, last, loop, inLoop) && jumped == JumpsBefore(s, i)
        invariant inLoop ==> loop.judge in f.code && loop.end in f.code
      {
        if !jumped {
          ghost var g, n, x := f, next, last;
          ItemReady(old(f), f, next, s, i, bb, last, loop, inLoop);
          ListsParts(old(f), f, {});
          last, jumped := StmtToIr(s.items[i], last, loop, inLoop);
          OneItem(old(f), g, n, f, next, s, i, bb, x, last, loop, inLoop);
          ItemListed(old(f), g, f, next, s.items[i], x, last, loop, inLoop);
        } else {
          SkippedItem(old(f), f, next, s, i, bb, last, loop, inLoop);
        }
      }
      AllItems(old(f), f, next, s, bb, last, loop, inLoop);
    }
  }

  // the order, step by step

  lemma FreshIsUnlisted(f: Func, next: nat)
    requires Good(f, next)
    ensures Block(next) !in f.blocks && Block(next) !in f.preds && Block(next) !in f.code
  {
    NewIsNew(f, next);
  }

  lemma JumpedInOrder(f0: Func, f: Func, b: Block, d: Block)
    requires Lists(f0, f, {}) && Open(f, b) && b in f.succs && d in f.preds && d in f0.preds
    ensures b in f.code && Lists(f0, Jumped(f, b, d), {})
    ensures d in Jumped(f, b, d).preds && Jumped(f, b, d).preds[d] != {}
  {
    EmittedInOrder(f0, f, {}, b, Jump(d));
    hide Lists;
    LinkedInOrder(f0, Emitted(f, b, Jump(d)), {}, b, d);
    assert b in Jumped(f, b, d).preds[d];
  }

  /** Another block made. */
  lemma AnotherNew(f0: Func, f: Func, g: Func, made: set<Block>, m: Block)
    requires Lists(f0, f, {}) && Lists(f, g, {}) && PredsKept(f, g, {}) && Unlisted(g, m)
    requires forall x :: x in made ==> Unlisted(f, x)
    ensures Lists(f0, g, {}) && forall x :: x in made + {m} ==> Unlisted(g, x)
  {
    ListsTwice(f0, f, g, {}, {});
    var none: set<Block> := {};
    assert none + none == none;
    hide InOrder, Unlisted, PredsKept;
  }

  lemma CondParts(f: Func, g: Func, n: nat, c: Cond, bb: Block, last: Block, t: Block, e: Block)
    requires CondDone(f, g, n, c, bb, last, t, e)
    ensures PredsKept(f, g, {t, e}) && last in g.blocks
  {
  }

  /** A condition from f1 on, joined at m. */
  lemma CondListed(f0: Func, f1: Func, f2: Func, n: nat, open: set<Block>, c: Cond, bb: Block, last: Block, t: Block, e: Block, m: Block)
    requires Lists(f0, f1, open) && Lists(f1, f2, {}) && CondDone(f1, f2, n, c, bb, last, t, e)
    requires Unlisted(f1, m) && m !in f0.code && (m == t || m == e) && last in f2.succs && t in f2.preds && e in f2.preds
    ensures var g := Joined(f2, last, t, e, m);
            && Lists(f0, g, open + {t, e}) && InOrder(g) && m in g.blocks && e in g.preds && g.preds[e] != {}
            && forall x :: Unlisted(f1, x) && x != m ==> Unlisted(g, x)
  {
    hide *;
    CondParts(f1, f2, n, c, bb, last, t, e);
    ListsTwice(f0, f1, f2, open, {t, e});
    ListsParts(f1, f2, {});
    StaysUnlisted(f1, f2, m);
    JoinedInOrder(f0, f2, open + {t, e}, last, t, e, m);
    ListsParts(f0, Joined(f2, last, t, e, m), open + {t, e});
    forall x | Unlisted(f1, x) && x != m ensures Unlisted(Joined(f2, last, t, e, m), x) {
      StaysUnlisted(f1, f2, x);
    }
  }

  /** The second half of a condition, from m on. */
  lemma RightListed(f0: Func, f3: Func, f4: Func, n: nat, c: Cond, open: set<Block>, m: Block, last: Block, t: Block, e: Block)
    requires Lists(f0, f3, open) && m in f3.blocks && Lists(f3, f4, {}) && CondDone(f3, f4, n, c, m, last, t, e)
    requires t in f0.preds && e in f0.preds && forall x :: x in open ==> x == m || x in f0.preds
    ensures Lists(f0, f4, {})
  {
    hide *;
    CondParts(f3, f4, n, c, m, last, t, e);
    ListsTwice(f0, f3, f4, open, {t, e});
    ListsParts(f3, f4, {});
    StaysListed(f3, f4, m);
    NoLongerOpen(f0, f4, open + {t, e}, {});
  }

  /** After a branch that goes on to d, which may now wait. */
  lemma BranchListed(f0: Func, f3: Func, f4: Func, open: set<Block>, next: nat, whole: Stmt, s: Stmt, t: Block, d: Block, loop: Loop, inLoop: bool)
    requires s < whole && Lists(f0, f3, open) && Lists(f3, f4, {}) && BranchDone(f3, f4, next, whole, s, t, d, loop, inLoop)
    ensures Lists(f0, f4, open + Outside(loop, inLoop) + {d})
    ensures forall x :: Unlisted(f3, x) ==> Unlisted(f4, x)
    ensures forall x :: x in f3.blocks ==> x in f4.blocks
    ensures forall x :: x in f3.preds && f3.preds[x] != {} ==> x in f4.preds && f4.preds[x] != {}
  {
    BranchPredsKept(f3, f4, next, whole, s, t, d, loop, inLoop);
    ListsTwice(f0, f3, f4, open, Outside(loop, inLoop) + {d});
    assert open + (Outside(loop, inLoop) + {d}) == open + Outside(loop, inLoop) + {d};
    hide Outside, InOrder, Unlisted, PredsKept, BranchDone;
    PredsGrow(f3, f4, Outside(loop, inLoop) + {d});
  }

  lemma BranchPredsKept(f3: Func, f4: Func, next: nat, whole: Stmt, s: Stmt, t: Block, d: Block, loop: Loop, inLoop: bool)
    requires s < whole && BranchDone(f3, f4, next, whole, s, t, d, loop, inLoop)
    ensures PredsKept(f3, f4, Outside(loop, inLoop) + {d})
  {
  }

  lemma PredsGrow(f: Func, g: Func, but: set<Block>)
    requires PredsKept(f, g, but)
    ensures forall x :: x in f.preds && f.preds[x] != {} ==> x in g.preds && g.preds[x] != {}
  {
  }

  /** Listing a block that was made for the statement. */
  lemma MadeListed(f0: Func, f: Func, open: set<Block>, m: Block)
    requires Lists(f0, f, open) && m !in f0.code && Unlisted(f, m) && m in f.preds && f.preds[m] != {}
    ensures Lists(f0, Listed(f, m), open) && InOrder(Listed(f, m)) && Listed(f, m).preds == f.preds
    ensures m in Listed(f, m).blocks && forall x :: x in f.blocks ==> x in Listed(f, m).blocks
    ensures forall x :: Unlisted(f, x) && x != m ==> Unlisted(Listed(f, m), x)
  {
    ListedInOrder(f0, f, open, m);
  }

  /** A statement is through: what may wait is listed, has no predecessor, or was there before. */
  lemma StmtListed(f0: Func, f: Func, open: set<Block>, loop: Loop, inLoop: bool)
    requires Lists(f0, f, open) && f0.code.Keys == f0.preds.Keys
    requires inLoop ==> loop.judge in f0.code && loop.end in f0.code
    requires forall x :: x in open && x !in Outside(loop, inLoop) ==> x in f.blocks || (x in f.preds && f.preds[x] == {})
    ensures Lists(f0, f, {})
  {
    forall c | c in open ensures c in f.blocks || c in f0.preds || c !in f.preds || f.preds[c] == {} {
      if c in Outside(loop, inLoop) {
        assert c in f0.code.Keys;
      }
    }
    hide Lists;
    NoLongerOpen(f0, f, open, {});
  }

  lemma PreparedMade(f: Func, g: Func, bb: Block, made: set<Block>)
    requires Prepared(f, g, bb, made)
    ensures f.code.Keys == f.preds.Keys && forall m :: m in made ==> m !in f.code
  {
  }

  lemma OwnOutside(own: Loop)
    ensures Outside(own, true) == {own.judge, own.end}
  {
  }

  /** When both branches jump nothing leads to the block behind them. */
  lemma NothingGoesOn(f0: Func, f3: Func, f4: Func, f5: Func, f6: Func, d: Block, loop: Loop, inLoop: bool)
    requires d !in f0.code && (inLoop ==> loop.judge in f0.code && loop.end in f0.code)
    requires d in f3.preds && f3.preds[d] == {} && PredsKept(f3, f4, Outside(loop, inLoop)) && f5.preds == f4.preds
    requires PredsKept(f5, f6, Outside(loop, inLoop))
    ensures d in f6.preds && f6.preds[d] == {}
  {
  }

  /** With the judge block lowered, the three blocks of the loop are listed. */
  lemma JudgeListed(f3: Func, f4: Func, f5: Func, f6: Func, f7: Func, t: Block, judge: Block, end: Block, last: Block)
    requires t in f4.blocks && f5 == Listed(f4, judge) && Lists(f5, f6, {})
    requires last in f6.succs && t in f6.preds && end in f6.preds && f7 == Joined(f6, last, t, end, end)
    ensures t in f7.blocks && judge in f7.blocks && end in f7.blocks
  {
    hide Lists, ListKept;
    ListsParts(f5, f6, {});
    assert judge == f5.blocks[|f5.blocks| - 1];
    assert t in f5.blocks;
    StaysListed(f5, f6, t);
    StaysListed(f5, f6, judge);
  }

  lemma ItemListed(f0: Func, f: Func, g: Func, next: nat, s: Stmt, bb: Block, last: Block, loop: Loop, inLoop: bool)
    requires Lists(f0, f, {}) && Lists(f, g, {}) && StmtDone(f, g, next, s, bb, last, loop, inLoop)
    requires f0.code.Keys == f0.preds.Keys && (inLoop ==> loop.judge in f0.code && loop.end in f0.code)
    ensures Lists(f0, g, {})
  {
    StmtParts(f, g, next, s, bb, last, loop, inLoop);
    hide StmtDone;
    ListsTwice(f0, f, g, {}, Outside(loop, inLoop));
    StmtListed(f0, g, {} + Outside(loop, inLoop), loop, inLoop);
  }

  lemma EntryReady(f: Func, next: nat, entry: Block)
    requires Good(f, next) && f == WithBlock(Func([], map[], map[], map[]), entry)
    ensures Good(Listed(f, entry), next) && Open(Listed(f, entry), entry) && entry in Listed(f, entry).code && Listed(f, entry).code[entry] == []
  {
    ListKeeps(f, next, entry, {});
  }

  lemma EntryInOrder(f: Func, entry: Block)
    requires f == WithBlock(Func([], map[], map[], map[]), entry)
    ensures InOrder(Listed(f, entry)) && Listed(f, entry).blocks == [entry]
    ensures Listed(f, entry).preds.Keys == {entry} && Listed(f, entry).preds[entry] == {}
  {
  }

  /** The graph of a finished function. */
  function GraphOf(f: Func, entry: Block): Graph {
    Graph(f.blocks, entry, f.preds, f.succs)
  }

  lemma GraphMade(f0: Func, f: Func, next: nat, entry: Block)
    requires f0.blocks == [entry] && f0.preds.Keys == {entry} && f0.preds[entry] == {}
    requires Good(f, next) && Lists(f0, f, {}) && PredsKept(f0, f, Outside(Loop(entry, entry), false))
    ensures f.blocks != [] && f.blocks[0] == entry
    ensures var g := GraphOf(f, entry);
            WellFormed(g) && g.preds[entry] == {} && DominatorsFirst(g) && forall b :: b in g.blocks ==> Reachable(g, b)
  {
    hide InOrder, Stored, DominatorsFirst, Reachable;
    var g := GraphOf(f, entry);
    GoodKeys(f, next);
    assert f0.blocks <= f.blocks && f0.blocks[0] == entry;
    assert entry in f0.preds.Keys;
    Closed(f0, f, entry);
    Edges(f, entry);
    InOrderDominates(f, entry);
  }

  /** Where edges start and end is listed. */
  lemma Closed(f0: Func, f: Func, entry: Block)
    requires f0.preds.Keys == {entry} && entry in f.preds && f.preds[entry] == {} && Lists(f0, f, {})
    ensures forall b, c :: HasPred(f, b, c) ==> b in f.blocks && c in f.blocks
  {
    hide ListKept;
    forall b, c | HasPred(f, b, c) ensures b in f.blocks && c in f.blocks {
      assert c in f0.preds.Keys <==> c in f0.preds;
    }
  }

  lemma Edges(f: Func, entry: Block)
    requires Paired(f) && entry in f.blocks && (forall b :: b in f.blocks ==> b in f.preds && b in f.succs)
    requires forall b, c :: HasPred(f, b, c) ==> b in f.blocks && c in f.blocks
    ensures WellFormed(GraphOf(f, entry))
    ensures forall b, c :: HasPred(f, b, c) ==> Edge(GraphOf(f, entry), b, c)
  {
    forall b, c ensures HasSucc(f, b, c) <==> HasPred(f, b, c) {
    }
    forall b, p | b in f.blocks && p in f.preds[b] ensures p in f.blocks && b in f.succs[p] {
      assert HasPred(f, p, b) && HasSucc(f, p, b);
    }
    forall b, s | b in f.blocks && s in f.succs[b] ensures s in f.blocks && b in f.preds[s] {
      assert HasSucc(f, b, s) && HasPred(f, b, s);
    }
  }

  lemma LeaderOf(f: Func, i: nat) returns (j: nat)
    requires InOrder(f) && 0 < i < |f.blocks|
    ensures j < i && HasPred(f, f.blocks[j], f.blocks[i])
  {
    assert LedTo(f, i);
    j :| 0 <= j < i && HasPred(f, f.blocks[j], f.blocks[i]);
  }

  /** A walk from the entry to block i that stays within the first i + 1. */
  lemma {:induction false} WalkUpTo(f: Func, entry: Block, i: nat) returns (w: seq<Block>)
    requires i < |f.blocks| && f.blocks[0] == entry && InOrder(f)
    requires forall b, c :: HasPred(f, b, c) ==> Edge(GraphOf(f, entry), b, c)
    ensures Connects(GraphOf(f, entry), w, entry, f.blocks[i]) && forall b :: b in w ==> b in f.blocks[..i + 1]
  {
    hide InOrder, HasPred, Edge;
    var g := GraphOf(f, entry);
    if i == 0 {
      w := [entry];
      assert f.blocks[..1] == [entry];
    } else {
      var j := LeaderOf(f, i);
      var v := WalkUpTo(f, entry, j);
      hide IsWalk;
      Extend(g, v, f.blocks[i]);
      w := v + [f.blocks[i]];
      assert f.blocks[..i + 1] == f.blocks[..j + 1] + f.blocks[j + 1..i + 1];
      assert f.blocks[i] == f.blocks[..i + 1][i];
    }
  }

  lemma InOrderDominates(f: Func, entry: Block)
    requires f.blocks != [] && f.blocks[0] == entry && InOrder(f)
    requires forall b, c :: HasPred(f, b, c) ==> Edge(GraphOf(f, entry), b, c)
    ensures DominatorsFirst(GraphOf(f, entry)) && forall b :: b in f.blocks ==> Reachable(GraphOf(f, entry), b)
  {
    var g := GraphOf(f, entry);
    hide HasPred, Edge, IsWalk;
    forall i, j | 0 <= i < j < |g.blocks| ensures g.blocks[i] != g.blocks[j] && !Dominates(g, g.blocks[j], g.blocks[i]) {
      var w := WalkUpTo(f, entry, i);
      assert f.blocks[j] !in f.blocks[..i + 1];
    }
    forall b | b in f.blocks ensures Reachable(g, b) {
      var i :| 0 <= i < |f.blocks| && f.blocks[i] == b;
      var w := WalkUpTo(f, entry, i);
    }
  }

  lemma FunctionDone(f0: Func, f: Func, next: nat, body: Stmt, entry: Block, last: Block, loop: Loop)
    requires StmtDone(f0, f, next, body, entry, last, loop, false) && entry in f0.blocks && entry in f0.code && f0.code[entry] == [] && WellNested(body, false)
    ensures Mirrors(f, {}) && entry in f.blocks
    ensures forall sem, st, v, end :: ReturnsAlike(f, sem, body, entry, st, v, end)
  {
    hide StmtIn, WellNested, Jumps, Created, Mirrors, ReturnsAlike;
    forall sem, st, v, end ensures ReturnsAlike(f, sem, body, entry, st, v, end) {
      ReturnsExactly(f, sem, body, entry, last, |f.code[last]|, loop, st, v, end);
    }
  }

  /** A block made while bb is open leaves bb open and everything known. */
  lemma NewReady(f: Func, g: Func, next: nat, bb: Block, m: Block, t: Block, e: Block)
    requires g == WithBlock(f, m) && m !in f.code && Good(g, next) && Open(f, bb)
    ensures Open(g, bb) && bb != m && bb in f.code && bb in g.code && g.code[bb] == f.code[bb] && m in g.code && g.code[m] == []
    ensures t in f.preds ==> t in g.preds
    ensures e in f.preds ==> e in g.preds
    ensures m in g.preds && g.code.Keys == g.preds.Keys == g.succs.Keys
  {
  }

  lemma StmtIsGood(f: Func, g: Func, next: nat, s: Stmt, t: Block, last: Block, loop: Loop, inLoop: bool)
    requires StmtDone(f, g, next, s, t, last, loop, inLoop)
    ensures Created(g, next) && Mirrors(g, {}) && Good(g, next)
  {
    hide StmtIn;
  }

  lemma EmptyDone(f: Func, next: nat, bb: Block, loop: Loop, inLoop: bool)
    requires Good(f, next) && Open(f, bb)
    ensures StmtDone(f, f, next, Empty, bb, bb, loop, inLoop) && !Jumps(Empty)
  {
    hide Good;
  }

  lemma EmitDone(f: Func, next: nat, ins: Ins, s: Stmt, bb: Block, loop: Loop, inLoop: bool)
    requires Good(f, next) && Open(f, bb) && (match s case Act(a) => ins == Do(a) case Return(v) => ins == Ret(v) case _ => false)
    ensures bb in f.code && StmtDone(f, Emitted(f, bb, ins), next, s, bb, bb, loop, inLoop) && Jumps(s) == s.Return?
  {
    EmitKeeps(f, next, bb, ins);
    hide Created, Mirrors, Grown;
  }

  lemma LeavesLoop(s: Stmt, inLoop: bool)
    requires WellNested(s, inLoop) && (s.Break? || s.Continue?)
    ensures inLoop
  {
  }

  lemma LeaveDone(f: Func, next: nat, d: Block, s: Stmt, bb: Block, loop: Loop, inLoop: bool)
    requires Good(f, next) && Open(f, bb) && inLoop && d in f.preds && bb in f.succs && loop.judge != loop.end
    requires (s.Break? && d == loop.end) || (s.Continue? && d == loop.judge)
    ensures bb in f.code && StmtDone(f, Jumped(f, bb, d), next, s, bb, bb, loop, inLoop) && Jumps(s)
  {
    JumpKeeps(f, next, bb, d);
    hide Created, Mirrors, Grown;
  }

  // scopes

  ghost predicate ContinuesBefore(s: Stmt, n: nat)
    requires s.Scope? && n <= |s.items|
  {
    exists i :: 0 <= i < n && !JumpsBefore(s, i) && Continues(s.items[i])
  }

  ghost predicate ItemsDone(f: Func, g: Func, next: nat, s: Stmt, n: nat, bb: Block, last: Block, loop: Loop, inLoop: bool)
    requires s.Scope? && n <= |s.items|
  {
    && Good(g, next) && Grown(f, g, bb) && PredsKept(f, g, Outside(loop, inLoop))
    && bb in f.code && last in g.code && ItemsIn(g, s, n, bb, |f.code[bb]|, last, |g.code[last]|, loop)
    && (!JumpsBefore(s, n) ==> Open(g, last) && (last == bb || last !in f.code))
    && (inLoop ==> JudgeReached(f, g, loop.judge, ContinuesBefore(s, n)))
  }

  lemma NoItems(f: Func, next: nat, s: Stmt, bb: Block, loop: Loop, inLoop: bool)
    requires s.Scope? && Good(f, next) && Open(f, bb)
    ensures ItemsDone(f, f, next, s, 0, bb, bb, loop, inLoop) && !JumpsBefore(s, 0)
  {
    hide Good;
  }

  lemma AllItems(f: Func, g: Func, next: nat, s: Stmt, bb: Block, last: Block, loop: Loop, inLoop: bool)
    requires s.Scope? && ItemsDone(f, g, next, s, |s.items|, bb, last, loop, inLoop)
    ensures StmtDone(f, g, next, s, bb, last, loop, inLoop) && Jumps(s) == JumpsBefore(s, |s.items|)
  {
    hide Good, Grown, PredsKept, Open, JudgeReached;
  }

  lemma ItemReady(f: Func, g: Func, next: nat, s: Stmt, i: nat, bb: Block, last: Block, loop: Loop, inLoop: bool)
    requires s.Scope? && i < |s.items| && ItemsDone(f, g, next, s, i, bb, last, loop, inLoop) && !JumpsBefore(s, i) && WellNested(s, inLoop)
    ensures Good(g, next) && Open(g, last) && WellNested(s.items[i], inLoop)
  {
    hide Good, Open;
  }

  lemma SkippedItem(f: Func, g: Func, next: nat, s: Stmt, i: nat, bb: Block, last: Block, loop: Loop, inLoop: bool)
    requires s.Scope? && i < |s.items| && ItemsDone(f, g, next, s, i, bb, last, loop, inLoop) && JumpsBefore(s, i)
    ensures ItemsDone(f, g, next, s, i + 1, bb, last, loop, inLoop) && JumpsBefore(s, i + 1)
  {
    hide Good, Grown, PredsKept, Open, Jumps, Continues;
    assert ItemsIn(g, s, i + 1, bb, |f.code[bb]|, last, |g.code[last]|, loop);
    assert ContinuesBefore(s, i + 1) <==> ContinuesBefore(s, i);
  }

  lemma OneItem(f: Func, g: Func, n: nat, h: Func, next: nat, s: Stmt, i: nat, bb: Block, x: Block, last: Block, loop: Loop, inLoop: bool)
    requires s.Scope? && i < |s.items| && ItemsDone(f, g, n, s, i, bb, x, loop, inLoop) && !JumpsBefore(s, i)
    requires StmtDone(g, h, next, s.items[i], x, last, loop, inLoop)
    ensures ItemsDone(f, h, next, s, i + 1, bb, last, loop, inLoop) && JumpsBefore(s, i + 1) == Jumps(s.items[i])
    ensures forall c :: c in g.code ==> c in h.code
  {
    hide *;
    ItemsParts(f, g, n, s, i, bb, x, loop, inLoop);
    StmtParts(g, h, next, s.items[i], x, last, loop, inLoop);
    StmtIsGood(g, h, next, s.items[i], x, last, loop, inLoop);
    GrownTwice(f, g, h, bb, x);
    GrownExtends(g, h, x);
    PredsTwice(f, g, h, Outside(loop, inLoop), Outside(loop, inLoop));
    ItemsStay(g, h, s, i, bb, |f.code[bb]|, x, |g.code[x]|, loop);
    ItemsInNext(h, s, i, bb, |f.code[bb]|, x, |g.code[x]|, last, |h.code[last]|, loop);
    JumpsBeforeNext(s, i);
    if inLoop {
      JudgeTwice(f, g, h, loop.judge, ContinuesBefore(s, i), Continues(s.items[i]), Outside(loop, inLoop));
    }
    if !Jumps(s.items[i]) {
      LastAfter(f, g, h, next, s.items[i], bb, x, last, loop, inLoop);
    }
    assert Outside(loop, inLoop) + Outside(loop, inLoop) == Outside(loop, inLoop);
    ItemsDoneFrom(f, h, next, s, i + 1, bb, last, loop, inLoop);
    ExtendsKeys(g, h);
  }

  lemma ExtendsKeys(f: Func, g: Func)
    requires Extends(f, g)
    ensures forall c :: c in f.code ==> c in g.code
  {
  }

  lemma ItemsParts(f: Func, g: Func, n: nat, s: Stmt, i: nat, bb: Block, x: Block, loop: Loop, inLoop: bool)
    requires s.Scope? && i <= |s.items| && ItemsDone(f, g, n, s, i, bb, x, loop, inLoop)
    ensures Grown(f, g, bb) && PredsKept(f, g, Outside(loop, inLoop)) && bb in f.code && x in g.code
    ensures ItemsIn(g, s, i, bb, |f.code[bb]|, x, |g.code[x]|, loop)
    ensures !JumpsBefore(s, i) ==> x == bb || x !in f.code
    ensures inLoop ==> JudgeReached(f, g, loop.judge, ContinuesBefore(s, i))
  {
  }

  lemma ItemsInNext(h: Func, s: Stmt, i: nat, b: Block, k: nat, x: Block, l: nat, d: Block, j: nat, loop: Loop)
    requires s.Scope? && i < |s.items| && ItemsIn(h, s, i, b, k, x, l, loop) && !JumpsBefore(s, i) && StmtIn(h, s.items[i], x, l, d, j, loop)
    ensures ItemsIn(h, s, i + 1, b, k, d, j, loop)
  {
  }

  lemma JumpsBeforeNext(s: Stmt, i: nat)
    requires s.Scope? && i < |s.items| && !JumpsBefore(s, i)
    ensures JumpsBefore(s, i + 1) == Jumps(s.items[i])
    ensures ContinuesBefore(s, i + 1) <==> ContinuesBefore(s, i) || Continues(s.items[i])
  {
    hide Jumps, Continues;
  }

  lemma JudgeTwice(f: Func, g: Func, h: Func, judge: Block, first: bool, second: bool, but: set<Block>)
    requires JudgeReached(f, g, judge, first) && JudgeReached(g, h, judge, second) && PredsKept(g, h, but)
    ensures JudgeReached(f, h, judge, first || second)
  {
  }

  lemma LastAfter(f: Func, g: Func, h: Func, next: nat, s: Stmt, bb: Block, x: Block, last: Block, loop: Loop, inLoop: bool)
    requires StmtDone(g, h, next, s, x, last, loop, inLoop) && !Jumps(s) && Grown(f, g, bb) && (x == bb || x !in f.code)
    ensures Open(h, last) && (last == bb || last !in f.code)
  {
    hide StmtIn, Good, Open;
  }

  lemma ItemsDoneFrom(f: Func, h: Func, next: nat, s: Stmt, n: nat, bb: Block, last: Block, loop: Loop, inLoop: bool)
    requires s.Scope? && n <= |s.items|
    requires Good(h, next) && Grown(f, h, bb) && PredsKept(f, h, Outside(loop, inLoop))
    requires bb in f.code && last in h.code && ItemsIn(h, s, n, bb, |f.code[bb]|, last, |h.code[last]|, loop)
    requires !JumpsBefore(s, n) ==> Open(h, last) && (last == bb || last !in f.code)
    requires inLoop ==> JudgeReached(f, h, loop.judge, ContinuesBefore(s, n))
    ensures ItemsDone(f, h, next, s, n, bb, last, loop, inLoop)
  {
  }

  // made blocks

  /** New blocks were made and nothing else happened. */
  ghost predicate Prepared(f: Func, g: Func, bb: Block, made: set<Block>) {
    && Grown(f, g, bb) && bb in f.code && bb in g.code && g.code[bb] == f.code[bb] && PredsKept(f, g, {}) && Open(g, bb)
    && f.code.Keys == f.preds.Keys
    && forall m :: m in made ==> m !in f.code && m in g.code && g.code[m] == [] && m in g.preds && g.preds[m] == {}
  }

  lemma PreparedStart(f: Func, next: nat, bb: Block)
    requires Good(f, next) && Open(f, bb)
    ensures Prepared(f, f, bb, {})
  {
  }

  lemma PreparedNext(f: Func, g: Func, h: Func, next: nat, bb: Block, made: set<Block>, m: Block)
    requires Prepared(f, g, bb, made) && h == WithBlock(g, m) && m !in g.code && Good(h, next)
    ensures Prepared(f, h, bb, made + {m})
  {
    hide Good, Open;
    NewInOld(f, g, bb, m);
    NewStaysOpen(g, m, bb);
    NewGrown(f, g, bb, m);
    NewPreds(f, g, m);
  }

  lemma NewInOld(f: Func, g: Func, bb: Block, m: Block)
    requires Grown(f, g, bb) && m !in g.code && f.code.Keys == f.preds.Keys && bb in g.code
    ensures m !in f.code && m !in f.preds && m != bb
  {
    assert m !in f.code.Keys;
  }

  lemma NewStaysOpen(g: Func, m: Block, bb: Block)
    requires Open(g, bb) && m != bb
    ensures Open(WithBlock(g, m), bb)
  {
  }

  lemma NewGrown(f: Func, g: Func, bb: Block, m: Block)
    requires Grown(f, g, bb) && m !in g.code
    ensures Grown(f, WithBlock(g, m), bb)
  {
  }

  lemma NewPreds(f: Func, g: Func, m: Block)
    requires PredsKept(f, g, {}) && m !in f.preds
    ensures PredsKept(f, WithBlock(g, m), {})
  {
  }

  lemma PreparedFor(f: Func, g: Func, next: nat, bb: Block, made: set<Block>, t: Block, e: Block)
    requires Prepared(f, g, bb, made) && Good(g, next) && t in made && e in made
    ensures Open(g, bb) && t in g.preds && e in g.preds && t in g.code && e in g.code && g.code[t] == [] && g.code[e] == [] && t != bb && e != bb
    ensures g.code.Keys == g.preds.Keys == g.succs.Keys
  {
  }

  /** From f to g only bb and new blocks got instructions, and only the blocks in but predecessors. */
  ghost predicate Rel(f: Func, g: Func, bb: Block, but: set<Block>) {
    Grown(f, g, bb) && PredsKept(f, g, but) && bb in f.code && f.code.Keys == f.preds.Keys
  }

  lemma GoodKeys(f: Func, next: nat)
    requires Good(f, next)
    ensures forall b :: (b in f.preds <==> b in f.code) && (b in f.succs <==> b in f.code)
    ensures forall b :: b in f.blocks ==> b in f.code
    ensures f.code.Keys == f.preds.Keys == f.succs.Keys
  {
    assert forall b :: b in f.preds.Keys <==> b in f.code.Keys;
    assert forall b :: b in f.succs.Keys <==> b in f.code.Keys;
  }

  lemma AfterCond(f0: Func, f1: Func, f2: Func, f3: Func, n: nat, c: Cond, bb: Block, made: set<Block>, b: Block, t: Block, e: Block, loop: Loop)
    requires Prepared(f0, f1, bb, made) && CondDone(f1, f2, n, c, bb, b, t, e) && t in made && e in made
    requires Extends(f2, f3) && f3.code == f2.code && PredsKept(f2, f3, {t, e})
    ensures Rel(f0, f3, bb, {}) && (forall m :: m in made ==> m !in f0.code && m in f3.code && f3.code[m] == []) && CondIn(f3, c, bb, |f0.code[bb]|, t, e)
    ensures JudgeReached(f0, f3, loop.judge, false)
    ensures loop.judge in f0.code ==> loop.judge in f3.code
    ensures loop.end in f0.code ==> loop.end in f3.code
  {
    hide Created, Mirrors, CondIn, PredsKept;
    CondStays(f2, f3, c, bb, |f0.code[bb]|, t, e);
    ExtendsTwice(f0, f1, f2);
    ExtendsTwice(f0, f2, f3);
    CondPreds(f0, f1, f2, f3, t, e, loop.judge);
  }

  lemma CondPreds(f0: Func, f1: Func, f2: Func, f3: Func, t: Block, e: Block, judge: Block)
    requires PredsKept(f0, f1, {}) && PredsKept(f1, f2, {t, e}) && PredsKept(f2, f3, {t, e}) && t !in f0.preds && e !in f0.preds
    ensures PredsKept(f0, f3, {}) && JudgeReached(f0, f3, judge, false)
  {
  }

  lemma NestedIn(s: Stmt, inLoop: bool)
    requires WellNested(s, inLoop)
    ensures s.If? ==> WellNested(s.taken, inLoop)
    ensures s.IfElse? ==> WellNested(s.taken, inLoop) && WellNested(s.otherwise, inLoop)
    ensures s.While? ==> WellNested(s.body, true)
  {
  }

  lemma AfterBranch(f: Func, g: Func, h: Func, next: nat, whole: Stmt, s: Stmt, bb: Block, t: Block, d: Block, loop: Loop, inLoop: bool,
                    but: set<Block>, sofar: bool)
    requires s < whole && Rel(f, g, bb, but) && BranchDone(g, h, next, whole, s, t, d, loop, inLoop) && t !in f.code && d !in f.code
    requires but <= Outside(loop, inLoop)
    requires inLoop ==> JudgeReached(f, g, loop.judge, sofar) && loop.judge in f.code && loop.end in f.code && loop.end in g.code
    ensures Rel(f, h, bb, Outside(loop, inLoop)) && Good(h, next) && Extends(g, h) && BranchIn(h, whole, s, t, d, loop)
    ensures inLoop ==> JudgeReached(f, h, loop.judge, sofar || Continues(s))
    ensures inLoop ==> loop.judge in h.code && loop.end in h.code
  {
    hide Good, BranchIn, Jumps, Continues, PredsKept;
    GrownTwice(f, g, h, bb, t);
    BranchPreds(f, g, h, loop, inLoop, but, d);
    if inLoop {
      JudgeTwice(f, g, h, loop.judge, sofar, Continues(s), Outside(loop, inLoop) + {d});
    }
  }

  lemma BranchKeepsEmpty(g: Func, h: Func, next: nat, whole: Stmt, s: Stmt, t: Block, d: Block, loop: Loop, inLoop: bool, x: Block)
    requires s < whole && BranchDone(g, h, next, whole, s, t, d, loop, inLoop) && x != t && x in g.code && g.code[x] == []
    ensures x in h.code && h.code[x] == []
  {
    hide BranchIn, Good;
  }

  lemma BranchPreds(f: Func, g: Func, h: Func, loop: Loop, inLoop: bool, but: set<Block>, d: Block)
    requires PredsKept(f, g, but) && PredsKept(g, h, Outside(loop, inLoop) + {d}) && d !in f.preds && but <= Outside(loop, inLoop)
    ensures PredsKept(f, h, Outside(loop, inLoop))
  {
  }

  /** Listing an empty block opens it and changes nothing else. */
  lemma ListIt(f: Func, g: Func, next: nat, bb: Block, m: Block, loop: Loop, inLoop: bool, continues: bool)
    requires Good(g, next) && Rel(f, g, bb, Outside(loop, inLoop)) && m in g.code && g.code[m] == []
    requires inLoop ==> JudgeReached(f, g, loop.judge, continues)
    ensures var h := Listed(g, m);
            && Good(h, next) && Rel(f, h, bb, Outside(loop, inLoop)) && Extends(g, h) && Open(h, m) && h.code == g.code
            && (inLoop ==> JudgeReached(f, h, loop.judge, continues))
  {
    ListKeeps(g, next, m, {});
    hide Created, Mirrors;
    ExtendsTwice(f, g, Listed(g, m));
  }

  lemma IfDone(f0: Func, f3: Func, f4: Func, f5: Func, next: nat, s: Stmt, bb: Block, t: Block, d: Block, loop: Loop, inLoop: bool)
    requires s.If? && bb in f0.code && CondIn(f3, s.cond, bb, |f0.code[bb]|, t, d) && Extends(f3, f4) && BranchIn(f4, s, s.taken, t, d, loop)
    requires Extends(f4, f5) && Rel(f0, f5, bb, Outside(loop, inLoop)) && Good(f5, next) && Open(f5, d) && d in f5.code && f5.code[d] == [] && d !in f0.code
    requires inLoop ==> JudgeReached(f0, f5, loop.judge, Continues(s.taken))
    ensures StmtDone(f0, f5, next, s, bb, d, loop, inLoop) && !Jumps(s)
  {
    hide CondIn, BranchIn, Extends, PredsKept, Created, Mirrors;
    ExtendsTwice(f3, f4, f5);
    CondStays(f3, f5, s.cond, bb, |f0.code[bb]|, t, d);
    BranchStays(f4, f5, s, s.taken, t, d, loop);
  }

  lemma IfElseIn(f0: Func, f3: Func, f4: Func, f5: Func, f6: Func, s: Stmt, bb: Block, t: Block, e: Block, d: Block, loop: Loop)
    requires s.IfElse? && bb in f0.code && CondIn(f3, s.cond, bb, |f0.code[bb]|, t, e) && Extends(f3, f4) && Extends(f4, f5) && Extends(f5, f6)
    requires BranchIn(f4, s, s.taken, t, d, loop) && BranchIn(f6, s, s.otherwise, e, d, loop)
    ensures StmtIn(f6, s, bb, |f0.code[bb]|, d, 0, loop)
  {
    hide CondIn, BranchIn, Extends;
    ExtendsTwice(f4, f5, f6);
    ExtendsTwice(f3, f4, f6);
    CondStays(f3, f6, s.cond, bb, |f0.code[bb]|, t, e);
    BranchStays(f4, f6, s, s.taken, t, d, loop);
  }

  lemma BothJump(f0: Func, f: Func, next: nat, s: Stmt, bb: Block, d: Block, loop: Loop, inLoop: bool)
    requires s.IfElse? && Jumps(s.taken) && Jumps(s.otherwise) && Rel(f0, f, bb, Outside(loop, inLoop)) && Good(f, next)
    requires StmtIn(f, s, bb, |f0.code[bb]|, d, 0, loop) && d in f.code && f.code[d] == []
    requires inLoop ==> JudgeReached(f0, f, loop.judge, Continues(s.taken) || Continues(s.otherwise))
    ensures StmtDone(f0, f, next, s, bb, d, loop, inLoop) && Jumps(s)
  {
    hide StmtIn, Grown, PredsKept, Created, Mirrors, JudgeReached;
  }

  lemma IfElseDone(f0: Func, f6: Func, f: Func, next: nat, s: Stmt, bb: Block, d: Block, loop: Loop, inLoop: bool)
    requires s.IfElse? && !(Jumps(s.taken) && Jumps(s.otherwise)) && Rel(f0, f, bb, Outside(loop, inLoop)) && Good(f, next) && Open(f, d)
    requires StmtIn(f6, s, bb, |f0.code[bb]|, d, 0, loop) && Extends(f6, f) && d in f.code && f.code[d] == [] && d !in f0.code
    requires inLoop ==> JudgeReached(f0, f, loop.judge, Continues(s.taken) || Continues(s.otherwise))
    ensures StmtDone(f0, f, next, s, bb, d, loop, inLoop) && !Jumps(s)
  {
    StmtStays(f6, f, s, bb, |f0.code[bb]|, d, 0, loop);
    hide StmtIn, Grown, PredsKept, Created, Mirrors, JudgeReached;
  }

  // loops

  lemma JudgeUnreached(f0: Func, f1: Func, f2: Func, f3: Func, n: nat, c: Cond, bb: Block, made: set<Block>, b: Block, t: Block, e: Block, judge: Block)
    requires Prepared(f0, f1, bb, made) && judge in made && judge != t && judge != e
    requires CondDone(f1, f2, n, c, bb, b, t, e) && PredsKept(f2, f3, {t, e})
    ensures judge in f3.preds && f3.preds[judge] == {}
  {
    hide Created, Mirrors, CondIn, Extends;
  }

  lemma AfterBody(f0: Func, f3: Func, f4: Func, next: nat, s: Stmt, bb: Block, t: Block, own: Loop, loop: Loop)
    requires s.While? && Rel(f0, f3, bb, {}) && BranchDone(f3, f4, next, s, s.body, t, own.judge, own, true)
    requires t !in f0.code && own.judge !in f0.code && own.end !in f0.code && t != own.judge && t != own.end
    requires own.judge in f3.preds && f3.preds[own.judge] == {} && own.judge in f3.code && f3.code[own.judge] == [] && own.end in f3.code && f3.code[own.end] == []
    requires JudgeReached(f0, f3, loop.judge, false) && t in f3.code
    ensures Rel(f0, f4, bb, {}) && t in f4.code && Good(f4, next) && Extends(f3, f4) && BranchIn(f4, s, s.body, t, own.judge, own)
    ensures own.judge in f4.preds && (f4.preds[own.judge] != {} <==> Continues(s.body) || !Jumps(s.body))
    ensures own.judge in f4.code && f4.code[own.judge] == [] && own.end in f4.code && f4.code[own.end] == []
    ensures JudgeReached(f0, f4, loop.judge, false)
  {
    hide Good, BranchIn, Jumps, Continues;
    GrownTwice(f0, f3, f4, bb, t);
    BodyPreds(f0, f3, f4, own, loop.judge);
  }

  lemma BodyPreds(f: Func, g: Func, h: Func, own: Loop, judge: Block)
    requires PredsKept(f, g, {}) && PredsKept(g, h, {own.judge, own.end} + {own.judge}) && own.judge !in f.preds && own.end !in f.preds
    ensures PredsKept(f, h, {}) && JudgeReached(f, h, judge, false)
  {
  }

  lemma ListJudge(f0: Func, f: Func, next: nat, bb: Block, judge: Block, t: Block, e: Block, loop: Loop)
    requires Good(f, next) && Rel(f0, f, bb, {}) && judge in f.code && f.code[judge] == [] && t in f.code && e in f.code
    ensures var g := Listed(f, judge);
            && Good(g, next) && Open(g, judge) && Rel(f0, g, bb, {}) && Extends(f, g) && g.code == f.code && g.preds == f.preds
            && t in g.preds && e in g.preds && g.code.Keys == g.preds.Keys == g.succs.Keys
            && JudgeReached(f0, g, loop.judge, false)
  {
    ListKeeps(f, next, judge, {});
    hide Mirrors;
    ExtendsTwice(f0, f, Listed(f, judge));
  }

  /** The judge block is lowered like the condition before the loop. */
  lemma JudgeDone(f0: Func, f3: Func, f4: Func, f5: Func, f6: Func, f7: Func, n: nat, s: Stmt, bb: Block, t: Block, j: Block, own: Loop, loop: Loop)
    requires s.While? && Rel(f0, f5, bb, {}) && Extends(f3, f4) && Extends(f4, f5) && BranchIn(f4, s, s.body, t, own.judge, own)
    requires own.judge in f5.code && f5.code[own.judge] == [] && CondDone(f5, f6, n, s.cond, own.judge, j, t, own.end)
    requires Extends(f6, f7) && f7.code == f6.code && PredsKept(f6, f7, {t, own.end})
    requires own.judge !in f0.code && t !in f0.code && own.end !in f0.code && own.end in f5.code && f5.code[own.end] == [] && own.end != own.judge
    ensures Rel(f0, f7, bb, {}) && Extends(f3, f7) && BodyIn(f7, s, t, own.judge, own.end) && own.end in f7.code && f7.code[own.end] == []
    ensures JudgeReached(f0, f7, loop.judge, false)
  {
    hide Created, Mirrors, BranchIn, CondIn, PredsKept, Jumps, Continues;
    GrownTwice(f0, f5, f6, bb, own.judge);
    ExtendsTwice(f0, f6, f7);
    ExtendsTwice(f5, f6, f7);
    ExtendsTwice(f4, f5, f7);
    ExtendsTwice(f3, f4, f7);
    BranchStays(f4, f7, s, s.body, t, own.judge, own);
    CondStays(f6, f7, s.cond, own.judge, 0, t, own.end);
    CondPreds(f0, f5, f6, f7, t, own.end, loop.judge);
  }

  /** Nothing comes back to the condition. */
  lemma ListEnd(f0: Func, f3: Func, f4: Func, next: nat, s: Stmt, bb: Block, t: Block, own: Loop, loop: Loop)
    requires s.While? && Good(f4, next) && Rel(f0, f4, bb, {}) && Extends(f3, f4) && BranchIn(f4, s, s.body, t, own.judge, own)
    requires !(Continues(s.body) || !Jumps(s.body)) && own.end in f4.code && f4.code[own.end] == []
    ensures var f7 := Listed(f4, own.end);
            && Good(f7, next) && Rel(f0, f7, bb, {}) && Extends(f3, f7) && BodyIn(f7, s, t, own.judge, own.end) && Open(f7, own.end)
            && own.end in f7.code && f7.code[own.end] == [] && JudgeReached(f0, f7, loop.judge, false)
  {
    var f7 := Listed(f4, own.end);
    ListKeeps(f4, next, own.end, {});
    hide Created, Mirrors, BranchIn, CondIn, Jumps, Continues;
    ExtendsTwice(f0, f4, f7);
    ExtendsTwice(f3, f4, f7);
    BranchStays(f4, f7, s, s.body, t, own.judge, own);
  }

  lemma WhileDone(f0: Func, f3: Func, f: Func, next: nat, s: Stmt, bb: Block, t: Block, own: Loop, loop: Loop, inLoop: bool)
    requires s.While? && bb in f0.code && CondIn(f3, s.cond, bb, |f0.code[bb]|, t, own.end) && Extends(f3, f) && BodyIn(f, s, t, own.judge, own.end)
    requires Good(f, next) && Rel(f0, f, bb, {}) && Open(f, own.end) && own.end in f.code && f.code[own.end] == [] && own.end !in f0.code
    requires JudgeReached(f0, f, loop.judge, false)
    ensures StmtDone(f0, f, next, s, bb, own.end, loop, inLoop) && !Jumps(s)
  {
    hide Created, Mirrors, CondIn, BodyIn, Extends;
    CondStays(f3, f, s.cond, bb, |f0.code[bb]|, t, own.end);
  }
}
