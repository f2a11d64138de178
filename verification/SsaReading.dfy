/**
  Reading a variable and sealing a block, as functions of the builder and of the orders
  in which unordered sets are gone through.
 */
module SsaReading {
  import opened Cfg
  import opened Ssa
  import opened SsaConstruction
  import opened SsaCascade
  import opened SsaCollapse

  /** Users of a phi, predecessors of a block, and places waiting in a block, each in some order. */
  datatype Orders = Orders(users: UserOrder, preds: (Builder, Block) -> seq<Block>, waiting: (Builder, Block) -> seq<Place>)

  ghost predicate OrdersOk(o: Orders) {
    && VisitsUsers(o.users)
    && (forall s: Builder, b :: b in s.preds ==> Enumerates(o.preds(s, b), s.preds[b]))
    && (forall s, b :: Enumerates(o.waiting(s, b), WaitingIn(s, b)))
  }

  lemma OrdersExist() returns (o: Orders)
    ensures OrdersOk(o)
  {
    o := Orders((s: Builder, x: Id) => AnEnumeration(PhiUsers(s, x)),
                (s: Builder, b: Block) => if b in s.preds then AnEnumeration(s.preds[b]) else [],
                (s: Builder, b: Block) => AnEnumeration(WaitingIn(s, b)));
  }

  function WaitingIn(s: Builder, b: Block): set<Place> {
    set p | p in s.incomplete && p.block == b
  }

  /** The builder after an operation, the value it returns, and whether every phi whose removal mattered went safely. */
  datatype Reading = Reading(state: Builder, value: Value, right: bool)

  /** The state when all operands are there; what removing the phi makes of it; and the value then returned. */
  datatype Addition = Addition(gathered: Builder, right: bool, state: Builder, value: Value)

  /** Chains of single predecessors end, and each order goes through what it should. */
  ghost predicate Searchable(s: Builder, dist: map<Block, nat>, bound: nat, o: Orders) {
    Grounded(s.preds, dist, bound) && OrdersOk(o)
  }

  ghost function ReadVariable(s: Builder, b: Block, v: Variable, dist: map<Block, nat>, bound: nat, o: Orders): (r: Reading)
    requires b in s.preds && Searchable(s, dist, bound, o)
    ensures Grows(s, r.state)
    decreases Missing(s, v), dist[b], 2, 0
  {
    if Place(b, v) in s.defs then
      GrowsItself(s, v);
      Reading(s, s.defs[Place(b, v)], true)
    else ReadRecursively(s, b, v, dist, bound, o)
  }

  ghost function ReadRecursively(s: Builder, b: Block, v: Variable, dist: map<Block, nat>, bound: nat, o: Orders): (r: Reading)
    requires b in s.preds && Searchable(s, dist, bound, o) && Place(b, v) !in s.defs
    ensures Grows(s, r.state)
    decreases Missing(s, v), dist[b], 1, 0
  {
    var p := Place(b, v);
    PhiGrows(s, p);
    if b !in s.sealed then
      var x := Id(s.next);
      Reading(WithPhi(s, p).(incomplete := s.incomplete[p := x]), Result(x), true)
    else if |s.preds[b]| == 1 then
      OnePredecessor(s, b, dist, bound, o);
      var r := ReadVariable(s, o.preds(s, b)[0], v, dist, bound, o);
      DefGrows(s, r.state, p, r.value);
      Reading(WithDef(r.state, p, r.value), r.value, r.right)
    else
      var x := Id(s.next);
      var a := AddOperands(WithPhi(s, p), x, p, dist, bound, o);
      GrowsTwice(s, WithPhi(s, p), a.state);
      DefGrows(s, a.state, p, a.value);
      PhiStays(WithPhi(s, p), a, x);
      Reading(WithDef(a.state, p, a.value), a.value, a.right && Safe(a.gathered, x))
  }

  ghost function AddOperands(s: Builder, x: Id, p: Place, dist: map<Block, nat>, bound: nat, o: Orders): (a: Addition)
    requires x in s.phis && p.block in s.preds && Searchable(s, dist, bound, o)
    ensures Grows(s, a.gathered) && Grows(s, a.state) && x in a.gathered.phis
    decreases Missing(s, p.variable), bound, 1, 0
  {
    OrderOfPreds(s, p.block, o);
    var g := Gather(s, x, p, o.preds(s, p.block), dist, bound, o);
    var c := Cascade(g.state, x, o.users);
    ShapeGrows(g.state, c.state);
    GrowsTwice(s, g.state, c.state);
    Addition(g.state, g.right, c.state, c.value)
  }

  /** The operands of the given predecessors, one after the other. */
  ghost function Gather(s: Builder, x: Id, p: Place, blocks: seq<Block>, dist: map<Block, nat>, bound: nat, o: Orders): (r: Reading)
    requires x in s.phis && p.block in s.preds && Searchable(s, dist, bound, o) && forall q :: q in blocks ==> q in s.preds[p.block]
    ensures Grows(s, r.state) && x in r.state.phis
    decreases Missing(s, p.variable), bound, 0, |blocks|
  {
    GrowsItself(s, p.variable);
    if blocks == [] then Reading(s, Result(x), true)
    else
      var q := blocks[0];
      BeforeOperand(s, s, p.variable, dist, bound, p.block, q);
      var r := ReadVariable(s, q, p.variable, dist, bound, o);
      AfterOperand(s, s, r.state, x, q, r.value);
      var t := WithOperand(r.state, x, q, r.value);
      MissingLess(s, t, p.variable);
      var rest := Gather(t, x, p, blocks[1..], dist, bound, o);
      GrowsTwice(s, t, rest.state);
      Reading(rest.state, rest.value, r.right && rest.right)
  }

  lemma OnePredecessor(s: Builder, b: Block, dist: map<Block, nat>, bound: nat, o: Orders)
    requires b in s.preds && Searchable(s, dist, bound, o) && |s.preds[b]| == 1
    ensures var q := o.preds(s, b); |q| > 0 && s.preds[b] == {q[0]} && q[0] in s.preds && q[0] in dist && b in dist && dist[q[0]] < dist[b]
  {
    OrderOfPreds(s, b, o);
    OnlyPredecessor(s.preds[b], o.preds(s, b), s.preds, dist, bound, b);
  }

  lemma OrderOfPreds(s: Builder, b: Block, o: Orders)
    requires b in s.preds && OrdersOk(o)
    ensures forall q :: q in o.preds(s, b) <==> q in s.preds[b]
    ensures forall i, j :: 0 <= i < j < |o.preds(s, b)| ==> o.preds(s, b)[i] != o.preds(s, b)[j]
    ensures VisitsUsers(o.users)
  {
    assert Enumerates(o.preds(s, b), s.preds[b]);
  }

  lemma PhiStays(s: Builder, a: Addition, x: Id)
    requires x in s.phis && Grows(s, a.gathered)
    ensures x in a.gathered.phis
  {
  }

  // ----- sealing -----

  /** The waiting phis of a block, one after the other; what removing them returns is not used. */
  ghost function CompleteAll(s: Builder, b: Block, places: seq<Place>, dist: map<Block, nat>, bound: nat, o: Orders): (r: Reading)
    requires b in s.preds && Searchable(s, dist, bound, o) && Rooted(s)
    requires forall p :: p in places ==> p in s.incomplete && p.block == b
    ensures Grows(s, r.state) && Rooted(r.state)
    decreases |places|
  {
    GrowsItself(s, 0);
    if places == [] then Reading(s, Undefined(0), true)
    else
      var p := places[0];
      var a := AddOperands(s, s.incomplete[p], p, dist, bound, o);
      WaitingStays(s, a.state, b, places);
      var rest := CompleteAll(a.state, b, places[1..], dist, bound, o);
      GrowsTwice(s, a.state, rest.state);
      Reading(rest.state, rest.value, a.right && rest.right)
  }

  lemma WaitingStays(s: Builder, t: Builder, b: Block, places: seq<Place>)
    requires Rooted(s) && Grows(s, t) && forall p :: p in places ==> p in s.incomplete && p.block == b
    ensures Rooted(t) && t.preds == s.preds && forall p :: p in places ==> p in t.incomplete && p.block == b
  {
  }

  /** Sealing b; the outcome's value means nothing. */
  ghost function Seal(s: Builder, b: Block, dist: map<Block, nat>, bound: nat, o: Orders): Reading
    requires b in s.preds && Searchable(s, dist, bound, o) && Rooted(s)
  {
    assert Enumerates(o.waiting(s, b), WaitingIn(s, b));
    var r := CompleteAll(s, b, o.waiting(s, b), dist, bound, o);
    Reading(Sealed(r.state, b), r.value, r.right)
  }

  // ----- the steps, one at a time -----

  lemma ReadKnown(s: Builder, b: Block, v: Variable, dist: map<Block, nat>, bound: nat, o: Orders)
    requires b in s.preds && Searchable(s, dist, bound, o)
    ensures Place(b, v) in s.defs ==> ReadVariable(s, b, v, dist, bound, o) == Reading(s, s.defs[Place(b, v)], true)
    ensures Place(b, v) !in s.defs ==> ReadVariable(s, b, v, dist, bound, o) == ReadRecursively(s, b, v, dist, bound, o)
  {
  }

  lemma ReadUnsealed(s: Builder, b: Block, v: Variable, dist: map<Block, nat>, bound: nat, o: Orders)
    requires b in s.preds && Searchable(s, dist, bound, o) && Place(b, v) !in s.defs && b !in s.sealed
    ensures var p := Place(b, v); var x := Id(s.next);
            ReadRecursively(s, b, v, dist, bound, o)
            == Reading(WithPhi(s, p).(incomplete := s.incomplete[p := x]), Result(x), true)
  {
  }

  lemma ReadSingle(s: Builder, b: Block, v: Variable, dist: map<Block, nat>, bound: nat, o: Orders)
    requires b in s.preds && Searchable(s, dist, bound, o) && Place(b, v) !in s.defs && b in s.sealed && |s.preds[b]| == 1
    ensures var qs := o.preds(s, b); |qs| > 0 && s.preds[b] == {qs[0]} && qs[0] in s.preds
    ensures b in dist && o.preds(s, b)[0] in dist && dist[o.preds(s, b)[0]] < dist[b]
    ensures var r := ReadVariable(s, o.preds(s, b)[0], v, dist, bound, o);
            ReadRecursively(s, b, v, dist, bound, o) == Reading(WithDef(r.state, Place(b, v), r.value), r.value, r.right)
  {
    OnePredecessor(s, b, dist, bound, o);
  }

  /** A way up through sealed blocks with one predecessor each, to a block that has a value of v. */
  ghost predicate Chain(s: Builder, w: seq<Block>, v: Variable) {
    && |w| > 0 && Place(w[|w| - 1], v) in s.defs
    && forall i :: 0 <= i < |w| - 1 ==>
         w[i] in s.preds && w[i] in s.sealed && s.preds[w[i]] == {w[i + 1]} && Place(w[i], v) !in s.defs
  }

  /** From s to t only the blocks of the way got a value of v, namely a. */
  ghost predicate ReadAlong(s: Builder, t: Builder, w: seq<Block>, v: Variable, a: Value) {
    && t == s.(defs := t.defs)
    && (forall p :: p in t.defs <==> p in s.defs || (p.variable == v && p.block in w))
    && (forall p :: p in s.defs ==> t.defs[p] == s.defs[p])
    && forall p :: p in t.defs && p.variable == v && p.block in w ==> t.defs[p] == a
  }

  lemma OneMoreBlock(s: Builder, t: Builder, w: seq<Block>, v: Variable, a: Value)
    requires |w| > 1 && ReadAlong(s, t, w[1..], v, a) && Place(w[0], v) !in s.defs
    ensures ReadAlong(s, WithDef(t, Place(w[0], v), a), w, v, a)
  {
    assert w == [w[0]] + w[1..];
  }

  /** Reading along such a way gives the value at its end; no phi is made. */
  lemma {:induction false} ReadAlongChain(s: Builder, v: Variable, dist: map<Block, nat>, bound: nat, o: Orders, w: seq<Block>)
    requires Searchable(s, dist, bound, o) && Chain(s, w, v) && w[0] in s.preds
    ensures var r, a := ReadVariable(s, w[0], v, dist, bound, o), s.defs[Place(w[|w| - 1], v)];
            r.value == a && r.right && ReadAlong(s, r.state, w, v, a)
    decreases |w|
  {
    var b, a := w[0], s.defs[Place(w[|w| - 1], v)];
    if |w| > 1 {
      hide Searchable, ReadRecursively, ReadAlong;
      assert s.preds[w[0]] == {w[0 + 1]};
      ReadSingle(s, b, v, dist, bound, o);
      assert o.preds(s, b)[0] == w[1];
      ChainRest(s, w, v);
      ReadAlongChain(s, v, dist, bound, o, w[1..]);
      OneMoreBlock(s, ReadVariable(s, w[1], v, dist, bound, o).state, w, v, a);
    }
  }

  lemma ChainRest(s: Builder, w: seq<Block>, v: Variable)
    requires Chain(s, w, v) && |w| > 1
    ensures Chain(s, w[1..], v)
  {
    forall i | 0 <= i < |w| - 2 ensures s.preds[w[1..][i]] == {w[1..][i + 1]} {
      assert s.preds[w[i + 1]] == {w[i + 1 + 1]};
    }
  }

  lemma ReadMerging(s: Builder, b: Block, v: Variable, dist: map<Block, nat>, bound: nat, o: Orders)
    requires b in s.preds && Searchable(s, dist, bound, o) && Place(b, v) !in s.defs && b in s.sealed && |s.preds[b]| != 1
    ensures var p := Place(b, v); var t := WithPhi(s, p); var x := Id(s.next);
            && x in t.phis && Searchable(t, dist, bound, o) && b in t.preds && VisitsUsers(o.users)
            && var a := AddOperands(t, x, p, dist, bound, o);
               ReadRecursively(s, b, v, dist, bound, o)
               == Reading(WithDef(a.state, p, a.value), a.value, a.right && Safe(a.gathered, x))
  {
    PhiGrows(s, Place(b, v));
  }

  ghost predicate MayGatherFrom(s: Builder, x: Id, p: Place, blocks: seq<Block>, dist: map<Block, nat>, bound: nat, o: Orders) {
    x in s.phis && p.block in s.preds && Searchable(s, dist, bound, o) && forall q :: q in blocks ==> q in s.preds[p.block]
  }

  ghost function GatherFrom(s: Builder, x: Id, p: Place, blocks: seq<Block>, i: nat, dist: map<Block, nat>, bound: nat, o: Orders): Reading
    requires i <= |blocks| && MayGatherFrom(s, x, p, blocks, dist, bound, o)
  {
    Gather(s, x, p, blocks[i..], dist, bound, o)
  }

  lemma FirstGather(s: Builder, x: Id, p: Place, dist: map<Block, nat>, bound: nat, o: Orders)
    requires x in s.phis && p.block in s.preds && Searchable(s, dist, bound, o)
    ensures var blocks := o.preds(s, p.block);
            && MayGatherFrom(s, x, p, blocks, dist, bound, o) && VisitsUsers(o.users)
            && (forall q :: q in blocks <==> q in s.preds[p.block])
            && var g := GatherFrom(s, x, p, blocks, 0, dist, bound, o);
               && x in g.state.phis
               && var c := Cascade(g.state, x, o.users);
                  AddOperands(s, x, p, dist, bound, o) == Addition(g.state, g.right, c.state, c.value)
  {
    OrderOfPreds(s, p.block, o);
    assert o.preds(s, p.block)[0..] == o.preds(s, p.block);
  }

  lemma NextGather(s: Builder, x: Id, p: Place, blocks: seq<Block>, i: nat, dist: map<Block, nat>, bound: nat, o: Orders)
    requires i < |blocks| && MayGatherFrom(s, x, p, blocks, dist, bound, o)
    ensures var q := blocks[i];
            && q in s.preds && Searchable(s, dist, bound, o)
            && var r := ReadVariable(s, q, p.variable, dist, bound, o);
               && x in r.state.phis
               && var t := WithOperand(r.state, x, q, r.value);
                  && MayGatherFrom(t, x, p, blocks, dist, bound, o)
                  && var rest := GatherFrom(t, x, p, blocks, i + 1, dist, bound, o);
                     GatherFrom(s, x, p, blocks, i, dist, bound, o) == Reading(rest.state, rest.value, r.right && rest.right)
  {
    BeforeOperand(s, s, p.variable, dist, bound, p.block, blocks[i]);
    assert blocks[i..][1..] == blocks[i + 1..] && blocks[i..][0] == blocks[i];
    var r := ReadVariable(s, blocks[i], p.variable, dist, bound, o);
    GrowsItself(s, p.variable);
    AfterOperand(s, s, r.state, x, blocks[i], r.value);
  }

  lemma LastGather(s: Builder, x: Id, p: Place, blocks: seq<Block>, dist: map<Block, nat>, bound: nat, o: Orders)
    requires MayGatherFrom(s, x, p, blocks, dist, bound, o)
    ensures GatherFrom(s, x, p, blocks, |blocks|, dist, bound, o) == Reading(s, Result(x), true)
  {
  }

  ghost predicate MayComplete(s: Builder, b: Block, places: seq<Place>, dist: map<Block, nat>, bound: nat, o: Orders) {
    b in s.preds && Searchable(s, dist, bound, o) && Rooted(s) && forall p :: p in places ==> p in s.incomplete && p.block == b
  }

  ghost function CompleteFrom(s: Builder, b: Block, places: seq<Place>, i: nat, dist: map<Block, nat>, bound: nat, o: Orders): Reading
    requires i <= |places| && MayComplete(s, b, places, dist, bound, o)
  {
    CompleteAll(s, b, places[i..], dist, bound, o)
  }

  lemma FirstComplete(s: Builder, b: Block, dist: map<Block, nat>, bound: nat, o: Orders)
    requires b in s.preds && Searchable(s, dist, bound, o) && Rooted(s)
    ensures var places := o.waiting(s, b);
            && MayComplete(s, b, places, dist, bound, o)
            && (forall p :: p in places <==> p in s.incomplete && p.block == b)
            && (forall i, j :: 0 <= i < j < |places| ==> places[i] != places[j])
            && var r := CompleteFrom(s, b, places, 0, dist, bound, o);
               Seal(s, b, dist, bound, o) == Reading(Sealed(r.state, b), r.value, r.right)
  {
    assert Enumerates(o.waiting(s, b), WaitingIn(s, b));
    assert o.waiting(s, b)[0..] == o.waiting(s, b);
  }

  lemma NextComplete(s: Builder, b: Block, places: seq<Place>, i: nat, dist: map<Block, nat>, bound: nat, o: Orders)
    requires i < |places| && MayComplete(s, b, places, dist, bound, o)
    ensures var p := places[i];
            && p in s.incomplete && s.incomplete[p] in s.phis && p.block in s.preds
            && var a := AddOperands(s, s.incomplete[p], p, dist, bound, o);
               && MayComplete(a.state, b, places, dist, bound, o)
               && var rest := CompleteFrom(a.state, b, places, i + 1, dist, bound, o);
                  CompleteFrom(s, b, places, i, dist, bound, o) == Reading(rest.state, rest.value, a.right && rest.right)
  {
    assert places[i..][1..] == places[i + 1..] && places[i..][0] == places[i];
    var a := AddOperands(s, s.incomplete[places[i]], places[i], dist, bound, o);
    WaitingStays(s, a.state, b, places);
  }

  lemma LastComplete(s: Builder, b: Block, places: seq<Place>, dist: map<Block, nat>, bound: nat, o: Orders)
    requires MayComplete(s, b, places, dist, bound, o)
    ensures CompleteFrom(s, b, places, |places|, dist, bound, o) == Reading(s, Undefined(0), true)
  {
  }

  lemma SearchableParts(s: Builder, dist: map<Block, nat>, bound: nat, o: Orders)
    requires Searchable(s, dist, bound, o)
    ensures Grounded(s.preds, dist, bound) && VisitsUsers(o.users)
    ensures forall t: Builder :: t.preds == s.preds ==> Searchable(t, dist, bound, o)
  {
  }

  lemma GatheredIsLive(s0: Builder, labels0: map<Place, Value>, s: Builder, labels: map<Place, Value>, forward: map<Id, Value>,
                       x: Id, p: Place, done: set<Block>)
    requires Gathering(s0, labels0, s, labels, forward, x, p, done)
    ensures x in s.phis && s.phis[x].live
  {
  }

  /** What adding operands returns is still there if the removal is safe. */
  lemma SafeAddition(s: Builder, x: Id, p: Place, dist: map<Block, nat>, bound: nat, o: Orders)
    requires x in s.phis && p.block in s.preds && Searchable(s, dist, bound, o)
    requires var g := AddOperands(s, x, p, dist, bound, o).gathered; g.phis[x].live && Tidy(g)
    ensures var a := AddOperands(s, x, p, dist, bound, o);
            Safe(a.gathered, x) ==> !IsRemoved(a.state, a.value)
  {
    hide AddOperands, Safe, Tidy, Cascade, GatherFrom;
    FirstGather(s, x, p, dist, bound, o);
    var a := AddOperands(s, x, p, dist, bound, o);
    if Safe(a.gathered, x) {
      SafeIsRight(a.gathered, x, o.users);
    }
  }
}
