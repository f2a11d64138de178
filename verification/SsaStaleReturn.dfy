/**
  A read that hands out a removed phi, whatever the orders: the removal of a trivial phi
  takes the phi it means to return with it.
 */
module SsaStaleReturn {
  import opened Cfg
  import opened Ssa
  import opened SsaConstruction
  import opened SsaCascade
  import opened SsaCollapse
  import opened SsaReading
  import opened SsaBuilding

  const OUTSIDE := Block(0)
  const HEADER := Block(1)
  const INNER := Block(2)
  const LATCH := Block(3)

  const AT_INNER := Place(INNER, 0)
  const AT_HEADER := Place(HEADER, 0)
  const AT_LATCH := Place(LATCH, 0)

  /** INNER loops on itself, HEADER leads to INNER and LATCH, LATCH back to HEADER. */
  function Edges(): map<Block, set<Block>> {
    map[OUTSIDE := {}, HEADER := {OUTSIDE, LATCH}, INNER := {HEADER, INNER}, LATCH := {INNER, HEADER}]
  }

  /** All blocks are sealed; variable 0 is 7 from OUTSIDE on, and has not been read. */
  function Before(): Builder {
    Builder(Edges(), {OUTSIDE, HEADER, INNER, LATCH}, map[Place(OUTSIDE, 0) := Number(7)], map[], map[],
            map[OUTSIDE := [Assign(0, Number(7))], HEADER := [], INNER := [], LATCH := []], 0)
  }

  // ----- the phis of one read -----

  type Operands = map<Block, Value>

  function OfInner(): Operands {
    map[HEADER := Result(Id(1)), INNER := Result(Id(0))]
  }

  function OfHeader(): Operands {
    map[OUTSIDE := Number(7), LATCH := Result(Id(2))]
  }

  function OfLatch(): Operands {
    map[INNER := Result(Id(0)), HEADER := Result(Id(1))]
  }

  /** One, two and three phis placed, with the operands they have so far. */
  function One(a: Operands): Builder {
    Before().(defs := Before().defs[AT_INNER := Result(Id(0))], phis := map[Id(0) := Phi(INNER, 0, a, true)], next := 1)
  }

  function Two(a: Operands, b: Operands): Builder {
    One(a).(defs := One(a).defs[AT_HEADER := Result(Id(1))], phis := One(a).phis[Id(1) := Phi(HEADER, 0, b, true)], next := 2)
  }

  function Three(a: Operands, b: Operands, c: Operands): Builder {
    Two(a, b).(defs := Two(a, b).defs[AT_LATCH := Result(Id(2))], phis := Two(a, b).phis[Id(2) := Phi(LATCH, 0, c, true)], next := 3)
  }

  /** The state in which the phi of INNER, the outermost one, is looked at. */
  function StaleState(): Builder {
    Three(OfInner(), OfHeader(), OfLatch())
  }

  ghost predicate Searches(dist: map<Block, nat>, bound: nat, o: Orders) {
    Grounded(Edges(), dist, bound) && OrdersOk(o)
  }

  lemma Shapes(a: Operands, b: Operands, c: Operands)
    ensures One(a) == WithPhi(Before(), AT_INNER).(phis := map[Id(0) := Phi(INNER, 0, a, true)])
    ensures Two(a, b) == WithPhi(One(a), AT_HEADER).(phis := One(a).phis[Id(1) := Phi(HEADER, 0, b, true)])
    ensures Three(a, b, c) == WithPhi(Two(a, b), AT_LATCH).(phis := Two(a, b).phis[Id(2) := Phi(LATCH, 0, c, true)])
    ensures WithPhi(Before(), AT_INNER) == One(map[]) && WithPhi(One(a), AT_HEADER) == Two(a, map[])
    ensures WithPhi(Two(a, b), AT_LATCH) == Three(a, b, map[])
  {
  }

  lemma MoreOfOne(a: Operands, q: Block, v: Value)
    ensures Id(0) in One(a).phis && WithOperand(One(a), Id(0), q, v) == One(a[q := v])
  {
    assert WithOperand(One(a), Id(0), q, v).phis == One(a[q := v]).phis;
  }

  lemma MoreOfTwo(a: Operands, b: Operands, q: Block, v: Value)
    ensures Id(1) in Two(a, b).phis && WithOperand(Two(a, b), Id(1), q, v) == Two(a, b[q := v])
  {
    assert WithOperand(Two(a, b), Id(1), q, v).phis == Two(a, b[q := v]).phis;
  }

  lemma MoreOfThree(a: Operands, b: Operands, c: Operands, q: Block, v: Value)
    ensures Three(a, b, c).phis.Keys == {Id(0), Id(1), Id(2)}
    ensures WithOperand(Three(a, b, c), Id(0), q, v) == Three(a[q := v], b, c)
    ensures WithOperand(Three(a, b, c), Id(1), q, v) == Three(a, b[q := v], c)
    ensures WithOperand(Three(a, b, c), Id(2), q, v) == Three(a, b, c[q := v])
  {
    assert Three(a, b, c).phis.Keys == {Id(0), Id(1), Id(2)};
    ThirdOperand(a, b, c, q, v);
    SecondOperand(a, b, c, q, v);
    assert WithOperand(Three(a, b, c), Id(0), q, v).phis == Three(a[q := v], b, c).phis;
  }

  lemma ThirdOperand(a: Operands, b: Operands, c: Operands, q: Block, v: Value)
    ensures Id(2) in Three(a, b, c).phis && WithOperand(Three(a, b, c), Id(2), q, v) == Three(a, b, c[q := v])
  {
    assert WithOperand(Three(a, b, c), Id(2), q, v).phis == Three(a, b, c[q := v]).phis;
  }

  lemma SecondOperand(a: Operands, b: Operands, c: Operands, q: Block, v: Value)
    ensures Id(1) in Three(a, b, c).phis && WithOperand(Three(a, b, c), Id(1), q, v) == Three(a, b[q := v], c)
  {
    assert WithOperand(Three(a, b, c), Id(1), q, v).phis == Three(a, b[q := v], c).phis;
  }

  /** What is known where. */
  lemma KnownThere(a: Operands, b: Operands, c: Operands)
    ensures One(a).preds == Edges() && Two(a, b).preds == Edges() && Three(a, b, c).preds == Edges()
    ensures Id(0) in One(a).phis && Id(1) in Two(a, b).phis && Id(2) in Three(a, b, c).phis
    ensures Holds(One(a), AT_INNER, Id(0)) && Holds(Two(a, b), AT_INNER, Id(0)) && Holds(Three(a, b, c), AT_INNER, Id(0))
    ensures Holds(Two(a, b), AT_HEADER, Id(1)) && Holds(Three(a, b, c), AT_HEADER, Id(1))
    ensures forall s :: Holds(s, AT_INNER, Id(0)) ==> AT_INNER in s.defs && s.defs[AT_INNER] == Result(Id(0))
    ensures forall s :: Holds(s, AT_HEADER, Id(1)) ==> AT_HEADER in s.defs && s.defs[AT_HEADER] == Result(Id(1))
    ensures Seven(One(a)) && Seven(Two(a, b)) && Seven(Three(a, b, c))
    ensures forall s :: Seven(s) ==> Place(OUTSIDE, 0) in s.defs && s.defs[Place(OUTSIDE, 0)] == Number(7)
    ensures AT_INNER == Place(INNER, 0) && AT_HEADER == Place(HEADER, 0) && AT_LATCH == Place(LATCH, 0)
    ensures OUTSIDE != HEADER && OUTSIDE != INNER && OUTSIDE != LATCH && HEADER != INNER && HEADER != LATCH && INNER != LATCH
  {
  }

  predicate Holds(s: Builder, p: Place, x: Id) {
    p in s.defs && s.defs[p] == Result(x)
  }

  predicate Seven(s: Builder) {
    Place(OUTSIDE, 0) in s.defs && s.defs[Place(OUTSIDE, 0)] == Number(7)
  }

  lemma Maps()
    ensures map[OUTSIDE := Number(7)][LATCH := Result(Id(2))] == OfHeader()
    ensures map[LATCH := Result(Id(2))][OUTSIDE := Number(7)] == OfHeader()
    ensures map[INNER := Result(Id(0))][HEADER := Result(Id(1))] == OfLatch()
    ensures map[HEADER := Result(Id(1))][INNER := Result(Id(0))] == OfLatch()
    ensures OfInner() == OfLatch()
  {
  }

  lemma SameDefs(a: Operands, b: Operands, c: Operands)
    ensures WithDef(Three(a, b, c), AT_LATCH, Result(Id(2))) == Three(a, b, c)
    ensures WithDef(Three(a, b, c), AT_HEADER, Result(Id(1))) == Three(a, b, c)
  {
    assert Three(a, b, c).defs[AT_LATCH := Result(Id(2))] == Three(a, b, c).defs;
    assert Three(a, b, c).defs[AT_HEADER := Result(Id(1))] == Three(a, b, c).defs;
  }

  lemma Facts(s: Builder, dist: map<Block, nat>, bound: nat, o: Orders)
    requires Searches(dist, bound, o) && s.preds == Edges()
    ensures Searchable(s, dist, bound, o) && VisitsUsers(o.users)
    ensures INNER in s.preds && HEADER in s.preds && LATCH in s.preds && OUTSIDE in s.preds
    ensures s.preds[INNER] == {HEADER, INNER} && s.preds[HEADER] == {OUTSIDE, LATCH} && s.preds[LATCH] == {INNER, HEADER}
  {
  }

  lemma EitherWay(q: seq<Block>, a: Block, b: Block)
    requires a != b && (forall x :: x in q <==> x in {a, b}) && forall i, j :: 0 <= i < j < |q| ==> q[i] != q[j]
    ensures q == [a, b] || q == [b, a]
  {
    assert a in q && b in q;
    var i :| 0 <= i < |q| && q[i] == a;
    var j :| 0 <= j < |q| && q[j] == b;
    if |q| > 2 {
      ThirdIs(q, a, b);
    }
  }

  lemma ThirdIs(q: seq<Block>, a: Block, b: Block)
    requires |q| > 2 && (forall x :: x in q <==> x in {a, b})
    ensures q[0] == q[1] || q[0] == q[2] || q[1] == q[2]
  {
    assert q[0] in q && q[1] in q && q[2] in q;
  }

  /** Two predecessors in some order, when reading either changes at most the given things. */
  lemma OrderOf(s: Builder, b: Block, x: Block, y: Block, dist: map<Block, nat>, bound: nat, o: Orders)
    requires Searches(dist, bound, o) && s.preds == Edges() && b in s.preds && s.preds[b] == {x, y} && x != y
    ensures o.preds(s, b) == [x, y] || o.preds(s, b) == [y, x]
  {
    OrderOfPreds(s, b, o);
    EitherWay(o.preds(s, b), x, y);
  }

  // ----- reading in LATCH, HEADER and INNER -----

  /** One more predecessor, whose value is known. */
  lemma GatherKnown(s: Builder, x: Id, p: Place, blocks: seq<Block>, i: nat, dist: map<Block, nat>, bound: nat, o: Orders)
    requires i < |blocks| && MayGatherFrom(s, x, p, blocks, dist, bound, o) && Place(blocks[i], p.variable) in s.defs
    ensures var t := WithOperand(s, x, blocks[i], s.defs[Place(blocks[i], p.variable)]);
            && MayGatherFrom(t, x, p, blocks, dist, bound, o)
            && GatherFrom(s, x, p, blocks, i, dist, bound, o) == GatherFrom(t, x, p, blocks, i + 1, dist, bound, o)
  {
    NextGather(s, x, p, blocks, i, dist, bound, o);
    ReadKnown(s, blocks[i], p.variable, dist, bound, o);
  }

  lemma ReadLatch(a: Operands, b: Operands, dist: map<Block, nat>, bound: nat, o: Orders)
    requires Searches(dist, bound, o)
    ensures Two(a, b).preds == Edges() && LATCH in Two(a, b).preds && Searchable(Two(a, b), dist, bound, o)
    ensures ReadVariable(Two(a, b), LATCH, 0, dist, bound, o) == Reading(Three(a, b, OfLatch()), Result(Id(2)), true)
  {
    hide ReadVariable, ReadRecursively, AddOperands, Gather, GatherFrom, MayGatherFrom, Cascade, Safe, Searches, Searchable, Grounded, OrdersOk, VisitsUsers;
    var s, t := Two(a, b), Three(a, b, map[]);
    Facts(s, dist, bound, o);
    Facts(t, dist, bound, o);
    ReadKnown(s, LATCH, 0, dist, bound, o);
    ReadMerging(s, LATCH, 0, dist, bound, o);
    Shapes(a, b, map[]);
    LatchOperands(a, b, dist, bound, o);
    var u := Three(a, b, OfLatch());
    NotMerging(OfLatch(), LATCH, 0, Id(2), INNER, HEADER);
    NothingToRemove(u, Id(2), o.users);
    NothingIsSafe(u, Id(2));
    SameDefs(a, b, OfLatch());
  }

  lemma LatchOperands(a: Operands, b: Operands, dist: map<Block, nat>, bound: nat, o: Orders)
    requires Searches(dist, bound, o)
    ensures var t, u := Three(a, b, map[]), Three(a, b, OfLatch());
            && Id(2) in t.phis && Id(2) in u.phis && LATCH in t.preds && Searchable(t, dist, bound, o) && VisitsUsers(o.users)
            && var c := Cascade(u, Id(2), o.users);
               AddOperands(t, Id(2), AT_LATCH, dist, bound, o) == Addition(u, true, c.state, c.value)
  {
    hide *;
    var t, x, p := Three(a, b, map[]), Id(2), AT_LATCH;
    KnownThere(a, b, map[]);
    Facts(t, dist, bound, o);
    FirstGather(t, x, p, dist, bound, o);
    var qs := o.preds(t, LATCH);
    OrderOf(t, LATCH, INNER, HEADER, dist, bound, o);
    GatherKnown(t, x, p, qs, 0, dist, bound, o);
    var v0 := t.defs[Place(qs[0], 0)];
    MoreOfThree(a, b, map[], qs[0], v0);
    var c1: Operands := map[][qs[0] := v0];
    KnownThere(a, b, c1);
    GatherKnown(Three(a, b, c1), x, p, qs, 1, dist, bound, o);
    var v1 := Three(a, b, c1).defs[Place(qs[1], 0)];
    MoreOfThree(a, b, c1, qs[1], v1);
    Maps();
    BothInserted(qs[0], v0, qs[1], v1);
    KnownThere(a, b, OfLatch());
    LastGather(Three(a, b, OfLatch()), x, p, qs, dist, bound, o);
  }

  lemma BothInserted(q: Block, v: Value, r: Block, w: Value)
    ensures map[][q := v][r := w] == map[q := v][r := w]
  {
    assert map[][q := v] == map[q := v];
  }

  /** Two different operands, neither the phi itself. */
  lemma NotMerging(operands: Operands, b: Block, v: Variable, x: Id, p: Block, q: Block)
    requires p in operands && q in operands && operands[p] != operands[q] && operands[p] != Result(x) && operands[q] != Result(x)
    ensures !Mergeable(Phi(b, v, operands, true), x)
  {
  }

  /** HEADER is read while the phi of INNER has the operands a. */
  lemma ReadHeader(a: Operands, dist: map<Block, nat>, bound: nat, o: Orders)
    requires Searches(dist, bound, o)
    ensures One(a).preds == Edges() && HEADER in One(a).preds && Searchable(One(a), dist, bound, o)
    ensures ReadVariable(One(a), HEADER, 0, dist, bound, o) == Reading(Three(a, OfHeader(), OfLatch()), Result(Id(1)), true)
  {
    hide ReadVariable, ReadRecursively, AddOperands, Gather, GatherFrom, MayGatherFrom, Cascade, Safe, Searches, Searchable, Grounded, OrdersOk, VisitsUsers;
    var s, t := One(a), Two(a, map[]);
    Facts(s, dist, bound, o);
    Facts(t, dist, bound, o);
    ReadKnown(s, HEADER, 0, dist, bound, o);
    ReadMerging(s, HEADER, 0, dist, bound, o);
    Shapes(a, map[], map[]);
    HeaderOperands(a, dist, bound, o);
    var u := Three(a, OfHeader(), OfLatch());
    NotMerging(OfHeader(), HEADER, 0, Id(1), OUTSIDE, LATCH);
    NothingToRemove(u, Id(1), o.users);
    NothingIsSafe(u, Id(1));
    SameDefs(a, OfHeader(), OfLatch());
  }

  lemma HeaderOperands(a: Operands, dist: map<Block, nat>, bound: nat, o: Orders)
    requires Searches(dist, bound, o)
    ensures var t, u := Two(a, map[]), Three(a, OfHeader(), OfLatch());
            && Id(1) in t.phis && Id(1) in u.phis && HEADER in t.preds && Searchable(t, dist, bound, o) && VisitsUsers(o.users)
            && var c := Cascade(u, Id(1), o.users);
               AddOperands(t, Id(1), AT_HEADER, dist, bound, o) == Addition(u, true, c.state, c.value)
  {
    hide *;
    var t, x, p := Two(a, map[]), Id(1), AT_HEADER;
    KnownThere(a, map[], map[]);
    Facts(t, dist, bound, o);
    FirstGather(t, x, p, dist, bound, o);
    var qs := o.preds(t, HEADER);
    OrderOf(t, HEADER, OUTSIDE, LATCH, dist, bound, o);
    Maps();
    if qs == [OUTSIDE, LATCH] {
      GatherKnown(t, x, p, qs, 0, dist, bound, o);
      MoreOfTwo(a, map[], OUTSIDE, Number(7));
      var b: Operands := map[][OUTSIDE := Number(7)];
      NextGather(Two(a, b), x, p, qs, 1, dist, bound, o);
      ReadLatch(a, b, dist, bound, o);
      MoreOfThree(a, b, OfLatch(), LATCH, Result(Id(2)));
      BothInserted(OUTSIDE, Number(7), LATCH, Result(Id(2)));
    } else {
      NextGather(t, x, p, qs, 0, dist, bound, o);
      ReadLatch(a, map[], dist, bound, o);
      MoreOfThree(a, map[], OfLatch(), LATCH, Result(Id(2)));
      var b: Operands := map[][LATCH := Result(Id(2))];
      KnownThere(a, b, OfLatch());
      GatherKnown(Three(a, b, OfLatch()), x, p, qs, 1, dist, bound, o);
      MoreOfThree(a, b, OfLatch(), OUTSIDE, Number(7));
      BothInserted(LATCH, Result(Id(2)), OUTSIDE, Number(7));
    }
    MoreOfThree(a, OfHeader(), OfLatch(), OUTSIDE, Number(7));
    LastGather(Three(a, OfHeader(), OfLatch()), x, p, qs, dist, bound, o);
  }

  lemma InnerOperands(dist: map<Block, nat>, bound: nat, o: Orders)
    requires Searches(dist, bound, o)
    ensures var t, u := One(map[]), Three(OfInner(), OfHeader(), OfLatch());
            && Id(0) in t.phis && Id(0) in u.phis && INNER in t.preds && Searchable(t, dist, bound, o) && VisitsUsers(o.users)
            && var c := Cascade(u, Id(0), o.users);
               AddOperands(t, Id(0), AT_INNER, dist, bound, o) == Addition(u, true, c.state, c.value)
  {
    hide *;
    var t, x, p := One(map[]), Id(0), AT_INNER;
    KnownThere(map[], map[], map[]);
    Facts(t, dist, bound, o);
    FirstGather(t, x, p, dist, bound, o);
    var qs := o.preds(t, INNER);
    OrderOf(t, INNER, HEADER, INNER, dist, bound, o);
    Maps();
    if qs == [HEADER, INNER] {
      NextGather(t, x, p, qs, 0, dist, bound, o);
      ReadHeader(map[], dist, bound, o);
      MoreOfThree(map[], OfHeader(), OfLatch(), HEADER, Result(Id(1)));
      var a: Operands := map[][HEADER := Result(Id(1))];
      KnownThere(a, OfHeader(), OfLatch());
      GatherKnown(Three(a, OfHeader(), OfLatch()), x, p, qs, 1, dist, bound, o);
      MoreOfThree(a, OfHeader(), OfLatch(), INNER, Result(Id(0)));
      BothInserted(HEADER, Result(Id(1)), INNER, Result(Id(0)));
    } else {
      GatherKnown(t, x, p, qs, 0, dist, bound, o);
      MoreOfOne(map[], INNER, Result(Id(0)));
      var a: Operands := map[][INNER := Result(Id(0))];
      NextGather(One(a), x, p, qs, 1, dist, bound, o);
      ReadHeader(a, dist, bound, o);
      MoreOfThree(a, OfHeader(), OfLatch(), HEADER, Result(Id(1)));
      BothInserted(INNER, Result(Id(0)), HEADER, Result(Id(1)));
    }
    MoreOfThree(OfInner(), OfHeader(), OfLatch(), INNER, Result(Id(0)));
    LastGather(Three(OfInner(), OfHeader(), OfLatch()), x, p, qs, dist, bound, o);
  }

  // ----- the cascade -----

  function First(): Builder {
    Removed(StaleState(), Id(0), Result(Id(1)))
  }

  function Second(): Builder {
    Removed(First(), Id(2), Result(Id(1)))
  }

  function Third(): Builder {
    Removed(Second(), Id(1), Number(7))
  }

  lemma StalePhis()
    ensures var s := StaleState();
            && s.phis.Keys == {Id(0), Id(1), Id(2)}
            && s.phis[Id(0)] == Phi(INNER, 0, OfInner(), true)
            && s.phis[Id(1)] == Phi(HEADER, 0, OfHeader(), true)
            && s.phis[Id(2)] == Phi(LATCH, 0, OfLatch(), true)
  {
  }

  lemma PhiAfter(s: Builder, x: Id, a: Value, y: Id, operands: Operands)
    requires y in s.phis && s.phis[y].live && y != x && ReplacedIn(x, a, s.phis[y].operands) == operands
    ensures Removed(s, x, a).phis.Keys == s.phis.Keys && Removed(s, x, a).phis[y] == s.phis[y].(operands := operands)
  {
  }

  /** The phi of INNER merges that of HEADER; the phi of LATCH is its only user. */
  lemma FirstStep()
    ensures var s := StaleState();
            Id(0) in s.phis && s.phis[Id(0)].live && Merges(s.phis[Id(0)], Id(0), Result(Id(1))) && PhiUsers(s, Id(0)) == {Id(2)}
  {
    StalePhis();
    assert StaleState().phis[Id(2)].operands[INNER] == Result(Id(0));
    assert StaleState().phis[Id(0)].operands[HEADER] == Result(Id(1));
  }

  lemma FirstPhis()
    ensures var s := First();
            && s.phis.Keys == {Id(0), Id(1), Id(2)} && !s.phis[Id(0)].live
            && s.phis[Id(1)] == Phi(HEADER, 0, OfHeader(), true)
            && s.phis[Id(2)] == Phi(LATCH, 0, map[INNER := Result(Id(1)), HEADER := Result(Id(1))], true)
  {
    hide StaleState;
    StalePhis();
    var s := StaleState();
    assert ReplacedIn(Id(0), Result(Id(1)), OfHeader()) == OfHeader();
    assert ReplacedIn(Id(0), Result(Id(1)), OfLatch()) == map[INNER := Result(Id(1)), HEADER := Result(Id(1))];
    PhiAfter(s, Id(0), Result(Id(1)), Id(1), OfHeader());
    PhiAfter(s, Id(0), Result(Id(1)), Id(2), map[INNER := Result(Id(1)), HEADER := Result(Id(1))]);
  }

  /** Now that of LATCH merges the phi of HEADER too, and uses are left in HEADER only. */
  lemma SecondStep()
    ensures var s := First();
            Id(2) in s.phis && Merges(s.phis[Id(2)], Id(2), Result(Id(1))) && PhiUsers(s, Id(2)) == {Id(1)}
  {
    hide First;
    FirstPhis();
    var s := First();
    assert s.phis[Id(1)].operands[LATCH] == Result(Id(2));
    assert s.phis[Id(2)].operands[INNER] == Result(Id(1));
  }

  lemma SecondPhis()
    ensures var s := Second();
            && s.phis.Keys == {Id(0), Id(1), Id(2)} && !s.phis[Id(0)].live && !s.phis[Id(2)].live
            && s.phis[Id(1)] == Phi(HEADER, 0, map[OUTSIDE := Number(7), LATCH := Result(Id(1))], true)
  {
    hide First;
    FirstPhis();
    assert ReplacedIn(Id(2), Result(Id(1)), OfHeader()) == map[OUTSIDE := Number(7), LATCH := Result(Id(1))];
    PhiAfter(First(), Id(2), Result(Id(1)), Id(1), map[OUTSIDE := Number(7), LATCH := Result(Id(1))]);
  }

  /** So that of HEADER merges 7, and goes as well. */
  lemma ThirdStep()
    ensures var s := Second();
            Id(1) in s.phis && Merges(s.phis[Id(1)], Id(1), Number(7)) && PhiUsers(s, Id(1)) == {}
    ensures IsRemoved(Third(), Result(Id(1)))
  {
    hide Second;
    SecondPhis();
    assert Second().phis[Id(1)].operands[OUTSIDE] == Number(7);
  }

  lemma OnlyOne(q: seq<Id>, x: Id)
    requires Enumerates(q, {x})
    ensures q == [x]
  {
    assert x in q;
    if |q| > 1 {
      AllAlike(q, x);
    }
  }

  lemma AllAlike(q: seq<Id>, x: Id)
    requires |q| > 1 && forall y :: y in q ==> y == x
    ensures q[0] == q[1]
  {
    assert q[0] in q && q[1] in q;
  }

  /** One user, whatever the order. */
  lemma OneVisit(s: Builder, x: Id, a: Value, u: Id, order: UserOrder)
    requires VisitsUsers(order) && x in s.phis && Merges(s.phis[x], x, a) && PhiUsers(s, x) == {u}
    ensures u in Removed(s, x, a).phis
    ensures var v := Cascade(Removed(s, x, a), u, order);
            Cascade(s, x, order) == Outcome(v.state, if a == Result(u) then v.value else a)
  {
    hide Cascade, Removed, Remaining, MayVisit, PhiUsers, LiveSet;
    FirstVisits(s, x, order, a);
    var t := Removed(s, x, a);
    assert Enumerates(order(s, x), PhiUsers(s, x));
    OnlyOne(order(s, x), u);
    NextVisit(t, [u], 0, a, LiveSet(t), order);
    var v := Cascade(t, u, order);
    LastVisit(v.state, [u], if a == Result(u) then v.value else a, LiveSet(t), order);
  }

  /** The visit of the phi of LATCH takes the phi of HEADER with it and says so, but to nobody who asked. */
  lemma StaleAnswer(order: UserOrder)
    requires VisitsUsers(order)
    ensures Id(0) in StaleState().phis && Cascade(StaleState(), Id(0), order) == Outcome(Third(), Result(Id(1)))
    ensures IsRemoved(Third(), Result(Id(1))) && !Safe(StaleState(), Id(0))
  {
    hide Cascade, Safe, Removed, StaleState, Merges, PhiUsers, VisitsUsers, IsRemoved;
    FirstStep();
    SecondStep();
    ThirdStep();
    OneVisit(StaleState(), Id(0), Result(Id(1)), Id(2), order);
    OneVisit(First(), Id(2), Result(Id(1)), Id(1), order);
    NoVisit(Second(), Id(1), Number(7), order);
    StaleIsTidy();
    if Safe(StaleState(), Id(0)) {
      SafeIsRight(StaleState(), Id(0), order);
    }
  }

  lemma StaleIsTidy()
    ensures Tidy(StaleState())
  {
    hide StaleState;
    StalePhis();
    var s := StaleState();
    forall y, q | y in s.phis && q in s.phis[y].operands
      ensures IsSpent(s, s.phis[y].operands[q]) && !IsRemoved(s, s.phis[y].operands[q])
    {
      OneOfThree(s.phis[y].operands[q], y, q);
    }
  }

  lemma OneOfThree(a: Value, y: Id, q: Block)
    requires || (y == Id(0) && q in OfInner() && a == OfInner()[q])
             || (y == Id(1) && q in OfHeader() && a == OfHeader()[q])
             || (y == Id(2) && q in OfLatch() && a == OfLatch()[q])
    ensures a == Number(7) || a == Result(Id(0)) || a == Result(Id(1)) || a == Result(Id(2))
  {
  }

  /**
    Reading variable 0 in INNER, where it is 7, returns and records a phi that is no longer
    there, in every order of users, predecessors and places.
   */
  lemma StaleReturn(dist: map<Block, nat>, bound: nat, o: Orders)
    requires Searches(dist, bound, o)
    ensures INNER in Before().preds && Searchable(Before(), dist, bound, o)
    ensures var r := ReadVariable(Before(), INNER, 0, dist, bound, o);
            && r.value == Result(Id(1)) && IsRemoved(r.state, r.value) && !r.right
            && AT_INNER in r.state.defs && r.state.defs[AT_INNER] == Result(Id(1))
  {
    hide ReadVariable, ReadRecursively, AddOperands, Cascade, Safe, Searches, Searchable, Grounded, OrdersOk, VisitsUsers, StaleState, Removed, Third, One;
    var s := Before();
    Facts(s, dist, bound, o);
    ReadKnown(s, INNER, 0, dist, bound, o);
    ReadMerging(s, INNER, 0, dist, bound, o);
    Shapes(map[], map[], map[]);
    InnerOperands(dist, bound, o);
    ItIsStale();
    StaleAnswer(o.users);
  }

  lemma ItIsStale()
    ensures StaleState() == Three(OfInner(), OfHeader(), OfLatch())
  {
  }

  // ----- from nothing -----

  /** Four blocks, of which the first assigns 7. */
  function Blocks(): Builder {
    var s := WithBlock(WithBlock(WithBlock(WithBlock(Nothing(), OUTSIDE, true), HEADER, false), INNER, false), LATCH, false);
    s.(code := s.code[OUTSIDE := [Assign(0, Number(7))]], defs := map[Place(OUTSIDE, 0) := Number(7)])
  }

  function Linked(): Builder {
    Blocks().(preds := Edges())
  }

  lemma BlocksAreNew()
    ensures OUTSIDE !in Nothing().preds
    ensures HEADER !in WithBlock(Nothing(), OUTSIDE, true).preds
    ensures INNER !in WithBlock(WithBlock(Nothing(), OUTSIDE, true), HEADER, false).preds
    ensures LATCH !in WithBlock(WithBlock(WithBlock(Nothing(), OUTSIDE, true), HEADER, false), INNER, false).preds
  {
  }

  lemma FirstAssigns()
    ensures var s := WithBlock(WithBlock(WithBlock(WithBlock(Nothing(), OUTSIDE, true), HEADER, false), INNER, false), LATCH, false);
            && Frontier(s, OUTSIDE) && OUTSIDE in s.code && Acceptable(s, OUTSIDE, Assign(0, Number(7)))
            && Appended(s, OUTSIDE, Assign(0, Number(7))) == Blocks()
  {
    var s := WithBlock(WithBlock(WithBlock(WithBlock(Nothing(), OUTSIDE, true), HEADER, false), INNER, false), LATCH, false);
    var t := Appended(s, OUTSIDE, Assign(0, Number(7)));
    assert s.code[OUTSIDE] == [] && [] + [Assign(0, Number(7))] == [Assign(0, Number(7))];
    assert t.defs == Blocks().defs && t.code == Blocks().code;
  }

  lemma EdgeByEdge(s: Builder)
    requires s.preds == map[OUTSIDE := {}, HEADER := {}, INNER := {}, LATCH := {}]
    ensures var t := WithEdge(WithEdge(s, OUTSIDE, HEADER), LATCH, HEADER);
            var u := WithEdge(WithEdge(t, HEADER, INNER), INNER, INNER);
            WithEdge(WithEdge(u, INNER, LATCH), HEADER, LATCH) == s.(preds := Edges())
  {
    var t := WithEdge(WithEdge(s, OUTSIDE, HEADER), LATCH, HEADER);
    assert t.preds[HEADER] == {OUTSIDE, LATCH};
    var u := WithEdge(WithEdge(t, HEADER, INNER), INNER, INNER);
    assert u.preds[INNER] == {HEADER, INNER};
    var w := WithEdge(WithEdge(u, INNER, LATCH), HEADER, LATCH);
    assert w.preds[LATCH] == {INNER, HEADER};
    assert w.preds == Edges();
  }

  lemma BlocksShape()
    ensures Blocks().preds == map[OUTSIDE := {}, HEADER := {}, INNER := {}, LATCH := {}]
    ensures Blocks().sealed == {OUTSIDE} && Blocks().incomplete == map[]
  {
  }

  lemma LinkedIs()
    ensures var s, t := Linked(), Before();
            && s.preds == t.preds && s.sealed == {OUTSIDE} && s.defs == t.defs && s.phis == t.phis && s.incomplete == map[]
            && s.code == t.code && s.next == t.next && t.incomplete == map[] && t.sealed == {OUTSIDE} + {HEADER} + {INNER} + {LATCH}
  {
    assert Linked().code == Before().code;
  }

  lemma AllSealed()
    ensures Sealed(Sealed(Sealed(Linked(), HEADER), INNER), LATCH) == Before()
  {
    LinkedIs();
    hide Linked, Before, Edges;
    var s := Sealed(Sealed(Sealed(Linked(), HEADER), INNER), LATCH);
    assert s.incomplete == map[];
    assert s.sealed == Before().sealed;
  }

  /** Nothing waits, so sealing only seals. */
  lemma SealsOnly(s: Builder, b: Block, dist: map<Block, nat>, bound: nat, o: Orders)
    requires Searches(dist, bound, o) && s.preds == Edges() && b in s.preds && s.incomplete == map[] && Rooted(s)
    ensures Searchable(s, dist, bound, o)
    ensures Seal(s, b, dist, bound, o).state == Sealed(s, b) && Seal(s, b, dist, bound, o).right
    ensures Sealed(s, b).preds == s.preds && Sealed(s, b).incomplete == map[]
  {
    Facts(s, dist, bound, o);
    FirstComplete(s, b, dist, bound, o);
    var places := o.waiting(s, b);
    NoneIn(places);
    LastComplete(s, b, places, dist, bound, o);
  }

  lemma StillUnsealed()
    ensures HEADER !in Linked().sealed && INNER !in Sealed(Linked(), HEADER).sealed
    ensures LATCH !in Sealed(Sealed(Linked(), HEADER), INNER).sealed
    ensures HEADER in Edges() && INNER in Edges() && LATCH in Edges()
    ensures Linked().preds == Edges() && Linked().incomplete == map[]
  {
  }

  /** The edges may be added: their targets are not sealed yet. */
  lemma MayLink(s: Builder, labels: map<Place, Value>, q: Block, b: Block)
    requires b in {HEADER, INNER, LATCH} && q in {OUTSIDE, HEADER, INNER, LATCH}
    requires s.preds.Keys == {OUTSIDE, HEADER, INNER, LATCH} && s.sealed == {OUTSIDE}
    ensures b in s.preds && q in s.preds && MayGetPredecessor(s, labels, b)
    ensures WithEdge(s, q, b).preds.Keys == s.preds.Keys && WithEdge(s, q, b).sealed == s.sealed
  {
  }

  /** The builder operations that lead there, on a new builder. */
  method StaleRun(dist: map<Block, nat>, bound: nat, o: Orders) returns (builder: SsaBuilder, val: Value)
    requires Searches(dist, bound, o)
    ensures fresh(builder) && IsRemoved(builder.st, val) && !builder.sound
    ensures AT_INNER in builder.st.defs && builder.st.defs[AT_INNER] == val
  {
    hide *;
    builder := new SsaBuilder(o);
    BlocksAreNew();
    builder.NewBlock(OUTSIDE, true);
    builder.NewBlock(HEADER, false);
    builder.NewBlock(INNER, false);
    builder.NewBlock(LATCH, false);
    FirstAssigns();
    builder.WriteLocalVariable(OUTSIDE, 0, Number(7));
    BlocksShape();
    EdgeByEdge(Blocks());
    MayLink(builder.st, builder.labels, OUTSIDE, HEADER);
    builder.AddPredecessor(OUTSIDE, HEADER);
    MayLink(builder.st, builder.labels, LATCH, HEADER);
    builder.AddPredecessor(LATCH, HEADER);
    MayLink(builder.st, builder.labels, HEADER, INNER);
    builder.AddPredecessor(HEADER, INNER);
    MayLink(builder.st, builder.labels, INNER, INNER);
    builder.AddPredecessor(INNER, INNER);
    MayLink(builder.st, builder.labels, INNER, LATCH);
    builder.AddPredecessor(INNER, LATCH);
    MayLink(builder.st, builder.labels, HEADER, LATCH);
    builder.AddPredecessor(HEADER, LATCH);
    ItIsLinked();
    StillUnsealed();
    SealsOnly(builder.st, HEADER, dist, bound, o);
    builder.SealBasicBlock(HEADER, dist, bound);
    SealsOnly(builder.st, INNER, dist, bound, o);
    builder.SealBasicBlock(INNER, dist, bound);
    SealsOnly(builder.st, LATCH, dist, bound, o);
    builder.SealBasicBlock(LATCH, dist, bound);
    AllSealed();
    StaleReturn(dist, bound, o);
    ReadyIsConsistent(builder.st, builder.labels, builder.forward);
    val := builder.ReadLocalVariable(INNER, 0, dist, bound);
  }

  lemma ItIsLinked()
    ensures Linked() == Blocks().(preds := Edges())
  {
  }

  /** Such orders and distances exist, so the run can be made. */
  method SomeStaleRun(o: Orders) returns (builder: SsaBuilder, val: Value)
    requires OrdersOk(o)
    ensures IsRemoved(builder.st, val) && !builder.sound
  {
    assert Searches(map[OUTSIDE := 0, HEADER := 0, INNER := 0, LATCH := 0], 1, o) by {
      assert Edges()[HEADER] == {OUTSIDE, LATCH} && Edges()[INNER] == {HEADER, INNER} && Edges()[LATCH] == {INNER, HEADER};
      NoSingle(OUTSIDE, LATCH);
      NoSingle(HEADER, INNER);
      NoSingle(INNER, HEADER);
    }
    builder, val := StaleRun(map[OUTSIDE := 0, HEADER := 0, INNER := 0, LATCH := 0], 1, o);
  }

  lemma NoSingle(a: Block, b: Block)
    requires a != b
    ensures forall q :: {a, b} != {q}
  {
    forall q ensures {a, b} != {q} {
      assert a in {a, b} && b in {a, b};
    }
  }
}
