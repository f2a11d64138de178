/**
  Which phis a removal takes along, and when the value it returns is right, told from
  the builder before the removal: without orders and without running the cascade.
 */
module SsaCollapse {
  import opened Cfg
  import opened Ssa
  import opened SsaConstruction
  import opened SsaCascade

  /** Phis that are gone, and the one value that stands for all of them. */
  datatype Collapse = Collapse(gone: set<Id>, value: Value)

  function Seen(c: Collapse, a: Value): Value {
    if a.Result? && a.id in c.gone then c.value else a
  }

  /** The phi as it is once everything in c.gone reads as c.value. */
  function SeenPhi(c: Collapse, phi: Phi): Phi {
    phi.(operands := map q | q in phi.operands :: Seen(c, phi.operands[q]))
  }

  ghost predicate Touched(s: Builder, gone: set<Id>, y: Id)
    requires y in s.phis
  {
    exists q :: q in s.phis[y].operands && s.phis[y].operands[q].Result? && s.phis[y].operands[q].id in gone
  }

  /** The phi y uses something that is gone and merges the one value b because of that. */
  ghost predicate Joins(s: Builder, c: Collapse, y: Id, b: Value) {
    y in s.phis && s.phis[y].live && y !in c.gone && Touched(s, c.gone, y) && Merges(SeenPhi(c, s.phis[y]), y, b)
  }

  function Joined(c: Collapse, y: Id, b: Value): Collapse {
    Collapse(c.gone + {y}, if c.value == Result(y) then b else c.value)
  }

  ghost predicate Pending(s: Builder, c: Collapse, y: Id) {
    exists b :: Joins(s, c, y, b)
  }

  ghost predicate Settled(s: Builder, c: Collapse) {
    forall y :: !Pending(s, c, y)
  }

  /** Joins phis until none is left that could. */
  ghost function CollapseFrom(s: Builder, c: Collapse): (r: Collapse)
    ensures c.gone <= r.gone && Settled(s, r)
    decreases LiveSet(s) - c.gone
  {
    if Settled(s, c) then c
    else
      var j := SomeJoin(s, c);
      JoinsShrinks(s, c, j.0, j.1);
      CollapseFrom(s, Joined(c, j.0, j.1))
  }

  ghost function SomeJoin(s: Builder, c: Collapse): (j: (Id, Value))
    requires !Settled(s, c)
    ensures Joins(s, c, j.0, j.1)
  {
    var y :| Pending(s, c, y);
    var b :| Joins(s, c, y, b);
    (y, b)
  }

  /** Everything that goes with x. */
  ghost function CollapseOf(s: Builder, x: Id): (r: Collapse)
    requires x in s.phis && Mergeable(s.phis[x], x)
    ensures x in r.gone && Settled(s, r)
  {
    CollapseFrom(s, Alone(s, x))
  }

  ghost function Alone(s: Builder, x: Id): Collapse
    requires x in s.phis && Mergeable(s.phis[x], x)
  {
    Collapse({x}, Merged(s.phis[x], x))
  }

  /** No operand is a removed phi, or an undefined value that a phi still there would make. */
  ghost predicate Tidy(s: Builder) {
    forall y, q :: y in s.phis && s.phis[y].live && q in s.phis[y].operands ==>
      IsSpent(s, s.phis[y].operands[q]) && !IsRemoved(s, s.phis[y].operands[q])
  }

  /** What is gone was there, its operands are gone too or are the value, and the value is not gone. */
  ghost predicate Standing(s: Builder, c: Collapse) {
    && (forall z :: z in c.gone ==> z in s.phis && s.phis[z].live)
    && (c.value.Result? ==> c.value.id !in c.gone) && !IsRemoved(s, c.value)
    && (forall z, q :: z in c.gone && z in s.phis && q in s.phis[z].operands ==> Accounted(c, s.phis[z].operands[q]))
  }

  predicate Accounted(c: Collapse, a: Value) {
    a == c.value || (a.Result? && a.id in c.gone)
  }

  /** The value is one made up for a phi that is gone. */
  predicate MadeUp(c: Collapse) {
    c.value.Undefined? && Id(c.value.tag) in c.gone
  }

  /** c can only grow into f. */
  ghost predicate Below(c: Collapse, f: Collapse) {
    c.gone <= f.gone && (MadeUp(c) || Accounted(f, c.value))
  }

  lemma AloneStands(s: Builder, x: Id)
    requires Tidy(s) && x in s.phis && s.phis[x].live && Mergeable(s.phis[x], x)
    ensures Standing(s, Alone(s, x))
  {
  }

  /** What a touched phi sees: the value, itself, and b. */
  lemma JoinSees(s: Builder, c: Collapse, y: Id, b: Value)
    requires Joins(s, c, y, b) && Standing(s, c)
    ensures b != Result(y) && (c.value != Result(y) ==> b == c.value)
    ensures forall q :: q in s.phis[y].operands ==> Seen(c, s.phis[y].operands[q]) == b || Seen(c, s.phis[y].operands[q]) == Result(y)
    ensures b == Undefined(y.serial) || (exists q :: q in s.phis[y].operands && Seen(c, s.phis[y].operands[q]) == b)
  {
    var seen := SeenPhi(c, s.phis[y]);
    assert forall q :: q in s.phis[y].operands ==> q in seen.operands && seen.operands[q] == Seen(c, s.phis[y].operands[q]);
  }

  lemma JoinedStands(s: Builder, c: Collapse, y: Id, b: Value)
    requires Tidy(s) && Joins(s, c, y, b) && Standing(s, c)
    ensures Standing(s, Joined(c, y, b))
  {
    hide Joins;
    JoinsPhi(s, c, y, b);
    JoinSees(s, c, y, b);
  }

  lemma JoinsPhi(s: Builder, c: Collapse, y: Id, b: Value)
    requires Joins(s, c, y, b)
    ensures y in s.phis && s.phis[y].live && y !in c.gone
  {
  }

  /** To join, it is enough that nothing but b and the phi itself is seen. */
  lemma MayJoin(s: Builder, c: Collapse, y: Id, b: Value)
    requires y in s.phis && s.phis[y].live && y !in c.gone && Touched(s, c.gone, y)
    requires forall q :: q in s.phis[y].operands ==> Seen(c, s.phis[y].operands[q]) == b || Seen(c, s.phis[y].operands[q]) == Result(y)
    ensures Pending(s, c, y)
  {
    var seen := SeenPhi(c, s.phis[y]);
    if q :| q in s.phis[y].operands && Seen(c, s.phis[y].operands[q]) != Result(y) {
      assert seen.operands[q] == b;
      assert Joins(s, c, y, b);
    } else {
      assert Joins(s, c, y, Undefined(y.serial));
    }
  }

  /** What joins the smaller collapse is gone in the larger, settled one. */
  lemma JoinsBelow(s: Builder, c: Collapse, f: Collapse, y: Id, b: Value)
    requires Tidy(s) && Standing(s, c) && Standing(s, f) && Settled(s, f) && Below(c, f) && Joins(s, c, y, b)
    ensures y in f.gone
  {
    hide Joins, Settled;
    JoinsPhi(s, c, y, b);
    JoinSees(s, c, y, b);
    if y !in f.gone {
      var b' := if c.value == Result(y) then b else f.value;
      forall q | q in s.phis[y].operands
        ensures Seen(f, s.phis[y].operands[q]) == b' || Seen(f, s.phis[y].operands[q]) == Result(y)
      {
        SeenBelow(s, c, f, y, b, s.phis[y].operands[q]);
      }
      TouchedMore(s, c, f, y, b);
      MayJoin(s, f, y, b');
      assert false by { SettledHas(s, f, y); }
    }
  }

  lemma SettledHas(s: Builder, f: Collapse, y: Id)
    requires Settled(s, f)
    ensures !Pending(s, f, y)
  {
  }

  lemma TouchedMore(s: Builder, c: Collapse, f: Collapse, y: Id, b: Value)
    requires Joins(s, c, y, b) && c.gone <= f.gone
    ensures Touched(s, f.gone, y)
  {
  }

  lemma SeenBelow(s: Builder, c: Collapse, f: Collapse, y: Id, b: Value, a: Value)
    requires Standing(s, f) && Below(c, f) && y !in f.gone && IsSpent(s, a) && (forall z :: z in c.gone ==> z in s.phis && s.phis[z].live)
    requires Seen(c, a) == b || Seen(c, a) == Result(y)
    requires c.value != Result(y) ==> b == c.value
    ensures Seen(f, a) == Result(y) || Seen(f, a) == if c.value == Result(y) then b else f.value
  {
  }

  lemma JoinedBelow(s: Builder, c: Collapse, f: Collapse, y: Id, b: Value)
    requires Tidy(s) && Standing(s, c) && Standing(s, f) && Settled(s, f) && Below(c, f) && Joins(s, c, y, b)
    ensures Below(Joined(c, y, b), f)
  {
    JoinsBelow(s, c, f, y, b);
    hide Joins, Settled;
    JoinsPhi(s, c, y, b);
    JoinSees(s, c, y, b);
    if c.value == Result(y) && b != Undefined(y.serial) {
      var q :| q in s.phis[y].operands && Seen(c, s.phis[y].operands[q]) == b;
      assert Accounted(f, s.phis[y].operands[q]);
    }
  }

  lemma {:induction false} CollapseStands(s: Builder, c: Collapse)
    requires Tidy(s) && Standing(s, c)
    ensures Standing(s, CollapseFrom(s, c))
    decreases LiveSet(s) - c.gone
  {
    if !Settled(s, c) {
      var (y, b) := SomeJoin(s, c);
      JoinedStands(s, c, y, b);
      JoinsShrinks(s, c, y, b);
      CollapseStands(s, Joined(c, y, b));
    }
  }

  lemma JoinsShrinks(s: Builder, c: Collapse, y: Id, b: Value)
    requires Joins(s, c, y, b)
    ensures LiveSet(s) - Joined(c, y, b).gone < LiveSet(s) - c.gone
  {
    assert y in LiveSet(s) - c.gone;
  }

  /** Joining in any order ends below any settled collapse. */
  lemma {:induction false} CollapseBelow(s: Builder, c: Collapse, f: Collapse)
    requires Tidy(s) && Standing(s, c) && Standing(s, f) && Settled(s, f) && Below(c, f)
    ensures Below(CollapseFrom(s, c), f)
    decreases LiveSet(s) - c.gone
  {
    if !Settled(s, c) {
      var (y, b) := SomeJoin(s, c);
      JoinedStands(s, c, y, b);
      JoinedBelow(s, c, f, y, b);
      JoinsShrinks(s, c, y, b);
      CollapseBelow(s, Joined(c, y, b), f);
    }
  }

  // ----- where the merged value leads -----

  /** The value, followed through phis that themselves join at once. */
  ghost function Direct(s: Builder, c: Collapse): Value
    decreases LiveSet(s) - c.gone
  {
    if c.value.Result? && Pending(s, c, c.value.id) then
      var b :| Joins(s, c, c.value.id, b);
      JoinsShrinks(s, c, c.value.id, b);
      Direct(s, Joined(c, c.value.id, b))
    else c.value
  }

  lemma DirectNext(s: Builder, c: Collapse, b: Value)
    requires c.value.Result? && Joins(s, c, c.value.id, b)
    ensures Direct(s, c) == Direct(s, Joined(c, c.value.id, b))
  {
    hide LiveSet, SeenPhi;
    assert Pending(s, c, c.value.id);
    forall b' | Joins(s, c, c.value.id, b') ensures b' == b {
      OneJoin(s, c, c.value.id, b, b');
    }
  }

  lemma OneJoin(s: Builder, c: Collapse, y: Id, b: Value, b': Value)
    requires Joins(s, c, y, b) && Joins(s, c, y, b')
    ensures b == b'
  {
    MergesOne(SeenPhi(c, s.phis[y]), y, b, b');
  }

  lemma DirectEnds(s: Builder, c: Collapse)
    requires !(c.value.Result? && Pending(s, c, c.value.id))
    ensures Direct(s, c) == c.value
  {
  }

  /** Not gone in f, nor before. */
  ghost predicate Lasting(s: Builder, f: Collapse, v: Value) {
    v.Result? ==> v.id !in f.gone && !IsRemoved(s, v)
  }

  ghost predicate EndLasts(s: Builder, c: Collapse, f: Collapse) {
    Lasting(s, f, Direct(s, c))
  }

  ghost predicate Within(s: Builder, c: Collapse, f: Collapse) {
    Tidy(s) && Standing(s, c) && Standing(s, f) && Settled(s, f) && Below(c, f)
  }

  lemma WithinNext(s: Builder, c: Collapse, f: Collapse, y: Id, b: Value)
    requires Within(s, c, f) && Joins(s, c, y, b)
    ensures Within(s, Joined(c, y, b), f) && y in f.gone
  {
    hide Joins, Standing, Settled, Tidy, Below;
    JoinedStands(s, c, y, b);
    JoinsBelow(s, c, f, y, b);
    JoinedBelow(s, c, f, y, b);
  }

  /** A phi that joins while the value may join too can join after it, or closes a circle with it. */
  lemma JoinsAfterValue(s: Builder, c: Collapse, y: Id, b: Value, v: Id, b1: Value)
    requires Standing(s, c) && c.value == Result(v) && v != y && Joins(s, c, y, b) && Joins(s, c, v, b1)
    ensures b1 != Result(y) ==> Joins(s, Joined(c, v, b1), y, b1) && Joins(s, Joined(c, y, b), v, b1)
    ensures b1 == Result(y) ==> Joins(s, Joined(c, y, b), v, Undefined(v.serial))
  {
    hide SeenPhi, Standing;
    JoinsPhi(s, c, y, b);
    JoinsPhi(s, c, v, b1);
    JoinSees(s, c, y, b);
    JoinSees(s, c, v, b1);
    TouchedAgain(s, c, y, b, v, b1);
    if b1 != Result(y) {
      SeesOnly(s, Joined(c, v, b1), y, b1);
      SeesOnly(s, Joined(c, y, b), v, b1);
    } else {
      SeesItself(s, Joined(c, y, b), v);
    }
  }

  lemma TouchedAgain(s: Builder, c: Collapse, y: Id, b: Value, v: Id, b1: Value)
    requires c.value == Result(v) && v != y && Joins(s, c, y, b) && Joins(s, c, v, b1)
    ensures Touched(s, Joined(c, v, b1).gone, y) && Touched(s, Joined(c, y, b).gone, v)
    ensures exists q :: q in s.phis[y].operands && Seen(Joined(c, v, b1), s.phis[y].operands[q]) == b1
    ensures b1 == Undefined(v.serial) || exists q :: q in s.phis[v].operands && Seen(c, s.phis[v].operands[q]) == b1
  {
    hide SeenPhi;
    var q :| q in s.phis[y].operands && s.phis[y].operands[q].Result? && s.phis[y].operands[q].id in c.gone;
    assert Seen(Joined(c, v, b1), s.phis[y].operands[q]) == b1;
    var p :| p in s.phis[v].operands && s.phis[v].operands[p].Result? && s.phis[v].operands[p].id in c.gone;
    JoinSeesSome(s, c, v, b1);
  }

  lemma JoinSeesSome(s: Builder, c: Collapse, v: Id, b1: Value)
    requires Joins(s, c, v, b1)
    ensures b1 == Undefined(v.serial) || exists q :: q in s.phis[v].operands && Seen(c, s.phis[v].operands[q]) == b1
  {
  }

  lemma SeesOnly(s: Builder, c: Collapse, y: Id, b: Value)
    requires y in s.phis && s.phis[y].live && y !in c.gone && Touched(s, c.gone, y) && b != Result(y)
    requires forall q :: q in s.phis[y].operands ==> Seen(c, s.phis[y].operands[q]) == b || Seen(c, s.phis[y].operands[q]) == Result(y)
    requires b == Undefined(y.serial) || exists q :: q in s.phis[y].operands && Seen(c, s.phis[y].operands[q]) == b
    ensures Joins(s, c, y, b)
  {
    var seen := SeenPhi(c, s.phis[y]);
    if q :| q in s.phis[y].operands && Seen(c, s.phis[y].operands[q]) == b {
      assert seen.operands[q] == b;
    }
  }

  lemma SeesItself(s: Builder, c: Collapse, y: Id)
    requires y in s.phis && s.phis[y].live && y !in c.gone && Touched(s, c.gone, y)
    requires forall q :: q in s.phis[y].operands ==> Seen(c, s.phis[y].operands[q]) == Result(y)
    ensures Joins(s, c, y, Undefined(y.serial))
  {
    SeesOnly(s, c, y, Undefined(y.serial));
  }

  /** If the end lasts, it does so whatever else joins. */
  lemma {:induction false} EndStaysWithin(s: Builder, c: Collapse, y: Id, b: Value, f: Collapse)
    requires Within(s, c, f) && Joins(s, c, y, b) && EndLasts(s, c, f)
    ensures EndLasts(s, Joined(c, y, b), f)
    decreases LiveSet(s) - c.gone
  {
    hide Within, Joins, Direct, LiveSet, Pending;
    var d := Joined(c, y, b);
    WithinNext(s, c, f, y, b);
    StandingOf(s, c, f);
    if c.value == Result(y) {
      DirectNext(s, c, b);
    } else if !c.value.Result? {
      DirectEnds(s, d);
    } else {
      var v := c.value.id;
      if v !in f.gone {
        NotPendingOutside(s, d, f, v);
        DirectEnds(s, d);
        StandingOf(s, d, f);
      } else {
        ValueJoins(s, c, f);
        var b1 := TheJoin(s, c, v);
        DirectNext(s, c, b1);
        JoinsAfterValue(s, c, y, b, v, b1);
        if b1 == Result(y) {
          DirectNext(s, d, Undefined(v.serial));
          DirectEnds(s, Joined(d, v, Undefined(v.serial)));
        } else {
          DirectNext(s, d, b1);
          WithinNext(s, c, f, v, b1);
          JoinsShrinks(s, c, v, b1);
          EndStaysWithin(s, Joined(c, v, b1), y, b1, f);
          assert Joined(Joined(c, v, b1), y, b1) == Joined(d, v, b1) by {
            JoinsPhi(s, c, v, b1);
            assert c.gone + {v} + {y} == c.gone + {y} + {v};
          }
        }
      }
    }
  }

  lemma TheJoin(s: Builder, c: Collapse, y: Id) returns (b: Value)
    requires Pending(s, c, y)
    ensures Joins(s, c, y, b)
  {
    b :| Joins(s, c, y, b);
  }

  lemma StandingOf(s: Builder, c: Collapse, f: Collapse)
    requires Within(s, c, f)
    ensures Standing(s, c) && !IsRemoved(s, c.value) && Tidy(s)
  {
  }

  lemma NotPendingOutside(s: Builder, c: Collapse, f: Collapse, y: Id)
    requires Within(s, c, f) && y !in f.gone
    ensures !Pending(s, c, y)
  {
    hide Within, Joins;
    if Pending(s, c, y) {
      var b :| Joins(s, c, y, b);
      WithinNext(s, c, f, y, b);
    }
  }

  /** A value that will go, though its end lasts, joins at once. */
  lemma ValueJoins(s: Builder, c: Collapse, f: Collapse)
    requires EndLasts(s, c, f) && c.value.Result? && c.value.id in f.gone
    ensures Pending(s, c, c.value.id)
  {
  }

  lemma EndStays(s: Builder, t: Builder, c: Collapse, y: Id, b: Value, f: Collapse)
    requires Underway(s, t, c, f) && Joins(s, c, y, b) && EndLasts(s, c, f)
    ensures EndLasts(s, Joined(c, y, b), f)
  {
    hide EndLasts, Joins, Standing, Settled, Tidy, Below;
    EndStaysWithin(s, c, y, b, f);
  }

  // ----- the cascade carries the collapse out -----

  /** t is s with the phis of c gone and c's value in their place. */
  ghost predicate Carried(s: Builder, t: Builder, c: Collapse) {
    && t.phis.Keys == s.phis.Keys
    && forall y :: y in s.phis ==>
         if y in c.gone then !t.phis[y].live
         else t.phis[y].live == s.phis[y].live && (s.phis[y].live ==> t.phis[y] == SeenPhi(c, s.phis[y]))
  }

  /** Carried so far, and on the way to f. */
  ghost predicate Underway(s: Builder, t: Builder, c: Collapse, f: Collapse) {
    Tidy(s) && Standing(s, c) && Carried(s, t, c) && Standing(s, f) && Settled(s, f) && Below(c, f)
  }

  /** d is c or what some joins made of it. */
  ghost predicate After(c: Collapse, d: Collapse) {
    c.gone <= d.gone && (d.value == c.value || (c.value.Result? && c.value.id in d.gone))
  }

  lemma AfterTwice(c: Collapse, d: Collapse, e: Collapse)
    requires After(c, d) && After(d, e)
    ensures After(c, e)
  {
  }

  /** The removed phi z still has the operands it had when k was carried out, k being after c. */
  ghost predicate FrozenAt(s: Builder, t: Builder, c: Collapse, z: Id, k: Collapse) {
    && z in s.phis && z in t.phis && z !in k.gone && After(c, k) && Standing(s, k)
    && t.phis[z].operands == SeenPhi(k, s.phis[z]).operands
  }

  /** z uses what went after c, or c's value went. */
  ghost predicate UsesNew(s: Builder, z: Id, c: Collapse, k: Collapse) {
    || (c.value.Result? && c.value.id in k.gone)
    || (z in s.phis && exists q :: q in s.phis[z].operands && UsedNew(s.phis[z].operands[q], c, k))
  }

  predicate UsedNew(a: Value, c: Collapse, k: Collapse) {
    a.Result? && a.id in k.gone && a.id !in c.gone
  }

  lemma FrozenEarlier(s: Builder, t: Builder, c: Collapse, d: Collapse, z: Id, k: Collapse)
    requires FrozenAt(s, t, d, z, k) && After(c, d)
    ensures FrozenAt(s, t, c, z, k) && (UsesNew(s, z, d, k) ==> UsesNew(s, z, c, k))
  {
    if UsesNew(s, z, d, k) && !(d.value.Result? && d.value.id in k.gone) {
      var q :| q in s.phis[z].operands && UsedNew(s.phis[z].operands[q], d, k);
      assert UsedNew(s.phis[z].operands[q], c, k);
    }
  }

  lemma RemovedOther(t: Builder, y: Id, b: Value, z: Id)
    requires z in t.phis
    ensures z in Removed(t, y, b).phis && Removed(t, y, b).phis[z] == ReplacedPhi(y, b, z, t.phis[z])
  {
  }

  lemma ReplacedAt(y: Id, b: Value, m: map<Block, Value>, q: Block)
    requires q in m
    ensures q in ReplacedIn(y, b, m) && ReplacedIn(y, b, m)[q] == Replaced(y, b, m[q])
  {
  }

  lemma SeenAt(c: Collapse, phi: Phi, q: Block)
    requires q in phi.operands
    ensures q in SeenPhi(c, phi).operands && SeenPhi(c, phi).operands[q] == Seen(c, phi.operands[q])
  {
  }

  /** What is seen after one more join. */
  lemma SeenNext(s: Builder, c: Collapse, y: Id, b: Value, phi: Phi)
    requires Joins(s, c, y, b) && Standing(s, c)
    ensures ReplacedIn(y, b, SeenPhi(c, phi).operands) == SeenPhi(Joined(c, y, b), phi).operands
  {
    hide Joins, SeenPhi, ReplacedIn;
    JoinsPhi(s, c, y, b);
    JoinSees(s, c, y, b);
    var l, r := ReplacedIn(y, b, SeenPhi(c, phi).operands), SeenPhi(Joined(c, y, b), phi).operands;
    SameKeys(y, b, c, Joined(c, y, b), phi);
    forall q | q in phi.operands ensures l[q] == r[q] {
      SeenAt(c, phi, q);
      SeenAt(Joined(c, y, b), phi, q);
      ReplacedAt(y, b, SeenPhi(c, phi).operands, q);
    }
  }

  lemma SameKeys(y: Id, b: Value, c: Collapse, d: Collapse, phi: Phi)
    ensures ReplacedIn(y, b, SeenPhi(c, phi).operands).Keys == phi.operands.Keys == SeenPhi(d, phi).operands.Keys
  {
  }

  lemma CarriedNext(s: Builder, t: Builder, c: Collapse, y: Id, b: Value)
    requires Standing(s, c) && Carried(s, t, c) && Joins(s, c, y, b)
    ensures Carried(s, Removed(t, y, b), Joined(c, y, b))
  {
    hide Joins, SeenPhi, ReplacedIn, Removed, Standing;
    JoinsPhi(s, c, y, b);
    RemovedShape(t, y, b);
    forall z | z in s.phis
      ensures var t' := Removed(t, y, b);
              z in t'.phis && if z in Joined(c, y, b).gone then !t'.phis[z].live
                              else t'.phis[z].live == s.phis[z].live && (s.phis[z].live ==> t'.phis[z] == SeenPhi(Joined(c, y, b), s.phis[z]))
    {
      RemovedOther(t, y, b, z);
      SeenNext(s, c, y, b, s.phis[z]);
      SeenRest(c, Joined(c, y, b), s.phis[z]);
    }
  }

  lemma SeenRest(c: Collapse, d: Collapse, phi: Phi)
    ensures SeenPhi(c, phi).(operands := SeenPhi(d, phi).operands) == SeenPhi(d, phi)
  {
  }

  lemma FirstCarried(s: Builder, x: Id)
    requires x in s.phis && s.phis[x].live && Mergeable(s.phis[x], x)
    ensures Carried(s, Removed(s, x, Merged(s.phis[x], x)), Alone(s, x))
  {
    hide Removed, SeenPhi, Mergeable;
    var a := Merged(s.phis[x], x);
    RemovedShape(s, x, a);
    forall z | z in s.phis
      ensures var t := Removed(s, x, a);
              z in t.phis && if z == x then !t.phis[z].live
                             else t.phis[z].live == s.phis[z].live && (s.phis[z].live ==> t.phis[z] == SeenPhi(Alone(s, x), s.phis[z]))
    {
      RemovedOther(s, x, a, z);
      ReplacedIsSeen(x, a, s.phis[z]);
    }
  }

  lemma ReplacedIsSeen(x: Id, a: Value, phi: Phi)
    ensures phi.(operands := ReplacedIn(x, a, phi.operands)) == SeenPhi(Collapse({x}, a), phi)
  {
  }

  /** Nothing that is left refers to what is gone. */
  lemma NoUsersOfGone(s: Builder, t: Builder, c: Collapse, y: Id)
    requires Standing(s, c) && Carried(s, t, c) && y in c.gone
    ensures PhiUsers(t, y) == {}
  {
    forall z | z in s.phis && z !in c.gone && s.phis[z].live ensures Result(y) !in t.phis[z].operands.Values {
      assert t.phis[z] == SeenPhi(c, s.phis[z]);
    }
  }

  /** Removing once more what is gone changes no phi. */
  lemma RemovedAgain(s: Builder, t: Builder, c: Collapse, y: Id, b: Value)
    requires Standing(s, c) && Carried(s, t, c) && y in c.gone
    ensures Removed(t, y, b).phis == t.phis
  {
    NoUsersOfGone(s, t, c, y);
    hide Removed, Standing, SeenPhi;
    RemovedShape(t, y, b);
    forall z | z in t.phis ensures Removed(t, y, b).phis[z] == t.phis[z] {
      RemovedOther(t, y, b, z);
      Unreplaced(t, y, b, z);
    }
  }

  lemma Unreplaced(t: Builder, y: Id, b: Value, z: Id)
    requires z in t.phis && y in t.phis && !t.phis[y].live && PhiUsers(t, y) == {}
    ensures ReplacedPhi(y, b, z, t.phis[z]) == t.phis[z]
  {
    if z != y && t.phis[z].live {
      assert z !in PhiUsers(t, y);
      assert ReplacedIn(y, b, t.phis[z].operands) == t.phis[z].operands;
    }
  }

  /** The users of what just went may join now; whoever else may, could before. */
  lemma PendingNext(s: Builder, t: Builder, c: Collapse, y: Id, b: Value, z: Id)
    requires Standing(s, c) && Carried(s, t, c) && Joins(s, c, y, b) && Pending(s, Joined(c, y, b), z) && z !in PhiUsers(t, y)
    ensures z != y && Pending(s, c, z)
  {
    var b' :| Joins(s, Joined(c, y, b), z, b');
    hide SeenPhi;
    JoinsPhi(s, Joined(c, y, b), z, b');
    NotUsing(s, t, c, y, z);
    SeenNext(s, c, y, b, s.phis[z]);
    SeenRest(c, Joined(c, y, b), s.phis[z]);
    assert ReplacedIn(y, b, SeenPhi(c, s.phis[z]).operands) == SeenPhi(c, s.phis[z]).operands by {
      NotReplaced(y, b, SeenPhi(c, s.phis[z]).operands);
    }
    SeenRest(c, c, s.phis[z]);
    TouchedBefore(s, c, y, b, z);
    assert Joins(s, c, z, b');
  }

  lemma NotReplaced(y: Id, b: Value, m: map<Block, Value>)
    requires forall q :: q in m ==> m[q] != Result(y)
    ensures ReplacedIn(y, b, m) == m
  {
  }

  lemma NotUsing(s: Builder, t: Builder, c: Collapse, y: Id, z: Id)
    requires Carried(s, t, c) && z in s.phis && s.phis[z].live && z !in c.gone && z != y && z !in PhiUsers(t, y)
    ensures forall q :: q in SeenPhi(c, s.phis[z]).operands ==> SeenPhi(c, s.phis[z]).operands[q] != Result(y)
    ensures forall q :: q in s.phis[z].operands ==> Seen(c, s.phis[z].operands[q]) != Result(y)
  {
    hide SeenPhi;
    assert t.phis[z] == SeenPhi(c, s.phis[z]);
    forall q | q in s.phis[z].operands ensures Seen(c, s.phis[z].operands[q]) != Result(y) {
      SeenAt(c, s.phis[z], q);
    }
  }

  lemma TouchedBefore(s: Builder, c: Collapse, y: Id, b: Value, z: Id)
    requires z in s.phis && Touched(s, Joined(c, y, b).gone, z) && y !in c.gone
    requires forall q :: q in s.phis[z].operands ==> Seen(c, s.phis[z].operands[q]) != Result(y)
    ensures Touched(s, c.gone, z)
  {
  }

  /** A user of what just went is touched, and used something new. */
  lemma UserTouched(s: Builder, t: Builder, c: Collapse, y: Id, b: Value, z: Id)
    requires Standing(s, c) && Carried(s, t, c) && Joins(s, c, y, b) && z in PhiUsers(t, y)
    ensures z in s.phis && s.phis[z].live && Touched(s, Joined(c, y, b).gone, z)
    ensures forall k: Collapse :: Joined(c, y, b).gone <= k.gone ==> UsesNew(s, z, c, k)
  {
    var q :| q in t.phis[z].operands && t.phis[z].operands[q] == Result(y);
    SeenAt(c, s.phis[z], q);
    assert s.phis[z].operands[q].Result?;
    forall k: Collapse | Joined(c, y, b).gone <= k.gone ensures UsesNew(s, z, c, k) {
      assert y in k.gone;
      if s.phis[z].operands[q] == Result(y) {
        assert UsedNew(s.phis[z].operands[q], c, k);
      }
    }
  }

  /** What one visit leaves: d instead of c, with the operands of what it removed. */
  ghost predicate Visited(s: Builder, t: Builder, t': Builder, c: Collapse, d: Collapse, users: seq<Id>) {
    && After(c, d)
    && (forall z :: Pending(s, d, z) ==> z !in users && Pending(s, c, z))
    && (forall z :: z in c.gone && z in t.phis ==> z in t'.phis && t'.phis[z] == t.phis[z])
    && (forall z :: z in d.gone && z !in c.gone ==> exists k :: FrozenAt(s, t', c, z, k) && (z in users || UsesNew(s, z, c, k)))
  }

  lemma NothingVisited(s: Builder, t: Builder, c: Collapse, u: Id)
    requires !Pending(s, c, u)
    ensures Visited(s, t, t, c, c, [u])
  {
  }

  lemma VisitedTwice(s: Builder, t: Builder, t1: Builder, t2: Builder, c: Collapse, d: Collapse, e: Collapse, users: seq<Id>)
    requires users != [] && Visited(s, t, t1, c, d, [users[0]]) && Visited(s, t1, t2, d, e, users[1..])
    requires t.phis.Keys == s.phis.Keys == t1.phis.Keys == t2.phis.Keys && Standing(s, e)
    ensures Visited(s, t, t2, c, e, users)
  {
    hide Pending, FrozenAt, UsesNew, Standing;
    AfterTwice(c, d, e);
    assert users == [users[0]] + users[1..];
    forall z | z in e.gone && z !in c.gone ensures exists k :: FrozenAt(s, t2, c, z, k) && (z in users || UsesNew(s, z, c, k)) {
      if z in d.gone {
        var k :| FrozenAt(s, t1, c, z, k) && (z in [users[0]] || UsesNew(s, z, c, k));
        FrozenGrows(s, t1, c, z, k);
        FrozenSame(s, t1, t2, c, z, k);
      } else {
        var k :| FrozenAt(s, t2, d, z, k) && (z in users[1..] || UsesNew(s, z, d, k));
        FrozenEarlier(s, t2, c, d, z, k);
      }
    }
  }

  lemma FrozenSame(s: Builder, t: Builder, t': Builder, c: Collapse, z: Id, k: Collapse)
    requires FrozenAt(s, t, c, z, k) && z in t'.phis && t'.phis[z] == t.phis[z]
    ensures FrozenAt(s, t', c, z, k)
  {
  }

  /** Removing y and visiting its users is one visit of y. */
  lemma RemovedThenVisited(s: Builder, t: Builder, c: Collapse, y: Id, b: Value, t': Builder, d: Collapse, users: seq<Id>)
    requires Standing(s, c) && Carried(s, t, c) && Joins(s, c, y, b) && (forall u :: u in users <==> u in PhiUsers(t, y))
    requires Visited(s, Removed(t, y, b), t', Joined(c, y, b), d, users) && t'.phis.Keys == t.phis.Keys
    ensures Visited(s, t, t', c, d, [y])
  {
    var t1, c1 := Removed(t, y, b), Joined(c, y, b);
    JoinsPhi(s, c, y, b);
    assert After(c, c1);
    RemovedShape(t, y, b);
    GoneStays(s, t, c, y, b);
    FrozenHere(s, t, t', c, y, b);
    hide Pending, FrozenAt, UsesNew, Standing, Carried, Joins, Removed, PhiUsers, Joined;
    AfterTwice(c, c1, d);
    forall z | Pending(s, d, z) ensures z !in [y] && Pending(s, c, z) {
      PendingNext(s, t, c, y, b, z);
    }
    forall z | z in d.gone && z !in c.gone ensures exists k :: FrozenAt(s, t', c, z, k) && (z in [y] || UsesNew(s, z, c, k)) {
      if z == y {
        assert FrozenAt(s, t', c, z, c);
      } else {
        var k :| FrozenAt(s, t', c1, z, k) && (z in users || UsesNew(s, z, c1, k));
        FrozenEarlier(s, t', c, c1, z, k);
        if z in users {
          FrozenGrows(s, t', c1, z, k);
          UserTouched(s, t, c, y, b, z);
        }
      }
    }
  }

  lemma FrozenGrows(s: Builder, t: Builder, c: Collapse, z: Id, k: Collapse)
    requires FrozenAt(s, t, c, z, k)
    ensures c.gone <= k.gone && z in s.phis && z in t.phis
  {
  }

  lemma GoneStays(s: Builder, t: Builder, c: Collapse, y: Id, b: Value)
    requires Carried(s, t, c) && y !in c.gone
    ensures forall z :: z in c.gone && z in t.phis ==> z in Removed(t, y, b).phis && Removed(t, y, b).phis[z] == t.phis[z]
    ensures y in t.phis ==> y in Removed(t, y, b).phis && Removed(t, y, b).phis[y].operands == t.phis[y].operands
    ensures Joined(c, y, b).gone == c.gone + {y}
  {
    hide Removed, SeenPhi;
    forall z | z in t.phis && (z in c.gone || z == y) ensures z in Removed(t, y, b).phis && Removed(t, y, b).phis[z] == ReplacedPhi(y, b, z, t.phis[z]) {
      RemovedOther(t, y, b, z);
    }
  }

  lemma FrozenHere(s: Builder, t: Builder, t': Builder, c: Collapse, y: Id, b: Value)
    requires Standing(s, c) && Carried(s, t, c) && Joins(s, c, y, b) && y in t'.phis && y in t.phis
    requires y in Removed(t, y, b).phis && t'.phis[y] == Removed(t, y, b).phis[y] && Removed(t, y, b).phis[y].operands == t.phis[y].operands
    ensures FrozenAt(s, t', c, y, c)
  {
  }

  lemma MergeableIsPending(s: Builder, t: Builder, c: Collapse, u: Id)
    requires Carried(s, t, c) && u in s.phis && s.phis[u].live && Touched(s, c.gone, u)
    ensures u !in c.gone && Mergeable(t.phis[u], u) ==> Joins(s, c, u, Merged(t.phis[u], u)) && t.phis[u].live
    ensures !Mergeable(t.phis[u], u) ==> !Pending(s, c, u)
    ensures u in c.gone ==> !Pending(s, c, u) && !t.phis[u].live
  {
    hide SeenPhi, Merges;
  }

  /** One visit carries out some joins, the user's own among them if it can join, and settles all they cause. */
  lemma {:induction false} CascadeCollapses(s: Builder, t: Builder, c: Collapse, u: Id, order: UserOrder, f: Collapse) returns (d: Collapse)
    requires Underway(s, t, c, f) && VisitsUsers(order) && u in s.phis && s.phis[u].live && Touched(s, c.gone, u)
    ensures u in t.phis && Underway(s, Cascade(t, u, order).state, d, f) && Visited(s, t, Cascade(t, u, order).state, c, d, [u])
    ensures EndLasts(s, c, f) ==> EndLasts(s, d, f)
    decreases LiveSet(t), if u in t.phis && t.phis[u].live then 0 else 2, 0
  {
    hide Underway, Visited, EndLasts, Touched, Pending, Carried, Standing, Joins, Cascade, Visits, Removed, LiveSet, Settled, PhiUsers, Mergeable, VisitsUsers;
    UnderwayParts(s, t, c, f);
    MergeableIsPending(s, t, c, u);
    if !Mergeable(t.phis[u], u) {
      d := c;
      NothingToRemove(t, u, order);
      NothingVisited(s, t, c, u);
    } else {
      var a := Merged(t.phis[u], u);
      FirstVisits(t, u, order, a);
      var t1 := Removed(t, u, a);
      var users, bound := order(t, u), LiveSet(t1);
      var t' := Visits(t1, users, a, bound, order).state;
      CascadeIs(t, u, order, a);
      RemovedShape(t, u, a);
      if u in c.gone {
        d := c;
        NoUsersOfGone(s, t, c, u);
        NoneIn(users);
        VisitsNone(t1, a, bound, order);
        RemovedAgain(s, t, c, u, a);
        SamePhisUnderway(s, t, t1, c, f);
        NothingVisited(s, t, c, u);
        SamePhisVisited(s, t, t1, c, u);
      } else {
        UnderwayNext(s, t, c, u, a, f);
        if EndLasts(s, c, f) {
          EndStays(s, t, c, u, a, f);
        }
        UsersTouched(s, t, c, u, a, users);
        LiveShrinks(t, u, a);
        d := VisitsCollapse(s, t1, Joined(c, u, a), users, a, bound, order, f);
        KeysOf(s, t, c, f);
        KeysOf(s, t', d, f);
        RemovedThenVisited(s, t, c, u, a, t', d, users);
      }
    }
  }

  lemma {:induction false} VisitsCollapse(s: Builder, t: Builder, c: Collapse, users: seq<Id>, r: Value, bound: set<Id>, order: UserOrder, f: Collapse)
      returns (d: Collapse)
    requires Underway(s, t, c, f) && MayVisit(t, users, bound, order)
    requires forall u :: u in users ==> u in s.phis && s.phis[u].live && Touched(s, c.gone, u)
    ensures Underway(s, Visits(t, users, r, bound, order).state, d, f) && Visited(s, t, Visits(t, users, r, bound, order).state, c, d, users)
    ensures EndLasts(s, c, f) ==> EndLasts(s, d, f)
    decreases bound, 1, |users|
  {
    hide Underway, Visited, EndLasts, Touched, Pending, Carried, Standing, Joins, Cascade, Removed, LiveSet, Settled, PhiUsers, SameShape, VisitsUsers;
    UnderwayParts(s, t, c, f);
    if users == [] {
      d := c;
      NoneVisited(s, t, c);
    } else {
      var u := users[0];
      LiveOrSmaller(t, u, bound);
      var d1 := CascadeCollapses(s, t, c, u, order, f);
      var v := Cascade(t, u, order);
      ShapeLive(t, v.state);
      SsaCascade.SamePhis(t, v.state);
      StillTouched(s, t, v.state, c, d1, u, users);
      d := VisitsCollapse(s, v.state, d1, users[1..], if r == Result(u) then v.value else r, bound, order, f);
      var t' := Visits(t, users, r, bound, order).state;
      KeysOf(s, t, c, f);
      KeysOf(s, v.state, d1, f);
      KeysOf(s, t', d, f);
      UnderwayParts(s, t', d, f);
      VisitedTwice(s, t, v.state, t', c, d1, d, users);
    }
  }

  lemma UnderwayParts(s: Builder, t: Builder, c: Collapse, f: Collapse)
    requires Underway(s, t, c, f)
    ensures Standing(s, c) && Carried(s, t, c) && t.phis.Keys == s.phis.Keys && c.gone <= f.gone
  {
  }

  lemma KeysOf(s: Builder, t: Builder, c: Collapse, f: Collapse)
    requires Underway(s, t, c, f)
    ensures t.phis.Keys == s.phis.Keys
  {
  }

  lemma SamePhisUnderway(s: Builder, t: Builder, t': Builder, c: Collapse, f: Collapse)
    requires Underway(s, t, c, f) && t'.phis == t.phis
    ensures Underway(s, t', c, f)
  {
    hide Standing, Settled, Tidy, SeenPhi;
  }

  lemma SamePhisVisited(s: Builder, t: Builder, t': Builder, c: Collapse, u: Id)
    requires Visited(s, t, t, c, c, [u]) && t'.phis == t.phis
    ensures Visited(s, t, t', c, c, [u])
  {
    hide Pending, FrozenAt, UsesNew;
  }

  lemma NoneVisited(s: Builder, t: Builder, c: Collapse)
    ensures Visited(s, t, t, c, c, [])
  {
  }

  lemma UnderwayNext(s: Builder, t: Builder, c: Collapse, y: Id, b: Value, f: Collapse)
    requires Underway(s, t, c, f) && Joins(s, c, y, b)
    ensures Underway(s, Removed(t, y, b), Joined(c, y, b), f)
  {
    hide Joins, Carried, Standing, Settled, Tidy, Below, Removed;
    JoinedStands(s, c, y, b);
    JoinedBelow(s, c, f, y, b);
    CarriedNext(s, t, c, y, b);
  }

  lemma UsersTouched(s: Builder, t: Builder, c: Collapse, y: Id, b: Value, users: seq<Id>)
    requires Standing(s, c) && Carried(s, t, c) && Joins(s, c, y, b) && forall u :: u in users <==> u in PhiUsers(t, y)
    ensures forall u :: u in users ==> u in s.phis && s.phis[u].live && Touched(s, Joined(c, y, b).gone, u)
  {
    hide Joins, Carried, Standing, PhiUsers, Touched;
    forall u | u in users ensures u in s.phis && s.phis[u].live && Touched(s, Joined(c, y, b).gone, u) {
      UserTouched(s, t, c, y, b, u);
    }
  }

  lemma StillTouched(s: Builder, t: Builder, t': Builder, c: Collapse, d: Collapse, u: Id, users: seq<Id>)
    requires Visited(s, t, t', c, d, [u]) && forall w :: w in users ==> w in s.phis && Touched(s, c.gone, w)
    ensures forall w :: w in users ==> w in s.phis && Touched(s, d.gone, w)
  {
    hide FrozenAt, UsesNew, Pending;
  }

  lemma LiveShrinks(t: Builder, u: Id, a: Value)
    requires u in t.phis && t.phis[u].live
    ensures LiveSet(Removed(t, u, a)) < LiveSet(t)
  {
    assert u in LiveSet(t) && u !in LiveSet(Removed(t, u, a));
    assert LiveSet(Removed(t, u, a)) <= LiveSet(t);
  }

  lemma CascadeIs(t: Builder, u: Id, order: UserOrder, a: Value)
    requires u in t.phis && VisitsUsers(order) && Merges(t.phis[u], u, a) && MayVisit(Removed(t, u, a), order(t, u), LiveSet(Removed(t, u, a)), order)
    ensures Cascade(t, u, order) == Visits(Removed(t, u, a), order(t, u), a, LiveSet(Removed(t, u, a)), order)
  {
    MergedIs(t.phis[u], u, a);
  }

  lemma VisitsNone(t: Builder, r: Value, bound: set<Id>, order: UserOrder)
    requires VisitsUsers(order) && LiveSet(t) <= bound
    ensures Visits(t, [], r, bound, order) == Outcome(t, r)
  {
  }

  // ----- what the cascade returns -----

  /** The removed phi has no operand but itself. */
  ghost predicate SelfOnly(t: Builder, z: Id) {
    z in t.phis && forall q :: q in t.phis[z].operands ==> t.phis[z].operands[q] == Result(z)
  }

  /** r, the value when the users' phi went, is still to be visited; by then it is the value, or went with nothing left to merge. */
  ghost predicate Waiting(s: Builder, t: Builder, c: Collapse, users: seq<Id>, r: Value, c1: Collapse) {
    && Standing(s, c1) && After(c1, c) && r == c1.value && r.Result? && r.id in users && Pending(s, c1, r.id)
    && (r.id in c.gone ==> SelfOnly(t, r.id))
  }

  lemma StillWaiting(s: Builder, t: Builder, t': Builder, c: Collapse, d: Collapse, users: seq<Id>, r: Value, c1: Collapse)
    requires users != [] && Waiting(s, t, c, users, r, c1) && r != Result(users[0]) && Visited(s, t, t', c, d, [users[0]])
    ensures Waiting(s, t', d, users[1..], r, c1)
  {
    hide Pending, FrozenAt, UsesNew, Standing;
    AfterTwice(c1, c, d);
    assert users == [users[0]] + users[1..];
    var v := r.id;
    if v in d.gone {
      if v in c.gone {
        SelfStays(t, t', v);
      } else {
        var k :| FrozenAt(s, t', c, v, k) && (v in [users[0]] || UsesNew(s, v, c, k));
        FrozenIsSelf(s, t', c, c1, v, k);
      }
    }
  }

  lemma SelfStays(t: Builder, t': Builder, z: Id)
    requires SelfOnly(t, z) && z in t'.phis && t'.phis[z] == t.phis[z]
    ensures SelfOnly(t', z)
  {
  }

  /** Had the value been about to merge b and was taken by another visit, then b had gone before it. */
  lemma FrozenIsSelf(s: Builder, t: Builder, c: Collapse, c1: Collapse, v: Id, k: Collapse)
    requires Standing(s, c1) && After(c1, c) && c1.value == Result(v) && v !in c.gone && Pending(s, c1, v)
    requires FrozenAt(s, t, c, v, k) && UsesNew(s, v, c, k)
    ensures SelfOnly(t, v)
  {
    var b := TheJoin(s, c1, v);
    JoinSees(s, c1, v, b);
    hide Joins, Pending, SeenPhi;
    assert c.value == Result(v) && k.value == Result(v);
    var p :| p in s.phis[v].operands && UsedNew(s.phis[v].operands[p], c, k);
    assert Seen(c1, s.phis[v].operands[p]) == s.phis[v].operands[p] == b;
    forall q | q in t.phis[v].operands ensures t.phis[v].operands[q] == Result(v) {
      SeenKeys(k, s.phis[v]);
      assert q in s.phis[v].operands;
      SeenAt(k, s.phis[v], q);
      assert Seen(c1, s.phis[v].operands[q]) == b || Seen(c1, s.phis[v].operands[q]) == Result(v);
    }
  }

  lemma SeenKeys(k: Collapse, phi: Phi)
    ensures SeenPhi(k, phi).operands.Keys == phi.operands.Keys
  {
  }

  /** Visiting a phi that went with nothing left to merge returns an undefined value. */
  lemma SelfReturns(s: Builder, t: Builder, c: Collapse, u: Id, order: UserOrder)
    requires Standing(s, c) && Carried(s, t, c) && u in c.gone && SelfOnly(t, u) && VisitsUsers(order)
    ensures u in t.phis && Cascade(t, u, order).value == Undefined(u.serial)
  {
    SelfMerges(t.phis[u], u);
    NoUsersOfGone(s, t, c, u);
    hide Cascade, Carried, Standing, Removed, Merges;
    NoVisit(t, u, Undefined(u.serial), order);
  }

  lemma SelfMerges(phi: Phi, u: Id)
    requires forall q :: q in phi.operands ==> phi.operands[q] == Result(u)
    ensures Merges(phi, u, Undefined(u.serial))
  {
  }

  /** A phi that never goes returns itself. */
  lemma LastingReturns(s: Builder, t: Builder, c: Collapse, u: Id, order: UserOrder, f: Collapse)
    requires Underway(s, t, c, f) && VisitsUsers(order) && u in s.phis && s.phis[u].live && Touched(s, c.gone, u) && u !in f.gone
    ensures u in t.phis && Cascade(t, u, order).value == Result(u)
  {
    hide Underway, Touched, Pending, Carried, Standing, Joins, Cascade, Mergeable, VisitsUsers;
    UnderwayParts(s, t, c, f);
    UnderwayWithin(s, t, c, f);
    MergeableIsPending(s, t, c, u);
    NotPendingOutside(s, c, f, u);
    IfJoins(s, c, u);
    NothingToRemove(t, u, order);
  }

  lemma IfJoins(s: Builder, c: Collapse, u: Id)
    ensures forall b :: Joins(s, c, u, b) ==> Pending(s, c, u)
  {
  }

  lemma UnderwayWithin(s: Builder, t: Builder, c: Collapse, f: Collapse)
    requires Underway(s, t, c, f)
    ensures Within(s, c, f)
  {
  }

  /** The value about to join is among the users of what just went. */
  lemma ValueIsUser(s: Builder, t: Builder, c: Collapse, u: Id, b: Value)
    requires Standing(s, c) && Carried(s, t, c) && Joins(s, c, u, b) && c.value == Result(u) && b.Result? && Pending(s, Joined(c, u, b), b.id)
    ensures b.id in PhiUsers(t, u)
  {
    var b2 :| Joins(s, Joined(c, u, b), b.id, b2);
    hide SeenPhi;
    JoinsPhi(s, c, u, b);
    JoinSees(s, c, u, b);
    var z := b.id;
    var q :| q in s.phis[z].operands && s.phis[z].operands[q].Result? && s.phis[z].operands[q].id in Joined(c, u, b).gone;
    SeenAt(c, s.phis[z], q);
    assert t.phis[z] == SeenPhi(c, s.phis[z]);
    assert t.phis[z].operands[q] == Result(u);
  }

  lemma {:induction false} VisitAnswer(s: Builder, t: Builder, c: Collapse, u: Id, order: UserOrder, f: Collapse)
    requires Underway(s, t, c, f) && VisitsUsers(order) && u in s.phis && s.phis[u].live && Touched(s, c.gone, u) && u !in c.gone
    requires c.value == Result(u) && EndLasts(s, c, f)
    ensures u in t.phis && Lasting(s, f, Cascade(t, u, order).value)
    decreases LiveSet(t), if u in t.phis && t.phis[u].live then 0 else 2, 0
  {
    hide Underway, Visited, EndLasts, Touched, Pending, Carried, Standing, Joins, Cascade, Visits, Removed, LiveSet, Settled, PhiUsers, Mergeable, VisitsUsers, Waiting;
    UnderwayParts(s, t, c, f);
    if u !in f.gone {
      LastingReturns(s, t, c, u, order, f);
    } else {
      ValueJoins(s, c, f);
      MergeableIsPending(s, t, c, u);
      var b := Merged(t.phis[u], u);
      FirstVisits(t, u, order, b);
      var t1, c1 := Removed(t, u, b), Joined(c, u, b);
      CascadeIs(t, u, order, b);
      UnderwayNext(s, t, c, u, b, f);
      UsersTouched(s, t, c, u, b, order(t, u));
      LiveShrinks(t, u, b);
      EndStays(s, t, c, u, b, f);
      FirstWaits(s, t, c, u, b, f, order(t, u));
      FrameAnswer(s, t1, c1, order(t, u), b, LiveSet(t1), order, f, c1);
    }
  }

  /** When u has gone, its value lasts or waits to be visited. */
  lemma FirstWaits(s: Builder, t: Builder, c: Collapse, u: Id, b: Value, f: Collapse, users: seq<Id>)
    requires Underway(s, t, c, f) && Joins(s, c, u, b) && c.value == Result(u) && (forall w :: w in users <==> w in PhiUsers(t, u))
    requires EndLasts(s, Joined(c, u, b), f)
    ensures Lasting(s, f, b) || Waiting(s, Removed(t, u, b), Joined(c, u, b), users, b, Joined(c, u, b))
  {
    hide Carried, Joins, Pending, EndLasts, PhiUsers, Settled, Removed, SelfOnly;
    JoinedStands(s, c, u, b);
    if !Lasting(s, f, b) {
      ValueJoins(s, Joined(c, u, b), f);
      ValueIsUser(s, t, c, u, b);
    }
  }

  lemma {:induction false} FrameAnswer(s: Builder, t: Builder, c: Collapse, users: seq<Id>, r: Value, bound: set<Id>, order: UserOrder, f: Collapse, c1: Collapse)
    requires Underway(s, t, c, f) && MayVisit(t, users, bound, order) && EndLasts(s, c, f)
    requires forall u :: u in users ==> u in s.phis && s.phis[u].live && Touched(s, c.gone, u)
    requires Lasting(s, f, r) || Waiting(s, t, c, users, r, c1)
    ensures Lasting(s, f, Visits(t, users, r, bound, order).value)
    decreases bound, 1, |users|
  {
    hide Underway, Visited, EndLasts, Touched, Pending, Carried, Standing, Joins, Cascade, Removed, LiveSet, Settled, PhiUsers, SameShape, VisitsUsers, SelfOnly;
    UnderwayParts(s, t, c, f);
    if users != [] {
      var u := users[0];
      LiveOrSmaller(t, u, bound);
      var d := CascadeCollapses(s, t, c, u, order, f);
      var v := Cascade(t, u, order);
      ShapeLive(t, v.state);
      SsaCascade.SamePhis(t, v.state);
      StillTouched(s, t, v.state, c, d, u, users);
      if Lasting(s, f, r) {
        if r == Result(u) {
          LastingReturns(s, t, c, u, order, f);
        }
      } else if r == Result(u) {
        if u in c.gone {
          SelfReturns(s, t, c, u, order);
        } else {
          VisitAnswer(s, t, c, u, order, f);
        }
      } else {
        hide Waiting;
        StillWaiting(s, t, v.state, c, d, users, r, c1);
      }
      FrameAnswer(s, v.state, d, users[1..], if r == Result(u) then v.value else r, bound, order, f, c1);
    }
  }

  // ----- the theorems -----

  lemma AloneBelow(s: Builder, x: Id, f: Collapse)
    requires x in s.phis && Mergeable(s.phis[x], x) && x in f.gone && Standing(s, f)
    ensures Below(Alone(s, x), f)
  {
    var a := Merged(s.phis[x], x);
    if a != Undefined(x.serial) {
      var q :| q in s.phis[x].operands && s.phis[x].operands[q] == a;
      assert Accounted(f, s.phis[x].operands[q]);
    }
  }

  /** The cascade on x starts underway to everything that goes with x. */
  lemma CascadeStarts(s: Builder, x: Id, order: UserOrder)
    requires Tidy(s) && x in s.phis && s.phis[x].live && Mergeable(s.phis[x], x) && VisitsUsers(order)
    ensures var a := Merged(s.phis[x], x);
            var t := Removed(s, x, a);
            && Underway(s, t, Alone(s, x), CollapseOf(s, x)) && MayVisit(t, order(s, x), LiveSet(t), order)
            && Cascade(s, x, order) == Visits(t, order(s, x), a, LiveSet(t), order)
    ensures forall u :: u in order(s, x) <==> u in PhiUsers(s, x)
    ensures forall u :: u in order(s, x) ==> u in s.phis && s.phis[u].live && Touched(s, Alone(s, x).gone, u)
  {
    hide Removed, Cascade, Visits, Settled, Carried, LiveSet, CollapseFrom, Joins;
    var a := Merged(s.phis[x], x);
    FirstVisits(s, x, order, a);
    CascadeIs(s, x, order, a);
    AloneStands(s, x);
    CollapseStands(s, Alone(s, x));
    AloneBelow(s, x, CollapseOf(s, x));
    FirstCarried(s, x);
    forall u | u in PhiUsers(s, x) ensures u in s.phis && s.phis[u].live && Touched(s, {x}, u) {
      var q :| q in s.phis[u].operands && s.phis[u].operands[q] == Result(x);
    }
  }

  /** Who joins first uses x. */
  lemma FirstPending(s: Builder, x: Id, z: Id)
    requires x in s.phis && Mergeable(s.phis[x], x) && Pending(s, Alone(s, x), z)
    ensures z in PhiUsers(s, x)
  {
    var b :| Joins(s, Alone(s, x), z, b);
    var q :| q in s.phis[z].operands && s.phis[z].operands[q].Result? && s.phis[z].operands[q].id in Alone(s, x).gone;
    assert s.phis[z].operands[q] == Result(x);
  }

  /** Whatever the order of users, exactly the collapse of x goes. */
  lemma GoneExactly(s: Builder, x: Id, order: UserOrder)
    requires Tidy(s) && x in s.phis && s.phis[x].live && Mergeable(s.phis[x], x) && VisitsUsers(order)
    ensures var t := Cascade(s, x, order).state;
            && t.phis.Keys == s.phis.Keys
            && forall y :: y in s.phis ==> (t.phis[y].live <==> s.phis[y].live && y !in CollapseOf(s, x).gone)
  {
    hide Cascade, Visits, Removed, LiveSet, Settled, CollapseOf, PhiUsers, Touched, Pending, Joins, Visited, Below, EndLasts, VisitsUsers;
    CascadeStarts(s, x, order);
    var f, c, a := CollapseOf(s, x), Alone(s, x), Merged(s.phis[x], x);
    var t, users := Removed(s, x, a), order(s, x);
    var d := VisitsCollapse(s, t, c, users, a, LiveSet(t), order, f);
    var t' := Cascade(s, x, order).state;
    VisitedSettles(s, x, t, t', d, users);
    AloneStands(s, x);
    VisitedGrows(s, t, t', c, d, users);
    AloneBelow(s, x, d);
    CollapseIs(s, x);
    CollapseBelow(s, c, d);
    BelowBoth(d, f);
  }

  lemma VisitedSettles(s: Builder, x: Id, t: Builder, t': Builder, d: Collapse, users: seq<Id>)
    requires x in s.phis && Mergeable(s.phis[x], x) && Visited(s, t, t', Alone(s, x), d, users) && forall u :: u in users <==> u in PhiUsers(s, x)
    ensures Settled(s, d)
  {
    hide Pending, FrozenAt, UsesNew, PhiUsers;
    forall z | Pending(s, d, z) ensures false {
      FirstPending(s, x, z);
    }
  }

  lemma VisitedGrows(s: Builder, t: Builder, t': Builder, c: Collapse, d: Collapse, users: seq<Id>)
    requires Visited(s, t, t', c, d, users)
    ensures c.gone <= d.gone
  {
  }

  lemma CollapseIs(s: Builder, x: Id)
    requires x in s.phis && Mergeable(s.phis[x], x)
    ensures CollapseOf(s, x) == CollapseFrom(s, Alone(s, x)) && x in CollapseOf(s, x).gone && x in Alone(s, x).gone
  {
  }

  lemma BelowBoth(c: Collapse, d: Collapse)
    requires Below(c, d) && Below(d, c)
    ensures c.gone == d.gone
  {
  }

  /** Removing x returns what stands for it, whatever the order of users: the end of the merged value stays. */
  ghost predicate Safe(s: Builder, x: Id)
    requires x in s.phis
  {
    Mergeable(s.phis[x], x) ==>
      var e := Direct(s, Alone(s, x));
      e.Result? ==> e.id !in CollapseOf(s, x).gone
  }

  lemma {:induction false} DirectIsFound(s: Builder, c: Collapse)
    requires Tidy(s) && Standing(s, c)
    ensures !IsRemoved(s, Direct(s, c)) && (Direct(s, c).Result? ==> Direct(s, c).id !in c.gone)
    decreases LiveSet(s) - c.gone
  {
    hide Standing, Tidy, Joins, LiveSet, Direct, Pending;
    if c.value.Result? && Pending(s, c, c.value.id) {
      var b := TheJoin(s, c, c.value.id);
      DirectNext(s, c, b);
      JoinedStands(s, c, c.value.id, b);
      JoinsShrinks(s, c, c.value.id, b);
      DirectIsFound(s, Joined(c, c.value.id, b));
    } else {
      DirectEnds(s, c);
      ValueStands(s, c);
    }
  }

  lemma ValueStands(s: Builder, c: Collapse)
    requires Standing(s, c)
    ensures !IsRemoved(s, c.value) && (c.value.Result? ==> c.value.id !in c.gone)
  {
  }

  /** A safe removal is right in every order. */
  lemma SafeIsRight(s: Builder, x: Id, order: UserOrder)
    requires Tidy(s) && x in s.phis && s.phis[x].live && VisitsUsers(order) && Safe(s, x)
    ensures var o := Cascade(s, x, order); !IsRemoved(o.state, o.value)
  {
    hide Cascade, Visits, Removed, LiveSet, Settled, CollapseOf, PhiUsers, Touched, Pending, Joins, Direct, VisitsUsers, Carried, Below, Underway, Tidy;
    if Mergeable(s.phis[x], x) {
      CascadeStarts(s, x, order);
      var f, c, a := CollapseOf(s, x), Alone(s, x), Merged(s.phis[x], x);
      var t, users := Removed(s, x, a), order(s, x);
      AloneStands(s, x);
      DirectIsFound(s, c);
      assert EndLasts(s, c, f);
      FirstOfAllWaits(s, x, t, f, users);
      FrameAnswer(s, t, c, users, a, LiveSet(t), order, f, c);
      GoneExactly(s, x, order);
    } else {
      NothingToRemove(s, x, order);
    }
  }

  lemma FirstOfAllWaits(s: Builder, x: Id, t: Builder, f: Collapse, users: seq<Id>)
    requires Tidy(s) && x in s.phis && s.phis[x].live && Mergeable(s.phis[x], x) && Standing(s, Alone(s, x)) && EndLasts(s, Alone(s, x), f)
    requires forall u :: u in users <==> u in PhiUsers(s, x)
    ensures var a := Merged(s.phis[x], x); Lasting(s, f, a) || Waiting(s, t, Alone(s, x), users, a, Alone(s, x))
  {
    hide EndLasts, Pending, PhiUsers, SelfOnly;
    if !Lasting(s, f, Merged(s.phis[x], x)) {
      ValueJoins(s, Alone(s, x), f);
      FirstPending(s, x, Merged(s.phis[x], x).id);
    }
  }

  // ----- an order that goes wrong -----

  ghost function PutFirst(all: set<Id>, v: Value): (q: seq<Id>)
    ensures Enumerates(q, all)
    ensures v.Result? && v.id in all ==> q != [] && q[0] == v.id
    ensures v.Result? && v.id in all ==> v.id !in q[1..]
  {
    if v.Result? && v.id in all then
      var rest := AnEnumeration(all - {v.id});
      assert ([v.id] + rest)[1..] == rest;
      [v.id] + rest
    else AnEnumeration(all)
  }

  /** e first, then v, then the rest. */
  ghost function Preferring(all: set<Id>, e: Id, v: Value): (q: seq<Id>)
    ensures Enumerates(q, all)
  {
    if e in all then
      var rest := PutFirst(all - {e}, v);
      assert Enumerates([e] + rest, all);
      [e] + rest
    else PutFirst(all, v)
  }

  ghost function MergedOr(phi: Phi, x: Id): Value {
    if Mergeable(phi, x) then Merged(phi, x) else Undefined(0)
  }

  ghost predicate Stubborn(order: UserOrder, e: Id) {
    forall t: Builder, y :: y in t.phis ==> order(t, y) == Preferring(PhiUsers(t, y), e, MergedOr(t.phis[y], y))
  }

  lemma StubbornOrder(e: Id) returns (order: UserOrder)
    ensures VisitsUsers(order) && Stubborn(order, e)
  {
    order := (t: Builder, y: Id) => if y in t.phis then Preferring(PhiUsers(t, y), e, MergedOr(t.phis[y], y)) else AnEnumeration(PhiUsers(t, y));
  }

  /** What no user is called is returned as it is. */
  lemma {:induction false} OthersKeepAnswer(t: Builder, users: seq<Id>, r: Value, bound: set<Id>, order: UserOrder)
    requires MayVisit(t, users, bound, order) && forall u :: u in users ==> r != Result(u)
    ensures Visits(t, users, r, bound, order).value == r
    decreases |users|
  {
    hide SameShape, PhiUsers, Removed, LiveSet, VisitsUsers, Cascade;
    if users != [] {
      var v := Cascade(t, users[0], order);
      ShapeLive(t, v.state);
      SsaCascade.SamePhis(t, v.state);
      OthersKeepAnswer(v.state, users[1..], r, bound, order);
    }
  }

  /** The end of the chain does not join before it is the value. */
  lemma {:induction false} EndNotPending(s: Builder, c: Collapse, e: Id)
    requires Tidy(s) && Standing(s, c) && Direct(s, c) == Result(e)
    ensures !Pending(s, c, e)
    decreases LiveSet(s) - c.gone
  {
    hide Standing, Tidy, Joins, LiveSet, Direct, Pending;
    DirectIsFound(s, c);
    if c.value == Result(e) {
      if Pending(s, c, e) {
        var b := TheJoin(s, c, e);
        DirectNext(s, c, b);
        JoinedStands(s, c, e, b);
        DirectIsFound(s, Joined(c, e, b));
      }
    } else if Pending(s, c, e) {
      var b := TheJoin(s, c, e);
      IfJoins(s, c, e);
      ChainGoesOn(s, c, e);
      var v := c.value.id;
      var b1 := TheJoin(s, c, v);
      DirectNext(s, c, b1);
      JoinedStands(s, c, v, b1);
      JoinsShrinks(s, c, v, b1);
      EndNotPending(s, Joined(c, v, b1), e);
      AnywayPending(s, c, e, b, v, b1);
    }
  }

  lemma ChainGoesOn(s: Builder, c: Collapse, e: Id)
    requires Direct(s, c) == Result(e) && c.value != Result(e)
    ensures c.value.Result? && Pending(s, c, c.value.id)
  {
  }

  lemma AnywayPending(s: Builder, c: Collapse, y: Id, b: Value, v: Id, b1: Value)
    requires Standing(s, c) && c.value == Result(v) && v != y && Joins(s, c, y, b) && Joins(s, c, v, b1)
    ensures Pending(s, Joined(c, v, b1), y)
  {
    hide SeenPhi, Standing;
    JoinsPhi(s, c, y, b);
    JoinsPhi(s, c, v, b1);
    JoinSees(s, c, y, b);
    TouchedAgain(s, c, y, b, v, b1);
    MayJoin(s, Joined(c, v, b1), y, b1);
  }

  /** Following the chain at every turn, e visited too early each time, the answer is e. */
  lemma {:induction false} StubbornAnswer(s: Builder, t: Builder, c: Collapse, u: Id, b: Value, order: UserOrder, e: Id)
    requires Tidy(s) && Standing(s, c) && Carried(s, t, c) && c.value == Result(u) && Joins(s, c, u, b) && Direct(s, c) == Result(e)
    requires VisitsUsers(order) && Stubborn(order, e)
    ensures u in t.phis && Cascade(t, u, order).value == Result(e)
    decreases LiveSet(t), 0
  {
    hide Carried, Standing, Joins, Cascade, Visits, Removed, LiveSet, PhiUsers, Mergeable, VisitsUsers, Direct, Pending, Touched, Tidy, Stubborn;
    JoinsPhi(s, c, u, b);
    JoinsMergeable(s, t, c, u, b);
    FirstVisits(t, u, order, b);
    CascadeIs(t, u, order, b);
    LiveShrinks(t, u, b);
    JoinedStands(s, c, u, b);
    CarriedNext(s, t, c, u, b);
    DirectNext(s, c, b);
    UsersTouched(s, t, c, u, b, order(t, u));
    if b.Result? && Pending(s, Joined(c, u, b), b.id) {
      ValueIsUser(s, t, c, u, b);
    }
    OrderIs(t, u, order, b, e);
    StubbornFrame(s, Removed(t, u, b), Joined(c, u, b), order(t, u), PhiUsers(t, u), b, LiveSet(Removed(t, u, b)), order, e);
  }

  lemma JoinsMergeable(s: Builder, t: Builder, c: Collapse, u: Id, b: Value)
    requires Carried(s, t, c) && Joins(s, c, u, b)
    ensures u in t.phis && t.phis[u].live && Merges(t.phis[u], u, b) && Mergeable(t.phis[u], u)
  {
  }

  lemma OrderIs(t: Builder, u: Id, order: UserOrder, b: Value, e: Id)
    requires u in t.phis && Stubborn(order, e) && Merges(t.phis[u], u, b)
    ensures order(t, u) == Preferring(PhiUsers(t, u), e, b)
  {
    MergedIs(t.phis[u], u, b);
  }

  lemma {:induction false} StubbornFrame(s: Builder, t: Builder, c: Collapse, users: seq<Id>, all: set<Id>, b: Value, bound: set<Id>, order: UserOrder, e: Id)
    requires Tidy(s) && Standing(s, c) && Carried(s, t, c) && c.value == b && Direct(s, c) == Result(e) && users == Preferring(all, e, b)
    requires (forall w :: w in users <==> w in all) && forall w :: w in users ==> w in s.phis && s.phis[w].live && Touched(s, c.gone, w)
    requires MayVisit(t, users, bound, order) && Stubborn(order, e) && (b.Result? && Pending(s, c, b.id) ==> b.id in all)
    ensures Visits(t, users, b, bound, order).value == Result(e)
    decreases LiveSet(t), 2
  {
    hide Carried, Standing, Joins, Cascade, Visits, Removed, LiveSet, PhiUsers, Mergeable, VisitsUsers, Direct, Pending, Touched, Tidy, Stubborn, SameShape;
    DirectIsFound(s, c);
    EndNotPending(s, c, e);
    if e in all {
      // Visiting e changes nothing and returns e.
      MergeableIsPending(s, t, c, e);
      IfJoins(s, c, e);
      CarriedKeys(s, t, c);
      NothingToRemove(t, e, order);
      VisitsNext(t, users, b, bound, order);
      assert users == [e] + PutFirst(all - {e}, b);
      StubbornRest(s, t, c, users[1..], all - {e}, b, bound, order, e);
    } else {
      StubbornRest(s, t, c, users, all, b, bound, order, e);
    }
  }

  lemma CarriedKeys(s: Builder, t: Builder, c: Collapse)
    requires Carried(s, t, c)
    ensures t.phis.Keys == s.phis.Keys
  {
  }

  lemma VisitsNext(t: Builder, users: seq<Id>, r: Value, bound: set<Id>, order: UserOrder)
    requires MayVisit(t, users, bound, order) && users != []
    ensures users[0] in t.phis
    ensures var v := Cascade(t, users[0], order);
            && MayVisit(v.state, users[1..], bound, order)
            && Visits(t, users, r, bound, order) == Visits(v.state, users[1..], if r == Result(users[0]) then v.value else r, bound, order)
  {
    hide SameShape, PhiUsers, Removed, LiveSet, VisitsUsers, Cascade;
    var v := Cascade(t, users[0], order);
    ShapeLive(t, v.state);
    SsaCascade.SamePhis(t, v.state);
  }

  lemma {:induction false} StubbornRest(s: Builder, t: Builder, c: Collapse, users: seq<Id>, all: set<Id>, b: Value, bound: set<Id>, order: UserOrder, e: Id)
    requires Tidy(s) && Standing(s, c) && Carried(s, t, c) && c.value == b && Direct(s, c) == Result(e) && users == PutFirst(all, b) && e !in all
    requires forall w :: w in users ==> w in s.phis && s.phis[w].live && Touched(s, c.gone, w)
    requires MayVisit(t, users, bound, order) && Stubborn(order, e) && (b.Result? && b.id != e && Pending(s, c, b.id) ==> b.id in all)
    ensures Visits(t, users, b, bound, order).value == Result(e)
    decreases LiveSet(t), 1
  {
    hide Carried, Standing, Joins, Cascade, Visits, Removed, LiveSet, PhiUsers, Mergeable, Direct, Pending, Touched, Tidy, Stubborn, SameShape;
    if b == Result(e) {
      OthersKeepAnswer(t, users, b, bound, order);
    } else {
      ChainGoesOn(s, c, e);
      var b1 := TheJoin(s, c, b.id);
      VisitsNext(t, users, b, bound, order);
      CarriedKeys(s, t, c);
      hide VisitsUsers;
      StubbornAnswer(s, t, c, b.id, b1, order, e);
      var v := Cascade(t, b.id, order);
      OthersKeepAnswer(v.state, users[1..], v.value, bound, order);
    }
  }

  /** A removal that is not safe returns a removed phi in some order. */
  lemma UnsafeIsStale(s: Builder, x: Id) returns (order: UserOrder)
    requires Tidy(s) && x in s.phis && s.phis[x].live && !Safe(s, x)
    ensures VisitsUsers(order) && var o := Cascade(s, x, order); IsRemoved(o.state, o.value)
  {
    hide Cascade, Visits, Removed, LiveSet, Settled, CollapseOf, PhiUsers, Touched, Pending, Joins, Direct, VisitsUsers, Carried, Below, Tidy, Stubborn, Standing, Mergeable;
    var c, a := Alone(s, x), Merged(s.phis[x], x);
    var e := Direct(s, c).id;
    order := StubbornOrder(e);
    CascadeStarts(s, x, order);
    var t, users := Removed(s, x, a), order(s, x);
    AloneStands(s, x);
    FirstCarried(s, x);
    DirectIsFound(s, c);
    if a.Result? && Pending(s, c, a.id) {
      FirstPending(s, x, a.id);
    }
    OrderIs(s, x, order, a, e);
    StubbornFrame(s, t, c, users, PhiUsers(s, x), a, LiveSet(t), order, e);
    GoneExactly(s, x, order);
    GoneIsPhi(s, x, e);
  }

  lemma GoneIsPhi(s: Builder, x: Id, e: Id)
    requires Tidy(s) && x in s.phis && s.phis[x].live && Mergeable(s.phis[x], x) && e in CollapseOf(s, x).gone
    ensures e in s.phis
  {
    AloneStands(s, x);
    CollapseStands(s, Alone(s, x));
  }

  // ----- simpler conditions -----

  /** The merged value stays: always right. */
  lemma OutsideIsSafe(s: Builder, x: Id)
    requires Tidy(s) && x in s.phis && s.phis[x].live && Mergeable(s.phis[x], x)
    requires var a := Merged(s.phis[x], x); a.Result? ==> a.id !in CollapseOf(s, x).gone
    ensures Safe(s, x)
  {
    hide CollapseOf, Joins, Direct, Settled, Standing, Tidy;
    var c, f, a := Alone(s, x), CollapseOf(s, x), Merged(s.phis[x], x);
    AloneStands(s, x);
    CollapseIs(s, x);
    CollapseStands(s, c);
    AloneBelow(s, x, f);
    if a.Result? {
      NotPendingOutside(s, c, f, a.id);
    }
    DirectEnds(s, c);
  }

  /** The merged value does not itself use x: right in every order exactly when that value stays. */
  lemma UnvisitedIsSafeIff(s: Builder, x: Id)
    requires Tidy(s) && x in s.phis && s.phis[x].live && Mergeable(s.phis[x], x)
    requires var a := Merged(s.phis[x], x); a.Result? ==> a.id !in PhiUsers(s, x)
    ensures Safe(s, x) <==> var a := Merged(s.phis[x], x); a.Result? ==> a.id !in CollapseOf(s, x).gone
  {
    hide CollapseOf, Joins, Direct, PhiUsers, Tidy, Pending;
    var c, a := Alone(s, x), Merged(s.phis[x], x);
    if a.Result? && Pending(s, c, a.id) {
      FirstPending(s, x, a.id);
    }
    DirectEnds(s, c);
  }

  /** Users of the phis in k are in k: no chain of users leads out. */
  ghost predicate Closed(s: Builder, k: set<Id>) {
    forall y, z :: y in k && y in s.phis && z in PhiUsers(s, y) ==> z in k
  }

  /** Only phis that a chain of users reaches go. */
  lemma {:induction false} CollapseInside(s: Builder, c: Collapse, k: set<Id>)
    requires Closed(s, k) && c.gone <= k && forall y :: y in c.gone ==> y in s.phis
    ensures CollapseFrom(s, c).gone <= k
    decreases LiveSet(s) - c.gone
  {
    hide Closed, LiveSet, Joins;
    if !Settled(s, c) {
      var (y, b) := SomeJoin(s, c);
      JoinsInside(s, c, y, b, k);
      JoinsShrinks(s, c, y, b);
      CollapseInside(s, Joined(c, y, b), k);
    }
  }

  lemma JoinsInside(s: Builder, c: Collapse, y: Id, b: Value, k: set<Id>)
    requires Closed(s, k) && c.gone <= k && (forall z :: z in c.gone ==> z in s.phis) && Joins(s, c, y, b)
    ensures y in k && y in s.phis
  {
    hide SeenPhi;
    var q :| q in s.phis[y].operands && s.phis[y].operands[q].Result? && s.phis[y].operands[q].id in c.gone;
    assert y in PhiUsers(s, s.phis[y].operands[q].id);
  }

  /** No chain of users leads from x to the value it merges: right in every order. */
  lemma NoChainIsSafe(s: Builder, x: Id, k: set<Id>)
    requires Tidy(s) && x in s.phis && s.phis[x].live && Mergeable(s.phis[x], x) && x in k && Closed(s, k)
    requires var a := Merged(s.phis[x], x); a.Result? ==> a.id !in k
    ensures Safe(s, x)
  {
    hide CollapseOf, Joins, Direct, Closed, Tidy, Safe;
    CollapseInside(s, Alone(s, x), k);
    CollapseIs(s, x);
    OutsideIsSafe(s, x);
  }

  /** A phi from before the read, as a merged value, is never lost. */
  lemma OlderIsSafe(s0: Builder, labels0: map<Place, Value>, s: Builder, labels: map<Place, Value>, forward: map<Id, Value>, x: Id)
    requires Cascading(s0, labels0, s, labels, forward) && x in s.phis && s.phis[x].live && x !in s0.phis && Mergeable(s.phis[x], x)
    requires var a := Merged(s.phis[x], x); a.Result? && a.id in s.phis ==> a.id in s0.phis
    ensures Safe(s, x)
  {
    hide SameShape, PhiUsers, Safe, Mergeable;
    ConsistentIsTidy(s, labels, forward);
    hide Consistent;
    var k := set y | y in s.phis && y !in s0.phis;
    forall y, z | y in k && y in s.phis && z in PhiUsers(s, y) ensures z in k {
      UsersAreNew(s0, labels0, s, labels, y);
      UsersExist(s, y);
    }
    hide Tidy;
    NoChainIsSafe(s, x, k);
  }

  lemma ConsistentIsTidy(s: Builder, labels: map<Place, Value>, forward: map<Id, Value>)
    requires Consistent(s, labels, forward)
    ensures Tidy(s)
  {
    hide PhisAgree, DefsAgree, UsesAgree, Shaped, Forwards, PlainAgree;
  }

  /** Nobody uses x: only x goes, and safely. */
  lemma UnusedIsSafe(s: Builder, x: Id)
    requires Tidy(s) && x in s.phis && s.phis[x].live && PhiUsers(s, x) == {}
    ensures Safe(s, x)
  {
    hide Safe, Tidy, PhiUsers;
    if Mergeable(s.phis[x], x) {
      assert Closed(s, {x});
      MergedOther(s, x);
      NoChainIsSafe(s, x, {x});
    } else {
      NothingIsSafe(s, x);
    }
  }

  lemma MergedOther(s: Builder, x: Id)
    requires x in s.phis && Mergeable(s.phis[x], x)
    ensures Merged(s.phis[x], x) != Result(x)
  {
  }

  lemma NothingIsSafe(s: Builder, x: Id)
    requires x in s.phis && !Mergeable(s.phis[x], x)
    ensures Safe(s, x)
  {
  }

  /** What became of s by removing x: exactly what goes with x went. */
  ghost predicate GoesWith(s: Builder, x: Id, t: Builder)
    requires x in s.phis
  {
    s.phis[x].live && Tidy(s) && Mergeable(s.phis[x], x) ==>
      && t.phis.Keys == s.phis.Keys
      && forall y :: y in s.phis ==> (t.phis[y].live <==> s.phis[y].live && y !in CollapseOf(s, x).gone)
  }

  lemma CascadeGoes(s: Builder, x: Id, order: UserOrder)
    requires x in s.phis && VisitsUsers(order)
    ensures GoesWith(s, x, Cascade(s, x, order).state)
    ensures s.phis[x].live && Tidy(s) && Safe(s, x) ==> !IsRemoved(Cascade(s, x, order).state, Cascade(s, x, order).value)
  {
    hide Cascade, CollapseOf, Tidy, Safe;
    if s.phis[x].live && Tidy(s) {
      if Mergeable(s.phis[x], x) {
        GoneExactly(s, x, order);
      }
      if Safe(s, x) {
        SafeIsRight(s, x, order);
      }
    }
  }
}
