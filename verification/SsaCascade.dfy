/**
  Removing a trivial phi, as a function of the builder and of the order in which users
  are visited.
 */
module SsaCascade {
  import opened Cfg
  import opened Ssa
  import opened SsaConstruction

  /** The order of an unordered set of users, which may be any. */
  type UserOrder = (Builder, Id) -> seq<Id>

  ghost predicate VisitsUsers(order: UserOrder) {
    forall s, x :: Enumerates(order(s, x), PhiUsers(s, x))
  }

  ghost predicate Enumerates<T(!new)>(q: seq<T>, all: set<T>) {
    && (forall x :: x in q <==> x in all)
    && forall i, j :: 0 <= i < j < |q| ==> q[i] != q[j]
  }

  /** A set can be gone through in some order. */
  lemma {:induction false} SomeEnumeration<T(!new)>(all: set<T>) returns (q: seq<T>)
    ensures Enumerates(q, all)
    decreases all
  {
    if all == {} {
      q := [];
    } else {
      var x :| x in all;
      var rest := SomeEnumeration(all - {x});
      q := [x] + rest;
    }
  }

  ghost function AnEnumeration<T(!new)>(all: set<T>): (q: seq<T>)
    ensures Enumerates(q, all)
  {
    assert exists q: seq<T> :: Enumerates(q, all) by {
      var q := SomeEnumeration(all);
    }
    var q :| Enumerates(q, all);
    q
  }

  datatype Outcome = Outcome(state: Builder, value: Value)

  /** The one value a trivial phi merges. */
  ghost function Merged(phi: Phi, x: Id): (a: Value)
    requires Mergeable(phi, x)
    ensures Merges(phi, x, a)
  {
    var a :| Merges(phi, x, a);
    a
  }

  lemma MergedIs(phi: Phi, x: Id, a: Value)
    requires Merges(phi, x, a)
    ensures Merged(phi, x) == a
  {
  }

  /** Removing x and whatever becomes trivial by it, and what that returns. */
  ghost function Cascade(s: Builder, x: Id, order: UserOrder): (o: Outcome)
    requires x in s.phis && VisitsUsers(order)
    ensures SameShape(s, o.state)
    decreases LiveSet(s), if s.phis[x].live then 0 else 2, 0
  {
    if Mergeable(s.phis[x], x) then
      var a := Merged(s.phis[x], x);
      var t := Removed(s, x, a);
      AfterFirst(s, x, a);
      UsersRemain(s, x, a);
      var o := Visits(t, order(s, x), a, LiveSet(t), order);
      ShapeTwice(s, t, o.state);
      o
    else
      SameShapeItself(s);
      Outcome(s, Result(x))
  }

  /**
    The users still to be visited, r being the value to return so far: when the user
    visited is that very phi, r becomes what its visit returns.
   */
  ghost function Visits(s: Builder, users: seq<Id>, r: Value, bound: set<Id>, order: UserOrder): (o: Outcome)
    requires VisitsUsers(order) && LiveSet(s) <= bound && forall u :: u in users ==> u in s.phis && u in bound
    ensures SameShape(s, o.state)
    decreases bound, 1, |users|
  {
    if users == [] then
      SameShapeItself(s);
      Outcome(s, r)
    else
      LiveOrSmaller(s, users[0], bound);
      var v := Cascade(s, users[0], order);
      ShapeLive(s, v.state);
      var o := Visits(v.state, users[1..], if r == Result(users[0]) then v.value else r, bound, order);
      ShapeTwice(s, v.state, o.state);
      o
  }

  lemma UsersRemain(s: Builder, x: Id, a: Value)
    requires x in s.phis
    ensures forall y :: y in PhiUsers(s, x) ==> y in Removed(s, x, a).phis && y in LiveSet(Removed(s, x, a))
    ensures !s.phis[x].live ==> LiveSet(Removed(s, x, a)) == LiveSet(s)
  {
  }

  lemma SamePhis(s: Builder, t: Builder)
    requires SameShape(s, t)
    ensures t.phis.Keys == s.phis.Keys
  {
  }

  // ----- the visits, one at a time -----

  /** Visits may go on with these users. */
  ghost predicate MayVisit(s: Builder, users: seq<Id>, bound: set<Id>, order: UserOrder) {
    VisitsUsers(order) && LiveSet(s) <= bound && forall u :: u in users ==> u in s.phis && u in bound
  }

  ghost function Remaining(s: Builder, users: seq<Id>, i: nat, r: Value, bound: set<Id>, order: UserOrder): Outcome
    requires i <= |users| && MayVisit(s, users, bound, order)
  {
    Visits(s, users[i..], r, bound, order)
  }

  lemma FirstVisits(s: Builder, x: Id, order: UserOrder, a: Value)
    requires x in s.phis && VisitsUsers(order) && Merges(s.phis[x], x, a)
    ensures var t := Removed(s, x, a);
            && MayVisit(t, order(s, x), LiveSet(t), order)
            && Cascade(s, x, order) == Remaining(t, order(s, x), 0, a, LiveSet(t), order)
    ensures forall y :: y in order(s, x) <==> y in PhiUsers(s, x)
  {
    MergedIs(s.phis[x], x, a);
    AfterFirst(s, x, a);
    UsersRemain(s, x, a);
    assert order(s, x)[0..] == order(s, x);
  }

  lemma NextVisit(s: Builder, users: seq<Id>, i: nat, r: Value, bound: set<Id>, order: UserOrder)
    requires i < |users| && MayVisit(s, users, bound, order)
    ensures users[i] in s.phis && VisitsUsers(order)
    ensures var v := Cascade(s, users[i], order);
            && MayVisit(v.state, users, bound, order)
            && Remaining(s, users, i, r, bound, order)
               == Remaining(v.state, users, i + 1, if r == Result(users[i]) then v.value else r, bound, order)
  {
    hide SameShape, PhiUsers, Removed, LiveSet, VisitsUsers;
    var v := Cascade(s, users[i], order);
    ShapeLive(s, v.state);
    SamePhis(s, v.state);
    assert users[i..][1..] == users[i + 1..];
  }

  lemma LastVisit(s: Builder, users: seq<Id>, r: Value, bound: set<Id>, order: UserOrder)
    requires MayVisit(s, users, bound, order)
    ensures Remaining(s, users, |users|, r, bound, order) == Outcome(s, r)
  {
  }

  lemma NothingToRemove(s: Builder, x: Id, order: UserOrder)
    requires x in s.phis && VisitsUsers(order) && !Mergeable(s.phis[x], x)
    ensures Cascade(s, x, order) == Outcome(s, Result(x))
  {
  }

  lemma NoneIn<T>(q: seq<T>)
    requires forall x :: x !in q
    ensures q == []
  {
    if q != [] {
      HasFirst(q);
    }
  }

  lemma HasFirst<T>(q: seq<T>)
    requires q != []
    ensures q[0] in q
  {
  }

  /** Nobody uses the phi: only it goes. */
  lemma NoVisit(s: Builder, x: Id, a: Value, order: UserOrder)
    requires VisitsUsers(order) && x in s.phis && Merges(s.phis[x], x, a) && PhiUsers(s, x) == {}
    ensures Cascade(s, x, order) == Outcome(Removed(s, x, a), a)
  {
    hide Cascade, Removed, Remaining, MayVisit, PhiUsers, LiveSet;
    FirstVisits(s, x, order, a);
    assert Enumerates(order(s, x), PhiUsers(s, x));
    NoneIn(order(s, x));
    LastVisit(Removed(s, x, a), [], a, LiveSet(Removed(s, x, a)), order);
  }
}
