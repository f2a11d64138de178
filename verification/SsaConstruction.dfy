/**
  SSA form built on the fly: reading a variable looks back through the
  predecessors and places phis, unsealed blocks get phis without operands that
  sealing completes, and a phi that merges one value is removed, which may make
  the phis that used it removable in turn.
 */
module SsaConstruction {
  import opened Cfg
  import opened Ssa

  type Variable = nat

  datatype Place = Place(block: Block, variable: Variable)

  /** live: not removed yet.  A removed phi keeps its last operands. */
  datatype Phi = Phi(block: Block, variable: Variable, operands: map<Block, Value>, live: bool)

  /** What the program does in a block: it computes an id, uses the value read for a variable, or assigns one. */
  datatype Event = Compute(id: Id) | Use(variable: Variable, value: Value) | Assign(variable: Variable, value: Value)

  /** defs is localVarSsaMap of all blocks; incomplete holds the phis of unsealed blocks. */
  datatype Builder = Builder(preds: map<Block, set<Block>>, sealed: set<Block>, defs: map<Place, Value>,
                             phis: map<Id, Phi>, incomplete: map<Place, Id>, code: map<Block, seq<Event>>, next: nat)

  // ----- what a block's code makes of its variables -----

  predicate Writes(code: seq<Event>, v: Variable) {
    exists i :: 0 <= i < |code| && code[i].Assign? && code[i].variable == v
  }

  function LastWrite(code: seq<Event>, v: Variable): Value
    requires Writes(code, v)
  {
    var n := |code| - 1;
    if code[n].Assign? && code[n].variable == v then code[n].value
    else
      assert Writes(code[..n], v) by {
        var i :| 0 <= i < |code| && code[i].Assign? && code[i].variable == v;
        assert code[..n][i] == code[i];
      }
      LastWrite(code[..n], v)
  }

  /** labels gives the value a variable has at the head of a block. */
  ghost predicate Known(code: seq<Event>, labels: map<Place, Value>, p: Place) {
    Writes(code, p.variable) || p in labels
  }

  ghost function Current(code: seq<Event>, labels: map<Place, Value>, p: Place): Value
    requires Known(code, labels, p)
  {
    if Writes(code, p.variable) then LastWrite(code, p.variable) else labels[p]
  }

  // ----- the invariant -----

  ghost predicate Shaped(s: Builder, labels: map<Place, Value>) {
    && s.code.Keys == s.preds.Keys
    && (forall b, q :: b in s.preds && q in s.preds[b] ==> q in s.preds)
    && (forall p :: p in labels || p in s.defs ==> p.block in s.preds)
    && (forall x :: x in s.phis ==> s.phis[x].block in s.preds)
    && (forall p :: p in s.incomplete ==> p in s.defs)
  }

  /** The variable map of a block is its last assignments, and the head labels elsewhere. */
  ghost predicate DefsAgree(s: Builder, labels: map<Place, Value>) {
    forall p: Place :: p.block in s.preds && p.block in s.code ==>
      (p in s.defs <==> Known(s.code[p.block], labels, p)) && (p in s.defs ==> s.defs[p] == Current(s.code[p.block], labels, p))
  }

  /** Every use got the value current at that point, and what is assigned was computed or used before. */
  ghost predicate UsesAgree(s: Builder, labels: map<Place, Value>) {
    && (forall b, i :: b in s.code && 0 <= i < |s.code[b]| && s.code[b][i].Use? ==> UseAgrees(s.code[b], labels, b, i))
    && (forall b, i :: b in s.code && 0 <= i < |s.code[b]| && s.code[b][i].Assign? ==> Obtained(s.code[b], i, s.code[b][i].value))
    && UniqueIds(s.code)
  }

  /** The value is a constant or parameter, or came from an earlier event of the block. */
  ghost predicate Obtained(code: seq<Event>, i: int, a: Value)
    requires 0 <= i <= |code|
  {
    a.Result? ==> exists k :: 0 <= k < i && !code[k].Assign? && ValueOf(code[k]) == a
  }

  ghost predicate UniqueIds(code: map<Block, seq<Event>>) {
    forall b, i, c, j :: b in code && c in code && 0 <= i < |code[b]| && 0 <= j < |code[c]| && code[b][i].Compute? && code[b][i] == code[c][j] ==>
      b == c && i == j
  }

  ghost predicate UseAgrees(code: seq<Event>, labels: map<Place, Value>, b: Block, i: int)
    requires 0 <= i < |code| && code[i].Use?
  {
    var p := Place(b, code[i].variable);
    Known(code[..i], labels, p) && code[i].value == Current(code[..i], labels, p)
  }

  predicate IsRemoved(s: Builder, a: Value) {
    a.Result? && a.id in s.phis && !s.phis[a.id].live
  }

  predicate IsBounded(s: Builder, a: Value) {
    a.Result? ==> a.id.serial < s.next
  }

  /** An undefined value was made when the phi of that number was removed. */
  predicate IsSpent(s: Builder, a: Value) {
    a.Undefined? ==> a.tag < s.next && !(Id(a.tag) in s.phis && s.phis[Id(a.tag)].live)
  }

  ghost predicate Sane(s: Builder, a: Value) {
    !IsRemoved(s, a) && IsBounded(s, a) && IsSpent(s, a)
  }

  function ValueOf(e: Event): Value {
    match e
    case Compute(x) => Result(x)
    case Use(_, a) => a
    case Assign(_, a) => a
  }

  /** Nothing refers to a removed phi. */
  ghost predicate NothingRemoved(s: Builder, labels: map<Place, Value>) {
    && (forall p :: p in s.defs ==> Sane(s, s.defs[p]))
    && (forall p :: p in labels ==> Sane(s, labels[p]))
    && (forall x, q :: x in s.phis && s.phis[x].live && q in s.phis[x].operands ==> Sane(s, s.phis[x].operands[q]))
    && (forall b, i :: b in s.code && 0 <= i < |s.code[b]| ==> Sane(s, ValueOf(s.code[b][i])))
    && (forall x :: x in s.phis ==> x.serial < s.next)
    && (forall b, i :: b in s.code && 0 <= i < |s.code[b]| && s.code[b][i].Compute? ==> s.code[b][i].id !in s.phis)
  }

  /** A live phi labels its own place; its operands so far are the predecessors' values. */
  ghost predicate PhisAgree(s: Builder, labels: map<Place, Value>) {
    forall x :: x in s.phis && s.phis[x].live ==> PhiAgrees(s, labels, x)
  }

  ghost predicate PhiAgrees(s: Builder, labels: map<Place, Value>, x: Id)
    requires x in s.phis
  {
    var phi := s.phis[x];
    && phi.block in s.preds && phi.operands.Keys <= s.preds[phi.block]
    && Place(phi.block, phi.variable) in labels && labels[Place(phi.block, phi.variable)] == Result(x)
    && forall q :: q in phi.operands ==> Place(q, phi.variable) in s.defs && phi.operands[q] == s.defs[Place(q, phi.variable)]
  }

  ghost predicate OwnPhi(s: Builder, labels: map<Place, Value>, p: Place)
    requires p in labels
  {
    var a := labels[p];
    a.Result? && a.id in s.phis && s.phis[a.id].live && s.phis[a.id].block == p.block && s.phis[a.id].variable == p.variable
  }

  /** Where no phi stands, all predecessors hold the same value. */
  ghost predicate PlainAgree(s: Builder, labels: map<Place, Value>) {
    forall p :: p in labels && p.block in s.preds && !OwnPhi(s, labels, p) ==>
      && (s.preds[p.block] == {} ==> labels[p].Undefined?)
      && forall q :: q in s.preds[p.block] ==> Place(q, p.variable) in s.defs && s.defs[Place(q, p.variable)] == labels[p]
  }

  /** Follows removed phis to the value that stands for them now. */
  function Follow(forward: map<Id, Value>, a: Value): Value {
    if a.Result? && a.id in forward then forward[a.id] else a
  }

  /** The one value besides x itself among the operands; when there is none, an undefined value made for x. */
  ghost predicate Merges(phi: Phi, x: Id, a: Value) {
    && (forall q :: q in phi.operands ==> phi.operands[q] == a || phi.operands[q] == Result(x))
    && a != Result(x)
    && ((exists q :: q in phi.operands && phi.operands[q] == a) || a == Undefined(x.serial))
  }

  ghost predicate Mergeable(phi: Phi, x: Id) {
    exists a :: Merges(phi, x, a)
  }

  ghost predicate Forwards(s: Builder, forward: map<Id, Value>) {
    && (forall x :: x in forward <==> x in s.phis && !s.phis[x].live)
    && (forall x :: x in forward ==> Sane(s, forward[x]))
    && (forall x, a :: x in forward && x in s.phis && Merges(s.phis[x], x, a) ==> Follow(forward, a) == forward[x])
    && (forall x :: x in forward && x in s.phis ==> Mergeable(s.phis[x], x))
  }

  ghost predicate Consistent(s: Builder, labels: map<Place, Value>, forward: map<Id, Value>) {
    && Shaped(s, labels)
    && DefsAgree(s, labels)
    && UsesAgree(s, labels)
    && NothingRemoved(s, labels)
    && PhisAgree(s, labels)
    && PlainAgree(s, labels)
    && Forwards(s, forward)
  }

  // ----- removing one phi -----

  function Replaced(x: Id, a: Value, v: Value): Value {
    if v == Result(x) then a else v
  }

  function ReplacedIn<K>(x: Id, a: Value, m: map<K, Value>): map<K, Value> {
    map k | k in m :: Replaced(x, a, m[k])
  }

  function ReplacedEvent(x: Id, a: Value, e: Event): Event {
    match e
    case Compute(_) => e
    case Use(v, b) => Use(v, Replaced(x, a, b))
    case Assign(v, b) => Assign(v, Replaced(x, a, b))
  }

  function ReplacedCode(x: Id, a: Value, code: seq<Event>): (r: seq<Event>)
    ensures |r| == |code| && forall i :: 0 <= i < |code| ==> r[i] == ReplacedEvent(x, a, code[i])
  {
    seq(|code|, i requires 0 <= i < |code| => ReplacedEvent(x, a, code[i]))
  }

  function ReplacedPhi(x: Id, a: Value, y: Id, phi: Phi): Phi {
    if y == x then phi.(live := false)
    else if phi.live then phi.(operands := ReplacedIn(x, a, phi.operands))
    else phi
  }

  /** x leaves its block, and every holder of x holds a instead. */
  function Removed(s: Builder, x: Id, a: Value): Builder {
    s.(defs := ReplacedIn(x, a, s.defs),
       phis := map y | y in s.phis :: ReplacedPhi(x, a, y, s.phis[y]),
       code := map b | b in s.code :: ReplacedCode(x, a, s.code[b]))
  }

  ghost predicate Complete(s: Builder, x: Id) {
    x in s.phis && s.phis[x].block in s.preds && s.phis[x].operands.Keys == s.preds[s.phis[x].block]
  }

  ghost predicate Removable(s: Builder, labels: map<Place, Value>, forward: map<Id, Value>, x: Id, a: Value) {
    Consistent(s, labels, forward) && Complete(s, x) && s.phis[x].live && Merges(s.phis[x], x, a)
  }

  lemma ReplacedWrites(x: Id, a: Value, code: seq<Event>, v: Variable)
    ensures Writes(ReplacedCode(x, a, code), v) <==> Writes(code, v)
  {
    var r := ReplacedCode(x, a, code);
    forall i | 0 <= i < |code| ensures r[i].Assign? && r[i].variable == v <==> code[i].Assign? && code[i].variable == v {
    }
  }

  lemma {:induction false} ReplacedLast(x: Id, a: Value, code: seq<Event>, v: Variable)
    requires Writes(code, v)
    ensures Writes(ReplacedCode(x, a, code), v) && LastWrite(ReplacedCode(x, a, code), v) == Replaced(x, a, LastWrite(code, v))
  {
    ReplacedWrites(x, a, code, v);
    var n := |code| - 1;
    if !(code[n].Assign? && code[n].variable == v) {
      assert ReplacedCode(x, a, code)[..n] == ReplacedCode(x, a, code[..n]);
      assert Writes(code[..n], v) by {
        var i :| 0 <= i < |code| && code[i].Assign? && code[i].variable == v;
        assert code[..n][i] == code[i];
      }
      ReplacedLast(x, a, code[..n], v);
    }
  }

  lemma ReplacedCurrent(x: Id, a: Value, code: seq<Event>, labels: map<Place, Value>, p: Place)
    ensures Known(ReplacedCode(x, a, code), ReplacedIn(x, a, labels), p) <==> Known(code, labels, p)
    ensures Known(code, labels, p) ==> Current(ReplacedCode(x, a, code), ReplacedIn(x, a, labels), p) == Replaced(x, a, Current(code, labels, p))
  {
    hide LastWrite, Replaced;
    ReplacedWrites(x, a, code, p.variable);
    if Writes(code, p.variable) {
      ReplacedLast(x, a, code, p.variable);
    }
  }

  lemma RemovedDefs(s: Builder, labels: map<Place, Value>, x: Id, a: Value)
    requires DefsAgree(s, labels)
    ensures DefsAgree(Removed(s, x, a), ReplacedIn(x, a, labels))
  {
    hide Known, Current, Replaced, ReplacedCode, ReplacedPhi;
    forall p: Place | p.block in s.preds && p.block in s.code {
      ReplacedCurrent(x, a, s.code[p.block], labels, p);
    }
  }

  lemma RemovedUses(s: Builder, labels: map<Place, Value>, x: Id, a: Value)
    requires UsesAgree(s, labels)
    requires forall b, i :: b in s.code && 0 <= i < |s.code[b]| && s.code[b][i].Compute? ==> s.code[b][i].id != x
    ensures UsesAgree(Removed(s, x, a), ReplacedIn(x, a, labels))
  {
    hide Known, Current, Replaced, ReplacedPhi, ReplacedIn, UniqueIds, Obtained;
    var s', labels' := Removed(s, x, a), ReplacedIn(x, a, labels);
    forall b, i | b in s'.code && 0 <= i < |s'.code[b]| && s'.code[b][i].Use? ensures UseAgrees(s'.code[b], labels', b, i) {
      assert UseAgrees(s.code[b], labels, b, i);
      ReplacedCurrent(x, a, s.code[b][..i], labels, Place(b, s.code[b][i].variable));
      assert s'.code[b][..i] == ReplacedCode(x, a, s.code[b][..i]);
    }
    forall b, i | b in s'.code && 0 <= i < |s'.code[b]| && s'.code[b][i].Assign? ensures Obtained(s'.code[b], i, s'.code[b][i].value) {
      ReplacedObtained(x, a, s.code[b], i, s.code[b][i].value);
    }
    ReplacedUnique(s, x, a);
  }

  lemma ReplacedObtained(x: Id, a: Value, code: seq<Event>, i: nat, v: Value)
    requires i <= |code| && Obtained(code, i, v) && forall k :: 0 <= k < i && code[k].Compute? ==> code[k].id != x
    ensures Obtained(ReplacedCode(x, a, code), i, Replaced(x, a, v))
  {
    if v.Result? {
      var k :| 0 <= k < i && !code[k].Assign? && ValueOf(code[k]) == v;
      assert ValueOf(ReplacedCode(x, a, code)[k]) == Replaced(x, a, v);
    }
  }

  lemma ReplacedUnique(s: Builder, x: Id, a: Value)
    requires UniqueIds(s.code)
    ensures UniqueIds(Removed(s, x, a).code)
  {
    hide ReplacedPhi, ReplacedIn, Replaced;
    forall b, i | b in s.code && 0 <= i < |s.code[b]|
      ensures Removed(s, x, a).code[b][i].Compute? ==> s.code[b][i] == Removed(s, x, a).code[b][i]
    {
    }
  }

  lemma RemovedSane(s: Builder, x: Id, a: Value, v: Value)
    requires Sane(s, v) && Sane(Removed(s, x, a), a) && a != Result(x)
    ensures Sane(Removed(s, x, a), Replaced(x, a, v))
  {
  }

  lemma RemovedNothing(s: Builder, labels: map<Place, Value>, x: Id, a: Value)
    requires NothingRemoved(s, labels) && Sane(Removed(s, x, a), a) && a != Result(x) && x in s.phis
    ensures NothingRemoved(Removed(s, x, a), ReplacedIn(x, a, labels))
  {
    hide Sane, Replaced;
    var s', labels' := Removed(s, x, a), ReplacedIn(x, a, labels);
    forall v | Sane(s, v) ensures Sane(s', Replaced(x, a, v)) {
      RemovedSane(s, x, a, v);
    }
    forall b, i | b in s'.code && 0 <= i < |s'.code[b]| ensures Sane(s', ValueOf(s'.code[b][i])) {
      assert Sane(s, ValueOf(s.code[b][i]));
      OtherStays(s.code[b][i], x, a);
    }
  }

  lemma OtherStays(e: Event, x: Id, a: Value)
    ensures e != Compute(x) ==> ValueOf(ReplacedEvent(x, a, e)) == Replaced(x, a, ValueOf(e))
  {
  }

  lemma RemovedPhis(s: Builder, labels: map<Place, Value>, x: Id, a: Value)
    requires PhisAgree(s, labels)
    ensures PhisAgree(Removed(s, x, a), ReplacedIn(x, a, labels))
  {
    var s', labels' := Removed(s, x, a), ReplacedIn(x, a, labels);
    forall y | y in s'.phis && s'.phis[y].live ensures PhiAgrees(s', labels', y) {
      assert PhiAgrees(s, labels, y);
    }
  }

  lemma RemovedPlain(s: Builder, labels: map<Place, Value>, x: Id, a: Value)
    requires PlainAgree(s, labels) && PhisAgree(s, labels) && Complete(s, x) && s.phis[x].live && Merges(s.phis[x], x, a)
    ensures PlainAgree(Removed(s, x, a), ReplacedIn(x, a, labels))
  {
    hide Merges;
    var s', labels' := Removed(s, x, a), ReplacedIn(x, a, labels);
    forall p | p in labels' && p.block in s'.preds && !OwnPhi(s', labels', p)
      ensures (s'.preds[p.block] == {} ==> labels'[p].Undefined?)
      ensures forall q :: q in s'.preds[p.block] ==> Place(q, p.variable) in s'.defs && s'.defs[Place(q, p.variable)] == labels'[p]
    {
      if OwnPhi(s, labels, p) {
        OwnBecomesPlain(s, labels, x, a, p);
      }
    }
  }

  lemma OwnBecomesPlain(s: Builder, labels: map<Place, Value>, x: Id, a: Value, p: Place)
    requires PhisAgree(s, labels) && Complete(s, x) && s.phis[x].live && Merges(s.phis[x], x, a)
    requires p in labels && OwnPhi(s, labels, p) && !OwnPhi(Removed(s, x, a), ReplacedIn(x, a, labels), p)
    ensures p == Place(s.phis[x].block, s.phis[x].variable) && ReplacedIn(x, a, labels)[p] == a
    ensures s.preds[p.block] == {} ==> a.Undefined?
    ensures forall q :: q in s.preds[p.block] ==> Place(q, p.variable) in s.defs && Removed(s, x, a).defs[Place(q, p.variable)] == a
  {
    assert PhiAgrees(s, labels, labels[p].id);
    assert labels[p].id == x;
    assert PhiAgrees(s, labels, x);
  }

  function ForwardedTo(forward: map<Id, Value>, x: Id, a: Value): map<Id, Value> {
    ReplacedIn(x, a, forward)[x := a]
  }

  lemma FollowRemoved(forward: map<Id, Value>, x: Id, a: Value, v: Value)
    requires x !in forward
    ensures Follow(ForwardedTo(forward, x, a), v) == Replaced(x, a, Follow(forward, v))
  {
  }

  lemma MergesOne(phi: Phi, x: Id, a: Value, b: Value)
    requires Merges(phi, x, a) && Merges(phi, x, b)
    ensures a == b
  {
  }

  lemma MergesLive(phi: Phi, x: Id, a: Value, live: bool)
    ensures Merges(phi.(live := live), x, a) <==> Merges(phi, x, a)
  {
  }

  lemma RemovedForwards(s: Builder, forward: map<Id, Value>, x: Id, a: Value)
    requires Forwards(s, forward) && x in s.phis && s.phis[x].live && Merges(s.phis[x], x, a) && Sane(Removed(s, x, a), a)
    ensures Forwards(Removed(s, x, a), ForwardedTo(forward, x, a))
  {
    hide Merges, Follow;
    var s', forward' := Removed(s, x, a), ForwardedTo(forward, x, a);
    MergesLive(s.phis[x], x, a, false);
    forall y | y in forward' ensures Sane(s', forward'[y]) {
      SelfMerge(s.phis[x], x, a);
      if y != x {
        RemovedSane(s, x, a, forward[y]);
      }
    }
    forall y, b | y in forward' && y in s'.phis && Merges(s'.phis[y], y, b) ensures Follow(forward', b) == forward'[y] {
      FollowRemoved(forward, x, a, b);
      if y == x {
        MergesLive(s.phis[x], x, b, false);
        MergesOne(s.phis[x], x, a, b);
        SelfMerge(s.phis[x], x, a);
        FollowLive(s, forward, a);
      }
    }
  }

  lemma SelfMerge(phi: Phi, x: Id, a: Value)
    requires Merges(phi, x, a)
    ensures a != Result(x)
  {
  }

  lemma FollowLive(s: Builder, forward: map<Id, Value>, a: Value)
    requires Forwards(s, forward) && !IsRemoved(s, a)
    ensures Follow(forward, a) == a
  {
  }

  lemma ComputedIsNoPhi(s: Builder, labels: map<Place, Value>, x: Id)
    requires NothingRemoved(s, labels) && x in s.phis
    ensures forall b, i :: b in s.code && 0 <= i < |s.code[b]| && s.code[b][i].Compute? ==> s.code[b][i].id != x
  {
  }

  lemma MergedIsSane(s: Builder, labels: map<Place, Value>, x: Id, a: Value)
    requires NothingRemoved(s, labels) && x in s.phis && s.phis[x].live && Merges(s.phis[x], x, a)
    ensures Sane(Removed(s, x, a), a) && a != Result(x) && !IsRemoved(s, a)
  {
  }

  /** Removing a complete phi that merges one value keeps the whole invariant. */
  lemma RemovalKeeps(s: Builder, labels: map<Place, Value>, forward: map<Id, Value>, x: Id, a: Value)
    requires Removable(s, labels, forward, x, a)
    ensures Consistent(Removed(s, x, a), ReplacedIn(x, a, labels), ForwardedTo(forward, x, a))
  {
    hide DefsAgree, UsesAgree, NothingRemoved, PhisAgree, PlainAgree, Forwards, Merges, Sane;
    MergedIsSane(s, labels, x, a);
    RemovedDefs(s, labels, x, a);
    ComputedIsNoPhi(s, labels, x);
    RemovedUses(s, labels, x, a);
    RemovedNothing(s, labels, x, a);
    RemovedPhis(s, labels, x, a);
    RemovedPlain(s, labels, x, a);
    RemovedForwards(s, forward, x, a);
  }

  // ----- what a cascade of removals leaves alone -----

  /** Everything of the earlier state is still there, unchanged; new phis are younger. */
  ghost predicate Extends(s0: Builder, labels0: map<Place, Value>, s: Builder, labels: map<Place, Value>) {
    && (forall p :: p in s0.defs ==> p in s.defs && s.defs[p] == s0.defs[p])
    && (forall p :: p in labels0 ==> p in labels && labels[p] == labels0[p])
    && (forall x :: x in s0.phis ==> x in s.phis && s.phis[x] == s0.phis[x])
    && (forall b :: b in s0.code ==> b in s.code && s.code[b] == s0.code[b])
    && (forall x :: x in s.phis && x !in s0.phis ==> x.serial >= s0.next)
    && s0.next <= s.next
  }

  lemma RemovedExtends(s0: Builder, labels0: map<Place, Value>, s: Builder, labels: map<Place, Value>, x: Id, a: Value)
    requires Extends(s0, labels0, s, labels) && NothingRemoved(s0, labels0) && x in s.phis && x !in s0.phis
    ensures Extends(s0, labels0, Removed(s, x, a), ReplacedIn(x, a, labels))
  {
    var s' := Removed(s, x, a);
    forall v | Sane(s0, v) ensures Replaced(x, a, v) == v {
    }
    forall y | y in s0.phis ensures s'.phis[y] == s0.phis[y] {
      if s0.phis[y].live {
        assert ReplacedIn(x, a, s0.phis[y].operands) == s0.phis[y].operands;
      }
    }
    forall b | b in s0.code ensures s'.code[b] == s0.code[b] {
      forall i | 0 <= i < |s0.code[b]| ensures ReplacedEvent(x, a, s0.code[b][i]) == s0.code[b][i] {
        assert Sane(s0, ValueOf(s0.code[b][i]));
      }
      assert ReplacedCode(x, a, s0.code[b]) == s0.code[b];
    }
  }

  /** Phis without operands, x aside, are left as they are. */
  ghost predicate Empties(s: Builder, t: Builder, x: Id) {
    forall y :: y in s.phis && y in t.phis && y != x && s.phis[y].operands == map[] ==> t.phis[y] == s.phis[y]
  }

  /** Same places, phis and operand positions; phis may only have died. */
  ghost predicate SameShape(s: Builder, t: Builder) {
    && t.preds == s.preds && t.sealed == s.sealed && t.incomplete == s.incomplete && t.next == s.next
    && t.defs.Keys == s.defs.Keys && t.code.Keys == s.code.Keys && t.phis.Keys == s.phis.Keys
    && forall x :: x in s.phis ==>
         && t.phis[x].block == s.phis[x].block && t.phis[x].variable == s.phis[x].variable
         && t.phis[x].operands.Keys == s.phis[x].operands.Keys && (t.phis[x].live ==> s.phis[x].live)
  }

  lemma RemovedShape(s: Builder, x: Id, a: Value)
    ensures SameShape(s, Removed(s, x, a))
  {
    hide Replaced, ReplacedCode;
  }

  function LiveSet(s: Builder): set<Id> {
    set x | x in s.phis && s.phis[x].live
  }

  function PhiUsers(s: Builder, x: Id): set<Id> {
    set y | y in s.phis && y != x && s.phis[y].live && Result(x) in s.phis[y].operands.Values
  }

  /** Labels moved along with what was removed, and only so. */
  ghost predicate Moved(labels0: map<Place, Value>, forward0: map<Id, Value>, labels: map<Place, Value>, forward: map<Id, Value>) {
    && labels.Keys == labels0.Keys
    && (forall p :: p in labels0 ==> labels[p] == Follow(forward, labels0[p]))
    && (forall x :: x in forward0 ==> x in forward && forward[x] == Follow(forward, forward0[x]))
  }

  lemma MovedTwice(l0: map<Place, Value>, f0: map<Id, Value>, l1: map<Place, Value>, f1: map<Id, Value>, l2: map<Place, Value>, f2: map<Id, Value>)
    requires Moved(l0, f0, l1, f1) && Moved(l1, f1, l2, f2)
    ensures Moved(l0, f0, l2, f2)
  {
    forall v ensures Follow(f2, Follow(f1, v)) == Follow(f2, v) {
      FollowMoved(l1, f1, l2, f2, v);
    }
  }

  lemma FollowMoved(l1: map<Place, Value>, f1: map<Id, Value>, l2: map<Place, Value>, f2: map<Id, Value>, v: Value)
    requires Moved(l1, f1, l2, f2)
    ensures Follow(f2, Follow(f1, v)) == Follow(f2, v)
  {
  }

  lemma RemovedMoved(s: Builder, labels: map<Place, Value>, forward: map<Id, Value>, x: Id, a: Value)
    requires Removable(s, labels, forward, x, a)
    ensures Moved(labels, forward, ReplacedIn(x, a, labels), ForwardedTo(forward, x, a))
    ensures Follow(ForwardedTo(forward, x, a), a) == Follow(ForwardedTo(forward, x, a), Result(x))
  {
    MergedIsSane(s, labels, x, a);
    forall v | Sane(s, v) ensures Follow(ForwardedTo(forward, x, a), v) == Replaced(x, a, v) {
      FollowRemoved(forward, x, a, v);
      FollowLive(s, forward, v);
    }
  }

  /** No phi outside the exempt ones merges a single value. */
  ghost predicate Reduced(s: Builder, exempt: set<Id>) {
    forall x, a :: x in s.phis && s.phis[x].live && s.phis[x].operands != map[] && Merges(s.phis[x], x, a) ==> x in exempt
  }

  lemma RemovedReduced(s: Builder, exempt: set<Id>, x: Id, a: Value)
    requires Reduced(s, exempt + {x})
    ensures Reduced(Removed(s, x, a), exempt + PhiUsers(s, x))
  {
    var s' := Removed(s, x, a);
    forall y, b | y in s'.phis && s'.phis[y].live && s'.phis[y].operands != map[] && Merges(s'.phis[y], y, b)
      ensures y in exempt + PhiUsers(s, x)
    {
      if y !in PhiUsers(s, x) {
        assert s'.phis[y].operands == s.phis[y].operands;
      }
    }
  }

  /** The state a cascade starts from: s0 is what it must leave alone. */
  ghost predicate Cascading(s0: Builder, labels0: map<Place, Value>, s: Builder, labels: map<Place, Value>, forward: map<Id, Value>) {
    && Consistent(s, labels, forward)
    && Extends(s0, labels0, s, labels)
    && NothingRemoved(s0, labels0)
    && forall y :: y in s.phis && s.phis[y].live && y !in s0.phis && s.phis[y].operands != map[] ==> Complete(s, y)
  }

  lemma CascadeStep(s0: Builder, labels0: map<Place, Value>, s: Builder, labels: map<Place, Value>, forward: map<Id, Value>, x: Id, a: Value)
    requires Cascading(s0, labels0, s, labels, forward) && x !in s0.phis && Removable(s, labels, forward, x, a)
    ensures Cascading(s0, labels0, Removed(s, x, a), ReplacedIn(x, a, labels), ForwardedTo(forward, x, a))
    ensures forall y :: y in PhiUsers(s, x) ==> y !in s0.phis && Complete(s, y)
  {
    hide Consistent, Merges, ReplacedIn, ReplacedCode;
    RemovalKeeps(s, labels, forward, x, a);
    RemovedExtends(s0, labels0, s, labels, x, a);
    RemovedShape(s, x, a);
    UsersAreNew(s0, labels0, s, labels, x);
  }

  lemma UsersAreNew(s0: Builder, labels0: map<Place, Value>, s: Builder, labels: map<Place, Value>, x: Id)
    requires Extends(s0, labels0, s, labels) && NothingRemoved(s0, labels0) && x in s.phis && x !in s0.phis
    ensures forall y :: y in PhiUsers(s, x) ==> y !in s0.phis && s.phis[y].operands != map[]
  {
    forall y | y in PhiUsers(s, x) ensures y !in s0.phis && s.phis[y].operands != map[] {
      var q :| q in s.phis[y].operands && s.phis[y].operands[q] == Result(x);
      assert y in s0.phis ==> Sane(s0, s0.phis[y].operands[q]);
    }
  }

  /** A removed phi has no holders left: removing it again changes nothing. */
  lemma RemovedAgain(s: Builder, labels: map<Place, Value>, x: Id, a: Value)
    requires NothingRemoved(s, labels) && x in s.phis && !s.phis[x].live
    ensures Removed(s, x, a) == s && ReplacedIn(x, a, labels) == labels && PhiUsers(s, x) == {}
  {
    forall v | Sane(s, v) ensures Replaced(x, a, v) == v {
    }
    assert ReplacedIn(x, a, s.defs) == s.defs;
    forall y | y in s.phis ensures ReplacedPhi(x, a, y, s.phis[y]) == s.phis[y] {
      if s.phis[y].live {
        assert ReplacedIn(x, a, s.phis[y].operands) == s.phis[y].operands;
      }
    }
    forall b | b in s.code ensures ReplacedCode(x, a, s.code[b]) == s.code[b] {
      forall i | 0 <= i < |s.code[b]| ensures ReplacedEvent(x, a, s.code[b][i]) == s.code[b][i] {
        assert Sane(s, ValueOf(s.code[b][i]));
      }
    }
    assert Removed(s, x, a).phis == s.phis && Removed(s, x, a).code == s.code;
    assert ReplacedIn(x, a, labels) == labels;
  }

  lemma ShapeTwice(s: Builder, t: Builder, u: Builder)
    requires SameShape(s, t) && SameShape(t, u)
    ensures SameShape(s, u)
  {
  }

  lemma ShapeLive(s: Builder, t: Builder)
    requires SameShape(s, t)
    ensures LiveSet(t) <= LiveSet(s)
  {
  }

  /** What holds between the removals of the phis that used x. */
  ghost predicate Between(s0: Builder, labels0: map<Place, Value>, s: Builder, labels: map<Place, Value>, forward: map<Id, Value>,
                          before: map<Place, Value>, follow: map<Id, Value>, exempt: set<Id>, x: Id, value: Value) {
    && Cascading(s0, labels0, s, labels, forward)
    && Moved(before, follow, labels, forward)
    && Follow(forward, value) == Follow(forward, Result(x))
    && Reduced(s, exempt)
  }

  /** The i-th user and those still to come. */
  ghost function From(users: seq<Id>, i: nat): set<Id>
    requires i <= |users|
  {
    set j | i <= j < |users| :: users[j]
  }

  lemma FromNext(users: seq<Id>, i: nat, exempt: set<Id>)
    requires i < |users|
    ensures exempt + From(users, i) == exempt + From(users, i + 1) + {users[i]}
  {
  }

  /** The cascade is sound so far, or nothing is claimed of it. */
  ghost predicate MayCascade(sound: bool, s0: Builder, labels0: map<Place, Value>, s: Builder, labels: map<Place, Value>, forward: map<Id, Value>,
                             exempt: set<Id>, x: Id) {
    sound ==>
      && Cascading(s0, labels0, s, labels, forward) && Reduced(s, exempt + {x})
      && x !in s0.phis && x in s.phis && (s.phis[x].live ==> Complete(s, x))
  }

  lemma Unremovable(s0: Builder, labels0: map<Place, Value>, s: Builder, labels: map<Place, Value>, forward: map<Id, Value>, exempt: set<Id>, x: Id)
    requires MayCascade(true, s0, labels0, s, labels, forward, exempt, x)
    requires forall a :: !Merges(s.phis[x], x, a)
    ensures Between(s0, labels0, s, labels, forward, labels, forward, exempt, x, Result(x)) && s.phis[x].live
  {
    NothingMoved(s, labels, forward);
  }

  lemma NothingMoved(s: Builder, labels: map<Place, Value>, forward: map<Id, Value>)
    requires NothingRemoved(s, labels) && Forwards(s, forward)
    ensures Moved(labels, forward, labels, forward)
  {
  }

  /** After x itself is gone: the phis that used it are yet to be looked at. */
  lemma FirstRemoval(s0: Builder, labels0: map<Place, Value>, s: Builder, labels: map<Place, Value>, forward: map<Id, Value>, exempt: set<Id>, x: Id, a: Value)
    requires MayCascade(true, s0, labels0, s, labels, forward, exempt, x) && Merges(s.phis[x], x, a)
    ensures var forward' := if s.phis[x].live then ForwardedTo(forward, x, a) else forward;
            Between(s0, labels0, Removed(s, x, a), ReplacedIn(x, a, labels), forward', labels, forward, exempt + PhiUsers(s, x), x, a)
    ensures forall y :: y in PhiUsers(s, x) ==> y !in s0.phis && Complete(s, y)
  {
    hide Cascading, Merges, Reduced, Removed, Moved, Complete;
    CascadingParts(s0, labels0, s, labels, forward);
    if s.phis[x].live {
      CascadeStep(s0, labels0, s, labels, forward, x, a);
      RemovedMoved(s, labels, forward, x, a);
      RemovedReduced(s, exempt, x, a);
    } else {
      RemovedAgain(s, labels, x, a);
      NothingMoved(s, labels, forward);
      DeadForward(s, forward, x, a);
      DeadIsReduced(s, exempt, x);
      assert exempt + PhiUsers(s, x) == exempt;
    }
  }

  lemma CascadingParts(s0: Builder, labels0: map<Place, Value>, s: Builder, labels: map<Place, Value>, forward: map<Id, Value>)
    requires Cascading(s0, labels0, s, labels, forward)
    ensures Consistent(s, labels, forward) && NothingRemoved(s, labels) && Forwards(s, forward)
  {
  }

  lemma DeadForward(s: Builder, forward: map<Id, Value>, x: Id, a: Value)
    requires Forwards(s, forward) && x in s.phis && !s.phis[x].live && Merges(s.phis[x], x, a)
    ensures Follow(forward, a) == Follow(forward, Result(x))
  {
  }

  lemma DeadIsReduced(s: Builder, exempt: set<Id>, x: Id)
    requires Reduced(s, exempt + {x}) && x in s.phis && !s.phis[x].live
    ensures Reduced(s, exempt)
  {
  }

  lemma NothingIsReady()
    ensures Ready(Nothing(), map[], map[]) && Rooted(Nothing())
  {
  }

  /** Incomplete phis exist and stand in the variable maps. */
  ghost predicate Rooted(s: Builder) {
    forall p :: p in s.incomplete ==> p in s.defs && s.incomplete[p] in s.phis
  }

  lemma PlacesRooted(s: Builder, b: Block, places: seq<Place>)
    requires Rooted(s) && forall p :: p in places <==> p in set r | r in s.incomplete && r.block == b
    ensures forall p :: p in places <==> p in s.incomplete && p.block == b
    ensures forall j :: 0 <= j < |places| ==> places[j] in s.incomplete && places[j] in s.defs && places[j].block == b
  {
    forall j | 0 <= j < |places| ensures places[j] in s.incomplete && places[j] in s.defs && places[j].block == b {
      assert places[j] in places;
    }
  }

  lemma ReadyWaits(s: Builder, labels: map<Place, Value>, forward: map<Id, Value>, b: Block, places: seq<Place>)
    requires Ready(s, labels, forward) && b in s.preds && b !in s.sealed && forall p :: p in places <==> p in s.incomplete && p.block == b
    ensures forall p :: p in s.incomplete && p.block == b ==> Waiting(s, p)
  {
  }

  lemma ReadyIsConsistent(s: Builder, labels: map<Place, Value>, forward: map<Id, Value>)
    requires Ready(s, labels, forward)
    ensures Consistent(s, labels, forward)
  {
  }

  lemma StillRooted(s0: Builder, s: Builder, p: Place)
    requires Rooted(s0) && Grows(s0, s) && p in s0.incomplete
    ensures p in s.incomplete && s.incomplete[p] in s.phis && p in s.defs
  {
  }

  lemma GrowsParts(s0: Builder, s1: Builder, s2: Builder)
    requires Grows(s0, s1) && Grows(s1, s2)
    ensures Grows(s0, s2) && s2.preds == s0.preds && s2.sealed == s0.sealed
  {
  }

  lemma SealingHas(s0: Builder, labels0: map<Place, Value>, s: Builder, labels: map<Place, Value>, forward: map<Id, Value>, x: Id, p: Place)
    requires Gathering(s0, labels0, s, labels, forward, x, p, {})
    ensures StandsAt(s, x, p) && x in s.phis && s.phis[x].live
  {
  }

  lemma PlacesDefined(s0: Builder, s1: Builder, b: Block, places: seq<Place>)
    requires Grows(s0, s1) && forall j :: 0 <= j < |places| ==> places[j] in s0.defs && places[j].block == b
    ensures forall j :: 0 <= j < |places| ==> places[j] in s1.defs && places[j].block == b
  {
  }

  lemma RootedSealed(s0: Builder, s: Builder, b: Block)
    requires Rooted(s0) && Grows(s0, s)
    ensures Rooted(Sealed(s, b)) && Sealed(s, b).preds == s.preds && Sealed(s, b).sealed == s.sealed + {b}
  {
  }

  lemma FrontierParts(s: Builder, b: Block)
    requires Frontier(s, b)
    ensures b in s.preds && b in s.code
  {
  }

  lemma FrontierStays(s0: Builder, s: Builder, b: Block)
    requires Frontier(s0, b) && Grows(s0, s)
    ensures Frontier(s, b) && b in s.code && b in s0.code
  {
  }

  lemma AppendUse(s0: Builder, l0: map<Place, Value>, s: Builder, l: map<Place, Value>, f: map<Id, Value>, b: Block, v: Variable, val: Value)
    requires Ready(s, l, f) && HasRead(s0, l0, s, l, f, Place(b, v), val) && Frontier(s, b) && b in s.code && b in s0.code
    ensures Ready(Appended(s, b, Use(v, val)), l, f) && Appended(s, b, Use(v, val)).code[b] == s0.code[b] + [Use(v, val)]
  {
    hide Ready, Frontier, Consistent, NewPhisDone, Progress;
    AppendKeeps(s, l, f, b, Use(v, val));
  }

  lemma AppendGrows(s0: Builder, s: Builder, b: Block, e: Event)
    requires Grows(s0, s) && Rooted(s0) && b in s.code
    ensures Grows(s0, Appended(s, b, e)) && Rooted(Appended(s, b, e)) && b in Appended(s, b, e).code
  {
  }

  lemma FreshCompute(s: Builder, b: Block)
    requires b in s.code
    ensures Acceptable(s, b, Compute(Id(s.next)))
  {
  }

  lemma RootedEdge(s: Builder, q: Block, b: Block)
    requires Rooted(s) && b in s.preds
    ensures Rooted(WithEdge(s, q, b))
  {
  }

  lemma RootedBlock(s: Builder, b: Block, isSealed: bool)
    requires Rooted(s)
    ensures Rooted(WithBlock(s, b, isSealed))
  {
  }

  lemma SameLabels(s: Builder, l0: map<Place, Value>, l1: map<Place, Value>, l2: map<Place, Value>)
    requires NewLabels(s, l0, l1) && l2.Keys == l1.Keys
    ensures NewLabels(s, l0, l2)
  {
    assert forall p :: p in l2 ==> p in l2.Keys;
  }

  lemma OneNewLabel(s: Builder, labels: map<Place, Value>, p: Place, val: Value)
    requires p !in s.defs
    ensures NewLabels(s, labels, labels[p := val])
  {
  }

  lemma OneMoreLabel(s: Builder, l0: map<Place, Value>, l1: map<Place, Value>, p: Place, val: Value)
    requires p !in s.defs && NewLabels(s, l0, l1)
    ensures NewLabels(s, l0, l1[p := val])
  {
  }

  lemma GrowsItself(s: Builder, v: Variable)
    ensures Grows(s, s) && (forall xs :: Progress(s, s, v, xs)) && forall l :: NewLabels(s, l, l)
  {
  }

  /** What operand collection achieves, the removal included. */
  ghost predicate Gathered(s0: Builder, labels0: map<Place, Value>, start: Builder, s: Builder, labels: map<Place, Value>, forward: map<Id, Value>,
                           x: Id, p: Place, val: Value) {
    && Consistent(s, labels, forward) && Extends(s0, labels0, s, labels) && NewPhisDone(s0, s)
    && Progress(start, s, p.variable, {x}) && StandsAt(s, x, p)
    && (x in s.phis && s.phis[x].live ==> s.phis[x].operands != map[])
    && p in labels && labels[p] == Follow(forward, val)
  }

  lemma BeforeOperand(s: Builder, t: Builder, v: Variable, dist: map<Block, nat>, bound: nat, b: Block, q: Block)
    requires Grows(s, t) && Grounded(s.preds, dist, bound) && b in s.preds && q in s.preds[b]
    ensures q in t.preds && Grounded(t.preds, dist, bound) && Missing(t, v) <= Missing(s, v) && q in dist && dist[q] < bound
  {
  }

  lemma GatheringIsConsistent(s0: Builder, labels0: map<Place, Value>, s: Builder, labels: map<Place, Value>, forward: map<Id, Value>, x: Id, p: Place, done: set<Block>)
    requires Gathering(s0, labels0, s, labels, forward, x, p, done)
    ensures Consistent(s, labels, forward)
  {
  }

  lemma AfterRead(s0: Builder, l0: map<Place, Value>, s1: Builder, l1: map<Place, Value>, f1: map<Id, Value>,
                  s2: Builder, l2: map<Place, Value>, f2: map<Id, Value>, x: Id, p: Place, done: set<Block>, q: Block, v: Value)
    requires Gathering(s0, l0, s1, l1, f1, x, p, done) && HasRead(s1, l1, s2, l2, f2, Place(q, p.variable), v) && Grows(s1, s2)
    requires p.block in s1.preds && q in s1.preds[p.block]
    ensures x in s2.phis && Gathering(s0, l0, WithOperand(s2, x, q, v), l2, f2, x, p, done + {q})
    ensures StandsAt(s1, x, p) && StandsAt(WithOperand(s2, x, q, v), x, p)
    ensures Progress(s1, WithOperand(s2, x, q, v), p.variable, {x})
  {
    hide Gathering, HasRead, Progress;
    ReadParts(s1, l1, s2, l2, f2, Place(q, p.variable), v);
    GatheringHas(s0, l0, s1, l1, f1, x, p, done);
    GatherRead(s0, l0, s1, l1, f1, s2, l2, f2, x, p, done, Place(q, p.variable), v);
    GatherAdd(s0, l0, s2, l2, f2, x, p, done, q, v);
    GatheringHas(s0, l0, WithOperand(s2, x, q, v), l2, f2, x, p, done + {q});
    ProgressOperand(s1, s2, x, p, q, v);
  }

  lemma GatheringHas(s0: Builder, labels0: map<Place, Value>, s: Builder, labels: map<Place, Value>, forward: map<Id, Value>, x: Id, p: Place, done: set<Block>)
    requires Gathering(s0, labels0, s, labels, forward, x, p, done)
    ensures StandsAt(s, x, p) && x in s.phis && p in s.defs
  {
  }

  lemma ReadParts(s1: Builder, l1: map<Place, Value>, s2: Builder, l2: map<Place, Value>, f2: map<Id, Value>, p: Place, v: Value)
    requires HasRead(s1, l1, s2, l2, f2, p, v)
    ensures p in s2.defs && s2.defs[p] == v && Progress(s1, s2, p.variable, {}) && s1.phis.Keys <= s2.phis.Keys
  {
  }

  lemma ProgressOperand(s: Builder, t: Builder, x: Id, p: Place, q: Block, v: Value)
    requires Progress(s, t, p.variable, {}) && Grows(s, t) && x in s.phis && x in t.phis
    requires StandsAt(s, x, p) && p in s.defs
    ensures Progress(s, WithOperand(t, x, q, v), p.variable, {x})
  {
    var u := WithOperand(t, x, q, v);
    forall r | r in t.defs && r !in s.defs && r.block !in t.sealed ensures Waiting(u, r) {
      assert Waiting(t, r);
    }
  }

  ghost predicate StandsAt(s: Builder, x: Id, p: Place) {
    x in s.phis && Place(s.phis[x].block, s.phis[x].variable) == p
  }

  lemma PlaceKept(t: Builder, u: Builder, x: Id, y: Id, p: Place)
    requires Kept(t, u, {x}) && y in t.phis && y in u.phis && StandsAt(t, x, p) && StandsAt(u, x, p)
    ensures Place(u.phis[y].block, u.phis[y].variable) == Place(t.phis[y].block, t.phis[y].variable)
  {
  }

  lemma KeptTwice(s: Builder, t: Builder, u: Builder, but: set<Id>, x: Id)
    requires Kept(s, t, but) && Kept(t, u, {x}) && (x in s.phis ==> x in but)
    ensures Kept(s, u, but)
  {
    forall y | y in s.phis && y !in but && s.phis[y].operands == map[] ensures y in u.phis && u.phis[y] == s.phis[y] {
      assert t.phis[y] == s.phis[y];
    }
  }

  lemma StillWaiting(t: Builder, u: Builder, r: Place, x: Id)
    requires Waiting(t, r) && Kept(t, u, {x}) && r in u.incomplete && u.incomplete[r] == t.incomplete[r]
    requires !StandsAt(t, x, r)
    ensures Waiting(u, r)
  {
  }

  /** x stands at p, which s knew already, or in a sealed block. */
  lemma ProgressTwice(s: Builder, t: Builder, u: Builder, p: Place, but: set<Id>, x: Id)
    requires Grows(s, t) && Grows(t, u) && Progress(s, t, p.variable, but) && Progress(t, u, p.variable, {x})
    requires x in s.phis ==> x in but
    requires StandsAt(t, x, p) && StandsAt(u, x, p) && (p in s.defs || p.block in s.sealed)
    ensures Progress(s, u, p.variable, but)
  {
    hide Kept, Waiting;
    KeptTwice(s, t, u, but, x);
    forall r | r in u.defs && r !in s.defs && r.block !in u.sealed ensures Waiting(u, r) {
      if r in t.defs {
        IncompleteOf(t, r);
        StillWaiting(t, u, r, x);
      }
    }
    forall y | y in u.phis && y !in s.phis ensures Place(u.phis[y].block, u.phis[y].variable) !in s.defs {
      if y in t.phis {
        PlaceKept(t, u, x, y, p);
      }
    }
  }

  lemma IncompleteOf(t: Builder, r: Place)
    requires Waiting(t, r)
    ensures r in t.incomplete
  {
  }

  lemma AfterOperand(s: Builder, s1: Builder, s2: Builder, x: Id, q: Block, v: Value)
    requires Grows(s, s1) && Grows(s1, s2) && x in s1.phis
    ensures x in s2.phis && Grows(s, WithOperand(s2, x, q, v)) && x in WithOperand(s2, x, q, v).phis
    ensures s2.preds == s.preds && WithOperand(s2, x, q, v).preds == s.preds && Grows(s1, WithOperand(s2, x, q, v))
  {
  }

  lemma AllDone(done: set<Block>, all: set<Block>, blocks: seq<Block>)
    requires forall q :: q in blocks <==> q in all
    ensures (forall q :: q in done <==> q in blocks[..|blocks|]) ==> done == all
  {
    assert blocks[..|blocks|] == blocks;
  }

  lemma NowGathered(s0: Builder, l0: map<Place, Value>, start: Builder, s1: Builder, l1: map<Place, Value>, f1: map<Id, Value>,
                    s2: Builder, l2: map<Place, Value>, f2: map<Id, Value>, x: Id, p: Place, done: set<Block>, val: Value)
    requires Gathering(s0, l0, s1, l1, f1, x, p, done) && Progress(start, s1, p.variable, {x}) && SameShape(s1, s2) && Empties(s1, s2, x)
    requires p.block in s1.preds && done == s1.preds[p.block] && Grows(start, s1) && p in start.defs
    requires Between(s0, l0, s2, l2, f2, l1, f1, s0.phis.Keys, x, val)
    requires Mergeable(s1.phis[x], x) ==> x in s2.phis && !s2.phis[x].live
    ensures Gathered(s0, l0, start, s2, l2, f2, x, p, val)
  {
    hide Consistent, Extends, Reduced, Gathering, Between, SameShape, Empties, Progress, Grows, StandsAt, Mergeable, Complete;
    GatheredPhis(s0, l0, s1, l1, f1, s2, x, p, done);
    GatheringHas(s0, l0, s1, l1, f1, x, p, done);
    GatheringIsConsistent(s0, l0, s1, l1, f1, x, p, done);
    ProgressShape(start, s1, s2, p, x);
    MergedLabel(s0, l0, s1, l1, f1, s2, l2, f2, x, p, done, val);
  }

  lemma MergedLabel(s0: Builder, l0: map<Place, Value>, s1: Builder, l1: map<Place, Value>, f1: map<Id, Value>,
                    s2: Builder, l2: map<Place, Value>, f2: map<Id, Value>, x: Id, p: Place, done: set<Block>, val: Value)
    requires Gathering(s0, l0, s1, l1, f1, x, p, done) && Between(s0, l0, s2, l2, f2, l1, f1, s0.phis.Keys, x, val)
    ensures p in l2 && l2[p] == Follow(f2, val) && Consistent(s2, l2, f2) && Extends(s0, l0, s2, l2) && Reduced(s2, s0.phis.Keys)
  {
    hide Consistent, Extends, Reduced, Follow;
    LabelOfPhi(s1, l1, f1, x, p);
  }

  lemma ProgressShape(s: Builder, t: Builder, u: Builder, p: Place, x: Id)
    requires Progress(s, t, p.variable, {x}) && SameShape(t, u) && Empties(t, u, x) && Grows(s, t)
    requires StandsAt(t, x, p) && p in s.defs
    ensures Progress(s, u, p.variable, {x}) && StandsAt(u, x, p)
  {
    forall r | r in u.defs && r !in s.defs && r.block !in u.sealed ensures Waiting(u, r) {
      assert Waiting(t, r);
    }
    forall y | y in s.phis && y != x && s.phis[y].operands == map[] ensures u.phis[y] == s.phis[y] {
      assert t.phis[y] == s.phis[y];
    }
  }

  lemma LabelOfPhi(s: Builder, labels: map<Place, Value>, forward: map<Id, Value>, x: Id, p: Place)
    requires Consistent(s, labels, forward) && x in s.phis && s.phis[x].live && p == Place(s.phis[x].block, s.phis[x].variable)
    ensures p in labels && labels[p] == Result(x)
  {
    assert PhiAgrees(s, labels, x);
  }

  lemma GatheredPhis(s0: Builder, l0: map<Place, Value>, s1: Builder, l1: map<Place, Value>, f1: map<Id, Value>, s2: Builder, x: Id, p: Place, done: set<Block>)
    requires Gathering(s0, l0, s1, l1, f1, x, p, done) && SameShape(s1, s2) && p.block in s1.preds && done == s1.preds[p.block]
    requires Mergeable(s1.phis[x], x) ==> x in s2.phis && !s2.phis[x].live
    ensures forall y :: y in s2.phis && s2.phis[y].live && y !in s0.phis ==>
              if s2.phis[y].operands == map[] then s2.phis[y].block !in s2.sealed else Complete(s2, y)
    ensures x in s2.phis && s2.phis[x].live ==> s2.phis[x].operands != map[]
  {
    hide Consistent, Extends, Reduced;
    if s1.phis[x].operands == map[] {
      assert Merges(s1.phis[x], x, Undefined(x.serial));
    }
    forall y | y in s1.phis ensures s2.phis[y].operands == map[] <==> s1.phis[y].operands == map[] {
      assert s2.phis[y].operands.Keys == s1.phis[y].operands.Keys;
      EmptyKeys(s1.phis[y].operands);
      EmptyKeys(s2.phis[y].operands);
    }
  }

  lemma EmptyKeys(m: map<Block, Value>)
    ensures m == map[] <==> m.Keys == {}
  {
  }

  lemma ReadNothing(s: Builder, labels: map<Place, Value>, forward: map<Id, Value>, p: Place)
    requires Consistent(s, labels, forward) && p in s.defs
    ensures HasRead(s, labels, s, labels, forward, p, s.defs[p])
  {
  }

  lemma PhiGrows(s: Builder, p: Place)
    ensures Grows(s, WithPhi(s, p)) && Grows(s, WithPhi(s, p).(incomplete := s.incomplete[p := Id(s.next)]))
    ensures Id(s.next) in WithPhi(s, p).phis && p in WithPhi(s, p).defs && WithPhi(s, p).preds == s.preds
    ensures p.block in s.preds && p !in s.defs ==> Missing(WithPhi(s, p), p.variable) < Missing(s, p.variable)
  {
    MissingLess(s, WithPhi(s, p), p.variable);
    if p.block in s.preds && p !in s.defs {
      assert p == Place(p.block, p.variable);
      assert p.block in Missing(s, p.variable) && p.block !in Missing(WithPhi(s, p), p.variable);
    }
  }

  lemma DefGrows(s: Builder, t: Builder, p: Place, val: Value)
    requires Grows(s, t)
    ensures Grows(s, WithDef(t, p, val))
  {
  }

  lemma ReadIncomplete(s: Builder, labels: map<Place, Value>, forward: map<Id, Value>, p: Place)
    requires Consistent(s, labels, forward) && p !in s.defs && p.block in s.preds && p.block !in s.sealed
    ensures HasRead(s, labels, WithPhi(s, p).(incomplete := s.incomplete[p := Id(s.next)]), labels[p := Result(Id(s.next))], forward, p, Result(Id(s.next)))
  {
    var x, labels' := Id(s.next), labels[p := Result(Id(s.next))];
    hide UsesAgree, NothingRemoved, Forwards, PlainAgree, PhisAgree, DefsAgree, Extends, Progress, NewPhisDone, Waiting;
    PhiFresh(s, labels);
    NewPhi(s, labels, forward, p);
    IncompletePhi(WithPhi(s, p), labels', forward, s.incomplete[p := x]);
    IncompleteExtends(s, labels, WithPhi(s, p), labels', s.incomplete[p := x]);
    ProgressIncomplete(s, p);
    IncompleteDone(s, p);
  }

  lemma ProgressIncomplete(s: Builder, p: Place)
    requires p !in s.defs && p !in s.incomplete && p.block !in s.sealed && Id(s.next) !in s.phis
    ensures Progress(s, WithPhi(s, p).(incomplete := s.incomplete[p := Id(s.next)]), p.variable, {})
  {
  }

  lemma IncompleteDone(s: Builder, p: Place)
    requires p.block !in s.sealed && Id(s.next) !in s.phis
    ensures NewPhisDone(s, WithPhi(s, p).(incomplete := s.incomplete[p := Id(s.next)]))
  {
    hide Merges;
  }

  lemma IncompleteExtends(s: Builder, l: map<Place, Value>, t: Builder, l': map<Place, Value>, incomplete: map<Place, Id>)
    requires Extends(s, l, t, l')
    ensures Extends(s, l, t.(incomplete := incomplete), l')
  {
  }

  lemma OnlyPredecessor(ps: set<Block>, q: seq<Block>, preds: map<Block, set<Block>>, dist: map<Block, nat>, bound: nat, b: Block)
    requires |ps| == 1 && b in preds && preds[b] == ps && Grounded(preds, dist, bound)
    requires forall x :: x in q <==> x in ps
    requires forall i, j :: 0 <= i < j < |q| ==> q[i] != q[j]
    ensures |q| > 0 && ps == {q[0]} && q[0] in preds && q[0] in dist && b in dist && dist[q[0]] < dist[b]
  {
    var x :| x in ps;
    OneElement(ps, x);
    assert x in q;
    assert q[0] in q;
  }

  lemma OneElement(ps: set<Block>, x: Block)
    requires |ps| == 1 && x in ps
    ensures ps == {x}
  {
    assert ps - {x} == {} by {
      assert |ps - {x}| == 0;
    }
    assert forall y :: y in ps ==> y in ps - {x} || y == x;
  }

  lemma NothingClaimed(s0: Builder, labels0: map<Place, Value>, s: Builder, labels: map<Place, Value>, forward: map<Id, Value>, exempt: set<Id>, x: Id)
    ensures MayCascade(false, s0, labels0, s, labels, forward, exempt, x)
  {
  }

  predicate IsPhi(s: Builder, a: Value) {
    a.Result? && a.id in s.phis
  }

  lemma ReplacedKeys(x: Id, a: Value, m: map<Place, Value>)
    ensures ReplacedIn(x, a, m).Keys == m.Keys
  {
  }

  lemma UsersExist(s: Builder, x: Id)
    ensures forall y :: y in PhiUsers(s, x) ==> y in s.phis && y in LiveSet(s)
  {
  }

  lemma AfterFirst(s: Builder, x: Id, a: Value)
    requires x in s.phis
    ensures SameShape(s, Removed(s, x, a)) && LiveSet(Removed(s, x, a)) <= LiveSet(s)
    ensures s.phis[x].live ==> LiveSet(Removed(s, x, a)) < LiveSet(s)
    ensures x in Removed(s, x, a).phis && !Removed(s, x, a).phis[x].live && Empties(s, Removed(s, x, a), x)
    ensures forall y :: Complete(s, y) ==> Complete(Removed(s, x, a), y)
  {
    RemovedShape(s, x, a);
    ShapeLive(s, Removed(s, x, a));
    assert x !in LiveSet(Removed(s, x, a));
    assert s.phis[x].live ==> x in LiveSet(s);
  }

  lemma EmptiesTwice(s: Builder, t: Builder, u: Builder, x: Id, y: Id)
    requires SameShape(s, t) && SameShape(t, u) && Empties(s, t, x) && Empties(t, u, y) && y in PhiUsers(s, x)
    ensures Empties(s, u, x)
  {
  }

  lemma StaysRemoved(s: Builder, t: Builder, x: Id)
    requires SameShape(s, t) && x in s.phis && !s.phis[x].live
    ensures x in t.phis && !t.phis[x].live
  {
  }

  lemma CompleteStays(s: Builder, t: Builder)
    requires SameShape(s, t)
    ensures forall y :: Complete(s, y) ==> Complete(t, y)
  {
  }

  lemma FromStart(users: seq<Id>, all: set<Id>, exempt: set<Id>)
    requires forall y :: y in users <==> y in all
    ensures exempt + From(users, 0) == exempt + all
  {
  }

  lemma FromEnd(users: seq<Id>, exempt: set<Id>)
    ensures exempt + From(users, |users|) == exempt
  {
  }

  lemma LiveOrSmaller(s: Builder, u: Id, all: set<Id>)
    requires u in s.phis && u in all && LiveSet(s) <= all
    ensures s.phis[u].live || LiveSet(s) < all
  {
  }

  lemma NextMayCascade(s0: Builder, labels0: map<Place, Value>, s: Builder, labels: map<Place, Value>, forward: map<Id, Value>,
                       before: map<Place, Value>, follow: map<Id, Value>, exempt: set<Id>, x: Id, r: Value, users: seq<Id>, i: nat)
    requires i < |users| && Between(s0, labels0, s, labels, forward, before, follow, exempt + From(users, i), x, r)
    requires users[i] !in s0.phis && Complete(s, users[i])
    ensures MayCascade(true, s0, labels0, s, labels, forward, exempt + From(users, i + 1), users[i])
  {
    hide Cascading, Moved, Reduced, From;
    FromNext(users, i, exempt);
  }

  lemma NextUser(s0: Builder, labels0: map<Place, Value>, s1: Builder, l1: map<Place, Value>, f1: map<Id, Value>,
                 s2: Builder, l2: map<Place, Value>, f2: map<Id, Value>,
                 before: map<Place, Value>, follow: map<Id, Value>, exempt: set<Id>, x: Id, r: Value, users: seq<Id>, i: nat, newVal: Value)
    requires i < |users| && Between(s0, labels0, s1, l1, f1, before, follow, exempt + From(users, i), x, r)
    requires Between(s0, labels0, s2, l2, f2, l1, f1, exempt + From(users, i + 1), users[i], newVal)
    ensures Between(s0, labels0, s2, l2, f2, before, follow, exempt + From(users, i + 1), x, if r == Result(users[i]) then newVal else r)
  {
    hide Cascading, Moved, Reduced, From, Follow;
    MovedTwice(before, follow, l1, f1, l2, f2);
    FollowMoved(l1, f1, l2, f2, r);
    FollowMoved(l1, f1, l2, f2, Result(x));
  }

  // ----- reading -----

  function Missing(s: Builder, v: Variable): set<Block> {
    set b | b in s.preds && Place(b, v) !in s.defs
  }

  /** Looking back through blocks with one predecessor comes to an end. */
  ghost predicate Grounded(preds: map<Block, set<Block>>, dist: map<Block, nat>, bound: nat) {
    && (forall b :: b in preds ==> b in dist && dist[b] < bound)
    && (forall b, q :: b in preds && preds[b] == {q} ==> q in preds && dist[q] < dist[b])
    && (forall b, q :: b in preds && q in preds[b] ==> q in preds)
  }

  /** Whatever happens, nothing recorded is forgotten. */
  ghost predicate Grows(s: Builder, t: Builder) {
    && t.preds == s.preds && t.sealed == s.sealed && t.code.Keys == s.code.Keys
    && s.defs.Keys <= t.defs.Keys && s.phis.Keys <= t.phis.Keys && s.next <= t.next
    && s.incomplete.Keys <= t.incomplete.Keys
    && forall p :: p in t.incomplete ==> (p in s.incomplete && t.incomplete[p] == s.incomplete[p]) || (p in t.defs && t.incomplete[p] in t.phis)
  }

  /** Head labels are only added where there was no value. */
  ghost predicate NewLabels(s: Builder, labels: map<Place, Value>, labels': map<Place, Value>) {
    forall p :: p in labels' && p !in labels ==> p !in s.defs
  }

  lemma NewLabelsTwice(s: Builder, t: Builder, l0: map<Place, Value>, l1: map<Place, Value>, l2: map<Place, Value>)
    requires Grows(s, t) && NewLabels(s, l0, l1) && NewLabels(t, l1, l2)
    ensures NewLabels(s, l0, l2)
  {
  }

  lemma GrowsTwice(s: Builder, t: Builder, u: Builder)
    requires Grows(s, t) && Grows(t, u)
    ensures Grows(s, u)
  {
  }

  lemma ShapeGrows(s: Builder, t: Builder)
    requires SameShape(s, t)
    ensures Grows(s, t)
  {
  }

  lemma MissingLess(s: Builder, t: Builder, v: Variable)
    requires Grows(s, t)
    ensures Missing(t, v) <= Missing(s, v)
  {
  }

  /** Phis that are not in s0 are complete and needed, or wait in an unsealed block. */
  ghost predicate NewPhisDone(s0: Builder, s: Builder) {
    && (forall y :: y in s.phis && s.phis[y].live && y !in s0.phis ==>
         if s.phis[y].operands == map[] then s.phis[y].block !in s.sealed else Complete(s, y))
    && Reduced(s, s0.phis.Keys)
  }

  /** The phi that stands at an unsealed place, without operands yet. */
  ghost predicate Waiting(s: Builder, p: Place) {
    p in s.incomplete && var x := s.incomplete[p];
      x in s.phis && s.phis[x].live && s.phis[x].operands == map[] && Place(s.phis[x].block, s.phis[x].variable) == p
  }

  /** Other phis than the excepted ones keep their place and operand positions; without operands they stay as they are. */
  ghost predicate Kept(s: Builder, t: Builder, but: set<Id>) {
    forall y :: y in s.phis && y !in but ==>
      && y in t.phis && t.phis[y].block == s.phis[y].block && t.phis[y].variable == s.phis[y].variable
      && t.phis[y].operands.Keys == s.phis[y].operands.Keys && (t.phis[y].live ==> s.phis[y].live)
      && (s.phis[y].operands == map[] ==> t.phis[y] == s.phis[y])
  }

  /** How reading v moves on: only places of v that had no value got one, and only they got phis. */
  ghost predicate Progress(s: Builder, t: Builder, v: Variable, but: set<Id>) {
    && (forall p :: p in t.defs && p !in s.defs ==> p.variable == v && (p.block !in t.sealed ==> Waiting(t, p)))
    && (forall p :: p in t.incomplete && p !in s.incomplete ==> p.variable == v && p !in s.defs && p.block !in s.sealed)
    && (forall p :: p in s.incomplete ==> p in t.incomplete && t.incomplete[p] == s.incomplete[p])
    && (forall y :: y in t.phis && y !in s.phis ==> Place(t.phis[y].block, t.phis[y].variable) !in s.defs)
    && Kept(s, t, but)
  }

  /** What a read achieves. */
  ghost predicate HasRead(s0: Builder, labels0: map<Place, Value>, s: Builder, labels: map<Place, Value>, forward: map<Id, Value>, p: Place, val: Value) {
    && Consistent(s, labels, forward)
    && Extends(s0, labels0, s, labels)
    && NewPhisDone(s0, s)
    && Progress(s0, s, p.variable, {})
    && p in s.defs && s.defs[p] == val
  }

  // one value for a place whose block has one predecessor

  function WithDef(s: Builder, p: Place, val: Value): Builder {
    s.(defs := s.defs[p := val])
  }

  lemma PlainDef(s: Builder, labels: map<Place, Value>, forward: map<Id, Value>, p: Place, q: Block, val: Value)
    requires Consistent(s, labels, forward) && p !in s.defs && p.block in s.preds && s.preds[p.block] == {q}
    requires Place(q, p.variable) in s.defs && s.defs[Place(q, p.variable)] == val
    ensures Consistent(WithDef(s, p, val), labels[p := val], forward)
  {
    hide UsesAgree, Forwards, Writes, LastWrite, NothingRemoved, PlainAgree;
    var s', labels' := WithDef(s, p, val), labels[p := val];
    NotKnown(s, labels, p);
    DefUses(s, labels, p, val);
    SameCode(s, s', labels');
    HeldIsSane(s, labels, Place(q, p.variable));
    DefSane(s, labels, p, val);
    DefPlain(s, labels, p, q, val);
    DefForwards(s, forward, p, val);
    forall y | y in s'.phis && s'.phis[y].live ensures PhiAgrees(s', labels', y) {
      assert PhiAgrees(s, labels, y);
    }
  }

  lemma HeldIsSane(s: Builder, labels: map<Place, Value>, p: Place)
    requires NothingRemoved(s, labels) && p in s.defs
    ensures Sane(s, s.defs[p])
  {
  }

  lemma NotKnown(s: Builder, labels: map<Place, Value>, p: Place)
    requires Shaped(s, labels) && DefsAgree(s, labels) && p !in s.defs && p.block in s.preds
    ensures p !in labels && !Writes(s.code[p.block], p.variable)
  {
  }

  lemma DefUses(s: Builder, labels: map<Place, Value>, p: Place, val: Value)
    requires UsesAgree(s, labels) && p !in labels && p.block in s.code && !Writes(s.code[p.block], p.variable)
    ensures UsesAgree(s, labels[p := val])
  {
    forall b, i | b in s.code && 0 <= i < |s.code[b]| && s.code[b][i].Use? ensures UseAgrees(s.code[b], labels[p := val], b, i) {
      assert UseAgrees(s.code[b], labels, b, i);
      if Writes(s.code[b][..i], s.code[b][i].variable) {
        var j :| 0 <= j < i && s.code[b][..i][j].Assign? && s.code[b][..i][j].variable == s.code[b][i].variable;
        assert s.code[b][j].Assign?;
      }
    }
  }

  lemma DefSane(s: Builder, labels: map<Place, Value>, p: Place, val: Value)
    requires NothingRemoved(s, labels) && Sane(s, val)
    ensures NothingRemoved(WithDef(s, p, val), labels[p := val])
  {
    hide IsRemoved, IsBounded;
    forall v | Sane(s, v) ensures Sane(WithDef(s, p, val), v) {
      SaneSame(s, WithDef(s, p, val), v);
    }
  }

  lemma SaneSame(s: Builder, t: Builder, v: Value)
    requires Sane(s, v) && s.next <= t.next && forall x :: x in t.phis && !t.phis[x].live ==> x in s.phis && !s.phis[x].live
    requires forall x :: x in t.phis && t.phis[x].live && x.serial < s.next ==> x in s.phis && s.phis[x].live
    ensures Sane(t, v)
  {
  }

  lemma DefPlain(s: Builder, labels: map<Place, Value>, p: Place, q: Block, val: Value)
    requires PlainAgree(s, labels) && PhisAgree(s, labels) && p !in s.defs && p !in labels && p.block in s.preds && s.preds[p.block] == {q}
    requires Place(q, p.variable) in s.defs && s.defs[Place(q, p.variable)] == val
    ensures PlainAgree(WithDef(s, p, val), labels[p := val])
  {
    var s', labels' := WithDef(s, p, val), labels[p := val];
    assert forall x :: x in s.phis && s.phis[x].live ==> PhiAgrees(s, labels, x);
    assert !OwnPhi(s', labels', p);
    forall r | r in labels && r.block in s.preds && !OwnPhi(s', labels', r) ensures !OwnPhi(s, labels, r) {
    }
  }

  lemma DefForwards(s: Builder, forward: map<Id, Value>, p: Place, val: Value)
    requires Forwards(s, forward)
    ensures Forwards(WithDef(s, p, val), forward)
  {
    forall x | x in forward ensures Sane(WithDef(s, p, val), forward[x]) {
      SaneSame(s, WithDef(s, p, val), forward[x]);
    }
  }

  // a new phi without operands

  function WithPhi(s: Builder, p: Place): Builder {
    s.(defs := s.defs[p := Result(Id(s.next))],
       phis := s.phis[Id(s.next) := Phi(p.block, p.variable, map[], true)],
       next := s.next + 1)
  }

  lemma PhiFresh(s: Builder, labels: map<Place, Value>)
    requires NothingRemoved(s, labels)
    ensures Id(s.next) !in s.phis
    ensures forall b, i :: b in s.code && 0 <= i < |s.code[b]| && s.code[b][i].Compute? ==> s.code[b][i].id != Id(s.next)
  {
    forall b, i | b in s.code && 0 <= i < |s.code[b]| && s.code[b][i].Compute? ensures s.code[b][i].id != Id(s.next) {
      assert Sane(s, ValueOf(s.code[b][i]));
    }
  }

  lemma PhiSane(s: Builder, labels: map<Place, Value>, p: Place)
    requires NothingRemoved(s, labels)
    ensures NothingRemoved(WithPhi(s, p), labels[p := Result(Id(s.next))])
  {
    hide IsRemoved, IsBounded;
    PhiFresh(s, labels);
    var s' := WithPhi(s, p);
    forall v | Sane(s, v) ensures Sane(s', v) {
      SaneSame(s, s', v);
    }
    NewIsSane(s, p);
  }

  lemma NewIsSane(s: Builder, p: Place)
    ensures Sane(WithPhi(s, p), Result(Id(s.next)))
  {
  }

  lemma PhiForwards(s: Builder, forward: map<Id, Value>, p: Place)
    requires Forwards(s, forward) && Id(s.next) !in s.phis
    ensures Forwards(WithPhi(s, p), forward)
  {
    forall x | x in forward ensures Sane(WithPhi(s, p), forward[x]) {
      SaneSame(s, WithPhi(s, p), forward[x]);
    }
  }

  lemma PhiPlain(s: Builder, labels: map<Place, Value>, p: Place)
    requires PlainAgree(s, labels) && p !in s.defs && p !in labels && Id(s.next) !in s.phis
    ensures PlainAgree(WithPhi(s, p), labels[p := Result(Id(s.next))])
  {
    var s', labels' := WithPhi(s, p), labels[p := Result(Id(s.next))];
    assert OwnPhi(s', labels', p);
    forall r | r in labels && !OwnPhi(s', labels', r) ensures !OwnPhi(s, labels, r) {
    }
  }

  lemma NewPhi(s: Builder, labels: map<Place, Value>, forward: map<Id, Value>, p: Place)
    requires Consistent(s, labels, forward) && p !in s.defs && p.block in s.preds
    ensures Consistent(WithPhi(s, p), labels[p := Result(Id(s.next))], forward)
    ensures Extends(s, labels, WithPhi(s, p), labels[p := Result(Id(s.next))])
  {
    hide DefsAgree, UsesAgree, Forwards, NothingRemoved, PlainAgree, Writes, PhisAgree, WithPhi, Extends, Known, Current;
    var s', labels' := WithPhi(s, p), labels[p := Result(Id(s.next))];
    NotKnown(s, labels, p);
    PhiFresh(s, labels);
    DefUses(s, labels, p, Result(Id(s.next)));
    PhiSane(s, labels, p);
    PhiForwards(s, forward, p);
    PhiPlain(s, labels, p);
    PhiShaped(s, labels, p);
    PhiDefs(s, labels, p);
    PhiPhis(s, labels, p);
    PhiExtends(s, labels, p);
    SameCode(s, s', labels');
  }

  lemma PhiShaped(s: Builder, labels: map<Place, Value>, p: Place)
    requires Shaped(s, labels) && p.block in s.preds
    ensures Shaped(WithPhi(s, p), labels[p := Result(Id(s.next))]) && WithPhi(s, p).code == s.code
  {
  }

  lemma PhiDefs(s: Builder, labels: map<Place, Value>, p: Place)
    requires DefsAgree(s, labels) && p.block in s.code && !Writes(s.code[p.block], p.variable)
    ensures DefsAgree(WithPhi(s, p), labels[p := Result(Id(s.next))])
  {
  }

  lemma PhiPhis(s: Builder, labels: map<Place, Value>, p: Place)
    requires PhisAgree(s, labels) && p !in s.defs && p !in labels && p.block in s.preds && Id(s.next) !in s.phis
    ensures PhisAgree(WithPhi(s, p), labels[p := Result(Id(s.next))])
  {
    var s', labels' := WithPhi(s, p), labels[p := Result(Id(s.next))];
    forall y | y in s'.phis && s'.phis[y].live ensures PhiAgrees(s', labels', y) {
      assert y != Id(s.next) ==> PhiAgrees(s, labels, y);
    }
  }

  lemma PhiExtends(s: Builder, labels: map<Place, Value>, p: Place)
    requires p !in s.defs && p !in labels && Id(s.next) !in s.phis
    ensures Extends(s, labels, WithPhi(s, p), labels[p := Result(Id(s.next))])
  {
  }

  lemma SameCode(s: Builder, t: Builder, labels: map<Place, Value>)
    requires UsesAgree(s, labels) && t.code == s.code
    ensures UsesAgree(t, labels)
  {
  }
  lemma IncompletePhi(s: Builder, labels: map<Place, Value>, forward: map<Id, Value>, incomplete: map<Place, Id>)
    requires Consistent(s, labels, forward) && forall p :: p in incomplete ==> p in s.defs
    ensures Consistent(s.(incomplete := incomplete), labels, forward)
  {
    var t := s.(incomplete := incomplete);
    assert forall v :: Sane(s, v) <==> Sane(t, v);
    forall x | x in s.phis && s.phis[x].live ensures PhiAgrees(t, labels, x) {
      assert PhiAgrees(s, labels, x);
    }
    assert forall p :: p in labels ==> (OwnPhi(t, labels, p) <==> OwnPhi(s, labels, p));
  }

  // one more operand

  function WithOperand(s: Builder, x: Id, q: Block, val: Value): Builder
    requires x in s.phis
  {
    s.(phis := s.phis[x := s.phis[x].(operands := s.phis[x].operands[q := val])])
  }

  ghost predicate Fits(s: Builder, x: Id, q: Block, val: Value) {
    && x in s.phis && s.phis[x].live && s.phis[x].block in s.preds && q in s.preds[s.phis[x].block]
    && Place(q, s.phis[x].variable) in s.defs && s.defs[Place(q, s.phis[x].variable)] == val
  }

  lemma OperandSane(s: Builder, labels: map<Place, Value>, x: Id, q: Block, val: Value)
    requires NothingRemoved(s, labels) && Fits(s, x, q, val)
    ensures NothingRemoved(WithOperand(s, x, q, val), labels)
  {
    hide IsRemoved, IsBounded;
    forall v | Sane(s, v) ensures Sane(WithOperand(s, x, q, val), v) {
      SaneSame(s, WithOperand(s, x, q, val), v);
    }
  }

  lemma OperandForwards(s: Builder, forward: map<Id, Value>, x: Id, q: Block, val: Value)
    requires Forwards(s, forward) && Fits(s, x, q, val)
    ensures Forwards(WithOperand(s, x, q, val), forward)
  {
    hide Merges;
    forall y | y in forward ensures Sane(WithOperand(s, x, q, val), forward[y]) {
      SaneSame(s, WithOperand(s, x, q, val), forward[y]);
    }
  }

  lemma OperandPlain(s: Builder, labels: map<Place, Value>, x: Id, q: Block, val: Value)
    requires PlainAgree(s, labels) && Fits(s, x, q, val)
    ensures PlainAgree(WithOperand(s, x, q, val), labels)
  {
    assert forall p :: p in labels ==> (OwnPhi(WithOperand(s, x, q, val), labels, p) <==> OwnPhi(s, labels, p));
  }

  lemma AddOperand(s: Builder, labels: map<Place, Value>, forward: map<Id, Value>, x: Id, q: Block, val: Value)
    requires Consistent(s, labels, forward) && Fits(s, x, q, val)
    ensures Consistent(WithOperand(s, x, q, val), labels, forward)
  {
    hide UsesAgree, Forwards, NothingRemoved, PlainAgree, Known, Current;
    var s' := WithOperand(s, x, q, val);
    SameCode(s, s', labels);
    OperandSane(s, labels, x, q, val);
    OperandForwards(s, forward, x, q, val);
    OperandPlain(s, labels, x, q, val);
    forall y | y in s'.phis && s'.phis[y].live ensures PhiAgrees(s', labels, y) {
      assert PhiAgrees(s, labels, y);
    }
  }

  /** Phi x collects its operands; those of the blocks in done are there. */
  ghost predicate Gathering(s0: Builder, labels0: map<Place, Value>, s: Builder, labels: map<Place, Value>, forward: map<Id, Value>,
                            x: Id, p: Place, done: set<Block>) {
    && Consistent(s, labels, forward) && Extends(s0, labels0, s, labels) && NothingRemoved(s0, labels0)
    && x !in s0.phis && x in s.phis && s.phis[x].live && Place(s.phis[x].block, s.phis[x].variable) == p
    && s.phis[x].operands.Keys == done
    && (forall y :: y in s.phis && s.phis[y].live && y !in s0.phis && y != x ==>
         if s.phis[y].operands == map[] then s.phis[y].block !in s.sealed else Complete(s, y))
    && Reduced(s, s0.phis.Keys + {x})
  }

  lemma GatherRead(s0: Builder, l0: map<Place, Value>, s1: Builder, l1: map<Place, Value>, f1: map<Id, Value>,
                   s2: Builder, l2: map<Place, Value>, f2: map<Id, Value>, x: Id, p: Place, done: set<Block>, q: Place, val: Value)
    requires Gathering(s0, l0, s1, l1, f1, x, p, done) && HasRead(s1, l1, s2, l2, f2, q, val)
    requires s2.sealed == s1.sealed && s2.preds == s1.preds
    ensures Gathering(s0, l0, s2, l2, f2, x, p, done)
  {
    hide Consistent, NothingRemoved, Merges, Progress;
    ExtendsTwice(s0, l0, s1, l1, s2, l2);
    forall y, a | y in s2.phis && s2.phis[y].live && s2.phis[y].operands != map[] && Merges(s2.phis[y], y, a)
      ensures y in s0.phis.Keys + {x}
    {
      assert y in s1.phis.Keys;
    }
  }

  lemma ExtendsTwice(s0: Builder, l0: map<Place, Value>, s1: Builder, l1: map<Place, Value>, s2: Builder, l2: map<Place, Value>)
    requires Extends(s0, l0, s1, l1) && Extends(s1, l1, s2, l2)
    ensures Extends(s0, l0, s2, l2)
  {
  }

  lemma GatherAdd(s0: Builder, labels0: map<Place, Value>, s: Builder, labels: map<Place, Value>, forward: map<Id, Value>,
                  x: Id, p: Place, done: set<Block>, q: Block, val: Value)
    requires Gathering(s0, labels0, s, labels, forward, x, p, done) && p.block in s.preds && q in s.preds[p.block]
    requires Place(q, p.variable) in s.defs && s.defs[Place(q, p.variable)] == val
    ensures Gathering(s0, labels0, WithOperand(s, x, q, val), labels, forward, x, p, done + {q})
  {
    hide Consistent, NothingRemoved, Merges;
    AddOperand(s, labels, forward, x, q, val);
    var s' := WithOperand(s, x, q, val);
    forall y, a | y in s'.phis && s'.phis[y].live && s'.phis[y].operands != map[] && Merges(s'.phis[y], y, a)
      ensures y in s0.phis.Keys + {x}
    {
      assert y != x ==> s'.phis[y] == s.phis[y];
    }
  }

  /** All operands are there. */
  lemma GatherDone(s0: Builder, labels0: map<Place, Value>, s: Builder, labels: map<Place, Value>, forward: map<Id, Value>,
                   x: Id, p: Place, done: set<Block>)
    requires Gathering(s0, labels0, s, labels, forward, x, p, done) && p.block in s.preds && done == s.preds[p.block]
    ensures MayCascade(true, s0, labels0, s, labels, forward, s0.phis.Keys, x)
  {
    hide Consistent, NothingRemoved, Reduced, Extends;
  }

  lemma SameShapeItself(s: Builder)
    ensures SameShape(s, s) && forall x :: Empties(s, s, x)
  {
  }

  /** A place filled during the look back got the same value: no needed phi stands behind a single predecessor. */
  lemma FilledAlike(s0: Builder, l0: map<Place, Value>, f0: map<Id, Value>, s1: Builder, l1: map<Place, Value>, f1: map<Id, Value>, p: Place, q: Block, val: Value)
    requires Consistent(s0, l0, f0) && HasRead(s0, l0, s1, l1, f1, Place(q, p.variable), val) && Grows(s0, s1)
    requires p !in s0.defs && p in s1.defs && p.block in s0.preds && s0.preds[p.block] == {q} && p.block in s0.sealed
    ensures p in l1 && l1[p] == val && s1.defs[p] == val
  {
    hide UsesAgree, NothingRemoved, Forwards, PlainAgree, Merges, Reduced;
    NotKnown(s0, l0, p);
    if OwnPhi(s1, l1, p) {
      NoPhiBehindOne(s0, l0, s1, l1, p, q);
    }
    PlainAt(s1, l1, p, q);
  }

  lemma PlainAt(s: Builder, labels: map<Place, Value>, p: Place, q: Block)
    requires PlainAgree(s, labels) && p in labels && p.block in s.preds && q in s.preds[p.block] && !OwnPhi(s, labels, p)
    ensures Place(q, p.variable) in s.defs && s.defs[Place(q, p.variable)] == labels[p]
  {
  }

  lemma NoPhiBehindOne(s0: Builder, l0: map<Place, Value>, s1: Builder, l1: map<Place, Value>, p: Place, q: Block)
    requires PhisAgree(s0, l0) && p !in l0 && Extends(s0, l0, s1, l1) && NewPhisDone(s0, s1)
    requires p.block in s1.preds && s1.preds[p.block] == {q} && p.block in s1.sealed && p in l1
    ensures !OwnPhi(s1, l1, p)
  {
    hide Merges;
    if OwnPhi(s1, l1, p) {
      var x := l1[p].id;
      assert x in s0.phis ==> PhiAgrees(s0, l0, x);
      SingleMerges(s1.phis[x], x, q);
    }
  }

  lemma SingleMerges(phi: Phi, x: Id, q: Block)
    ensures phi.operands.Keys == {q} ==> phi.operands != map[] && exists a :: Merges(phi, x, a)
  {
    if phi.operands.Keys == {q} {
      assert q in phi.operands;
      var a := if phi.operands[q] == Result(x) then Undefined(x.serial) else phi.operands[q];
      assert Merges(phi, x, a);
    }
  }

  lemma ReadThrough(s0: Builder, l0: map<Place, Value>, f0: map<Id, Value>, s1: Builder, l1: map<Place, Value>, f1: map<Id, Value>, p: Place, q: Block, val: Value)
    requires Consistent(s0, l0, f0) && HasRead(s0, l0, s1, l1, f1, Place(q, p.variable), val) && Grows(s0, s1)
    requires p !in s0.defs && p.block in s0.preds && s0.preds[p.block] == {q} && p.block in s0.sealed
    ensures HasRead(s0, l0, WithDef(s1, p, val), l1[p := val], f1, p, val)
  {
    hide Consistent, Reduced, Merges;
    if p in s1.defs {
      FilledAlike(s0, l0, f0, s1, l1, f1, p, q, val);
      assert s1.defs[p := val] == s1.defs && l1[p := val] == l1;
    } else {
      PlainDef(s1, l1, f1, p, q, val);
      SamePhis(s1, WithDef(s1, p, val), s0.phis.Keys);
      NotLabelled(s0, l0, f0, p);
    }
  }

  lemma SamePhis(s: Builder, t: Builder, exempt: set<Id>)
    requires Reduced(s, exempt) && t.phis == s.phis
    ensures Reduced(t, exempt)
  {
  }

  lemma NotLabelled(s: Builder, labels: map<Place, Value>, forward: map<Id, Value>, p: Place)
    requires Consistent(s, labels, forward) && p !in s.defs && p.block in s.preds
    ensures p !in labels
  {
  }

  lemma StartGathering(s: Builder, labels: map<Place, Value>, forward: map<Id, Value>, p: Place)
    requires Consistent(s, labels, forward) && p !in s.defs && p.block in s.preds && p.block in s.sealed
    ensures Gathering(s, labels, WithPhi(s, p), labels[p := Result(Id(s.next))], forward, Id(s.next), p, {})
    ensures Progress(s, WithPhi(s, p), p.variable, {}) && Id(s.next) !in s.phis && StandsAt(WithPhi(s, p), Id(s.next), p)
  {
    hide Consistent, Extends, NothingRemoved, Merges, Progress;
    NewPhi(s, labels, forward, p);
    ConsistentParts(s, labels, forward);
    PhiFresh(s, labels);
    ProgressPhi(s, p);
  }

  lemma ProgressPhi(s: Builder, p: Place)
    requires p !in s.defs && p.block in s.sealed && Id(s.next) !in s.phis
    ensures Progress(s, WithPhi(s, p), p.variable, {})
  {
  }

  lemma ConsistentParts(s: Builder, labels: map<Place, Value>, forward: map<Id, Value>)
    requires Consistent(s, labels, forward)
    ensures NothingRemoved(s, labels) && Forwards(s, forward) && PhisAgree(s, labels) && DefsAgree(s, labels) && Shaped(s, labels)
  {
  }

  lemma ReadMerged(s0: Builder, l0: map<Place, Value>, f0: map<Id, Value>, s1: Builder, s2: Builder, l2: map<Place, Value>, f2: map<Id, Value>,
                   x: Id, p: Place, val: Value)
    requires Consistent(s0, l0, f0) && Gathered(s0, l0, s1, s2, l2, f2, x, p, val) && !IsRemoved(s2, val)
    requires Progress(s0, s1, p.variable, {}) && Grows(s0, s1) && Grows(s1, s2) && p !in s0.defs && p.block in s0.preds && p.block in s0.sealed
    requires x !in s0.phis && StandsAt(s1, x, p)
    ensures HasRead(s0, l0, WithDef(s2, p, val), l2, f2, p, val)
  {
    hide Consistent, NewPhisDone, Progress, Extends, StandsAt;
    ConsistentParts(s0, l0, f0);
    ConsistentParts(s2, l2, f2);
    LabelIsDef(s0, l0, s2, l2, p);
    NotForwarded(s2, f2, val);
    assert WithDef(s2, p, val) == s2 by {
      assert s2.defs[p := val] == s2.defs;
    }
    ProgressTwice(s0, s1, s2, p, {}, x);
  }

  lemma NotForwarded(s: Builder, forward: map<Id, Value>, val: Value)
    requires Forwards(s, forward) && !IsRemoved(s, val)
    ensures Follow(forward, val) == val
  {
  }

  lemma LabelIsDef(s0: Builder, l0: map<Place, Value>, s2: Builder, l2: map<Place, Value>, p: Place)
    requires Shaped(s0, l0) && DefsAgree(s0, l0) && p !in s0.defs && p.block in s0.preds
    requires Extends(s0, l0, s2, l2) && Shaped(s2, l2) && DefsAgree(s2, l2) && p in l2
    ensures p in s2.defs && s2.defs[p] == l2[p]
  {
    NotKnown(s0, l0, p);
  }

  // ----- between the operations, and sealing -----

  function Nothing(): Builder {
    Builder(map[], {}, map[], map[], map[], map[], 0)
  }

  /** Unsealed blocks are read through phis without operands, which are what is incomplete. */
  ghost predicate AllWaiting(s: Builder, labels: map<Place, Value>, but: set<Block>) {
    && (forall p :: p in labels && p.block !in s.sealed && p.block !in but ==> Waiting(s, p))
    && (forall p :: p in s.incomplete && p.block !in but ==> Waiting(s, p))
  }

  /** The state between two operations: no operand collection is under way. */
  ghost predicate Ready(s: Builder, labels: map<Place, Value>, forward: map<Id, Value>) {
    Consistent(s, labels, forward) && NewPhisDone(Nothing(), s) && AllWaiting(s, labels, {})
  }

  lemma ReadKeepsReady(s0: Builder, l0: map<Place, Value>, f0: map<Id, Value>, s: Builder, l: map<Place, Value>, f: map<Id, Value>, p: Place, val: Value)
    requires Ready(s0, l0, f0) && HasRead(s0, l0, s, l, f, p, val) && Grows(s0, s) && NewLabels(s0, l0, l)
    ensures Ready(s, l, f)
  {
    hide Consistent, NewPhisDone, Progress, Extends, NewLabels, AllWaiting, Grows;
    DoneKeeps(s0, l0, s, l);
    ConsistentParts(s, l, f);
    WaitingKeeps(s0, l0, s, l, p.variable);
  }

  lemma DoneKeeps(s0: Builder, l0: map<Place, Value>, s: Builder, l: map<Place, Value>)
    requires NewPhisDone(Nothing(), s0) && NewPhisDone(s0, s) && Extends(s0, l0, s, l) && Grows(s0, s)
    ensures NewPhisDone(Nothing(), s)
  {
    hide Merges;
    ReducedKeeps(s0, s);
  }

  lemma ReducedKeeps(s0: Builder, s: Builder)
    requires Reduced(s0, Nothing().phis.Keys) && Reduced(s, s0.phis.Keys)
    requires forall y :: y in s0.phis ==> y in s.phis && s.phis[y] == s0.phis[y]
    ensures Reduced(s, Nothing().phis.Keys)
  {
    hide Merges;
    assert forall y :: y in s0.phis.Keys ==> y in s0.phis;
  }

  lemma WaitingKeeps(s0: Builder, l0: map<Place, Value>, s: Builder, l: map<Place, Value>, v: Variable)
    requires AllWaiting(s0, l0, {}) && Extends(s0, l0, s, l) && Grows(s0, s) && NewLabels(s0, l0, l) && Progress(s0, s, v, {})
    requires Shaped(s, l) && DefsAgree(s, l)
    ensures AllWaiting(s, l, {})
  {
    hide Waiting, DefsAgree, Kept;
    forall r | r in l && r.block !in s.sealed ensures Waiting(s, r) {
      if r in l0 {
        IncompleteOf(s0, r);
        WaitsOn(s0, s, r);
      } else {
        LabelHasDef(s, l, r);
      }
    }
    forall r | r in s.incomplete ensures Waiting(s, r) {
      if r in s0.incomplete {
        WaitsOn(s0, s, r);
      }
    }
  }

  lemma LabelHasDef(s: Builder, labels: map<Place, Value>, p: Place)
    requires Shaped(s, labels) && DefsAgree(s, labels) && p in labels
    ensures p in s.defs
  {
  }

  lemma WaitsOn(s: Builder, t: Builder, r: Place)
    requires Waiting(s, r) && (forall y :: y in s.phis ==> y in t.phis && t.phis[y] == s.phis[y])
    requires r in t.incomplete && r in s.incomplete ==> t.incomplete[r] == s.incomplete[r]
    requires r in s.incomplete ==> r in t.incomplete
    ensures Waiting(t, r)
  {
  }

  /** While b is being sealed: places[..i] have their operands. */
  ghost predicate Sealing(s: Builder, labels: map<Place, Value>, forward: map<Id, Value>, b: Block, places: seq<Place>, i: nat) {
    && i <= |places|
    && Consistent(s, labels, forward) && NewPhisDone(Nothing(), s) && AllWaiting(s, labels, {b})
    && (forall p :: p in labels && p.block == b ==> p in places)
    && (forall j :: i <= j < |places| ==> Waiting(s, places[j]))
    && (forall j, y :: 0 <= j < i && StandsAt(s, y, places[j]) && s.phis[y].live ==> s.phis[y].operands != map[])
  }

  lemma SealingStarts(s: Builder, labels: map<Place, Value>, forward: map<Id, Value>, b: Block, places: seq<Place>)
    requires Ready(s, labels, forward) && b !in s.sealed && forall p :: p in places <==> p in s.incomplete && p.block == b
    requires forall p :: p in s.incomplete && p.block == b ==> Waiting(s, p)
    ensures Sealing(s, labels, forward, b, places, 0)
  {
    hide Consistent;
    forall p | p in labels && p.block == b ensures p in places {
      assert Waiting(s, p);
    }
  }

  lemma MayGather(s: Builder, labels: map<Place, Value>, forward: map<Id, Value>, b: Block, places: seq<Place>, i: nat)
    requires Sealing(s, labels, forward, b, places, i) && i < |places|
    ensures Waiting(s, places[i]) && Gathering(Nothing(), map[], s, labels, forward, s.incomplete[places[i]], places[i], {})
  {
    hide Consistent, Merges;
    var x := s.incomplete[places[i]];
    assert Waiting(s, places[i]);
    EmptyKeys(s.phis[x].operands);
    assert Nothing().phis.Keys == {};
  }

  lemma SealingNext(s: Builder, l: map<Place, Value>, f: map<Id, Value>, t: Builder, l': map<Place, Value>, f': map<Id, Value>,
                    b: Block, places: seq<Place>, i: nat, x: Id, val: Value)
    requires Sealing(s, l, f, b, places, i) && i < |places| && b !in s.sealed && Grows(s, t) && NewLabels(s, l, l')
    requires StandsAt(s, x, places[i]) && s.phis[x].live && Gathered(Nothing(), map[], s, t, l', f', x, places[i], val)
    requires forall j :: 0 <= j < |places| ==> places[j] in s.defs && places[j].block == b
    requires forall j, k :: 0 <= j < k < |places| ==> places[j] != places[k]
    ensures Sealing(t, l', f', b, places, i + 1)
  {
    hide Consistent, NewPhisDone, Extends, DefsAgree, Shaped, Waiting, AllWaiting, Progress, NewLabels, Grows, NothingRemoved, PhisAgree, Forwards, StandsAt, Follow;
    var p := places[i];
    ConsistentParts(t, l', f');
    OnePhi(s, l, f, p, x);
    OthersWait(s, l, t, l', b, x, p);
    NoNewLabel(s, l, t, l', b, p, x);
    forall j | i + 1 <= j < |places| ensures Waiting(t, places[j]) {
      WaitsOnBeside(s, t, places[j], x, p);
    }
    StillFinished(s, t, places, i, x);
  }

  lemma StillFinished(s: Builder, t: Builder, places: seq<Place>, i: nat, x: Id)
    requires i < |places| && Progress(s, t, places[i].variable, {x}) && StandsAt(s, x, places[i])
    requires x in t.phis && t.phis[x].live ==> t.phis[x].operands != map[]
    requires forall j :: 0 <= j < |places| ==> places[j] in s.defs
    requires forall j, k :: 0 <= j < k < |places| ==> places[j] != places[k]
    requires forall j, y :: 0 <= j < i && StandsAt(s, y, places[j]) && s.phis[y].live ==> s.phis[y].operands != map[]
    requires forall y :: StandsAt(s, y, places[i]) && s.phis[y].live ==> y == x
    ensures forall j, y :: 0 <= j < i + 1 && StandsAt(t, y, places[j]) && t.phis[y].live ==> t.phis[y].operands != map[]
  {
    hide Progress;
    forall j, y | 0 <= j < i + 1 && StandsAt(t, y, places[j]) && t.phis[y].live ensures t.phis[y].operands != map[] {
      if y != x {
        OlderStands(s, t, places[i], y, x, places[j]);
      }
    }
  }

  /** A place has at most one live phi. */
  lemma OnePhi(s: Builder, labels: map<Place, Value>, forward: map<Id, Value>, p: Place, x: Id)
    requires Consistent(s, labels, forward) && StandsAt(s, x, p) && s.phis[x].live
    ensures forall y :: StandsAt(s, y, p) && s.phis[y].live ==> y == x
  {
    assert PhiAgrees(s, labels, x);
    forall y | StandsAt(s, y, p) && s.phis[y].live ensures y == x {
      assert PhiAgrees(s, labels, y);
    }
  }

  lemma WaitsOnBeside(s: Builder, t: Builder, r: Place, x: Id, p: Place)
    requires Waiting(s, r) && Progress(s, t, p.variable, {x}) && StandsAt(s, x, p) && r != p
    ensures Waiting(t, r)
  {
    StillWaiting(s, t, r, x);
  }

  lemma OthersWait(s: Builder, l: map<Place, Value>, t: Builder, l': map<Place, Value>, b: Block, x: Id, p: Place)
    requires AllWaiting(s, l, {b}) && Progress(s, t, p.variable, {x}) && StandsAt(s, x, p) && p.block == b
    requires Grows(s, t) && NewLabels(s, l, l') && Shaped(t, l') && DefsAgree(t, l')
    ensures AllWaiting(t, l', {b})
  {
    hide Waiting, Kept, DefsAgree;
    forall r | r in l' && r.block !in t.sealed && r.block != b ensures Waiting(t, r) {
      if r in l {
        WaitsOnBeside(s, t, r, x, p);
      } else {
        LabelHasDef(t, l', r);
      }
    }
    forall r | r in t.incomplete && r.block != b ensures Waiting(t, r) {
      if r in s.incomplete {
        WaitsOnBeside(s, t, r, x, p);
      }
    }
  }

  lemma NoNewLabel(s: Builder, l: map<Place, Value>, t: Builder, l': map<Place, Value>, b: Block, p: Place, x: Id)
    requires Progress(s, t, p.variable, {x}) && NewLabels(s, l, l') && Grows(s, t) && p.block == b && p in s.defs && b !in s.sealed
    requires Shaped(t, l') && DefsAgree(t, l')
    ensures forall r :: r in l' && r.block == b ==> r in l
  {
    forall r | r in l' && r.block == b ensures r in l {
      LabelHasDef(t, l', r);
      assert r in s.defs ==> r in l;
      assert r !in s.defs ==> r.variable == p.variable;
      assert r == Place(b, r.variable) && p == Place(b, p.variable);
    }
  }

  lemma OlderStands(s: Builder, t: Builder, p: Place, y: Id, x: Id, r: Place)
    requires StandsAt(t, y, r) && r in s.defs && t.phis[y].live && Progress(s, t, p.variable, {x}) && y != x
    ensures StandsAt(s, y, r) && s.phis[y].live && (s.phis[y].operands != map[] ==> t.phis[y].operands != map[])
  {
    assert y in s.phis;
    assert t.phis[y].operands.Keys == s.phis[y].operands.Keys;
    EmptyKeys(t.phis[y].operands);
    EmptyKeys(s.phis[y].operands);
  }

  function Sealed(s: Builder, b: Block): Builder {
    s.(sealed := s.sealed + {b}, incomplete := map p | p in s.incomplete && p.block != b :: s.incomplete[p])
  }

  lemma SealingEnds(s: Builder, labels: map<Place, Value>, forward: map<Id, Value>, b: Block, places: seq<Place>)
    requires Sealing(s, labels, forward, b, places, |places|)
    ensures Ready(Sealed(s, b), labels, forward)
  {
    hide Consistent, NewPhisDone, Waiting, PhisAgree;
    SealedConsistent(s, labels, forward, b);
    ConsistentParts(s, labels, forward);
    SealedDone(s, labels, b, places);
    forall p | p in labels && p.block !in Sealed(s, b).sealed ensures Waiting(Sealed(s, b), p) {
      assert Waiting(s, p);
      SealedWaits(s, b, p);
    }
    forall p | p in Sealed(s, b).incomplete ensures Waiting(Sealed(s, b), p) {
      SealedWaits(s, b, p);
    }
  }

  lemma SealedWaits(s: Builder, b: Block, p: Place)
    requires Waiting(s, p) && p.block != b
    ensures Waiting(Sealed(s, b), p)
  {
  }

  lemma SealedDone(s: Builder, labels: map<Place, Value>, b: Block, places: seq<Place>)
    requires NewPhisDone(Nothing(), s) && PhisAgree(s, labels) && forall p :: p in labels && p.block == b ==> p in places
    requires forall j, y :: 0 <= j < |places| && StandsAt(s, y, places[j]) && s.phis[y].live ==> s.phis[y].operands != map[]
    ensures NewPhisDone(Nothing(), Sealed(s, b))
  {
    hide Merges;
    forall y | y in s.phis && s.phis[y].live && s.phis[y].operands == map[] ensures s.phis[y].block !in Sealed(s, b).sealed {
      assert PhiAgrees(s, labels, y);
      assert StandsAt(s, y, Place(s.phis[y].block, s.phis[y].variable));
    }
  }

  lemma SealedConsistent(s: Builder, labels: map<Place, Value>, forward: map<Id, Value>, b: Block)
    requires Consistent(s, labels, forward)
    ensures Consistent(Sealed(s, b), labels, forward)
  {
    var u := s.(sealed := s.sealed + {b});
    SealedOnly(s, labels, forward, b);
    IncompletePhi(u, labels, forward, map p | p in s.incomplete && p.block != b :: s.incomplete[p]);
  }

  lemma SealedOnly(s: Builder, labels: map<Place, Value>, forward: map<Id, Value>, b: Block)
    requires Consistent(s, labels, forward)
    ensures Consistent(s.(sealed := s.sealed + {b}), labels, forward)
  {
    var t := s.(sealed := s.sealed + {b});
    assert forall v :: Sane(s, v) <==> Sane(t, v);
    forall x | x in s.phis && s.phis[x].live ensures PhiAgrees(t, labels, x) {
      assert PhiAgrees(s, labels, x);
    }
    assert forall p :: p in labels ==> (OwnPhi(t, labels, p) <==> OwnPhi(s, labels, p));
  }

  // ----- what the program does in the block under construction -----

  function Appended(s: Builder, b: Block, e: Event): Builder
    requires b in s.code
  {
    s.(code := s.code[b := s.code[b] + [e]],
       defs := if e.Assign? then s.defs[Place(b, e.variable) := e.value] else s.defs,
       next := if e.Compute? then s.next + 1 else s.next)
  }

  /** No block has b as a predecessor yet. */
  ghost predicate Frontier(s: Builder, b: Block) {
    b in s.preds && b in s.code && forall c :: c in s.preds ==> b !in s.preds[c]
  }

  ghost predicate Acceptable(s: Builder, b: Block, e: Event)
    requires b in s.code
  {
    match e
    case Compute(x) => x == Id(s.next)
    case Use(v, a) => Place(b, v) in s.defs && s.defs[Place(b, v)] == a
    case Assign(_, a) => Sane(s, a) && Obtained(s.code[b], |s.code[b]|, a)
  }

  lemma AppendWrites(code: seq<Event>, e: Event, v: Variable)
    ensures Writes(code + [e], v) <==> Writes(code, v) || (e.Assign? && e.variable == v)
    ensures Writes(code + [e], v) ==> LastWrite(code + [e], v) == if e.Assign? && e.variable == v then e.value else LastWrite(code, v)
  {
    var c := code + [e];
    if Writes(code, v) {
      var i :| 0 <= i < |code| && code[i].Assign? && code[i].variable == v;
      assert c[i] == code[i];
    }
    if e.Assign? && e.variable == v {
      assert c[|code|] == e;
    }
    assert c[..|code|] == code;
  }

  lemma AppendDefs(s: Builder, labels: map<Place, Value>, b: Block, e: Event)
    requires DefsAgree(s, labels) && b in s.code && b in s.preds
    ensures DefsAgree(Appended(s, b, e), labels)
  {
    hide Writes, LastWrite;
    forall p: Place | p.block == b {
      AppendWrites(s.code[b], e, p.variable);
    }
  }

  lemma AppendUses(s: Builder, labels: map<Place, Value>, b: Block, e: Event)
    requires UsesAgree(s, labels) && DefsAgree(s, labels) && b in s.code && b in s.preds && Acceptable(s, b, e)
    requires forall c, i :: c in s.code && 0 <= i < |s.code[c]| && s.code[c][i].Compute? ==> s.code[c][i].id != Id(s.next)
    ensures UsesAgree(Appended(s, b, e), labels)
  {
    hide Known, Current, UniqueIds, Sane;
    var t, n := Appended(s, b, e), |s.code[b]|;
    forall c, i | c in t.code && 0 <= i < |t.code[c]| && t.code[c][i].Use? ensures UseAgrees(t.code[c], labels, c, i) {
      if c == b {
        assert t.code[b][..i] == s.code[b][..i];
      }
      if c == b && i == n {
        assert s.code[b][..n] == s.code[b];
      } else {
        assert UseAgrees(s.code[c], labels, c, i);
      }
    }
    forall c, i | c in t.code && 0 <= i < |t.code[c]| && t.code[c][i].Assign? ensures Obtained(t.code[c], i, t.code[c][i].value) {
      assert !(c == b && i == n) ==> Obtained(s.code[c], i, s.code[c][i].value);
      if c == b {
        AppendObtained(s.code[b], e, i, t.code[b][i].value);
      }
    }
    AppendUnique(s, b, e);
  }

  lemma AppendObtained(code: seq<Event>, e: Event, i: nat, a: Value)
    requires i <= |code| && Obtained(code, i, a)
    ensures Obtained(code + [e], i, a)
  {
    if a.Result? {
      var k :| 0 <= k < i && !code[k].Assign? && ValueOf(code[k]) == a;
      assert (code + [e])[k] == code[k];
    }
  }

  lemma AppendUnique(s: Builder, b: Block, e: Event)
    requires UniqueIds(s.code) && b in s.code
    requires e.Compute? ==> forall c, i :: c in s.code && 0 <= i < |s.code[c]| && s.code[c][i].Compute? ==> s.code[c][i].id != e.id
    ensures UniqueIds(Appended(s, b, e).code)
  {
  }

  lemma AppendSane(s: Builder, labels: map<Place, Value>, b: Block, e: Event)
    requires NothingRemoved(s, labels) && b in s.code && Acceptable(s, b, e)
    ensures NothingRemoved(Appended(s, b, e), labels)
  {
    hide IsRemoved, IsBounded, Obtained;
    var t := Appended(s, b, e);
    forall v | Sane(s, v) ensures Sane(t, v) {
      SaneSame(s, t, v);
    }
    if e.Compute? {
      ComputeSane(s, b, e);
    }
    forall c, i | c in t.code && 0 <= i < |t.code[c]| ensures Sane(t, ValueOf(t.code[c][i])) {
      assert !(c == b && i == |s.code[b]|) ==> Sane(s, ValueOf(s.code[c][i]));
    }
  }

  lemma ComputeSane(s: Builder, b: Block, e: Event)
    requires b in s.code && e == Compute(Id(s.next)) && forall x :: x in s.phis ==> x.serial < s.next
    ensures Sane(Appended(s, b, e), ValueOf(e)) && e.id !in s.phis
  {
  }

  lemma AppendPhis(s: Builder, labels: map<Place, Value>, b: Block, e: Event)
    requires PhisAgree(s, labels) && PlainAgree(s, labels) && Frontier(s, b)
    ensures PhisAgree(Appended(s, b, e), labels) && PlainAgree(Appended(s, b, e), labels)
  {
    var t := Appended(s, b, e);
    forall y | y in t.phis && t.phis[y].live ensures PhiAgrees(t, labels, y) {
      assert PhiAgrees(s, labels, y);
    }
    assert forall p :: p in labels ==> (OwnPhi(t, labels, p) <==> OwnPhi(s, labels, p));
  }

  lemma AppendForwards(s: Builder, forward: map<Id, Value>, b: Block, e: Event)
    requires Forwards(s, forward) && b in s.code
    ensures Forwards(Appended(s, b, e), forward)
  {
    hide Merges;
    forall x | x in forward ensures Sane(Appended(s, b, e), forward[x]) {
      SaneSame(s, Appended(s, b, e), forward[x]);
    }
  }

  /** Computing, using and assigning in a block nobody has as a predecessor keep the invariant. */
  lemma AppendKeeps(s: Builder, labels: map<Place, Value>, forward: map<Id, Value>, b: Block, e: Event)
    requires Ready(s, labels, forward) && Frontier(s, b) && Acceptable(s, b, e)
    ensures Ready(Appended(s, b, e), labels, forward)
  {
    hide DefsAgree, UsesAgree, NothingRemoved, PhisAgree, PlainAgree, Forwards, Acceptable, Merges;
    PhiFresh(s, labels);
    AppendDefs(s, labels, b, e);
    AppendUses(s, labels, b, e);
    AppendSane(s, labels, b, e);
    AppendPhis(s, labels, b, e);
    AppendForwards(s, forward, b, e);
    AppendRest(s, labels, b, e);
  }

  lemma AppendRest(s: Builder, labels: map<Place, Value>, b: Block, e: Event)
    requires Shaped(s, labels) && NewPhisDone(Nothing(), s) && AllWaiting(s, labels, {}) && b in s.code && b in s.preds
    ensures Shaped(Appended(s, b, e), labels) && NewPhisDone(Nothing(), Appended(s, b, e)) && AllWaiting(Appended(s, b, e), labels, {})
  {
    hide Merges;
    var t := Appended(s, b, e);
    forall p | p in labels && p.block !in t.sealed ensures Waiting(t, p) {
      assert Waiting(s, p);
    }
    forall p | p in t.incomplete ensures Waiting(t, p) {
      assert Waiting(s, p);
    }
  }

  // ----- growing the graph -----

  function WithEdge(s: Builder, q: Block, b: Block): Builder
    requires b in s.preds
  {
    s.(preds := s.preds[b := s.preds[b] + {q}])
  }

  /** A block may get a predecessor while it is unsealed, or while nothing was read in it. */
  ghost predicate MayGetPredecessor(s: Builder, labels: map<Place, Value>, b: Block) {
    b in s.preds && (b !in s.sealed || forall p :: p in labels ==> p.block != b)
  }

  lemma EdgeDone(s: Builder, labels: map<Place, Value>, q: Block, b: Block)
    requires NewPhisDone(Nothing(), s) && PhisAgree(s, labels) && MayGetPredecessor(s, labels, b) && AllWaiting(s, labels, {})
    ensures NewPhisDone(Nothing(), WithEdge(s, q, b))
  {
    hide Merges;
    var t := WithEdge(s, q, b);
    forall y | y in t.phis && t.phis[y].live && t.phis[y].operands != map[] ensures Complete(t, y) {
      assert Complete(s, y);
      assert PhiAgrees(s, labels, y);
      if t.phis[y].block == b {
        AtUnsealed(s, labels, y);
      }
    }
  }

  lemma AtUnsealed(s: Builder, labels: map<Place, Value>, y: Id)
    requires PhisAgree(s, labels) && AllWaiting(s, labels, {}) && y in s.phis && s.phis[y].live && s.phis[y].block !in s.sealed
    ensures s.phis[y].operands == map[]
  {
    assert PhiAgrees(s, labels, y);
    var p := Place(s.phis[y].block, s.phis[y].variable);
    assert Waiting(s, p);
    assert PhiAgrees(s, labels, s.incomplete[p]);
  }

  lemma UnsealedOwn(s: Builder, labels: map<Place, Value>, p: Place)
    requires PhisAgree(s, labels) && AllWaiting(s, labels, {}) && p in labels && p.block !in s.sealed
    ensures OwnPhi(s, labels, p)
  {
    assert Waiting(s, p);
    assert PhiAgrees(s, labels, s.incomplete[p]);
  }

  lemma EdgePlain(s: Builder, labels: map<Place, Value>, q: Block, b: Block)
    requires PlainAgree(s, labels) && PhisAgree(s, labels) && MayGetPredecessor(s, labels, b) && AllWaiting(s, labels, {})
    ensures PlainAgree(WithEdge(s, q, b), labels)
  {
    hide PhisAgree, AllWaiting;
    forall p | p in labels && p.block !in s.sealed ensures OwnPhi(s, labels, p) {
      UnsealedOwn(s, labels, p);
    }
    assert forall p :: p in labels ==> (OwnPhi(WithEdge(s, q, b), labels, p) <==> OwnPhi(s, labels, p));
  }

  lemma EdgeKeeps(s: Builder, labels: map<Place, Value>, forward: map<Id, Value>, q: Block, b: Block)
    requires Ready(s, labels, forward) && MayGetPredecessor(s, labels, b) && q in s.preds
    ensures Ready(WithEdge(s, q, b), labels, forward)
  {
    hide DefsAgree, UsesAgree, NothingRemoved, PhisAgree, PlainAgree, Forwards, Merges, NewPhisDone, AllWaiting;
    EdgeDone(s, labels, q, b);
    EdgePlain(s, labels, q, b);
    SameCode(s, WithEdge(s, q, b), labels);
    EdgeRest(s, labels, forward, q, b);
  }

  lemma EdgeRest(s: Builder, labels: map<Place, Value>, forward: map<Id, Value>, q: Block, b: Block)
    requires DefsAgree(s, labels) && NothingRemoved(s, labels) && PhisAgree(s, labels) && Forwards(s, forward) && AllWaiting(s, labels, {}) && b in s.preds
    requires q in s.preds && Shaped(s, labels)
    ensures var t := WithEdge(s, q, b);
            && DefsAgree(t, labels) && NothingRemoved(t, labels) && PhisAgree(t, labels) && Forwards(t, forward) && AllWaiting(t, labels, {})
            && Shaped(t, labels)
  {
    hide DefsAgree, NothingRemoved, PhisAgree, Forwards, AllWaiting;
    EdgeDefs(s, labels, q, b);
    EdgeSane(s, labels, q, b);
    EdgePhis(s, labels, q, b);
    EdgeForwards(s, forward, q, b);
    EdgeWaiting(s, labels, q, b);
  }

  lemma EdgeDefs(s: Builder, labels: map<Place, Value>, q: Block, b: Block)
    requires DefsAgree(s, labels) && b in s.preds
    ensures DefsAgree(WithEdge(s, q, b), labels)
  {
    hide Known, Current;
  }

  lemma EdgeSane(s: Builder, labels: map<Place, Value>, q: Block, b: Block)
    requires NothingRemoved(s, labels) && b in s.preds
    ensures NothingRemoved(WithEdge(s, q, b), labels)
  {
    hide IsRemoved, IsBounded;
    forall v | Sane(s, v) ensures Sane(WithEdge(s, q, b), v) {
      SaneSame(s, WithEdge(s, q, b), v);
    }
  }

  lemma EdgePhis(s: Builder, labels: map<Place, Value>, q: Block, b: Block)
    requires PhisAgree(s, labels) && b in s.preds
    ensures PhisAgree(WithEdge(s, q, b), labels)
  {
    var t := WithEdge(s, q, b);
    forall y | y in t.phis && t.phis[y].live ensures PhiAgrees(t, labels, y) {
      assert PhiAgrees(s, labels, y);
    }
  }

  lemma EdgeForwards(s: Builder, forward: map<Id, Value>, q: Block, b: Block)
    requires Forwards(s, forward) && b in s.preds
    ensures Forwards(WithEdge(s, q, b), forward)
  {
    hide Merges;
    forall x | x in forward ensures Sane(WithEdge(s, q, b), forward[x]) {
      SaneSame(s, WithEdge(s, q, b), forward[x]);
    }
  }

  lemma EdgeWaiting(s: Builder, labels: map<Place, Value>, q: Block, b: Block)
    requires AllWaiting(s, labels, {}) && b in s.preds
    ensures AllWaiting(WithEdge(s, q, b), labels, {})
  {
    var t := WithEdge(s, q, b);
    forall p | p in labels && p.block !in t.sealed ensures Waiting(t, p) {
      assert Waiting(s, p);
    }
    forall p | p in t.incomplete ensures Waiting(t, p) {
      assert Waiting(s, p);
    }
  }

  function WithBlock(s: Builder, b: Block, isSealed: bool): Builder {
    s.(preds := s.preds[b := {}], code := s.code[b := []], sealed := if isSealed then s.sealed + {b} else s.sealed - {b})
  }

  lemma BlockKeeps(s: Builder, labels: map<Place, Value>, forward: map<Id, Value>, b: Block, isSealed: bool)
    requires Ready(s, labels, forward) && b !in s.preds
    ensures Ready(WithBlock(s, b, isSealed), labels, forward)
  {
    hide UsesAgree, Merges, Known, Current, DefsAgree, Forwards, NothingRemoved, PlainAgree, NewPhisDone;
    var t := WithBlock(s, b, isSealed);
    forall y | y in t.phis && t.phis[y].live ensures PhiAgrees(t, labels, y) {
      assert PhiAgrees(s, labels, y);
    }
    forall p | p in labels && p.block !in t.sealed ensures Waiting(t, p) {
      assert Waiting(s, p);
    }
    forall p | p in t.incomplete ensures Waiting(t, p) {
      assert Waiting(s, p);
    }
    BlockDefs(s, labels, b, isSealed);
    BlockUses(s, labels, b, isSealed);
    BlockRest(s, labels, forward, b, isSealed);
  }

  lemma BlockDefs(s: Builder, labels: map<Place, Value>, b: Block, isSealed: bool)
    requires Shaped(s, labels) && DefsAgree(s, labels) && b !in s.preds
    ensures DefsAgree(WithBlock(s, b, isSealed), labels)
  {
  }

  lemma BlockUses(s: Builder, labels: map<Place, Value>, b: Block, isSealed: bool)
    requires UsesAgree(s, labels) && b !in s.code
    ensures UsesAgree(WithBlock(s, b, isSealed), labels)
  {
    hide Known, Current;
  }

  lemma BlockRest(s: Builder, labels: map<Place, Value>, forward: map<Id, Value>, b: Block, isSealed: bool)
    requires Shaped(s, labels) && NothingRemoved(s, labels) && PlainAgree(s, labels) && Forwards(s, forward) && NewPhisDone(Nothing(), s) && b !in s.preds
    ensures var t := WithBlock(s, b, isSealed); NothingRemoved(t, labels) && PlainAgree(t, labels) && Forwards(t, forward) && NewPhisDone(Nothing(), t)
  {
    hide NothingRemoved, PlainAgree, Forwards, NewPhisDone;
    BlockSane(s, labels, b, isSealed);
    BlockPlain(s, labels, b, isSealed);
    BlockForwards(s, forward, b, isSealed);
    BlockDone(s, labels, b, isSealed);
  }

  lemma BlockSane(s: Builder, labels: map<Place, Value>, b: Block, isSealed: bool)
    requires NothingRemoved(s, labels)
    ensures NothingRemoved(WithBlock(s, b, isSealed), labels)
  {
    hide IsRemoved, IsBounded;
    forall v | Sane(s, v) ensures Sane(WithBlock(s, b, isSealed), v) {
      SaneSame(s, WithBlock(s, b, isSealed), v);
    }
  }

  lemma BlockPlain(s: Builder, labels: map<Place, Value>, b: Block, isSealed: bool)
    requires Shaped(s, labels) && PlainAgree(s, labels) && b !in s.preds
    ensures PlainAgree(WithBlock(s, b, isSealed), labels)
  {
    assert forall p :: p in labels ==> (OwnPhi(WithBlock(s, b, isSealed), labels, p) <==> OwnPhi(s, labels, p));
  }

  lemma BlockForwards(s: Builder, forward: map<Id, Value>, b: Block, isSealed: bool)
    requires Forwards(s, forward)
    ensures Forwards(WithBlock(s, b, isSealed), forward)
  {
    hide Merges;
    forall x | x in forward ensures Sane(WithBlock(s, b, isSealed), forward[x]) {
      SaneSame(s, WithBlock(s, b, isSealed), forward[x]);
    }
  }

  lemma BlockDone(s: Builder, labels: map<Place, Value>, b: Block, isSealed: bool)
    requires Shaped(s, labels) && NewPhisDone(Nothing(), s) && b !in s.preds
    ensures NewPhisDone(Nothing(), WithBlock(s, b, isSealed))
  {
    hide Merges;
    forall y | y in s.phis && s.phis[y].live && s.phis[y].operands != map[] ensures Complete(WithBlock(s, b, isSealed), y) {
      assert Complete(s, y);
    }
  }

  // ----- when the value handed out is the right one -----

  /** The result of a cascade is the value standing for x exactly when it is not a removed phi. */
  lemma ResultIsRight(s0: Builder, labels0: map<Place, Value>, s: Builder, labels: map<Place, Value>, forward: map<Id, Value>,
                      before: map<Place, Value>, follow: map<Id, Value>, exempt: set<Id>, x: Id, r: Value)
    requires Between(s0, labels0, s, labels, forward, before, follow, exempt, x, r)
    ensures r == Follow(forward, Result(x)) <==> !IsRemoved(s, r)
  {
    hide UsesAgree, DefsAgree, PlainAgree, PhisAgree, Merges, Extends, Reduced, Moved;
    assert r.Result? && r.id in forward ==> Sane(s, forward[r.id]);
  }
}
