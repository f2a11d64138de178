/**
  Graph colouring for the global registers R4..R12: simplify, spill, select.  The
  working graph is a copy of the map only, so both graphs share the neighbour
  sets, and simplification shrinks the very sets that selection reads later.
 */
module RegisterColouring {
  import opened Ssa
  import Cfg

  const GLB_REG_CNT := 9
  const GLB_REG_START := 4

  /** The set object that the two graphs point to. */
  class NeighbourSet {
    var members: set<Value>

    constructor (s: set<Value>)
      ensures members == s
    {
      members := s;
    }
  }

  type Graph = map<Value, NeighbourSet>
  type Adjacency = map<Value, set<Value>>

  ghost predicate Simple(g: Adjacency) {
    forall v, u :: v in g && u in g[v] ==> u != v && u in g && v in g[u]
  }

  ghost predicate Injective(graph: Graph) {
    forall u, v :: u in graph && v in graph && graph[u] == graph[v] ==> u == v
  }

  ghost predicate Within(part: Graph, whole: Graph) {
    forall v :: v in part ==> v in whole && part[v] == whole[v]
  }

  /** What the sets hold now. */
  ghost function View(graph: Graph): Adjacency
    reads graph.Values
  {
    map v | v in graph :: graph[v].members
  }

  // ----- the simplification invariant, on values -----

  /** v is struck from the sets of its own neighbours; its own set stays. */
  function Struck(view: Adjacency, v: Value): Adjacency
    requires v in view
  {
    map u | u in view :: if u in view[v] then view[u] - {v} else view[u]
  }

  /** v vanishes from what is left, with its own set as it is. */
  ghost predicate Live(g: Adjacency, view: Adjacency, temp: set<Value>) {
    forall v :: v in temp ==> v in view && v in g && view[v] == g[v] * temp
  }

  /** A stacked value keeps every neighbour that was removed after it. */
  ghost predicate Stacked(g: Adjacency, view: Adjacency, temp: set<Value>, stack: seq<Value>) {
    && (forall i :: 0 <= i < |stack| ==> stack[i] in view && stack[i] in g && |view[stack[i]]| < GLB_REG_CNT)
    && (forall i, u :: 0 <= i < |stack| && u in temp && u in g[stack[i]] ==> u in view[stack[i]])
    && (forall i, j :: 0 <= i < j < |stack| && stack[j] in g[stack[i]] ==> stack[j] in view[stack[i]])
  }

  ghost predicate Split(g: Adjacency, temp: set<Value>, stack: seq<Value>, spilled: set<Value>) {
    && (forall v :: v in g <==> v in temp || v in stack || v in spilled)
    && (forall v :: v in temp ==> v !in stack && v !in spilled)
    && (forall v :: v in stack ==> v !in spilled)
    && (forall i, j :: 0 <= i < j < |stack| ==> stack[i] != stack[j])
  }

  ghost predicate Crowded(g: Adjacency, spilled: set<Value>) {
    forall v :: v in spilled ==> v in g && |g[v]| >= GLB_REG_CNT
  }

  ghost predicate Simplifying(g: Adjacency, view: Adjacency, temp: set<Value>, stack: seq<Value>, spilled: set<Value>) {
    && Simple(g)
    && Split(g, temp, stack, spilled)
    && (forall v :: v in view <==> v in g && v !in spilled)
    && Live(g, view, temp)
    && Stacked(g, view, temp, stack)
    && Crowded(g, spilled)
  }

  lemma AtStart(g: Adjacency)
    requires Simple(g)
    ensures Simplifying(g, g, g.Keys, [], {})
  {
    forall v | v in g ensures g[v] == g[v] * g.Keys {
    }
  }

  /** Removing v leaves every other live set exact and touches no stacked set. */
  lemma StruckLive(g: Adjacency, view: Adjacency, temp: set<Value>, v: Value)
    requires Simple(g) && Live(g, view, temp) && v in temp
    ensures Live(g, Struck(view, v), temp - {v})
    ensures forall u :: u in view && u !in temp - {v} ==> Struck(view, v)[u] == view[u]
  {
    forall u | u in temp - {v} ensures Struck(view, v)[u] == g[u] * (temp - {v}) {
      assert v in g[u] <==> u in g[v];
    }
  }

  lemma Simplify(g: Adjacency, view: Adjacency, temp: set<Value>, stack: seq<Value>, spilled: set<Value>, v: Value)
    requires Simplifying(g, view, temp, stack, spilled) && v in temp && |view[v]| < GLB_REG_CNT
    ensures Simplifying(g, Struck(view, v), temp - {v}, stack + [v], spilled)
  {
    StruckLive(g, view, temp, v);
    StackGrows(g, view, temp, stack, v);
  }

  lemma StackGrows(g: Adjacency, view: Adjacency, temp: set<Value>, stack: seq<Value>, v: Value)
    requires Stacked(g, view, temp, stack) && Live(g, view, temp) && v in temp && |view[v]| < GLB_REG_CNT
    requires forall u :: u in stack ==> u !in temp
    requires forall u :: u in view && u !in temp - {v} ==> Struck(view, v)[u] == view[u]
    ensures Stacked(g, Struck(view, v), temp - {v}, stack + [v])
  {
  }

  /** What striking the abandoned value a second time, and dropping it, leaves. */
  lemma Spill(g: Adjacency, view: Adjacency, temp: set<Value>, stack: seq<Value>, spilled: set<Value>, v: Value)
    requires Simplifying(g, view, temp, stack, spilled) && v in temp && |view[v]| >= GLB_REG_CNT
    ensures Struck(Struck(view, v), v) == Struck(view, v)
    ensures Simplifying(g, Struck(view, v) - {v}, temp - {v}, stack, spilled + {v})
  {
    StruckLive(g, view, temp, v);
    StruckTwice(view, v);
    Cardinality(view[v], g[v]);
  }

  lemma StruckTwice(view: Adjacency, v: Value)
    requires v in view && v !in view[v]
    ensures Struck(Struck(view, v), v) == Struck(view, v)
  {
    var once := Struck(view, v);
    assert once[v] == view[v];
    forall u | u in view ensures Struck(once, v)[u] == once[u] {
    }
  }

  lemma {:induction false} Cardinality<T>(s: set<T>, t: set<T>)
    requires s <= t
    ensures |s| <= |t|
  {
    if s != {} {
      var x :| x in s;
      Cardinality(s - {x}, t - {x});
    }
  }

  // ----- who is given up -----

  /** Nobody in t can be simplified away while the others of t are there. */
  ghost predicate Stuck(g: Adjacency, t: set<Value>) {
    forall u :: u in t ==> u in g && |g[u] * t| >= GLB_REG_CNT
  }

  /** t is what simplification leaves of the graph without the values gone: the largest stuck set. */
  ghost predicate IsCore(g: Adjacency, gone: set<Value>, t: set<Value>) {
    Stuck(g, t) && t !! gone && forall s :: Stuck(g, s) && s !! gone ==> s <= t
  }

  /** Weight first, then age: the order in which values are given up. */
  predicate NotAfter(weight: map<Value, nat>, age: Value -> nat, u: Value, v: Value)
    requires u in weight && v in weight
  {
    weight[u] < weight[v] || (weight[u] == weight[v] && age(u) <= age(v))
  }

  ghost predicate FirstOf(weight: map<Value, nat>, age: Value -> nat, v: Value, t: set<Value>) {
    v in t && v in weight && forall u :: u in t ==> u in weight && NotAfter(weight, age, v, u)
  }

  function Elements(q: seq<Value>): set<Value> {
    set v | v in q
  }

  /** v comes first in what simplification leaves of the graph without the values gone. */
  ghost predicate NextToGo(g: Adjacency, weight: map<Value, nat>, age: Value -> nat, gone: set<Value>, v: Value) {
    exists t :: IsCore(g, gone, t) && FirstOf(weight, age, v, t)
  }

  /** Each value is given up when its turn comes. */
  ghost predicate GivenUp(g: Adjacency, weight: map<Value, nat>, age: Value -> nat, order: seq<Value>) {
    forall i :: 0 <= i < |order| ==> NextToGo(g, weight, age, Elements(order[..i]), order[i])
  }

  /** Every stuck set without the values given up is still in the working graph. */
  ghost predicate Encloses(g: Adjacency, temp: set<Value>, gone: set<Value>) {
    forall s :: Stuck(g, s) && s !! gone ==> s <= temp
  }

  lemma AllEnclosed(g: Adjacency)
    ensures Encloses(g, g.Keys, {})
  {
  }

  lemma StillEnclosed(g: Adjacency, view: Adjacency, temp: set<Value>, gone: set<Value>, v: Value)
    requires Live(g, view, temp) && Encloses(g, temp, gone) && v in temp && |view[v]| < GLB_REG_CNT
    ensures Encloses(g, temp - {v}, gone)
  {
    assert view[v] == g[v] * temp;
    hide Live, Stuck;
    forall s | Stuck(g, s) && s !! gone ensures s <= temp - {v} {
      if v in s {
        InStuck(g, s, temp, v);
      }
    }
  }

  lemma InStuck(g: Adjacency, s: set<Value>, temp: set<Value>, v: Value)
    requires Stuck(g, s) && s <= temp && v in s && v in g
    ensures |g[v] * temp| >= GLB_REG_CNT
  {
    Cardinality(g[v] * s, g[v] * temp);
  }

  lemma LeftIsCore(g: Adjacency, view: Adjacency, temp: set<Value>, gone: set<Value>)
    requires Live(g, view, temp) && Encloses(g, temp, gone) && temp !! gone
    requires forall u :: u in temp ==> |view[u]| >= GLB_REG_CNT
    ensures IsCore(g, gone, temp)
  {
  }

  lemma GivenUpNext(g: Adjacency, weight: map<Value, nat>, age: Value -> nat, order: seq<Value>, v: Value)
    requires GivenUp(g, weight, age, order) && NextToGo(g, weight, age, Elements(order), v)
    ensures GivenUp(g, weight, age, order + [v])
  {
    hide NextToGo, Elements;
    var order' := order + [v];
    forall i | 0 <= i < |order'| ensures NextToGo(g, weight, age, Elements(order'[..i]), order'[i]) {
      if i < |order| {
        assert order'[..i] == order[..i];
      } else {
        assert order'[..i] == order;
      }
    }
  }

  lemma ElementsNext(order: seq<Value>, v: Value)
    ensures Elements(order + [v]) == Elements(order) + {v}
  {
  }

  lemma EnclosesRest(g: Adjacency, temp: set<Value>, gone: set<Value>, v: Value)
    requires Encloses(g, temp, gone)
    ensures Encloses(g, temp - {v}, gone + {v})
  {
    hide Stuck;
  }

  /** When the values left unallocated are taken away, no stuck set remains but the empty one. */
  lemma NothingStuck(g: Adjacency, gone: set<Value>)
    requires Encloses(g, {}, gone)
    ensures IsCore(g, gone, {})
  {
  }

  lemma CoreIsUnique(g: Adjacency, gone: set<Value>, s: set<Value>, t: set<Value>)
    requires IsCore(g, gone, s) && IsCore(g, gone, t)
    ensures s == t
  {
    hide Stuck;
  }

  /** Who goes next does not depend on the order of simplification, ages being different. */
  lemma OneNext(g: Adjacency, weight: map<Value, nat>, age: Value -> nat, gone: set<Value>, v: Value, w: Value)
    requires NextToGo(g, weight, age, gone, v) && NextToGo(g, weight, age, gone, w)
    requires v != w ==> age(v) != age(w)
    ensures v == w
  {
    hide IsCore;
    var s :| IsCore(g, gone, s) && FirstOf(weight, age, v, s);
    var t :| IsCore(g, gone, t) && FirstOf(weight, age, w, t);
    CoreIsUnique(g, gone, s, t);
  }

  lemma NoneNext(g: Adjacency, weight: map<Value, nat>, age: Value -> nat, gone: set<Value>, v: Value)
    requires IsCore(g, gone, {})
    ensures !NextToGo(g, weight, age, gone, v)
  {
    hide IsCore;
    if t :| IsCore(g, gone, t) && FirstOf(weight, age, v, t) {
      CoreIsUnique(g, gone, t, {});
    }
  }

  /** So the values given up are always the same. */
  lemma GivenUpIsUnique(g: Adjacency, weight: map<Value, nat>, age: Value -> nat, p: seq<Value>, q: seq<Value>)
    requires GivenUp(g, weight, age, p) && GivenUp(g, weight, age, q)
    requires IsCore(g, Elements(p), {}) && IsCore(g, Elements(q), {})
    requires forall u, v :: u != v ==> age(u) != age(v)
    ensures p == q
  {
    hide IsCore, NextToGo, Elements;
    var n: nat := 0;
    while n < |p| && n < |q|
      invariant n <= |p| && n <= |q| && p[..n] == q[..n]
    {
      OneNext(g, weight, age, Elements(p[..n]), p[n], q[n]);
      assert p[..n + 1] == p[..n] + [p[n]] && q[..n + 1] == q[..n] + [q[n]];
      n := n + 1;
    }
    assert p[..|p|] == p && q[..|q|] == q;
    if n < |p| {
      NoneNext(g, weight, age, Elements(q), p[n]);
    } else if n < |q| {
      NoneNext(g, weight, age, Elements(p), q[n]);
    }
  }

  /** Nothing is given up exactly when every set of values has one with fewer than nine neighbours in it. */
  lemma NoneGivenUpIff(g: Adjacency, weight: map<Value, nat>, age: Value -> nat, order: seq<Value>)
    requires GivenUp(g, weight, age, order) && IsCore(g, Elements(order), {})
    ensures order == [] <==> forall s :: Stuck(g, s) ==> s == {}
  {
    hide Stuck;
    if order == [] {
      assert Elements(order) == {};
      assert forall s :: Stuck(g, s) ==> s !! {};
    } else {
      assert NextToGo(g, weight, age, Elements(order[..0]), order[0]);
      var t :| IsCore(g, Elements(order[..0]), t) && FirstOf(weight, age, order[0], t);
      assert Stuck(g, t) && t != {};
    }
  }

  // ----- selection -----

  predicate IsRegister(r: nat) {
    GLB_REG_START <= r < GLB_REG_START + GLB_REG_CNT
  }

  /** Adjacent coloured values have different registers. */
  ghost predicate Proper(g: Adjacency, regs: map<Value, nat>) {
    && (forall v :: v in regs ==> v in g && IsRegister(regs[v]))
    && (forall u, v :: u in regs && v in regs && u in g[v] ==> regs[u] != regs[v])
  }

  /** Exactly the popped part of the stack is coloured. */
  ghost predicate Popped(stack: seq<Value>, n: nat, regs: map<Value, nat>) {
    n <= |stack| && forall v :: v in regs <==> v in stack[n..]
  }

  lemma ColourNext(g: Adjacency, view: Adjacency, stack: seq<Value>, spilled: set<Value>, n: nat, regs: map<Value, nat>, r: nat)
    requires Simplifying(g, view, {}, stack, spilled) && 0 < n && Popped(stack, n, regs) && Proper(g, regs)
    requires IsRegister(r) && forall u :: u in view[stack[n - 1]] && u in regs ==> regs[u] != r
    ensures Popped(stack, n - 1, regs[stack[n - 1] := r]) && Proper(g, regs[stack[n - 1] := r])
  {
    var v, regs' := stack[n - 1], regs[stack[n - 1] := r];
    forall u | u in regs && u in g[v] ensures regs[u] != r && u != v {
      var j :| n <= j < |stack| && stack[j] == u;
    }
    assert stack[n - 1..] == [v] + stack[n..];
    forall u, w | u in regs' && w in regs' && u in g[w] ensures regs'[u] != regs'[w] {
      assert w in g[u];
    }
  }

  /** Registers left after taking away those of the first k neighbours. */
  ghost predicate LeftOver(regs: map<Value, nat>, around: seq<Value>, k: nat, left: set<nat>) {
    && k <= |around| && |left| >= GLB_REG_CNT - k
    && (forall r :: r in left ==> IsRegister(r))
    && (forall i, r :: 0 <= i < k && around[i] in regs && r in left ==> regs[around[i]] != r)
  }

  lemma {:induction false} DistinctLength<T>(q: seq<T>, s: set<T>)
    requires forall x :: x in q ==> x in s
    requires forall i, j :: 0 <= i < j < |q| ==> q[i] != q[j]
    ensures |q| <= |s|
  {
    if q != [] {
      DistinctLength(q[1..], s - {q[0]});
    }
  }

  // ----- the allocator -----

  /** v is struck from the sets of its neighbours, which both graphs share. */
  method EraseFromNeighbours(graph: Graph, v: Value, ghost whole: Graph)
    requires v in graph && Within(graph, whole) && Injective(whole)
    requires forall u :: u in graph[v].members ==> u in graph && u != v
    modifies whole.Values
    ensures View(whole) == Struck(old(View(whole)), v)
  {
    var around := Cfg.Enumerate(graph[v].members);
    for i := 0 to |around|
      invariant forall u :: u in whole ==> whole[u].members == if u in around[..i] then old(whole[u].members) - {v} else old(whole[u].members)
    {
      var u := around[i];
      graph[u].members := graph[u].members - {v};
    }
  }

  /** The variables of one function, their conflict graph and what allocation decides. */
  class Allocator {
    var conflictGraph: Graph
    const variableWeight: map<Value, nat>
    var variableRegs: map<Value, nat>
    var variableWithoutReg: set<Value>

    constructor (graph: Graph, weights: map<Value, nat>)
      ensures conflictGraph == graph && variableWeight == weights && variableRegs == map[] && variableWithoutReg == {}
    {
      conflictGraph, variableWeight := graph, weights;
      variableRegs, variableWithoutReg := map[], {};
    }

    /** Some value with fewer neighbours than registers, if there is one. */
    method FindColourable(temp: Graph) returns (found: bool, v: Value)
      ensures found ==> v in temp && |temp[v].members| < GLB_REG_CNT
      ensures !found ==> forall u :: u in temp ==> |temp[u].members| >= GLB_REG_CNT
    {
      var vs := Cfg.Enumerate(temp.Keys);
      found, v := false, Undefined(0);
      for i := 0 to |vs|
        invariant forall j :: 0 <= j < i ==> |temp[vs[j]].members| >= GLB_REG_CNT
      {
        if |temp[vs[i]].members| < GLB_REG_CNT {
          return true, vs[i];
        }
      }
      forall u | u in temp ensures |temp[u].members| >= GLB_REG_CNT {
        assert u in vs;
      }
    }

    /** The value of least weight, the oldest among equals. */
    method PickAbandoned(temp: Graph, age: Value -> nat) returns (abandon: Value)
      requires temp != map[] && forall u :: u in temp ==> u in variableWeight
      ensures abandon in temp && forall u :: u in temp ==> NotAfter(variableWeight, age, abandon, u)
    {
      var vs := Cfg.Enumerate(temp.Keys);
      var w :| w in temp.Keys;
      assert w in vs;
      abandon := vs[0];
      for i := 0 to |vs|
        invariant abandon in temp
        invariant forall j :: 0 <= j < i ==> NotAfter(variableWeight, age, abandon, vs[j])
      {
        var v := vs[i];
        if variableWeight[v] < variableWeight[abandon] || (variableWeight[v] == variableWeight[abandon] && age(v) < age(abandon)) {
          abandon := v;
        }
      }
      forall u | u in temp ensures NotAfter(variableWeight, age, abandon, u) {
        assert u in vs;
      }
    }

    /** The goto loop: every value ends on the stack or among those without a register. */
    method SimplifyAndSpill(age: Value -> nat, ghost g: Adjacency) returns (stack: seq<Value>, ghost order: seq<Value>)
      requires Simple(g) && View(conflictGraph) == g && Injective(conflictGraph) && variableWithoutReg == {}
      requires forall v :: v in g ==> v in variableWeight
      modifies this`conflictGraph, this`variableWithoutReg, conflictGraph.Values
      ensures Simplifying(g, View(conflictGraph), {}, stack, variableWithoutReg) && Within(conflictGraph, old(conflictGraph))
      ensures GivenUp(g, variableWeight, age, order) && variableWithoutReg == Elements(order) && IsCore(g, Elements(order), {})
    {
      hide *;
      ghost var whole := conflictGraph;
      var conflict, temp, spilled: set<Value> := conflictGraph, conflictGraph, {};
      stack, order := [], [];
      NobodyYet(g, variableWeight, age);
      ViewKeys(conflict);
      AtStart(g);
      WithinItself(conflict);
      while temp != map[]
        invariant Within(temp, conflict) && Within(conflict, whole) && Injective(conflict)
        invariant Simplifying(g, View(conflict), temp.Keys, stack, spilled)
        invariant forall v :: v in temp ==> v in variableWeight
        invariant InTurn(g, variableWeight, age, order, temp.Keys, spilled)
        decreases |temp|
      {
        WithinValues(conflict, whole);
        var found, v := FindColourable(temp);
        if found {
          StillInTurn(g, variableWeight, age, order, conflict, temp, stack, spilled, v);
          RemoveColourable(temp, v, conflict, g, stack, spilled);
          stack := stack + [v];
        } else {
          v := PickAbandoned(temp, age);
          NextInTurn(g, variableWeight, age, order, conflict, temp, stack, spilled, v);
          order := order + [v];
          var rest := RemoveAbandoned(temp, v, conflict, g, stack, spilled);
          WithinTransitive(temp, rest, conflict, whole, v);
          conflict, spilled := rest, spilled + {v};
        }
        Shrinks(temp, v, conflict);
        temp := temp - {v};
      }
      AllInTurn(g, variableWeight, age, order, spilled);
      conflictGraph, variableWithoutReg := conflict, spilled;
    }

    /** Pops the stack: each value takes a register its coloured neighbours leave free. */
    method Select(stack: seq<Value>, ghost g: Adjacency)
      requires Simplifying(g, View(conflictGraph), {}, stack, variableWithoutReg) && variableRegs == map[]
      modifies this`variableRegs
      ensures Proper(g, variableRegs) && forall v :: v in variableRegs <==> v in stack
    {
      hide *;
      var n: nat := |stack|;
      NothingPopped(stack, g);
      while n > 0
        invariant Popped(stack, n, variableRegs) && Proper(g, variableRegs) && n <= |stack|
      {
        var v := stack[n - 1];
        AtTop(g, conflictGraph, stack, variableWithoutReg, n);
        var r := FreeRegister(conflictGraph[v].members, variableRegs);
        ColourNext(g, View(conflictGraph), stack, variableWithoutReg, n, variableRegs, r);
        variableRegs := variableRegs[v := r];
        n := n - 1;
      }
      AllPopped(stack, variableRegs);
    }

    /**
      The whole allocation, against the adjacency g the graph was built with: every
      value is decided, adjacent coloured values differ, and a value is left without a
      register only when simplification is stuck and no other value left is cheaper.
     */
    method AllocRegister(age: Value -> nat, ghost g: Adjacency)
      requires Simple(g) && View(conflictGraph) == g && Injective(conflictGraph)
      requires variableRegs == map[] && variableWithoutReg == {}
      requires forall v :: v in g ==> v in variableWeight
      modifies this`conflictGraph, this`variableWithoutReg, this`variableRegs, conflictGraph.Values
      ensures Proper(g, variableRegs)
      ensures forall v :: v in g <==> v in variableRegs || v in variableWithoutReg
      ensures forall v :: v in variableWithoutReg ==> v !in variableRegs && |g[v]| >= GLB_REG_CNT
      ensures exists order :: GivenUp(g, variableWeight, age, order) && variableWithoutReg == Elements(order) && IsCore(g, Elements(order), {})
      ensures variableWithoutReg == {} <==> forall s :: Stuck(g, s) ==> s == {}
    {
      hide *;
      ghost var order;
      var stack;
      stack, order := SimplifyAndSpill(age, g);
      NoneGivenUpIff(g, variableWeight, age, order);
      NoElements(order);
      Decided(g, View(conflictGraph), stack, variableWithoutReg);
      Select(stack, g);
    }
  }

  /** The values given up so far, and what is left. */
  ghost predicate InTurn(g: Adjacency, weight: map<Value, nat>, age: Value -> nat, order: seq<Value>, temp: set<Value>, spilled: set<Value>) {
    GivenUp(g, weight, age, order) && spilled == Elements(order) && Encloses(g, temp, spilled)
  }

  lemma NobodyYet(g: Adjacency, weight: map<Value, nat>, age: Value -> nat)
    ensures InTurn(g, weight, age, [], g.Keys, {})
  {
    AllEnclosed(g);
  }

  lemma StillInTurn(g: Adjacency, weight: map<Value, nat>, age: Value -> nat, order: seq<Value>,
                    conflict: Graph, temp: Graph, stack: seq<Value>, spilled: set<Value>, v: Value)
    requires Simplifying(g, View(conflict), temp.Keys, stack, spilled) && Within(temp, conflict)
    requires InTurn(g, weight, age, order, temp.Keys, spilled) && v in temp && |temp[v].members| < GLB_REG_CNT
    ensures InTurn(g, weight, age, order, temp.Keys - {v}, spilled)
  {
    SimplifyingParts(g, conflict, temp, stack, spilled);
    hide Simplifying, View, Live, Within, GivenUp, Encloses, Elements;
    StillEnclosed(g, View(conflict), temp.Keys, spilled, v);
  }

  lemma NextInTurn(g: Adjacency, weight: map<Value, nat>, age: Value -> nat, order: seq<Value>,
                   conflict: Graph, temp: Graph, stack: seq<Value>, spilled: set<Value>, v: Value)
    requires Simplifying(g, View(conflict), temp.Keys, stack, spilled) && Within(temp, conflict)
    requires InTurn(g, weight, age, order, temp.Keys, spilled) && forall u :: u in temp ==> |temp[u].members| >= GLB_REG_CNT
    requires v in temp && (forall u :: u in temp ==> u in weight) && forall u :: u in temp ==> NotAfter(weight, age, v, u)
    ensures InTurn(g, weight, age, order + [v], temp.Keys - {v}, spilled + {v})
  {
    SimplifyingParts(g, conflict, temp, stack, spilled);
    hide Simplifying, View, Live, Within, GivenUp, Encloses, Elements, NotAfter;
    LeftIsCore(g, View(conflict), temp.Keys, spilled);
    PickedFirst(temp, g, weight, age, spilled, v);
    GivenUpNext(g, weight, age, order, v);
    ElementsNext(order, v);
    EnclosesRest(g, temp.Keys, spilled, v);
  }

  lemma AllInTurn(g: Adjacency, weight: map<Value, nat>, age: Value -> nat, order: seq<Value>, spilled: set<Value>)
    requires InTurn(g, weight, age, order, {}, spilled)
    ensures GivenUp(g, weight, age, order) && spilled == Elements(order) && IsCore(g, Elements(order), {})
  {
    hide GivenUp, Elements, IsCore, Encloses;
    NothingStuck(g, spilled);
  }

  lemma NoElements(order: seq<Value>)
    ensures Elements(order) == {} <==> order == []
  {
    if order != [] {
      assert order[0] in Elements(order);
    }
  }

  lemma SimplifyingParts(g: Adjacency, conflict: Graph, temp: Graph, stack: seq<Value>, spilled: set<Value>)
    requires Simplifying(g, View(conflict), temp.Keys, stack, spilled) && Within(temp, conflict)
    ensures Live(g, View(conflict), temp.Keys) && temp.Keys !! spilled
    ensures forall u :: u in temp ==> u in View(conflict) && View(conflict)[u] == temp[u].members
  {
  }

  lemma PickedFirst(temp: Graph, g: Adjacency, weight: map<Value, nat>, age: Value -> nat, gone: set<Value>, v: Value)
    requires v in temp && (forall u :: u in temp ==> u in weight) && forall u :: u in temp ==> NotAfter(weight, age, v, u)
    requires IsCore(g, gone, temp.Keys)
    ensures NextToGo(g, weight, age, gone, v)
  {
    hide IsCore;
    assert FirstOf(weight, age, v, temp.Keys);
  }

  lemma Decided(g: Adjacency, view: Adjacency, stack: seq<Value>, spilled: set<Value>)
    requires Simplifying(g, view, {}, stack, spilled)
    ensures forall v :: v in g <==> v in stack || v in spilled
    ensures forall v :: v in spilled ==> v in g && v !in stack && |g[v]| >= GLB_REG_CNT
  {
  }

  lemma NothingPopped(stack: seq<Value>, g: Adjacency)
    ensures Popped(stack, |stack|, map[]) && Proper(g, map[])
  {
  }

  lemma AllPopped(stack: seq<Value>, regs: map<Value, nat>)
    requires Popped(stack, 0, regs)
    ensures forall v :: v in regs <==> v in stack
  {
    assert stack[0..] == stack;
  }

  lemma AtTop(g: Adjacency, conflict: Graph, stack: seq<Value>, spilled: set<Value>, n: nat)
    requires Simplifying(g, View(conflict), {}, stack, spilled) && 0 < n <= |stack|
    ensures var v := stack[n - 1]; v in conflict && v in View(conflict) && View(conflict)[v] == conflict[v].members && |conflict[v].members| < GLB_REG_CNT
  {
    assert stack[n - 1] in View(conflict);
  }

  /** A register no coloured neighbour holds: fewer than nine neighbours leave one. */
  method FreeRegister(neighbours: set<Value>, regs: map<Value, nat>) returns (r: nat)
    requires |neighbours| < GLB_REG_CNT
    ensures IsRegister(r) && forall u :: u in neighbours && u in regs ==> regs[u] != r
  {
    var left: set<nat> := {};
    for i := 0 to GLB_REG_CNT
      invariant |left| == i && forall r :: r in left <==> GLB_REG_START <= r < GLB_REG_START + i
    {
      left := left + {i + GLB_REG_START};
    }
    var around := Cfg.Enumerate(neighbours);
    DistinctLength(around, neighbours);
    for k := 0 to |around|
      invariant LeftOver(regs, around, k, left)
    {
      var u := around[k];
      if u in regs {
        left := left - {regs[u]};
      }
    }
    r :| r in left;
    forall u | u in neighbours && u in regs ensures regs[u] != r {
      assert u in around;
    }
  }

  method RemoveColourable(temp: Graph, v: Value, ghost conflict: Graph, ghost g: Adjacency, ghost stack: seq<Value>, ghost spilled: set<Value>)
    requires Within(temp, conflict) && Injective(conflict) && Simplifying(g, View(conflict), temp.Keys, stack, spilled)
    requires v in temp && |temp[v].members| < GLB_REG_CNT
    modifies conflict.Values
    ensures Simplifying(g, View(conflict), temp.Keys - {v}, stack + [v], spilled)
  {
    hide *;
    SharedSet(temp, conflict, v);
    LiveSet(g, View(conflict), temp.Keys, stack, spilled, v);
    Simplify(g, View(conflict), temp.Keys, stack, spilled, v);
    EraseFromNeighbours(temp, v, conflict);
  }

  method RemoveAbandoned(temp: Graph, v: Value, conflict: Graph, ghost g: Adjacency, ghost stack: seq<Value>, ghost spilled: set<Value>)
      returns (rest: Graph)
    requires Within(temp, conflict) && Injective(conflict) && Simplifying(g, View(conflict), temp.Keys, stack, spilled)
    requires v in temp && |temp[v].members| >= GLB_REG_CNT
    modifies conflict.Values
    ensures rest == conflict - {v} && Simplifying(g, View(rest), temp.Keys - {v}, stack, spilled + {v})
  {
    hide *;
    SharedSet(temp, conflict, v);
    WithinItself(conflict);
    LiveSet(g, View(conflict), temp.Keys, stack, spilled, v);
    Spill(g, View(conflict), temp.Keys, stack, spilled, v);
    OwnSetStays(View(conflict), v);
    EraseFromNeighbours(temp, v, conflict);
    SharedSet(conflict, conflict, v);
    InGraph(temp, conflict, v);
    EraseFromNeighbours(conflict, v, conflict);
    rest := conflict - {v};
    ViewWithout(conflict, v);
  }

  lemma WithinItself(graph: Graph)
    ensures Within(graph, graph)
  {
  }

  lemma WithinValues(part: Graph, whole: Graph)
    requires Within(part, whole)
    ensures part.Values <= whole.Values
  {
  }

  lemma WithinTransitive(temp: Graph, rest: Graph, conflict: Graph, whole: Graph, v: Value)
    requires Within(temp, conflict) && Within(conflict, whole) && Injective(conflict) && rest == conflict - {v}
    ensures Within(temp - {v}, rest) && Within(rest, whole) && Injective(rest)
  {
  }

  lemma SharedSet(part: Graph, whole: Graph, v: Value)
    requires Within(part, whole) && v in part
    ensures v in whole && part[v] == whole[v] && View(whole).Keys == whole.Keys && View(whole)[v] == whole[v].members
  {
  }

  lemma InGraph(temp: Graph, conflict: Graph, v: Value)
    requires Within(temp, conflict)
    ensures forall u :: u in temp ==> u in conflict
  {
  }

  lemma OwnSetStays(view: Adjacency, v: Value)
    requires v in view && v !in view[v]
    ensures Struck(view, v)[v] == view[v]
  {
  }

  lemma ViewWithout(graph: Graph, v: Value)
    ensures View(graph - {v}) == View(graph) - {v}
  {
  }

  lemma Shrinks(temp: Graph, v: Value, conflict: Graph)
    requires v in temp && (Within(temp, conflict) || Within(temp - {v}, conflict))
    ensures |temp - {v}| < |temp| && (temp - {v}).Keys == temp.Keys - {v} && Within(temp - {v}, conflict)
    ensures forall u :: u in temp - {v} ==> u in temp
  {
    assert (temp - {v}).Keys == temp.Keys - {v};
  }

  lemma ViewKeys(graph: Graph)
    ensures View(graph).Keys == graph.Keys && forall v :: v in graph ==> View(graph)[v] == graph[v].members
  {
  }

  lemma LiveSet(g: Adjacency, view: Adjacency, temp: set<Value>, stack: seq<Value>, spilled: set<Value>, v: Value)
    requires Simplifying(g, view, temp, stack, spilled) && v in temp
    ensures v in view && forall u :: u in view[v] ==> u in temp && u != v
  {
  }
}
