/**
  Register allocation from end to end: liveness, conflict graph, colouring.
 */
module RegisterAlloc {
  import opened Cfg
  import opened Ssa
  import opened ConflictGraph
  import opened RegisterColouring

  /** Values live before the same instruction never share a register. */
  ghost predicate NoSharing(u: Unit, regs: map<Value, nat>) {
    forall v, w, b, j :: v != w && LiveAt(u, v, b, j) && LiveAt(u, w, b, j) && v in regs && w in regs ==> regs[v] != regs[w]
  }

  /** The graph liveness alone determines. */
  ghost predicate IsInterference(u: Unit, g: Conflicts) {
    g.Keys == u.homes.Keys + u.moves.Keys && forall v, w :: HasEdge(g, v, w) <==> Interfere(u, v, w)
  }

  /** The values without a register are those given up in turn, and no more than needed. */
  ghost predicate LeftOut(g: Conflicts, weights: map<Value, nat>, age: Value -> nat, without: set<Value>) {
    exists order :: GivenUp(g, weights, age, order) && without == Elements(order) && IsCore(g, Elements(order), {})
  }

  lemma BuiltIsInterference(u: Unit, ab: AliveBlocks, ai: AliveIns, g: Conflicts)
    requires UnitOk(u) && HomesOk(u) && UsesOk(u) && AllMarked(u, ab, ai) && g.Keys == u.homes.Keys + u.moves.Keys
    requires forall v, w :: HasEdge(g, v, w) <==> Conflict(u, ab, ai, v, w)
    ensures IsInterference(u, g)
  {
    hide UnitOk, AllMarked, Conflict, Interfere, HasEdge;
    forall v, w ensures HasEdge(g, v, w) <==> Interfere(u, v, w) {
      ConflictIff(u, ab, ai, v, w);
    }
  }

  lemma GraphIsSimple(u: Unit, ab: AliveBlocks, ai: AliveIns, g: Conflicts)
    requires UnitOk(u) && HomesOk(u) && UsesOk(u) && AllMarked(u, ab, ai) && g.Keys == u.homes.Keys + u.moves.Keys
    requires forall v, w :: HasEdge(g, v, w) <==> Conflict(u, ab, ai, v, w)
    ensures Simple(g)
  {
    hide Conflict, UnitOk, AllMarked;
    MarkedKnown(u, ab, ai, g);
    forall v, w | v in g && w in g[v] ensures w != v && w in g && v in g[w] {
      assert HasEdge(g, v, w);
      ConflictSymmetric(u, ab, ai, v, w);
      ConflictKnown(u, ab, ai, g, v, w);
      assert HasEdge(g, w, v);
    }
  }

  lemma ConflictKnown(u: Unit, ab: AliveBlocks, ai: AliveIns, g: Conflicts, v: Value, w: Value)
    requires Conflict(u, ab, ai, v, w) && AllKnown(u, ab, ai, g)
    ensures v != w && v in g && w in g
  {
  }

  lemma ProperMeansNoSharing(u: Unit, ab: AliveBlocks, ai: AliveIns, g: Conflicts, regs: map<Value, nat>)
    requires UnitOk(u) && HomesOk(u) && UsesOk(u) && AllMarked(u, ab, ai) && Proper(g, regs)
    requires forall v, w :: HasEdge(g, v, w) <==> Conflict(u, ab, ai, v, w)
    ensures NoSharing(u, regs)
  {
    hide UnitOk, AllMarked, Conflict, LiveAt;
    forall v, w, b, j: nat | v != w && LiveAt(u, v, b, j) && LiveAt(u, w, b, j) && v in regs && w in regs ensures regs[v] != regs[w] {
      LiveValuesConflict(u, ab, ai, v, w, b, j);
      assert HasEdge(g, w, v);
    }
  }

  /** A parameter nobody uses may get any register at all, that of another parameter included. */
  lemma UnusedParameterMayShare(u: Unit, ab: AliveBlocks, ai: AliveIns, g: Conflicts, regs: map<Value, nat>, w: Value, r: nat)
    requires HomesOk(u) && UsesOk(u) && AllMarked(u, ab, ai) && g.Keys == u.homes.Keys + u.moves.Keys
    requires forall v, x :: HasEdge(g, v, x) <==> Conflict(u, ab, ai, v, x)
    requires Proper(g, regs) && w in u.homes && u.homes[w].start == 0 && u.users[w] == {} && IsRegister(r)
    ensures g[w] == {} && Proper(g, regs[w := r])
  {
    hide UnitOk, AllMarked, Conflict, HomesOk, UsesOk;
    assert w in g.Keys;
    forall v ensures v !in g[w] && (v in g ==> w !in g[v]) {
      UnusedParameterIsIsolated(u, ab, ai, v, w);
      assert !HasEdge(g, v, w) && !HasEdge(g, w, v);
    }
  }

  /** The values in done have their set objects, all different. */
  ghost predicate Holds(graph: map<Value, NeighbourSet>, g: Conflicts, done: set<Value>)
    reads graph.Values
  {
    graph.Keys == done && done <= g.Keys && Injective(graph) && forall v :: v in graph ==> graph[v].members == g[v]
  }

  lemma HoldsNext(graph: map<Value, NeighbourSet>, g: Conflicts, done: set<Value>, v: Value, s: NeighbourSet)
    requires Holds(graph, g, done) && v in g && v !in done && s !in graph.Values && s.members == g[v]
    ensures Holds(graph[v := s], g, done + {v}) && graph[v := s].Values == graph.Values + {s}
  {
    assert v !in graph.Keys;
    assert forall w :: w in graph ==> graph[w] in graph.Values;
    var next := graph[v := s];
    assert next[v] == s;
    forall o | o in graph.Values + {s} ensures o in next.Values {
      if o != s {
        var w :| w in graph && graph[w] == o;
        assert next[w] == o;
      }
    }
  }

  lemma HoldsAll(graph: map<Value, NeighbourSet>, g: Conflicts)
    requires Holds(graph, g, g.Keys)
    ensures View(graph) == g && Injective(graph)
  {
    assert forall v :: v in g ==> v in graph.Keys;
  }

  /** One set object for each vertex. */
  method MakeSets(g: Conflicts) returns (graph: map<Value, NeighbourSet>)
    ensures View(graph) == g && Injective(graph) && fresh(graph.Values)
  {
    hide Injective, View;
    graph := map[];
    var rest := g.Keys;
    ghost var done: set<Value> := {};
    HoldsNone(g);
    while rest != {}
      invariant Holds(graph, g, done) && fresh(graph.Values)
      invariant done + rest == g.Keys && done !! rest
      decreases rest
    {
      var v :| v in rest;
      assert v in g.Keys;
      var s := new NeighbourSet(g[v]);
      HoldsNext(graph, g, done, v, s);
      graph := graph[v := s];
      done, rest := done + {v}, rest - {v};
    }
    HoldsAll(graph, g);
  }

  lemma HoldsNone(g: Conflicts)
    ensures Holds(map[], g, {})
  {
  }

  /**
    Every variable is either in a register R4..R12 or left without one; whatever is
    live together is kept apart; and what is left out, in the graph that liveness
    determines, goes cheapest first and only when no value left has fewer than nine neighbours.
   */
  method RegisterAlloc(u: Unit, weights: map<Value, nat>, age: Value -> nat) returns (regs: map<Value, nat>, without: set<Value>)
    requires UnitOk(u) && forall v :: v in u.homes || v in u.moves ==> v in weights
    ensures NoSharing(u, regs) && forall v :: v in regs ==> IsRegister(regs[v])
    ensures forall v :: v in u.homes || v in u.moves <==> v in regs || v in without
    ensures forall v :: v in without ==> v !in regs
    ensures exists g :: IsInterference(u, g) && Proper(g, regs) && LeftOut(g, weights, age, without)
                        && (without == {} <==> forall s :: Stuck(g, s) ==> s == {})
  {
    hide *;
    UnitParts(u);
    var builder := new ConflictBuilder();
    builder.BuildAlive(u);
    builder.ConnectAll(u);
    var g := builder.conflictGraph;
    ghost var ab, ai := builder.aliveBlocks, builder.aliveIns;
    GraphIsSimple(u, ab, ai, g);
    assert forall v :: v in g.Keys <==> v in u.homes || v in u.moves;
    KeysSame(g, g);
    var graph := MakeSets(g);
    var allocator := new Allocator(graph, weights);
    allocator.AllocRegister(age, g);
    regs, without := allocator.variableRegs, allocator.variableWithoutReg;
    BuiltIsInterference(u, ab, ai, g);
    IsLeftOut(g, weights, age, without);
    ProperRegisters(g, regs);
    ProperMeansNoSharing(u, ab, ai, g, regs);
  }

  lemma IsLeftOut(g: Conflicts, weights: map<Value, nat>, age: Value -> nat, without: set<Value>)
    requires exists order :: GivenUp(g, weights, age, order) && without == Elements(order) && IsCore(g, Elements(order), {})
    ensures LeftOut(g, weights, age, without)
  {
  }

  lemma UnitParts(u: Unit)
    requires UnitOk(u)
    ensures HomesOk(u) && UsesOk(u)
  {
  }

  lemma ProperRegisters(g: Conflicts, regs: map<Value, nat>)
    requires Proper(g, regs)
    ensures forall v :: v in regs ==> IsRegister(regs[v])
  {
  }
}
