/**
  Programs in SSA form over a control-flow graph, and what they compute.  Pure
  instructions are given by a function of their operands; loads, stores and calls
  by a function that also threads an abstract world (memory and input/output).
  Operators are total.
 */
module Ssa {
  import opened Cfg

  datatype Id = Id(serial: nat)
  type World = seq<int>

  datatype Value =
    | Number(number: int)
    | Parameter(name: nat)
    | Global(name: nat)
    | Undefined(tag: nat)
    | Result(id: Id)

  datatype Kind = UNARY | BINARY | CMP | ALLOC | LOAD | STORE | INVOKE

  /** op is the operator of a UNARY, BINARY or CMP, and the target of the others. */
  datatype Ins = Ins(id: Id, kind: Kind, op: string, args: seq<Value>)

  datatype Term = Jump(target: Block) | Branch(cond: Value, trueBlock: Block, falseBlock: Block) | Return(value: Value)

  /** phis[b][x][p] is the operand of phi x of block b for predecessor p. */
  datatype Program = Program(g: Graph,
                             phis: map<Block, map<Id, map<Block, Value>>>,
                             code: map<Block, seq<Ins>>,
                             term: map<Block, Term>)

  function PhisOf(p: Program, b: Block): map<Id, map<Block, Value>> {
    if b in p.phis then p.phis[b] else map[]
  }

  function CodeOf(p: Program, b: Block): seq<Ins> {
    if b in p.code then p.code[b] else []
  }

  function TermOf(p: Program, b: Block): Term {
    if b in p.term then p.term[b] else Return(Number(0))
  }

  // ----- execution -----

  /** Meaning of operators, of effects, and of the values fixed during a run. */
  datatype Sem = Sem(pure: (string, seq<int>) -> int,
                     effect: (Kind, string, seq<int>, World) -> (int, World),
                     fixed: Value -> int)

  type Env = map<Id, int>

  datatype State = State(env: Env, world: World)

  function Get(env: Env, x: Id): int {
    if x in env then env[x] else 0
  }

  function Read(sem: Sem, env: Env, v: Value): int {
    match v
    case Number(n) => n
    case Result(x) => Get(env, x)
    case _ => sem.fixed(v)
  }

  function ReadAll(sem: Sem, env: Env, vs: seq<Value>): (r: seq<int>)
    ensures |r| == |vs|
    ensures forall i :: 0 <= i < |vs| ==> r[i] == Read(sem, env, vs[i])
  {
    seq(|vs|, i requires 0 <= i < |vs| => Read(sem, env, vs[i]))
  }

  predicate IsPure(i: Ins) {
    i.kind.UNARY? || i.kind.BINARY? || i.kind.CMP?
  }

  function PureValue(sem: Sem, env: Env, i: Ins): int {
    sem.pure(i.op, ReadAll(sem, env, i.args))
  }

  function Execute(sem: Sem, i: Ins, st: State): State {
    if IsPure(i) then
      st.(env := st.env[i.id := PureValue(sem, st.env, i)])
    else
      var (v, w) := sem.effect(i.kind, i.op, ReadAll(sem, st.env, i.args), st.world);
      State(st.env[i.id := v], w)
  }

  function RunCode(sem: Sem, code: seq<Ins>, st: State): State {
    if code == [] then st else RunCode(sem, code[1..], Execute(sem, code[0], st))
  }

  lemma {:induction false} RunCodeSnoc(sem: Sem, code: seq<Ins>, last: Ins, st: State)
    ensures RunCode(sem, code + [last], st) == Execute(sem, last, RunCode(sem, code, st))
  {
    if code == [] {
      assert code + [last] == [last];
    } else {
      assert (code + [last])[1..] == code[1..] + [last];
      RunCodeSnoc(sem, code[1..], last, Execute(sem, code[0], st));
    }
  }

  function PhiOperand(operands: map<Block, Value>, from: Block): Value {
    if from in operands then operands[from] else Number(0)
  }

  /** All phis of a block read their operands before any of them is written. */
  function EnterBlock(p: Program, sem: Sem, from: Block, to: Block, st: State): State {
    var ps := PhisOf(p, to);
    st.(env := st.env + map x | x in ps :: Read(sem, st.env, PhiOperand(ps[x], from)))
  }

  /** A run is at the head of a block, its phis done, or has returned. */
  datatype Config = At(block: Block, st: State) | Done(result: int, world: World)

  function Target(t: Term, sem: Sem, env: Env): Block
    requires !t.Return?
  {
    match t
    case Jump(b) => b
    case Branch(c, tb, fb) => if Read(sem, env, c) != 0 then tb else fb
  }

  function StepConfig(p: Program, sem: Sem, c: Config): Config {
    match c
    case Done(_, _) => c
    case At(b, st) =>
      var end := RunCode(sem, CodeOf(p, b), st);
      var t := TermOf(p, b);
      if t.Return? then Done(Read(sem, end.env, t.value), end.world)
      else
        var next := Target(t, sem, end.env);
        At(next, EnterBlock(p, sem, b, next, end))
  }

  function Steps(p: Program, sem: Sem, c: Config, n: nat): Config
    decreases n
  {
    if n == 0 then c else Steps(p, sem, StepConfig(p, sem, c), n - 1)
  }

  lemma {:induction false} StepsAdd(p: Program, sem: Sem, c: Config, m: nat, n: nat)
    ensures Steps(p, sem, c, m + n) == Steps(p, sem, Steps(p, sem, c, m), n)
    decreases m
  {
    if m > 0 {
      StepsAdd(p, sem, StepConfig(p, sem, c), m - 1, n);
    }
  }

  lemma {:induction false} DoneStays(p: Program, sem: Sem, c: Config, n: nat)
    requires c.Done?
    ensures Steps(p, sem, c, n) == c
    decreases n
  {
    if n > 0 {
      DoneStays(p, sem, c, n - 1);
    }
  }

  function Start(p: Program, world: World): Config {
    At(p.g.entry, State(map[], world))
  }

  // ----- strict SSA -----

  /** Where an id is defined: at the head of a block as a phi, or by the i-th instruction. */
  datatype Def = AsPhi(block: Block) | AsIns(block: Block, index: nat)

  ghost predicate DefinedAt(p: Program, x: Id, d: Def) {
    match d
    case AsPhi(b) => b in p.g.blocks && x in PhisOf(p, b)
    case AsIns(b, i) => b in p.g.blocks && i < |CodeOf(p, b)| && CodeOf(p, b)[i].id == x
  }

  ghost predicate UniqueDefs(p: Program) {
    forall x, d, e :: DefinedAt(p, x, d) && DefinedAt(p, x, e) ==> d == e
  }

  /** The definition of x is complete at the head of b. */
  ghost predicate AvailableIn(p: Program, x: Id, b: Block) {
    exists d :: DefinedAt(p, x, d) && if d == AsPhi(b) then true else d.block != b && Dominates(p.g, d.block, b)
  }

  /** The definition of x is complete before instruction i of b. */
  ghost predicate AvailableAt(p: Program, x: Id, b: Block, i: nat) {
    AvailableIn(p, x, b) || exists j: nat :: j < i && DefinedAt(p, x, AsIns(b, j))
  }

  ghost predicate AvailableOut(p: Program, x: Id, b: Block) {
    AvailableAt(p, x, b, |CodeOf(p, b)|)
  }

  ghost predicate UseOk(p: Program, v: Value, b: Block, i: nat) {
    v.Result? ==> AvailableAt(p, v.id, b, i)
  }

  function TermUses(t: Term): seq<Value> {
    match t
    case Jump(_) => []
    case Branch(c, _, _) => [c]
    case Return(v) => [v]
  }

  function TermTargets(t: Term): set<Block> {
    match t
    case Jump(b) => {b}
    case Branch(_, tb, fb) => {tb, fb}
    case Return(_) => {}
  }

  ghost predicate CodeUsesOk(p: Program) {
    forall b, i, v :: b in p.g.blocks && 0 <= i < |CodeOf(p, b)| && v in CodeOf(p, b)[i].args ==> UseOk(p, v, b, i)
  }

  ghost predicate TermUsesOk(p: Program) {
    forall b, v :: b in p.g.blocks && v in TermUses(TermOf(p, b)) ==> UseOk(p, v, b, |CodeOf(p, b)|)
  }

  /** A phi reads its operand for q when q has finished. */
  ghost predicate PhiUsesOk(p: Program)
    requires WellFormed(p.g)
  {
    forall b, x, q :: b in p.g.blocks && x in PhisOf(p, b) && q in p.g.preds[b] ==>
      UseOk(p, PhiOperand(PhisOf(p, b)[x], q), q, |CodeOf(p, q)|)
  }

  ghost predicate TargetsMatch(p: Program)
    requires WellFormed(p.g)
  {
    forall b :: b in p.g.blocks ==> p.g.succs[b] == TermTargets(TermOf(p, b))
  }

  ghost predicate Strict(p: Program) {
    && WellFormed(p.g)
    && p.g.preds[p.g.entry] == {}
    && PhisOf(p, p.g.entry) == map[]
    && UniqueDefs(p)
    && TargetsMatch(p)
    && CodeUsesOk(p)
    && TermUsesOk(p)
    && PhiUsesOk(p)
  }

  /** Availability after instruction i is availability before it, and its own id. */
  lemma AvailableNext(p: Program, x: Id, b: Block, i: nat)
    requires b in p.g.blocks && i < |CodeOf(p, b)|
    ensures AvailableAt(p, x, b, i + 1) <==> AvailableAt(p, x, b, i) || x == CodeOf(p, b)[i].id
  {
    assert DefinedAt(p, CodeOf(p, b)[i].id, AsIns(b, i));
    if AvailableAt(p, x, b, i + 1) && !AvailableIn(p, x, b) {
      var j: nat :| j < i + 1 && DefinedAt(p, x, AsIns(b, j));
    }
  }

  /** What is available at the head of s, other than its phis, was available when leaving any predecessor. */
  lemma AvailableAcrossEdge(p: Program, x: Id, b: Block, s: Block)
    requires Strict(p) && b in p.g.blocks && s in p.g.succs[b]
    requires AvailableIn(p, x, s) && x !in PhisOf(p, s)
    ensures AvailableOut(p, x, b)
  {
    var d :| DefinedAt(p, x, d) && if d == AsPhi(s) then true else d.block != s && Dominates(p.g, d.block, s);
    DominatesAcross(p.g, d.block, b, s);
    if d.block == b && d.AsIns? {
      assert DefinedAt(p, x, AsIns(b, d.index));
    }
  }

  lemma DominatesAcross(g: Graph, d: Block, b: Block, s: Block)
    requires WellFormed(g) && b in g.blocks && s in g.succs[b] && Dominates(g, d, s) && d != s
    ensures Dominates(g, d, b)
  {
    forall w | Connects(g, w, g.entry, b) ensures d in w {
      Extend(g, w, s);
      assert d in w + [s];
    }
  }

  /** A run visits reachable blocks only. */
  lemma {:induction false} RunsReach(p: Program, sem: Sem, world: World, n: nat)
    requires Strict(p)
    ensures var c := Steps(p, sem, Start(p, world), n); c.At? ==> c.block in p.g.blocks && Reachable(p.g, c.block)
    decreases n
  {
    if n == 0 {
      assert Connects(p.g, [p.g.entry], p.g.entry, p.g.entry);
    } else {
      RunsReach(p, sem, world, n - 1);
      StepsAdd(p, sem, Start(p, world), n - 1, 1);
      var c := Steps(p, sem, Start(p, world), n - 1);
      assert Steps(p, sem, c, 1) == StepConfig(p, sem, c);
      if c.At? && StepConfig(p, sem, c).At? {
        var w :| Connects(p.g, w, p.g.entry, c.block);
        Extend(p.g, w, StepConfig(p, sem, c).block);
      }
    }
  }
}
