/**
  Local common-subexpression elimination: the structural equality of values, the
  equation every pure instruction satisfies wherever it is available, and the
  replacement of later equal instructions by earlier ones.
 */
module LocalCse {
  import opened Cfg
  import opened Ssa

  // ----- equality of values -----

  /** Unary instructions have one operand; comparisons are binary instructions with two. */
  predicate Shaped(i: Ins) {
    && (i.kind.UNARY? ==> |i.args| == 1)
    && (i.kind.BINARY? || i.kind.CMP? ==> |i.args| == 2)
  }

  predicate IsBinary(i: Ins) {
    i.kind.BINARY? || i.kind.CMP?
  }

  predicate Commutative(op: string) {
    op == "+" || op == "*"
  }

  /**
    What the equals methods decide, following definitions to the given depth.
    Identity suffices for everything but undefined values; phis, loads, calls and
    allocations are equal to themselves only.
   */
  predicate Equals(defs: map<Id, Ins>, a: Value, b: Value, depth: nat)
    decreases depth, 0
  {
    if a.Undefined? then false
    else if a == b then true
    else if depth == 0 || !a.Result? || !b.Result? || a.id !in defs || b.id !in defs then false
    else InsEquals(defs, defs[a.id], defs[b.id], depth)
  }

  predicate InsEquals(defs: map<Id, Ins>, i: Ins, j: Ins, depth: nat)
    requires depth > 0
    decreases depth - 1, 1
  {
    if !Shaped(i) || !Shaped(j) then false
    else if i.kind.UNARY? && j.kind.UNARY? then
      i.op == j.op && (j.args[0] == i.args[0] || Equals(defs, j.args[0], i.args[0], depth - 1))
    else if IsBinary(i) && IsBinary(j) then
      i.op == j.op &&
      (if j.args == i.args then true
       else if Commutative(i.op) then
         (j.args[0] == i.args[1] && j.args[1] == i.args[0])
         || (Equals(defs, j.args[0], i.args[1], depth - 1) && Equals(defs, j.args[1], i.args[0], depth - 1))
         || (Equals(defs, j.args[0], i.args[0], depth - 1) && Equals(defs, j.args[1], i.args[1], depth - 1))
       else
         Equals(defs, j.args[0], i.args[0], depth - 1) && Equals(defs, j.args[1], i.args[1], depth - 1))
    else false
  }

  /** Equality does not depend on which side is asked. */
  lemma {:induction false} EqualsSymmetric(defs: map<Id, Ins>, a: Value, b: Value, depth: nat)
    requires Equals(defs, a, b, depth)
    ensures Equals(defs, b, a, depth)
    decreases depth
  {
    if a != b {
      var i, j := defs[a.id], defs[b.id];
      forall l, m | 0 <= l < |i.args| && 0 <= m < |j.args| && Equals(defs, j.args[m], i.args[l], depth - 1)
        ensures Equals(defs, i.args[l], j.args[m], depth - 1)
      {
        EqualsSymmetric(defs, j.args[m], i.args[l], depth - 1);
      }
      if IsBinary(i) {
        SwappedArguments(i.args, j.args);
      }
    }
  }

  lemma SwappedArguments(a: seq<Value>, b: seq<Value>)
    requires |a| == |b| == 2
    ensures a == b <==> a[0] == b[0] && a[1] == b[1]
  {
  }

  /** Equal operands give equal results; for + and * also the other way round. */
  lemma EqualsIsCongruence(defs: map<Id, Ins>, x: Id, y: Id, depth: nat)
    requires x in defs && y in defs && Shaped(defs[x]) && Shaped(defs[y]) && defs[x].op == defs[y].op
    requires (defs[x].kind.UNARY? && defs[y].kind.UNARY?) || (IsBinary(defs[x]) && IsBinary(defs[y]))
    requires var a, b := defs[x].args, defs[y].args;
             || (forall l :: 0 <= l < |a| ==> Equals(defs, a[l], b[l], depth))
             || (IsBinary(defs[x]) && Commutative(defs[x].op) && Equals(defs, a[0], b[1], depth) && Equals(defs, a[1], b[0], depth))
    ensures Equals(defs, Result(x), Result(y), depth + 1)
  {
    var a, b := defs[x].args, defs[y].args;
    forall l, m | 0 <= l < |a| && 0 <= m < |b| && Equals(defs, a[l], b[m], depth) ensures Equals(defs, b[m], a[l], depth) {
      EqualsSymmetric(defs, a[l], b[m], depth);
    }
  }

  /** Addition and multiplication do not depend on the order of their operands. */
  ghost predicate Commutes(sem: Sem) {
    forall op, x, y :: Commutative(op) ==> sem.pure(op, [x, y]) == sem.pure(op, [y, x])
  }

  // ----- the equation of a pure instruction -----

  ghost predicate PureDef(p: Program, x: Id, b: Block, i: nat) {
    b in p.g.blocks && i < |CodeOf(p, b)| && CodeOf(p, b)[i].id == x && IsPure(CodeOf(p, b)[i])
  }

  /** Every available pure id holds its operator of the current operands. */
  ghost predicate Equations(p: Program, sem: Sem, b: Block, i: nat, env: Env) {
    forall x, d, j: nat :: PureDef(p, x, d, j) && AvailableAt(p, x, b, i) ==>
      Get(env, x) == PureValue(sem, env, CodeOf(p, d)[j])
  }

  /** Point (b, i) executes after d's definition on every run that reaches it. */
  lemma ArgumentsAvailable(p: Program, x: Id, d: Block, j: nat, b: Block, i: nat, v: Value)
    requires Strict(p) && PureDef(p, x, d, j) && AvailableAt(p, x, b, i) && v in CodeOf(p, d)[j].args && Reachable(p.g, b)
    ensures UseOk(p, v, b, i)
  {
    assert UseOk(p, v, d, j);
    if v.Result? {
      assert DefinedAt(p, x, AsIns(d, j));
      if AvailableIn(p, x, b) {
        assert d != b && Dominates(p.g, d, b);
        AvailableDominated(p, v.id, d, j, b);
      } else {
        var k: nat :| k < i && DefinedAt(p, x, AsIns(b, k));
        assert d == b && k == j;
        AvailableLater(p, v.id, b, j, i);
      }
    }
  }

  lemma AvailableLater(p: Program, y: Id, b: Block, j: nat, i: nat)
    requires AvailableAt(p, y, b, j) && j <= i
    ensures AvailableAt(p, y, b, i)
  {
    if !AvailableIn(p, y, b) {
      var k: nat :| k < j && DefinedAt(p, y, AsIns(b, k));
      assert k < i && DefinedAt(p, y, AsIns(b, k));
    }
  }

  lemma AvailableDominated(p: Program, y: Id, d: Block, j: nat, b: Block)
    requires AvailableAt(p, y, d, j) && d != b && Dominates(p.g, d, b) && Reachable(p.g, b)
    ensures AvailableIn(p, y, b)
  {
    var e := DefOf(p, y, d, j);
    DominanceTransitive(p.g, e.block, d, b);
    if e.block == b {
      DominanceAntisymmetric(p.g, d, b);
    }
  }

  lemma DefOf(p: Program, y: Id, d: Block, j: nat) returns (e: Def)
    requires AvailableAt(p, y, d, j)
    ensures DefinedAt(p, y, e) && Dominates(p.g, e.block, d)
    ensures e.block == d ==> e.AsPhi? || e.index < j
  {
    if AvailableIn(p, y, d) {
      e :| DefinedAt(p, y, e) && if e == AsPhi(d) then true else e.block != d && Dominates(p.g, e.block, d);
    } else {
      var i: nat :| i < j && DefinedAt(p, y, AsIns(d, i));
      e := AsIns(d, i);
    }
  }

  /** Executing instruction i of b changes no operand, and no value, of what is available before it. */
  lemma WriteIsFresh(p: Program, x: Id, d: Block, j: nat, b: Block, i: nat)
    requires Strict(p) && PureDef(p, x, d, j) && AvailableAt(p, x, b, i) && Reachable(p.g, b)
    requires b in p.g.blocks && i < |CodeOf(p, b)|
    ensures x != CodeOf(p, b)[i].id && Result(CodeOf(p, b)[i].id) !in CodeOf(p, d)[j].args
  {
    var y := CodeOf(p, b)[i].id;
    NotYetAvailable(p, b, i);
    if Result(y) in CodeOf(p, d)[j].args {
      ArgumentsAvailable(p, x, d, j, b, i, Result(y));
    }
  }

  lemma NotYetAvailable(p: Program, b: Block, i: nat)
    requires UniqueDefs(p) && b in p.g.blocks && i < |CodeOf(p, b)|
    ensures !AvailableAt(p, CodeOf(p, b)[i].id, b, i)
  {
    var y := CodeOf(p, b)[i].id;
    assert DefinedAt(p, y, AsIns(b, i));
    if AvailableAt(p, y, b, i) {
      var e := DefOf(p, y, b, i);
    }
  }

  lemma EquationsNext(p: Program, sem: Sem, b: Block, i: nat, st: State)
    requires Strict(p) && Reachable(p.g, b) && b in p.g.blocks && i < |CodeOf(p, b)| && Equations(p, sem, b, i, st.env)
    ensures Equations(p, sem, b, i + 1, Execute(sem, CodeOf(p, b)[i], st).env)
  {
    hide Strict, Reachable, AvailableAt, ReadAll;
    var ins, next := CodeOf(p, b)[i], Execute(sem, CodeOf(p, b)[i], st).env;
    StrictParts(p);
    forall x, d, j: nat | PureDef(p, x, d, j) && AvailableAt(p, x, b, i + 1)
      ensures Get(next, x) == PureValue(sem, next, CodeOf(p, d)[j])
    {
      AvailableNext(p, x, b, i);
      if AvailableAt(p, x, b, i) {
        WriteIsFresh(p, x, d, j, b, i);
      } else {
        SameDef(p, x, d, j, b, i);
        NoSelfUse(p, b, i);
      }
      SameReads(sem, st.env, next, CodeOf(p, d)[j].args, ins.id);
    }
  }

  lemma StrictParts(p: Program)
    requires Strict(p)
    ensures UniqueDefs(p) && WellFormed(p.g) && CodeUsesOk(p)
  {
  }

  lemma NoSelfUse(p: Program, b: Block, i: nat)
    requires Strict(p) && b in p.g.blocks && i < |CodeOf(p, b)|
    ensures Result(CodeOf(p, b)[i].id) !in CodeOf(p, b)[i].args
  {
    NotYetAvailable(p, b, i);
    assert Result(CodeOf(p, b)[i].id) in CodeOf(p, b)[i].args ==> UseOk(p, Result(CodeOf(p, b)[i].id), b, i);
  }

  lemma SameDef(p: Program, x: Id, d: Block, j: nat, b: Block, i: nat)
    requires UniqueDefs(p) && PureDef(p, x, d, j) && b in p.g.blocks && i < |CodeOf(p, b)| && CodeOf(p, b)[i].id == x
    ensures d == b && j == i
  {
    assert DefinedAt(p, x, AsIns(d, j)) && DefinedAt(p, x, AsIns(b, i));
  }

  lemma SameReads(sem: Sem, env: Env, env': Env, vs: seq<Value>, y: Id)
    requires forall x :: x != y ==> Get(env, x) == Get(env', x)
    requires Result(y) !in vs
    ensures ReadAll(sem, env, vs) == ReadAll(sem, env', vs)
  {
    forall i | 0 <= i < |vs| ensures ReadAll(sem, env, vs)[i] == ReadAll(sem, env', vs)[i] {
      assert vs[i] in vs;
    }
  }

  lemma {:induction false} EquationsInBlock(p: Program, sem: Sem, b: Block, i: nat, st: State)
    requires Strict(p) && Reachable(p.g, b) && b in p.g.blocks && i <= |CodeOf(p, b)| && Equations(p, sem, b, 0, st.env)
    ensures Equations(p, sem, b, i, RunCode(sem, CodeOf(p, b)[..i], st).env)
  {
    hide Strict, Reachable, Equations, Execute;
    if i > 0 {
      EquationsInBlock(p, sem, b, i - 1, st);
      assert CodeOf(p, b)[..i] == CodeOf(p, b)[..i - 1] + [CodeOf(p, b)[i - 1]];
      RunCodeSnoc(sem, CodeOf(p, b)[..i - 1], CodeOf(p, b)[i - 1], st);
      EquationsNext(p, sem, b, i - 1, RunCode(sem, CodeOf(p, b)[..i - 1], st));
    }
  }

  lemma EquationsAcross(p: Program, sem: Sem, b: Block, s: Block, st: State)
    requires Strict(p) && b in p.g.blocks && s in p.g.succs[b] && Reachable(p.g, s)
    requires Equations(p, sem, b, |CodeOf(p, b)|, st.env)
    ensures Equations(p, sem, s, 0, EnterBlock(p, sem, b, s, st).env)
  {
    hide Strict, Reachable, AvailableIn, ReadAll, Read;
    StrictParts(p);
    var next := EnterBlock(p, sem, b, s, st).env;
    forall x, d, j: nat | PureDef(p, x, d, j) && AvailableAt(p, x, s, 0)
      ensures Get(next, x) == PureValue(sem, next, CodeOf(p, d)[j])
    {
      PhisAreFresh(p, x, d, j, s);
      AvailableAcrossEdge(p, x, b, s);
      PhisKeepReads(sem, st.env, next, PhisOf(p, s).Keys, CodeOf(p, d)[j].args);
    }
  }

  lemma PhisKeepReads(sem: Sem, env: Env, env': Env, ys: set<Id>, vs: seq<Value>)
    requires forall x :: x !in ys ==> Get(env, x) == Get(env', x)
    requires forall y :: y in ys ==> Result(y) !in vs
    ensures ReadAll(sem, env, vs) == ReadAll(sem, env', vs)
  {
    forall i | 0 <= i < |vs| ensures ReadAll(sem, env, vs)[i] == ReadAll(sem, env', vs)[i] {
      assert vs[i] in vs;
    }
  }

  /** The phis of s are neither x nor operands of x, when x is available at the head of s. */
  lemma PhisAreFresh(p: Program, x: Id, d: Block, j: nat, s: Block)
    requires Strict(p) && PureDef(p, x, d, j) && AvailableIn(p, x, s) && Reachable(p.g, s) && s in p.g.blocks
    ensures x !in PhisOf(p, s) && forall y :: y in PhisOf(p, s) ==> Result(y) !in CodeOf(p, d)[j].args
  {
    hide Dominates;
    assert DefinedAt(p, x, AsIns(d, j));
    assert x in PhisOf(p, s) ==> DefinedAt(p, x, AsPhi(s));
    assert d != s && Dominates(p.g, d, s);
    forall y | y in PhisOf(p, s) ensures Result(y) !in CodeOf(p, d)[j].args {
      if Result(y) in CodeOf(p, d)[j].args {
        assert UseOk(p, Result(y), d, j);
        var e := DefOf(p, y, d, j);
        assert DefinedAt(p, y, AsPhi(s));
        DominanceAntisymmetric(p.g, d, s);
      }
    }
  }

  /** On every run, at every point, each available pure id equals its operator of the current operands. */
  lemma {:induction false} EquationsHold(p: Program, sem: Sem, world: World, n: nat, i: nat)
    requires Strict(p)
    requires var c := Steps(p, sem, Start(p, world), n); c.At? ==> i <= |CodeOf(p, c.block)|
    ensures var c := Steps(p, sem, Start(p, world), n);
            c.At? ==> Equations(p, sem, c.block, i, RunCode(sem, CodeOf(p, c.block)[..i], c.st).env)
    decreases n
  {
    hide Strict, Equations, Reachable;
    var c := Steps(p, sem, Start(p, world), n);
    RunsReach(p, sem, world, n);
    if c.At? {
      EquationsAtHead(p, sem, world, n);
      EquationsInBlock(p, sem, c.block, i, c.st);
    }
  }

  lemma {:induction false} EquationsAtHead(p: Program, sem: Sem, world: World, n: nat)
    requires Strict(p)
    ensures var c := Steps(p, sem, Start(p, world), n); c.At? ==> Equations(p, sem, c.block, 0, c.st.env)
    decreases n
  {
    hide Equations, Reachable, RunCode;
    RunsReach(p, sem, world, n);
    if n == 0 {
      NothingAtEntry(p, sem);
    } else {
      EquationsAtHead(p, sem, world, n - 1);
      StepsAdd(p, sem, Start(p, world), n - 1, 1);
      RunsReach(p, sem, world, n - 1);
      var c := Steps(p, sem, Start(p, world), n - 1);
      assert Steps(p, sem, c, 1) == StepConfig(p, sem, c);
      if c.At? && StepConfig(p, sem, c).At? {
        var b := c.block;
        EquationsInBlock(p, sem, b, |CodeOf(p, b)|, c.st);
        assert CodeOf(p, b)[..|CodeOf(p, b)|] == CodeOf(p, b);
        assert p.g.succs[b] == TermTargets(TermOf(p, b));
        EquationsAcross(p, sem, b, StepConfig(p, sem, c).block, RunCode(sem, CodeOf(p, b), c.st));
      }
    }
  }

  lemma NothingAtEntry(p: Program, sem: Sem)
    requires Strict(p)
    ensures Equations(p, sem, p.g.entry, 0, map[])
  {
    assert Connects(p.g, [p.g.entry], p.g.entry, p.g.entry);
    forall d: Def | d.block != p.g.entry ensures !Dominates(p.g, d.block, p.g.entry) {
      assert d.block !in [p.g.entry];
    }
    assert forall x :: !DefinedAt(p, x, AsPhi(p.g.entry));
  }

  // ----- replacing ids -----

  function Subst(repl: map<Id, Id>, v: Value): Value {
    if v.Result? && v.id in repl then Result(repl[v.id]) else v
  }

  function SubstAll(repl: map<Id, Id>, vs: seq<Value>): (r: seq<Value>)
    ensures |r| == |vs| && forall i :: 0 <= i < |vs| ==> r[i] == Subst(repl, vs[i])
  {
    seq(|vs|, i requires 0 <= i < |vs| => Subst(repl, vs[i]))
  }

  function SubstIns(repl: map<Id, Id>, i: Ins): Ins {
    i.(args := SubstAll(repl, i.args))
  }

  /** The code without the replaced instructions, reading the replacements. */
  function ApplyCode(repl: map<Id, Id>, code: seq<Ins>): seq<Ins> {
    if code == [] then []
    else (if code[0].id in repl then [] else [SubstIns(repl, code[0])]) + ApplyCode(repl, code[1..])
  }

  lemma {:induction false} ApplyCodeSnoc(repl: map<Id, Id>, code: seq<Ins>, last: Ins)
    ensures ApplyCode(repl, code + [last]) == ApplyCode(repl, code) + if last.id in repl then [] else [SubstIns(repl, last)]
  {
    if code == [] {
      assert code + [last] == [last];
      assert ApplyCode(repl, [last]) == (if last.id in repl then [] else [SubstIns(repl, last)]) + ApplyCode(repl, [last][1..]);
    } else {
      assert (code + [last])[1..] == code[1..] + [last];
      ApplyCodeSnoc(repl, code[1..], last);
    }
  }

  function SubstTerm(repl: map<Id, Id>, t: Term): Term {
    match t
    case Jump(_) => t
    case Branch(c, tb, fb) => Branch(Subst(repl, c), tb, fb)
    case Return(v) => Return(Subst(repl, v))
  }

  function SubstOperands(repl: map<Id, Id>, operands: map<Block, Value>): map<Block, Value> {
    map q | q in operands :: Subst(repl, operands[q])
  }

  function SubstPhis(repl: map<Id, Id>, phis: map<Id, map<Block, Value>>): map<Id, map<Block, Value>> {
    map x | x in phis :: SubstOperands(repl, phis[x])
  }

  /** The whole function after replacing: this is what replaceUse and the erasures leave behind. */
  function Apply(p: Program, repl: map<Id, Id>): Program {
    p.(phis := map b | b in p.phis :: SubstPhis(repl, p.phis[b]),
       code := map b | b in p.code :: ApplyCode(repl, p.code[b]),
       term := map b | b in p.term :: SubstTerm(repl, p.term[b]))
  }

  // ----- sound replacements -----

  /** a is defined before x in the same block. */
  ghost predicate Earlier(p: Program, x: Id, a: Id) {
    exists b, j: nat, k: nat :: PureDef(p, x, b, k) && j < k && DefinedAt(p, a, AsIns(b, j))
  }

  ghost predicate ReplOk(p: Program, repl: map<Id, Id>) {
    forall x :: x in repl ==> Earlier(p, x, repl[x]) && repl[x] !in repl
  }

  /** A point of a run: the state after i instructions of the block reached in n steps. */
  ghost predicate Point(p: Program, sem: Sem, world: World, n: nat, i: nat, b: Block, env: Env) {
    var c := Steps(p, sem, Start(p, world), n);
    c.At? && c.block == b && i <= |CodeOf(p, b)| && env == RunCode(sem, CodeOf(p, b)[..i], c.st).env
  }

  /** x and a hold the same value wherever x is available. */
  ghost predicate SameValue(p: Program, sem: Sem, world: World, x: Id, a: Id) {
    forall n, i, b, env :: Point(p, sem, world, n, i, b, env) && AvailableAt(p, x, b, i) ==> Get(env, x) == Get(env, a)
  }

  ghost predicate ReplSound(p: Program, sem: Sem, world: World, repl: map<Id, Id>) {
    forall x :: x in repl ==> SameValue(p, sem, world, x, repl[x])
  }

  lemma EarlierAvailable(p: Program, x: Id, a: Id, b: Block, i: nat)
    requires UniqueDefs(p) && Earlier(p, x, a) && AvailableAt(p, x, b, i)
    ensures AvailableAt(p, a, b, i)
  {
    var d, j: nat, k: nat :| PureDef(p, x, d, k) && j < k && DefinedAt(p, a, AsIns(d, j));
    assert DefinedAt(p, x, AsIns(d, k));
    if AvailableIn(p, x, b) {
      var e :| DefinedAt(p, x, e) && if e == AsPhi(b) then true else e.block != b && Dominates(p.g, e.block, b);
      assert e == AsIns(d, k);
      assert AsIns(d, j).block == d;
      assert AvailableIn(p, a, b);
    } else {
      var m: nat :| m < i && DefinedAt(p, x, AsIns(b, m));
      assert AsIns(b, m) == AsIns(d, k);
      assert j < i && DefinedAt(p, a, AsIns(b, j));
    }
  }

  lemma SubstReads(p: Program, sem: Sem, world: World, repl: map<Id, Id>, n: nat, i: nat, b: Block, env: Env, v: Value)
    requires UniqueDefs(p) && ReplOk(p, repl) && ReplSound(p, sem, world, repl)
    requires Point(p, sem, world, n, i, b, env) && UseOk(p, v, b, i)
    ensures UseOk(p, Subst(repl, v), b, i) && Read(sem, env, Subst(repl, v)) == Read(sem, env, v)
  {
    hide Point, AvailableAt, Earlier;
    if v.Result? && v.id in repl {
      EarlierAvailable(p, v.id, repl[v.id], b, i);
      assert SameValue(p, sem, world, v.id, repl[v.id]);
    }
  }

  /** defs holds the current form of instructions of the program. */
  ghost predicate DefsOk(p: Program, repl: map<Id, Id>, defs: map<Id, Ins>) {
    forall x :: x in defs ==> exists b, k: nat :: b in p.g.blocks && k < |CodeOf(p, b)| && CodeOf(p, b)[k].id == x && defs[x] == SubstIns(repl, CodeOf(p, b)[k])
  }

  /** An available pure id equals its operator of the current form of its operands, all of them available. */
  lemma CurrentEquation(p: Program, sem: Sem, world: World, repl: map<Id, Id>, defs: map<Id, Ins>,
                        n: nat, i: nat, b: Block, env: Env, x: Id)
    requires Strict(p) && ReplOk(p, repl) && ReplSound(p, sem, world, repl) && DefsOk(p, repl, defs)
    requires Point(p, sem, world, n, i, b, env) && AvailableAt(p, x, b, i) && x in defs && IsPure(defs[x])
    ensures Get(env, x) == PureValue(sem, env, defs[x])
    ensures forall v :: v in defs[x].args ==> UseOk(p, v, b, i)
  {
    hide ReplOk, ReplSound, UseOk, AvailableAt, ReadAll, Subst, Reachable, SameValue;
    var d, k: nat :| d in p.g.blocks && k < |CodeOf(p, d)| && CodeOf(p, d)[k].id == x && defs[x] == SubstIns(repl, CodeOf(p, d)[k]);
    var ins := CodeOf(p, d)[k];
    PointFacts(p, sem, world, n, i, b, env);
    StrictParts(p);
    assert PureDef(p, x, d, k);
    forall m | 0 <= m < |ins.args|
      ensures UseOk(p, Subst(repl, ins.args[m]), b, i) && Read(sem, env, Subst(repl, ins.args[m])) == Read(sem, env, ins.args[m])
    {
      assert ins.args[m] in ins.args;
      ArgumentsAvailable(p, x, d, k, b, i, ins.args[m]);
      SubstReads(p, sem, world, repl, n, i, b, env, ins.args[m]);
    }
    assert ReadAll(sem, env, defs[x].args) == ReadAll(sem, env, ins.args);
  }

  lemma PointFacts(p: Program, sem: Sem, world: World, n: nat, i: nat, b: Block, env: Env)
    requires Strict(p) && Point(p, sem, world, n, i, b, env)
    ensures b in p.g.blocks && Reachable(p.g, b) && Equations(p, sem, b, i, env)
  {
    hide Strict, Reachable, Equations;
    RunsReach(p, sem, world, n);
    EquationsHold(p, sem, world, n, i);
  }

  /** Values judged equal are equal at every point of every run where both are available. */
  lemma {:induction false} EqualsSound(p: Program, sem: Sem, world: World, repl: map<Id, Id>, defs: map<Id, Ins>,
                                       n: nat, i: nat, b: Block, env: Env, u: Value, v: Value, depth: nat)
    requires Strict(p) && Commutes(sem) && ReplOk(p, repl) && ReplSound(p, sem, world, repl) && DefsOk(p, repl, defs)
    requires Point(p, sem, world, n, i, b, env) && UseOk(p, u, b, i) && UseOk(p, v, b, i)
    requires Equals(defs, u, v, depth)
    ensures Read(sem, env, u) == Read(sem, env, v)
    decreases depth
  {
    hide Strict, Commutes, ReplOk, ReplSound, DefsOk, Point, AvailableAt, Commutative;
    if u != v {
      var j, k := defs[u.id], defs[v.id];
      CurrentEquation(p, sem, world, repl, defs, n, i, b, env, u.id);
      CurrentEquation(p, sem, world, repl, defs, n, i, b, env, v.id);
      var r, s := ReadAll(sem, env, j.args), ReadAll(sem, env, k.args);
      assert forall m :: 0 <= m < |j.args| ==> j.args[m] in j.args;
      assert forall m :: 0 <= m < |k.args| ==> k.args[m] in k.args;
      forall l, m | 0 <= l < |k.args| && 0 <= m < |j.args| && (k.args[l] == j.args[m] || Equals(defs, k.args[l], j.args[m], depth - 1))
        ensures s[l] == r[m]
      {
        if k.args[l] != j.args[m] {
          EqualsSound(p, sem, world, repl, defs, n, i, b, env, k.args[l], j.args[m], depth - 1);
        }
      }
      if |r| == 1 {
        assert r == s;
      } else if s[0] == r[0] && s[1] == r[1] {
        assert r == s;
      } else {
        assert s == [r[1], r[0]] && r == [r[0], r[1]];
        CommutesAt(sem, j.op, r[0], r[1]);
      }
    }
  }

  lemma CommutesAt(sem: Sem, op: string, x: int, y: int)
    requires Commutes(sem) && Commutative(op)
    ensures sem.pure(op, [x, y]) == sem.pure(op, [y, x])
  {
  }

  // ----- the replaced program runs alike -----

  /** Everything available and not replaced is the same in both runs. */
  ghost predicate SameKept(p: Program, repl: map<Id, Id>, b: Block, i: nat, env: Env, env': Env) {
    forall y :: y !in repl && AvailableAt(p, y, b, i) ==> Get(env, y) == Get(env', y)
  }

  ghost predicate SameHead(p: Program, repl: map<Id, Id>, b: Block, env: Env, env': Env) {
    forall y :: y !in repl && AvailableIn(p, y, b) ==> Get(env, y) == Get(env', y)
  }

  ghost predicate Related(p: Program, repl: map<Id, Id>, c: Config, c': Config) {
    match c
    case Done(_, _) => c' == c
    case At(b, st) => c'.At? && c'.block == b && c'.st.world == st.world && SameHead(p, repl, b, st.env, c'.st.env)
  }

  /** What a run needs to know about the replacements. */
  ghost predicate Sound(p: Program, sem: Sem, world: World, repl: map<Id, Id>) {
    Strict(p) && ReplOk(p, repl) && ReplSound(p, sem, world, repl)
  }

  lemma SubstitutedRead(p: Program, sem: Sem, world: World, repl: map<Id, Id>, n: nat, i: nat, b: Block, env: Env, env': Env, v: Value)
    requires Sound(p, sem, world, repl) && Point(p, sem, world, n, i, b, env) && UseOk(p, v, b, i)
    requires SameKept(p, repl, b, i, env, env')
    ensures Read(sem, env', Subst(repl, v)) == Read(sem, env, v)
  {
    hide Point, AvailableAt, Strict, ReplSound, Earlier;
    StrictParts(p);
    SubstReads(p, sem, world, repl, n, i, b, env, v);
  }

  lemma SubstitutedOperands(p: Program, sem: Sem, world: World, repl: map<Id, Id>, n: nat, i: nat, b: Block, env: Env, env': Env)
    requires Sound(p, sem, world, repl) && Point(p, sem, world, n, i, b, env)
    requires b in p.g.blocks && i < |CodeOf(p, b)| && SameKept(p, repl, b, i, env, env')
    ensures ReadAll(sem, env', SubstAll(repl, CodeOf(p, b)[i].args)) == ReadAll(sem, env, CodeOf(p, b)[i].args)
  {
    StrictParts(p);
    hide Sound, Point, SameKept, UseOk, Subst, Read, ReadAll;
    var vs := CodeOf(p, b)[i].args;
    forall m | 0 <= m < |vs| ensures Read(sem, env', Subst(repl, vs[m])) == Read(sem, env, vs[m]) {
      assert vs[m] in vs;
      SubstitutedRead(p, sem, world, repl, n, i, b, env, env', vs[m]);
    }
  }

  lemma ReplacedIsPure(p: Program, repl: map<Id, Id>, b: Block, i: nat)
    requires UniqueDefs(p) && ReplOk(p, repl) && b in p.g.blocks && i < |CodeOf(p, b)| && CodeOf(p, b)[i].id in repl
    ensures IsPure(CodeOf(p, b)[i])
  {
    var x := CodeOf(p, b)[i].id;
    var d, j: nat, k: nat :| PureDef(p, x, d, k) && j < k && DefinedAt(p, repl[x], AsIns(d, j));
    SameDef(p, x, d, k, b, i);
  }

  lemma InstructionAlike(p: Program, sem: Sem, world: World, repl: map<Id, Id>, n: nat, i: nat, b: Block, st: State, st': State)
    requires Sound(p, sem, world, repl) && Point(p, sem, world, n, i, b, st.env)
    requires b in p.g.blocks && i < |CodeOf(p, b)| && SameKept(p, repl, b, i, st.env, st'.env) && st.world == st'.world
    ensures var ins := CodeOf(p, b)[i];
            var next, next' := Execute(sem, ins, st), if ins.id in repl then st' else Execute(sem, SubstIns(repl, ins), st');
            SameKept(p, repl, b, i + 1, next.env, next'.env) && next.world == next'.world
  {
    hide Point, AvailableAt, Strict, ReplSound, ReplOk, ReadAll;
    StrictParts(p);
    var ins := CodeOf(p, b)[i];
    if ins.id in repl {
      ReplacedIsPure(p, repl, b, i);
    } else {
      SubstitutedOperands(p, sem, world, repl, n, i, b, st.env, st'.env);
    }
    forall x ensures AvailableAt(p, x, b, i + 1) <==> AvailableAt(p, x, b, i) || x == ins.id {
      AvailableNext(p, x, b, i);
    }
  }

  lemma {:induction false} BodyAlike(p: Program, sem: Sem, world: World, repl: map<Id, Id>, n: nat, i: nat, b: Block, st: State, st': State)
    requires Sound(p, sem, world, repl) && Steps(p, sem, Start(p, world), n) == At(b, st) && b in p.g.blocks
    requires i <= |CodeOf(p, b)| && SameKept(p, repl, b, 0, st.env, st'.env) && st.world == st'.world
    ensures var end, end' := RunCode(sem, CodeOf(p, b)[..i], st), RunCode(sem, ApplyCode(repl, CodeOf(p, b)[..i]), st');
            SameKept(p, repl, b, i, end.env, end'.env) && end.world == end'.world
  {
    hide Sound, SameKept, Execute, Steps;
    if i > 0 {
      BodyAlike(p, sem, world, repl, n, i - 1, b, st, st');
      var c, ins := CodeOf(p, b)[..i - 1], CodeOf(p, b)[i - 1];
      assert CodeOf(p, b)[..i] == c + [ins];
      RunCodeSnoc(sem, c, ins, st);
      ApplyCodeSnoc(repl, c, ins);
      var r := ApplyCode(repl, c);
      assert r + [] == r;
      RunCodeSnoc(sem, r, SubstIns(repl, ins), st');
      InstructionAlike(p, sem, world, repl, n, i - 1, b, RunCode(sem, c, st), RunCode(sem, r, st'));
    }
  }

  lemma EdgeAlike(p: Program, sem: Sem, world: World, repl: map<Id, Id>, n: nat, b: Block, s: Block, st: State, st': State)
    requires Sound(p, sem, world, repl) && Point(p, sem, world, n, |CodeOf(p, b)|, b, st.env)
    requires b in p.g.blocks && b in p.g.succs && s in p.g.succs[b]
    requires SameKept(p, repl, b, |CodeOf(p, b)|, st.env, st'.env)
    ensures SameHead(p, repl, s, EnterBlock(p, sem, b, s, st).env, EnterBlock(Apply(p, repl), sem, b, s, st').env)
  {
    hide *;
    var p' := Apply(p, repl);
    var next, next' := EnterBlock(p, sem, b, s, st).env, EnterBlock(p', sem, b, s, st').env;
    forall y | y !in repl && AvailableIn(p, y, s) ensures Get(next, y) == Get(next', y) {
      AfterEntry(p, sem, b, s, st, y);
      AfterEntry(p', sem, b, s, st', y);
      AppliedPhis(p, repl, s);
      if y in PhisOf(p, s) {
        var operands := PhisOf(p, s)[y];
        PhiOperandOk(p, sem, world, repl, b, s, y);
        SubstitutedRead(p, sem, world, repl, n, |CodeOf(p, b)|, b, st.env, st'.env, PhiOperand(operands, b));
        SubstOperand(repl, operands, b);
      } else {
        KeptAcrossEdge(p, sem, world, repl, b, s, y, st.env, st'.env);
      }
    }
    SameHeadFrom(p, repl, s, next, next');
  }

  lemma SameHeadFrom(p: Program, repl: map<Id, Id>, s: Block, env: Env, env': Env)
    requires forall y :: y !in repl && AvailableIn(p, y, s) ==> Get(env, y) == Get(env', y)
    ensures SameHead(p, repl, s, env, env')
  {
  }

  /** What a phi, and any other id, holds after entering s from b. */
  lemma AfterEntry(p: Program, sem: Sem, b: Block, s: Block, st: State, y: Id)
    ensures y in PhisOf(p, s) ==>
              Get(EnterBlock(p, sem, b, s, st).env, y) == Read(sem, st.env, PhiOperand(PhisOf(p, s)[y], b))
    ensures y !in PhisOf(p, s) ==> Get(EnterBlock(p, sem, b, s, st).env, y) == Get(st.env, y)
  {
  }

  lemma AppliedPhis(p: Program, repl: map<Id, Id>, s: Block)
    ensures PhisOf(Apply(p, repl), s).Keys == PhisOf(p, s).Keys
    ensures forall y :: y in PhisOf(p, s) ==> PhisOf(Apply(p, repl), s)[y] == SubstOperands(repl, PhisOf(p, s)[y])
  {
  }

  lemma PhiOperandOk(p: Program, sem: Sem, world: World, repl: map<Id, Id>, b: Block, s: Block, y: Id)
    requires Sound(p, sem, world, repl) && b in p.g.blocks && b in p.g.succs && s in p.g.succs[b] && y in PhisOf(p, s)
    ensures UseOk(p, PhiOperand(PhisOf(p, s)[y], b), b, |CodeOf(p, b)|)
  {
    assert b in p.g.preds[s];
  }

  lemma KeptAcrossEdge(p: Program, sem: Sem, world: World, repl: map<Id, Id>, b: Block, s: Block, y: Id, env: Env, env': Env)
    requires Sound(p, sem, world, repl) && b in p.g.blocks && b in p.g.succs && s in p.g.succs[b]
    requires y !in repl && AvailableIn(p, y, s) && y !in PhisOf(p, s) && SameKept(p, repl, b, |CodeOf(p, b)|, env, env')
    ensures Get(env, y) == Get(env', y)
  {
    hide Strict, AvailableIn, AvailableAt, ReplOk, ReplSound;
    StrictParts(p);
    AvailableAcrossEdge(p, y, b, s);
  }

  lemma SubstOperand(repl: map<Id, Id>, operands: map<Block, Value>, b: Block)
    ensures PhiOperand(SubstOperands(repl, operands), b) == Subst(repl, PhiOperand(operands, b))
  {
  }

  lemma DecisionAlike(p: Program, sem: Sem, world: World, repl: map<Id, Id>, n: nat, b: Block, env: Env, env': Env)
    requires Sound(p, sem, world, repl) && Point(p, sem, world, n, |CodeOf(p, b)|, b, env)
    requires b in p.g.blocks && SameKept(p, repl, b, |CodeOf(p, b)|, env, env')
    ensures var t, t' := TermOf(p, b), TermOf(Apply(p, repl), b);
            && (t.Return? <==> t'.Return?)
            && (t.Return? ==> Read(sem, env, t.value) == Read(sem, env', t'.value))
            && (!t.Return? ==> Target(t, sem, env) == Target(t', sem, env') && Target(t, sem, env) in p.g.succs[b])
  {
    hide Point, SameKept, ReplSound, ReplOk, Read, CodeUsesOk, PhiUsesOk, UniqueDefs, UseOk;
    var t := TermOf(p, b);
    assert p.g.succs[b] == TermTargets(t);
    forall v | v in TermUses(t) ensures Read(sem, env', Subst(repl, v)) == Read(sem, env, v) {
      SubstitutedRead(p, sem, world, repl, n, |CodeOf(p, b)|, b, env, env', v);
    }
    match t
    case Jump(_) =>
    case Branch(c, _, _) => assert c in TermUses(t);
    case Return(v) => assert v in TermUses(t);
  }

  lemma StepAlike(p: Program, sem: Sem, world: World, repl: map<Id, Id>, n: nat, c: Config, c': Config)
    requires Sound(p, sem, world, repl) && c == Steps(p, sem, Start(p, world), n) && Related(p, repl, c, c')
    ensures Related(p, repl, StepConfig(p, sem, c), StepConfig(Apply(p, repl), sem, c'))
  {
    hide Sound, SameKept, SameHead, EnterBlock, Read, RunCode, Steps, Target, Reachable;
    if c.At? {
      var b, st, st' := c.block, c.st, c'.st;
      var p' := Apply(p, repl);
      RunInGraph(p, sem, world, repl, n);
      HeadIsZero(p, repl, b, st.env, st'.env);
      BodyAlike(p, sem, world, repl, n, |CodeOf(p, b)|, b, st, st');
      assert CodeOf(p, b)[..|CodeOf(p, b)|] == CodeOf(p, b);
      assert CodeOf(p', b) == ApplyCode(repl, CodeOf(p, b));
      var end, end' := RunCode(sem, CodeOf(p, b), st), RunCode(sem, CodeOf(p', b), st');
      DecisionAlike(p, sem, world, repl, n, b, end.env, end'.env);
      var t := TermOf(p, b);
      if !t.Return? {
        EdgeAlike(p, sem, world, repl, n, b, Target(t, sem, end.env), end, end');
        EntryKeepsWorld(p, sem, b, Target(t, sem, end.env), end);
        EntryKeepsWorld(p', sem, b, Target(t, sem, end.env), end');
      }
    }
  }

  lemma EntryKeepsWorld(p: Program, sem: Sem, b: Block, s: Block, st: State)
    ensures EnterBlock(p, sem, b, s, st).world == st.world
  {
  }

  lemma RunInGraph(p: Program, sem: Sem, world: World, repl: map<Id, Id>, n: nat)
    requires Sound(p, sem, world, repl)
    ensures var c := Steps(p, sem, Start(p, world), n); c.At? ==> c.block in p.g.blocks && c.block in p.g.succs
  {
    hide Strict, Reachable;
    StrictParts(p);
    RunsReach(p, sem, world, n);
  }

  lemma HeadIsZero(p: Program, repl: map<Id, Id>, b: Block, env: Env, env': Env)
    requires SameHead(p, repl, b, env, env')
    ensures SameKept(p, repl, b, 0, env, env')
  {
  }

  /**
    Replacing preserves every run: step by step the same block, the same effects,
    the same value in every available id that is kept, and the same result.
   */
  lemma {:induction false} ReplacementPreserves(p: Program, sem: Sem, world: World, repl: map<Id, Id>, n: nat)
    requires Sound(p, sem, world, repl)
    ensures Related(p, repl, Steps(p, sem, Start(p, world), n), Steps(Apply(p, repl), sem, Start(p, world), n))
    decreases n
  {
    hide Sound, Apply, StepConfig, SameHead;
    if n > 0 {
      ReplacementPreserves(p, sem, world, repl, n - 1);
      StepsAdd(p, sem, Start(p, world), n - 1, 1);
      StepsAdd(Apply(p, repl), sem, Start(p, world), n - 1, 1);
      var c, c' := Steps(p, sem, Start(p, world), n - 1), Steps(Apply(p, repl), sem, Start(p, world), n - 1);
      assert Steps(p, sem, c, 1) == StepConfig(p, sem, c);
      assert Steps(Apply(p, repl), sem, c', 1) == StepConfig(Apply(p, repl), sem, c');
      StepAlike(p, sem, world, repl, n - 1, c, c');
    } else {
      SameStart(p, repl);
    }
  }

  lemma SameStart(p: Program, repl: map<Id, Id>)
    ensures SameHead(p, repl, p.g.entry, map[], map[])
  {
  }

  // ----- the pass -----

  /** Where a value is in memory; nothing is assumed of it. */
  type Hash = Value -> nat

  const TWO64: nat := 0x1_0000_0000_0000_0000

  function OpCode(op: string): nat {
    if op == "" then 0
    else if |op| == 1 then op[0] as nat
    else op[0] as nat * 5 + op[1] as nat
  }

  /** The hash code of a binary instruction is the same whichever operand comes first. */
  function HashOf(address: Hash, i: Ins): nat {
    if i.kind.UNARY? && |i.args| == 1 then (address(i.args[0]) * if i.op == "" then 0 else i.op[0] as nat) % TWO64
    else if |i.args| == 2 then (OpCode(i.op) * (address(i.args[0]) + address(i.args[1]))) % TWO64
    else 0
  }

  predicate Candidate(i: Ins) {
    i.kind.BINARY? || i.kind.UNARY?
  }

  /** The same operator of the same operands, in either order if that does not matter. */
  predicate SameExpression(i: Ins, j: Ins) {
    && i.kind == j.kind && i.op == j.op
    && (i.args == j.args || (i.kind.BINARY? && Commutative(i.op) && |i.args| == 2 && j.args == [i.args[1], i.args[0]]))
  }

  lemma SameHash(hash: Hash, i: Ins, j: Ins)
    requires SameExpression(i, j)
    ensures HashOf(hash, i) == HashOf(hash, j)
  {
    if i.args != j.args {
      var a, b := hash(i.args[0]), hash(i.args[1]);
      assert HashOf(hash, i) == (OpCode(i.op) * (a + b)) % TWO64;
      assert HashOf(hash, j) == (OpCode(i.op) * (b + a)) % TWO64;
      assert a + b == b + a;
    }
  }

  /** Whatever commuting operators mean and whatever the world, the replacements are sound. */
  ghost predicate AlwaysSound(p: Program, repl: map<Id, Id>) {
    && Strict(p)
    && ReplOk(p, repl)
    && forall sem, world :: Commutes(sem) ==> ReplSound(p, sem, world, repl)
  }

  /** Nothing from instruction m of b on has been replaced. */
  ghost predicate Untouched(p: Program, repl: map<Id, Id>, b: Block, m: nat) {
    forall k :: m <= k < |CodeOf(p, b)| ==> CodeOf(p, b)[k].id !in repl
  }

  ghost predicate IsFirst(code: seq<Ins>, hash: Hash, h: nat, x: Id, i: nat) {
    && i < |code| && code[i].id == x && Candidate(code[i]) && HashOf(hash, code[i]) == h
    && forall j :: 0 <= j < |code| && j != i && Candidate(code[j]) && HashOf(hash, code[j]) == h ==> i < j && !SameExpression(code[i], code[j])
  }

  /** The map holds the first candidate of every hash code, and no later one repeats it. */
  ghost predicate Firsts(code: seq<Ins>, hash: Hash, seen: map<nat, Id>) {
    && (forall i :: 0 <= i < |code| && Candidate(code[i]) ==> HashOf(hash, code[i]) in seen)
    && (forall h :: h in seen ==> exists i :: IsFirst(code, hash, h, seen[h], i))
  }

  /** A repeated expression survives only behind another expression with the same hash code. */
  ghost predicate RepeatsCollide(code: seq<Ins>, hash: Hash) {
    forall i, j :: 0 <= i < j < |code| && Candidate(code[i]) && SameExpression(code[i], code[j]) ==>
      exists f :: 0 <= f < i && Candidate(code[f]) && HashOf(hash, code[f]) == HashOf(hash, code[i]) && !SameExpression(code[f], code[i])
  }

  lemma FirstsThenRepeats(code: seq<Ins>, hash: Hash, seen: map<nat, Id>)
    requires Firsts(code, hash, seen)
    ensures RepeatsCollide(code, hash)
  {
    forall i, j | 0 <= i < j < |code| && Candidate(code[i]) && SameExpression(code[i], code[j])
      ensures exists f :: 0 <= f < i && Candidate(code[f]) && HashOf(hash, code[f]) == HashOf(hash, code[i]) && !SameExpression(code[f], code[i])
    {
      var h := HashOf(hash, code[i]);
      var f :| IsFirst(code, hash, h, seen[h], f);
      SameHash(hash, code[i], code[j]);
      SameKind(code[i], code[j]);
      hide HashOf, SameExpression;
      assert f != i;
    }
  }

  lemma SameKind(i: Ins, j: Ins)
    requires SameExpression(i, j)
    ensures Candidate(i) <==> Candidate(j)
  {
  }

  lemma NewFirst(code: seq<Ins>, hash: Hash, seen: map<nat, Id>, ins: Ins)
    requires Firsts(code, hash, seen) && Candidate(ins) && HashOf(hash, ins) !in seen
    ensures Firsts(code + [ins], hash, seen[HashOf(hash, ins) := ins.id])
  {
    var seen' := seen[HashOf(hash, ins) := ins.id];
    forall h | h in seen' ensures exists i :: IsFirst(code + [ins], hash, h, seen'[h], i) {
      if h == HashOf(hash, ins) {
        assert IsFirst(code + [ins], hash, h, seen'[h], |code|);
      } else {
        var i :| IsFirst(code, hash, h, seen[h], i);
        assert IsFirst(code + [ins], hash, h, seen'[h], i);
      }
    }
  }

  lemma NotFirst(code: seq<Ins>, hash: Hash, seen: map<nat, Id>, ins: Ins)
    requires Firsts(code, hash, seen)
    requires Candidate(ins) ==> HashOf(hash, ins) in seen
    requires Candidate(ins) ==> forall i :: 0 <= i < |code| && code[i].id == seen[HashOf(hash, ins)] ==> !SameExpression(code[i], ins)
    ensures Firsts(code + [ins], hash, seen)
  {
    forall h | h in seen ensures exists i :: IsFirst(code + [ins], hash, h, seen[h], i) {
      var i :| IsFirst(code, hash, h, seen[h], i);
      assert IsFirst(code + [ins], hash, h, seen[h], i);
    }
  }

  // ----- composing replacements -----

  lemma {:induction false} ApplyCodeTwice(repl: map<Id, Id>, x: Id, a: Id, code: seq<Ins>)
    requires x !in repl && a !in repl && x != a && x !in repl.Values
    ensures ApplyCode(map[x := a], ApplyCode(repl, code)) == ApplyCode(repl[x := a], code)
  {
    if code != [] {
      ApplyCodeTwice(repl, x, a, code[1..]);
      SubstTwice(repl, x, a, code[0]);
      if code[0].id !in repl {
        var rest := ApplyCode(repl, code[1..]);
        assert ([SubstIns(repl, code[0])] + rest)[1..] == rest;
      } else {
        assert [] + ApplyCode(repl, code[1..]) == ApplyCode(repl, code[1..]);
      }
    }
  }

  lemma SubstTwiceValue(repl: map<Id, Id>, x: Id, a: Id, v: Value)
    requires x !in repl && x !in repl.Values
    ensures Subst(map[x := a], Subst(repl, v)) == Subst(repl[x := a], v)
  {
  }

  lemma SubstTwice(repl: map<Id, Id>, x: Id, a: Id, i: Ins)
    requires x !in repl && x !in repl.Values
    ensures SubstIns(map[x := a], SubstIns(repl, i)) == SubstIns(repl[x := a], i)
  {
    forall k | 0 <= k < |i.args| ensures Subst(map[x := a], Subst(repl, i.args[k])) == Subst(repl[x := a], i.args[k]) {
      SubstTwiceValue(repl, x, a, i.args[k]);
    }
    assert SubstAll(map[x := a], SubstAll(repl, i.args)) == SubstAll(repl[x := a], i.args);
  }

  lemma SubstPhisTwice(repl: map<Id, Id>, x: Id, a: Id, phis: map<Id, map<Block, Value>>)
    requires x !in repl && x !in repl.Values
    ensures SubstPhis(map[x := a], SubstPhis(repl, phis)) == SubstPhis(repl[x := a], phis)
  {
    hide Subst;
    forall y | y in phis ensures SubstOperands(map[x := a], SubstOperands(repl, phis[y])) == SubstOperands(repl[x := a], phis[y]) {
      forall q | q in phis[y] ensures Subst(map[x := a], Subst(repl, phis[y][q])) == Subst(repl[x := a], phis[y][q]) {
        SubstTwiceValue(repl, x, a, phis[y][q]);
      }
    }
  }

  lemma AllPhisTwice(p: Program, repl: map<Id, Id>, x: Id, a: Id)
    requires x !in repl && x !in repl.Values
    ensures Apply(Apply(p, repl), map[x := a]).phis == Apply(p, repl[x := a]).phis
  {
    hide ApplyCode, SubstPhis, SubstTerm;
    forall b | b in p.phis ensures SubstPhis(map[x := a], SubstPhis(repl, p.phis[b])) == SubstPhis(repl[x := a], p.phis[b]) {
      SubstPhisTwice(repl, x, a, p.phis[b]);
    }
  }

  lemma AllCodeTwice(p: Program, repl: map<Id, Id>, x: Id, a: Id)
    requires x !in repl && a !in repl && x != a && x !in repl.Values
    ensures Apply(Apply(p, repl), map[x := a]).code == Apply(p, repl[x := a]).code
  {
    hide ApplyCode, SubstPhis, SubstTerm;
    forall b | b in p.code ensures ApplyCode(map[x := a], ApplyCode(repl, p.code[b])) == ApplyCode(repl[x := a], p.code[b]) {
      ApplyCodeTwice(repl, x, a, p.code[b]);
    }
  }

  lemma AllTermsTwice(p: Program, repl: map<Id, Id>, x: Id, a: Id)
    requires x !in repl && x !in repl.Values
    ensures Apply(Apply(p, repl), map[x := a]).term == Apply(p, repl[x := a]).term
  {
    hide ApplyCode, SubstPhis, SubstTerm;
    forall b | b in p.term ensures SubstTerm(map[x := a], SubstTerm(repl, p.term[b])) == SubstTerm(repl[x := a], p.term[b]) {
      SubstTermTwice(repl, x, a, p.term[b]);
    }
  }

  lemma SubstTermTwice(repl: map<Id, Id>, x: Id, a: Id, t: Term)
    requires x !in repl && x !in repl.Values
    ensures SubstTerm(map[x := a], SubstTerm(repl, t)) == SubstTerm(repl[x := a], t)
  {
  }

  lemma ApplyTwice(p: Program, repl: map<Id, Id>, x: Id, a: Id)
    requires x !in repl && a !in repl && x != a && x !in repl.Values
    ensures Apply(Apply(p, repl), map[x := a]) == Apply(p, repl[x := a])
  {
    AllPhisTwice(p, repl, x, a);
    AllCodeTwice(p, repl, x, a);
    AllTermsTwice(p, repl, x, a);
  }

  lemma {:induction false} ApplyCodeSplit(repl: map<Id, Id>, c: seq<Ins>, d: seq<Ins>)
    ensures ApplyCode(repl, c + d) == ApplyCode(repl, c) + ApplyCode(repl, d)
  {
    if c == [] {
      assert c + d == d;
    } else {
      assert (c + d)[1..] == c[1..] + d;
      ApplyCodeSplit(repl, c[1..], d);
    }
  }

  lemma {:induction false} ApplyUntouched(repl: map<Id, Id>, code: seq<Ins>)
    requires forall k :: 0 <= k < |code| ==> code[k].id !in repl
    ensures |ApplyCode(repl, code)| == |code|
    ensures forall k :: 0 <= k < |code| ==> ApplyCode(repl, code)[k] == SubstIns(repl, code[k])
  {
    if code != [] {
      ApplyUntouched(repl, code[1..]);
    }
  }

  /** Instructions after replacing come from instructions before. */
  lemma {:induction false} ApplyCodeSource(repl: map<Id, Id>, code: seq<Ins>, k: nat) returns (j: nat)
    requires k < |ApplyCode(repl, code)|
    ensures j < |code| && ApplyCode(repl, code)[k] == SubstIns(repl, code[j]) && code[j].id !in repl
  {
    if code[0].id in repl {
      j := ApplyCodeSource(repl, code[1..], k);
      j := j + 1;
    } else if k == 0 {
      j := 0;
    } else {
      j := ApplyCodeSource(repl, code[1..], k - 1);
      j := j + 1;
    }
  }

  // ----- one more replacement -----

  /** Both instructions stand in bb: the m-th is judged equal to an earlier one. */
  ghost predicate Judged(p: Program, repl: map<Id, Id>, defs: map<Id, Ins>, b: Block, j: nat, m: nat, depth: nat) {
    && b in p.g.blocks && j < m < |CodeOf(p, b)| && IsPure(CodeOf(p, b)[m])
    && DefsOk(p, repl, defs)
    && Equals(defs, Result(CodeOf(p, b)[m].id), Result(CodeOf(p, b)[j].id), depth)
  }

  lemma JudgedIsSame(p: Program, sem: Sem, world: World, repl: map<Id, Id>, defs: map<Id, Ins>, b: Block, j: nat, m: nat, depth: nat)
    requires Sound(p, sem, world, repl) && Commutes(sem) && Judged(p, repl, defs, b, j, m, depth)
    ensures SameValue(p, sem, world, CodeOf(p, b)[m].id, CodeOf(p, b)[j].id)
  {
    hide Strict, Commutes, ReplOk, ReplSound, DefsOk, Point, AvailableAt, Equals;
    StrictParts(p);
    var x, a := CodeOf(p, b)[m].id, CodeOf(p, b)[j].id;
    assert DefinedAt(p, a, AsIns(b, j));
    forall n, i, c, env | Point(p, sem, world, n, i, c, env) && AvailableAt(p, x, c, i) ensures Get(env, x) == Get(env, a) {
      assert PureDef(p, x, b, m);
      EarlierAvailable(p, x, a, c, i);
      EqualsSound(p, sem, world, repl, defs, n, i, c, env, Result(x), Result(a), depth);
    }
  }

  lemma EarlierThan(p: Program, y: Id, b: Block, m: nat) returns (k: nat)
    requires UniqueDefs(p) && b in p.g.blocks && m < |CodeOf(p, b)| && Earlier(p, y, CodeOf(p, b)[m].id)
    ensures m < k < |CodeOf(p, b)| && CodeOf(p, b)[k].id == y
  {
    var x := CodeOf(p, b)[m].id;
    var c, l: nat, n: nat :| PureDef(p, y, c, n) && l < n && DefinedAt(p, x, AsIns(c, l));
    assert DefinedAt(p, x, AsIns(b, m));
    k := n;
  }

  lemma OneMore(p: Program, repl: map<Id, Id>, b: Block, j: nat, m: nat)
    requires UniqueDefs(p) && ReplOk(p, repl) && Untouched(p, repl, b, m)
    requires b in p.g.blocks && j < m < |CodeOf(p, b)| && IsPure(CodeOf(p, b)[m]) && CodeOf(p, b)[j].id !in repl
    ensures var x, a := CodeOf(p, b)[m].id, CodeOf(p, b)[j].id;
            x != a && x !in repl && x !in repl.Values && ReplOk(p, repl[x := a]) && Untouched(p, repl[x := a], b, m + 1)
  {
    hide IsPure;
    var x, a := CodeOf(p, b)[m].id, CodeOf(p, b)[j].id;
    assert DefinedAt(p, a, AsIns(b, j)) && DefinedAt(p, x, AsIns(b, m)) && PureDef(p, x, b, m);
    forall y | y in repl ensures repl[y] != x {
      assert Earlier(p, y, repl[y]);
      if repl[y] == x {
        var k := EarlierThan(p, y, b, m);
      }
    }
    forall k | m + 1 <= k < |CodeOf(p, b)| ensures CodeOf(p, b)[k].id !in repl[x := a] {
      assert DefinedAt(p, CodeOf(p, b)[k].id, AsIns(b, k));
    }
    assert Earlier(p, x, a);
  }

  lemma OneMoreSound(p: Program, repl: map<Id, Id>, defs: map<Id, Ins>, b: Block, j: nat, m: nat, depth: nat)
    requires AlwaysSound(p, repl) && Untouched(p, repl, b, m) && Judged(p, repl, defs, b, j, m, depth) && CodeOf(p, b)[j].id !in repl
    ensures var x, a := CodeOf(p, b)[m].id, CodeOf(p, b)[j].id;
            AlwaysSound(p, repl[x := a]) && Apply(Apply(p, repl), map[x := a]) == Apply(p, repl[x := a]) && Untouched(p, repl[x := a], b, m + 1)
  {
    hide Strict, Commutes, ReplOk, DefsOk, Equals, SameValue, Apply, Untouched;
    StrictParts(p);
    var x, a := CodeOf(p, b)[m].id, CodeOf(p, b)[j].id;
    OneMore(p, repl, b, j, m);
    ApplyTwice(p, repl, x, a);
    var repl' := repl[x := a];
    forall sem, world ensures Commutes(sem) ==> ReplSound(p, sem, world, repl') {
      if Commutes(sem) {
        assert ReplSound(p, sem, world, repl);
        JudgedIsSame(p, sem, world, repl, defs, b, j, m, depth);
      }
    }
  }

  /** Replacing the m-th instruction leaves the already scanned ones as they are. */
  lemma {:induction false} ScannedUnchanged(p: Program, repl: map<Id, Id>, b: Block, m: nat, a: Id, i: nat)
    requires Strict(p) && ReplOk(p, repl) && b in p.g.blocks && i <= m < |CodeOf(p, b)|
    ensures ApplyCode(repl[CodeOf(p, b)[m].id := a], CodeOf(p, b)[..i]) == ApplyCode(repl, CodeOf(p, b)[..i])
  {
    hide Strict, ReplOk, UseOk, AvailableAt;
    StrictParts(p);
    var x := CodeOf(p, b)[m].id;
    if i > 0 {
      ScannedUnchanged(p, repl, b, m, a, i - 1);
      var ins := CodeOf(p, b)[i - 1];
      assert CodeOf(p, b)[..i] == CodeOf(p, b)[..i - 1] + [ins];
      ApplyCodeSnoc(repl, CodeOf(p, b)[..i - 1], ins);
      ApplyCodeSnoc(repl[x := a], CodeOf(p, b)[..i - 1], ins);
      NotReadBefore(p, b, i - 1, m);
      assert SubstAll(repl[x := a], ins.args) == SubstAll(repl, ins.args);
    }
  }

  lemma NotReadBefore(p: Program, b: Block, i: nat, m: nat)
    requires UniqueDefs(p) && CodeUsesOk(p) && b in p.g.blocks && i < m < |CodeOf(p, b)|
    ensures CodeOf(p, b)[m].id != CodeOf(p, b)[i].id && Result(CodeOf(p, b)[m].id) !in CodeOf(p, b)[i].args
  {
    var x := CodeOf(p, b)[m].id;
    assert DefinedAt(p, x, AsIns(b, m)) && DefinedAt(p, CodeOf(p, b)[i].id, AsIns(b, i));
    NotYetAvailable(p, b, m);
    if Result(x) in CodeOf(p, b)[i].args {
      assert UseOk(p, Result(x), b, i);
      AvailableLater(p, x, b, i, m);
    }
  }

  // ----- the pass over one block and over a function -----

  /** Every instruction of the function, found by the id that stands for its address. */
  ghost predicate Collected(p: Program, defs: map<Id, Ins>) {
    && (forall x :: x in defs ==> exists b, k: nat :: b in p.g.blocks && k < |CodeOf(p, b)| && CodeOf(p, b)[k].id == x && defs[x] == CodeOf(p, b)[k])
    && (forall b, k: nat :: b in p.g.blocks && k < |CodeOf(p, b)| ==> CodeOf(p, b)[k].id in defs)
  }

  method CollectBlock(p: Program, b: Block, defs: map<Id, Ins>) returns (r: map<Id, Ins>)
    ensures forall x :: x in r ==> (x in defs && r[x] == defs[x]) || exists k: nat :: k < |CodeOf(p, b)| && CodeOf(p, b)[k].id == x && r[x] == CodeOf(p, b)[k]
    ensures forall x :: x in defs ==> x in r
    ensures forall k: nat :: k < |CodeOf(p, b)| ==> CodeOf(p, b)[k].id in r
  {
    hide CodeOf;
    r := defs;
    var code := CodeOf(p, b);
    for i := 0 to |code|
      invariant forall x :: x in r ==> (x in defs && r[x] == defs[x]) || exists k: nat :: k < i && code[k].id == x && r[x] == code[k]
      invariant forall x :: x in defs ==> x in r
      invariant forall k: nat :: k < i ==> code[k].id in r
    {
      r := r[code[i].id := code[i]];
    }
  }

  method Collect(p: Program) returns (defs: map<Id, Ins>)
    ensures Collected(p, defs)
  {
    hide CodeOf;
    defs := map[];
    for i := 0 to |p.g.blocks|
      invariant forall x :: x in defs ==> exists b, k: nat :: b in p.g.blocks && k < |CodeOf(p, b)| && CodeOf(p, b)[k].id == x && defs[x] == CodeOf(p, b)[k]
      invariant forall l: nat, k: nat :: l < i && k < |CodeOf(p, p.g.blocks[l])| ==> CodeOf(p, p.g.blocks[l])[k].id in defs
    {
      defs := CollectBlock(p, p.g.blocks[i], defs);
    }
    forall b, k: nat | b in p.g.blocks && k < |CodeOf(p, b)| ensures CodeOf(p, b)[k].id in defs {
      var l :| 0 <= l < |p.g.blocks| && p.g.blocks[l] == b;
    }
  }

  lemma CollectedIsCurrent(p: Program, repl: map<Id, Id>, defs: map<Id, Ins>)
    requires Collected(Apply(p, repl), defs)
    ensures DefsOk(p, repl, defs)
  {
    hide ApplyCode, SubstPhis, SubstTerm;
    forall x | x in defs
      ensures exists b, k: nat :: b in p.g.blocks && k < |CodeOf(p, b)| && CodeOf(p, b)[k].id == x && defs[x] == SubstIns(repl, CodeOf(p, b)[k])
    {
      var b, k: nat :| b in p.g.blocks && k < |CodeOf(Apply(p, repl), b)| && CodeOf(Apply(p, repl), b)[k].id == x && defs[x] == CodeOf(Apply(p, repl), b)[k];
      AppliedCode(p, repl, b);
      var j := ApplyCodeSource(repl, CodeOf(p, b), k);
      assert b in p.g.blocks && j < |CodeOf(p, b)| && CodeOf(p, b)[j].id == x && defs[x] == SubstIns(repl, CodeOf(p, b)[j]);
    }
  }

  lemma AppliedCode(p: Program, repl: map<Id, Id>, b: Block)
    ensures CodeOf(Apply(p, repl), b) == ApplyCode(repl, CodeOf(p, b))
  {
  }

  /** The scan of bb stands before instruction m of the original, position k of the current code. */
  ghost predicate Scanning(p: Program, repl: map<Id, Id>, ir: Program, b: Block, m: nat, k: nat) {
    && AlwaysSound(p, repl) && ir == Apply(p, repl)
    && b in p.g.blocks && m <= |CodeOf(p, b)| && Untouched(p, repl, b, m)
    && k == |ApplyCode(repl, CodeOf(p, b)[..m])|
  }

  lemma ScanningAt(p: Program, repl: map<Id, Id>, ir: Program, b: Block, m: nat, k: nat)
    requires Scanning(p, repl, ir, b, m, k)
    ensures |CodeOf(ir, b)| - k == |CodeOf(p, b)| - m
    ensures CodeOf(ir, b)[..k] == ApplyCode(repl, CodeOf(p, b)[..m])
    ensures m < |CodeOf(p, b)| ==> CodeOf(ir, b)[k] == SubstIns(repl, CodeOf(p, b)[m])
  {
    hide ApplyCode, AlwaysSound, SubstIns;
    var code := CodeOf(p, b);
    AppliedCode(p, repl, b);
    assert code == code[..m] + code[m..];
    ApplyCodeSplit(repl, code[..m], code[m..]);
    ApplyUntouched(repl, code[m..]);
  }

  lemma ScanKeeps(p: Program, repl: map<Id, Id>, ir: Program, b: Block, m: nat, k: nat)
    requires Scanning(p, repl, ir, b, m, k) && m < |CodeOf(p, b)|
    ensures Scanning(p, repl, ir, b, m + 1, k + 1)
  {
    hide AlwaysSound, ApplyCode, SubstIns;
    var code := CodeOf(p, b);
    assert code[..m + 1] == code[..m] + [code[m]];
    ApplyCodeSnoc(repl, code[..m], code[m]);
  }

  predicate SamePrefix(c: seq<Ins>, d: seq<Ins>, k: nat) {
    k <= |c| && k <= |d| && c[..k] == d[..k]
  }

  lemma ScanReplaces(p: Program, repl: map<Id, Id>, ir: Program, defs: map<Id, Ins>, b: Block, j: nat, m: nat, k: nat, depth: nat)
    requires Scanning(p, repl, ir, b, m, k) && Judged(p, repl, defs, b, j, m, depth)
    requires j < m < |CodeOf(p, b)| && CodeOf(p, b)[j].id !in repl
    ensures var x, a := CodeOf(p, b)[m].id, CodeOf(p, b)[j].id;
            Scanning(p, repl[x := a], Apply(ir, map[x := a]), b, m + 1, k) && SamePrefix(CodeOf(ir, b), CodeOf(Apply(ir, map[x := a]), b), k)
  {
    hide Scanning, Judged, AlwaysSound, Untouched, Strict, ReplOk, Apply, ApplyCode, CodeOf;
    var x, a := CodeOf(p, b)[m].id, CodeOf(p, b)[j].id;
    var repl', ir' := repl[x := a], Apply(ir, map[x := a]);
    ScanningParts(p, repl, ir, b, m, k);
    OneMoreSound(p, repl, defs, b, j, m, depth);
    StillScanned(p, repl, b, m, a);
    ScanningFrom(p, repl', ir', b, m + 1, k);
    ScanningAt(p, repl, ir, b, m, k);
    ScanningAt(p, repl', ir', b, m + 1, k);
  }

  lemma ScanningParts(p: Program, repl: map<Id, Id>, ir: Program, b: Block, m: nat, k: nat)
    requires Scanning(p, repl, ir, b, m, k)
    ensures AlwaysSound(p, repl) && ir == Apply(p, repl) && b in p.g.blocks && m <= |CodeOf(p, b)| && Untouched(p, repl, b, m)
    ensures k == |ApplyCode(repl, CodeOf(p, b)[..m])| && Strict(p) && ReplOk(p, repl)
  {
  }

  lemma ScanningFrom(p: Program, repl: map<Id, Id>, ir: Program, b: Block, m: nat, k: nat)
    requires AlwaysSound(p, repl) && ir == Apply(p, repl) && b in p.g.blocks && m <= |CodeOf(p, b)| && Untouched(p, repl, b, m)
    requires k == |ApplyCode(repl, CodeOf(p, b)[..m])|
    ensures Scanning(p, repl, ir, b, m, k)
  {
  }

  lemma StillScanned(p: Program, repl: map<Id, Id>, b: Block, m: nat, a: Id)
    requires Strict(p) && ReplOk(p, repl) && b in p.g.blocks && m < |CodeOf(p, b)|
    ensures var repl' := repl[CodeOf(p, b)[m].id := a];
            ApplyCode(repl', CodeOf(p, b)[..m + 1]) == ApplyCode(repl, CodeOf(p, b)[..m])
  {
    hide Strict, ReplOk, ApplyCode;
    var code, x := CodeOf(p, b), CodeOf(p, b)[m].id;
    ScannedUnchanged(p, repl, b, m, a, m);
    assert code[..m + 1] == code[..m] + [code[m]];
    ApplyCodeSnoc(repl[x := a], code[..m], code[m]);
  }

  /** What the hash map holds are instructions of b that were scanned and kept. */
  ghost predicate SeenKept(p: Program, repl: map<Id, Id>, b: Block, m: nat, seen: map<nat, Id>) {
    forall h :: h in seen ==> seen[h] !in repl && exists j: nat :: j < m && j < |CodeOf(p, b)| && CodeOf(p, b)[j].id == seen[h]
  }

  lemma SeenNext(p: Program, repl: map<Id, Id>, b: Block, m: nat, seen: map<nat, Id>, h: nat)
    requires SeenKept(p, repl, b, m, seen) && m < |CodeOf(p, b)| && Untouched(p, repl, b, m)
    ensures SeenKept(p, repl, b, m + 1, seen) && SeenKept(p, repl, b, m + 1, seen[h := CodeOf(p, b)[m].id])
  {
  }

  lemma SeenAfter(p: Program, repl: map<Id, Id>, b: Block, m: nat, seen: map<nat, Id>, a: Id)
    requires SeenKept(p, repl, b, m, seen) && m < |CodeOf(p, b)| && UniqueDefs(p) && b in p.g.blocks
    ensures SeenKept(p, repl[CodeOf(p, b)[m].id := a], b, m + 1, seen)
  {
    hide UniqueDefs;
    forall h | h in seen ensures seen[h] != CodeOf(p, b)[m].id {
      var j: nat :| j < m && CodeOf(p, b)[j].id == seen[h];
      DistinctIds(p, b, j, m);
    }
  }

  lemma DistinctIds(p: Program, b: Block, j: nat, m: nat)
    requires UniqueDefs(p) && b in p.g.blocks && j < m < |CodeOf(p, b)|
    ensures CodeOf(p, b)[j].id != CodeOf(p, b)[m].id
  {
    assert DefinedAt(p, CodeOf(p, b)[j].id, AsIns(b, j)) && DefinedAt(p, CodeOf(p, b)[m].id, AsIns(b, m));
  }

  /** Unary instructions have one operand, binary ones two. */
  ghost predicate AllShaped(p: Program) {
    forall b, k: nat :: b in p.g.blocks && k < |CodeOf(p, b)| ==> Shaped(CodeOf(p, b)[k])
  }

  lemma DefOfPosition(p: Program, repl: map<Id, Id>, ir: Program, defs: map<Id, Ins>, b: Block, i: nat)
    requires ir == Apply(p, repl) && Collected(ir, defs) && UniqueDefs(p) && b in p.g.blocks && i < |CodeOf(ir, b)|
    ensures CodeOf(ir, b)[i].id in defs && defs[CodeOf(ir, b)[i].id] == CodeOf(ir, b)[i]
  {
    hide ApplyCode, SubstPhis, SubstTerm, SubstAll;
    var x := CodeOf(ir, b)[i].id;
    AppliedCode(p, repl, b);
    var j := ApplyCodeSource(repl, CodeOf(p, b), i);
    assert DefinedAt(p, x, AsIns(b, j));
    var c, l: nat :| c in ir.g.blocks && l < |CodeOf(ir, c)| && CodeOf(ir, c)[l].id == x && defs[x] == CodeOf(ir, c)[l];
    AppliedCode(p, repl, c);
    var n := ApplyCodeSource(repl, CodeOf(p, c), l);
    assert DefinedAt(p, x, AsIns(c, n));
    assert AsIns(b, j) == AsIns(c, n);
  }

  /** An instruction that repeats an earlier one is judged equal to it. */
  lemma SameIsEqual(p: Program, repl: map<Id, Id>, ir: Program, defs: map<Id, Ins>, b: Block, i: nat, k: nat, depth: nat)
    requires ir == Apply(p, repl) && Collected(ir, defs) && UniqueDefs(p) && b in p.g.blocks && i < k < |CodeOf(ir, b)|
    requires Candidate(CodeOf(ir, b)[k]) && Shaped(CodeOf(ir, b)[k]) && SameExpression(CodeOf(ir, b)[i], CodeOf(ir, b)[k]) && depth > 0
    ensures Equals(defs, Result(CodeOf(ir, b)[k].id), Result(CodeOf(ir, b)[i].id), depth)
  {
    hide Apply, Collected, UniqueDefs;
    DefOfPosition(p, repl, ir, defs, b, i);
    DefOfPosition(p, repl, ir, defs, b, k);
  }

  /** Only instructions of b were added to the replacements. */
  ghost predicate OnlyFrom(p: Program, done: map<Id, Id>, repl: map<Id, Id>, b: Block) {
    && (forall x :: x in repl ==> x in done || exists k: nat :: k < |CodeOf(p, b)| && CodeOf(p, b)[k].id == x)
    && (forall x :: x in done ==> x in repl && repl[x] == done[x])
  }

  /** The loop invariant of the pass over b. */
  ghost predicate Passing(p: Program, done: map<Id, Id>, repl: map<Id, Id>, ir: Program, b: Block, m: nat, k: nat, hash: Hash, seen: map<nat, Id>) {
    && Scanning(p, repl, ir, b, m, k)
    && SeenKept(p, repl, b, m, seen)
    && k <= |CodeOf(ir, b)| && Firsts(CodeOf(ir, b)[..k], hash, seen)
    && OnlyFrom(p, done, repl, b)
  }

  lemma PassStarts(p: Program, done: map<Id, Id>, ir: Program, b: Block, hash: Hash)
    requires AlwaysSound(p, done) && ir == Apply(p, done) && b in p.g.blocks && Untouched(p, done, b, 0)
    ensures Passing(p, done, done, ir, b, 0, 0, hash, map[])
  {
    hide AlwaysSound, Apply, Untouched;
  }

  lemma Current(p: Program, done: map<Id, Id>, repl: map<Id, Id>, ir: Program, b: Block, m: nat, k: nat, hash: Hash, seen: map<nat, Id>)
    requires Passing(p, done, repl, ir, b, m, k, hash, seen)
    ensures k <= |CodeOf(ir, b)| && |CodeOf(ir, b)| - k == |CodeOf(p, b)| - m
    ensures k < |CodeOf(ir, b)| ==> CodeOf(ir, b)[k] == SubstIns(repl, CodeOf(p, b)[m])
    ensures AlwaysSound(p, repl) && ir == Apply(p, repl) && UniqueDefs(p) && b in p.g.blocks && Firsts(CodeOf(ir, b)[..k], hash, seen)
    ensures Untouched(p, repl, b, m) && OnlyFrom(p, done, repl, b) && SeenKept(p, repl, b, m, seen)
  {
    hide Firsts, SeenKept, OnlyFrom, ApplyCode, Untouched, CodeOf, Apply, ReplOk;
    ScanningAt(p, repl, ir, b, m, k);
    StrictParts(p);
  }

  /** The instruction is not a candidate, or differs from the recorded one. */
  lemma PassKeeps(p: Program, done: map<Id, Id>, repl: map<Id, Id>, ir: Program, b: Block, m: nat, k: nat, hash: Hash, seen: map<nat, Id>)
    requires Passing(p, done, repl, ir, b, m, k, hash, seen) && k < |CodeOf(ir, b)|
    requires Candidate(CodeOf(ir, b)[k]) ==> HashOf(hash, CodeOf(ir, b)[k]) in seen
    requires Candidate(CodeOf(ir, b)[k]) ==> forall i :: 0 <= i < k && CodeOf(ir, b)[i].id == seen[HashOf(hash, CodeOf(ir, b)[k])] ==> !SameExpression(CodeOf(ir, b)[i], CodeOf(ir, b)[k])
    ensures Passing(p, done, repl, ir, b, m + 1, k + 1, hash, seen)
  {
    Current(p, done, repl, ir, b, m, k, hash, seen);
    hide Firsts, SeenKept, OnlyFrom, Scanning, CodeOf, AlwaysSound, Apply, UniqueDefs, Untouched, HashOf, SameExpression, Candidate;
    var code := CodeOf(ir, b);
    ScanKeeps(p, repl, ir, b, m, k);
    SeenNext(p, repl, b, m, seen, 0);
    NotFirst(code[..k], hash, seen, code[k]);
    assert code[..k + 1] == code[..k] + [code[k]];
  }

  lemma PassRecords(p: Program, done: map<Id, Id>, repl: map<Id, Id>, ir: Program, b: Block, m: nat, k: nat, hash: Hash, seen: map<nat, Id>)
    requires Passing(p, done, repl, ir, b, m, k, hash, seen) && k < |CodeOf(ir, b)|
    requires Candidate(CodeOf(ir, b)[k]) && HashOf(hash, CodeOf(ir, b)[k]) !in seen
    ensures Passing(p, done, repl, ir, b, m + 1, k + 1, hash, seen[HashOf(hash, CodeOf(ir, b)[k]) := CodeOf(ir, b)[k].id])
  {
    hide *;
    var code := CodeOf(ir, b);
    Current(p, done, repl, ir, b, m, k, hash, seen);
    PassingScans(p, done, repl, ir, b, m, k, hash, seen);
    ScanKeeps(p, repl, ir, b, m, k);
    SeenNext(p, repl, b, m, seen, HashOf(hash, code[k]));
    NewFirst(code[..k], hash, seen, code[k]);
    assert code[..k + 1] == code[..k] + [code[k]];
    SubstKeepsId(repl, CodeOf(p, b)[m]);
    PassingFrom(p, done, repl, ir, b, m + 1, k + 1, hash, seen[HashOf(hash, code[k]) := code[k].id]);
  }

  lemma SubstKeepsId(repl: map<Id, Id>, i: Ins)
    ensures SubstIns(repl, i).id == i.id
  {
  }

  lemma PassingScans(p: Program, done: map<Id, Id>, repl: map<Id, Id>, ir: Program, b: Block, m: nat, k: nat, hash: Hash, seen: map<nat, Id>)
    requires Passing(p, done, repl, ir, b, m, k, hash, seen)
    ensures Scanning(p, repl, ir, b, m, k)
  {
  }

  lemma PassingFrom(p: Program, done: map<Id, Id>, repl: map<Id, Id>, ir: Program, b: Block, m: nat, k: nat, hash: Hash, seen: map<nat, Id>)
    requires Scanning(p, repl, ir, b, m, k) && SeenKept(p, repl, b, m, seen)
    requires k <= |CodeOf(ir, b)| && Firsts(CodeOf(ir, b)[..k], hash, seen) && OnlyFrom(p, done, repl, b)
    ensures Passing(p, done, repl, ir, b, m, k, hash, seen)
  {
  }

  lemma PassReplaces(p: Program, done: map<Id, Id>, repl: map<Id, Id>, ir: Program, b: Block, m: nat, k: nat, hash: Hash, seen: map<nat, Id>,
                     defs: map<Id, Ins>, depth: nat)
    requires Passing(p, done, repl, ir, b, m, k, hash, seen) && k < |CodeOf(ir, b)| && Candidate(CodeOf(ir, b)[k])
    requires HashOf(hash, CodeOf(ir, b)[k]) in seen && Collected(ir, defs)
    requires Equals(defs, Result(CodeOf(ir, b)[k].id), Result(seen[HashOf(hash, CodeOf(ir, b)[k])]), depth)
    ensures var x, a := CodeOf(ir, b)[k].id, seen[HashOf(hash, CodeOf(ir, b)[k])];
            Passing(p, done, repl[x := a], Apply(ir, map[x := a]), b, m + 1, k, hash, seen)
  {
    Current(p, done, repl, ir, b, m, k, hash, seen);
    hide Firsts, OnlyFrom, Scanning, CodeOf, AlwaysSound, Apply, UniqueDefs, Untouched, HashOf, SubstAll, Equals, DefsOk;
    var x, a := CodeOf(ir, b)[k].id, seen[HashOf(hash, CodeOf(ir, b)[k])];
    var j: nat :| j < m && j < |CodeOf(p, b)| && CodeOf(p, b)[j].id == a;
    CollectedIsCurrent(p, repl, defs);
    assert Judged(p, repl, defs, b, j, m, depth);
    ScanReplaces(p, repl, ir, defs, b, j, m, k, depth);
    SeenAfter(p, repl, b, m, seen, a);
    AddedFrom(p, done, repl, b, m, a);
  }

  lemma AddedFrom(p: Program, done: map<Id, Id>, repl: map<Id, Id>, b: Block, m: nat, a: Id)
    requires OnlyFrom(p, done, repl, b) && m < |CodeOf(p, b)| && Untouched(p, repl, b, m)
    ensures OnlyFrom(p, done, repl[CodeOf(p, b)[m].id := a], b)
  {
    assert CodeOf(p, b)[m].id !in repl;
  }

  /** With the replacements r, instruction f of the code is another expression than instruction i and has its hash code. */
  ghost predicate Clash(hash: Hash, r: map<Id, Id>, code: seq<Ins>, f: nat, i: nat)
    requires f < |code| && i < |code|
  {
    && code[f].id !in r && Candidate(code[f])
    && HashOf(hash, SubstIns(r, code[f])) == HashOf(hash, SubstIns(r, code[i]))
    && !SameExpression(SubstIns(r, code[f]), SubstIns(r, code[i]))
  }

  ghost predicate Clashes(hash: Hash, repl: map<Id, Id>, code: seq<Ins>, i: nat)
    requires i < |code|
  {
    exists r, f :: (forall x :: x in r ==> x in repl && repl[x] == r[x]) && 0 <= f < i && Clash(hash, r, code, f, i)
  }

  /**
    Of two equal expressions in one block at most one remains, unless, when the block was
    done, some other expression in front of both had their hash code.
   */
  ghost predicate RepeatsGone(p: Program, repl: map<Id, Id>, b: Block, hash: Hash) {
    forall i, j :: 0 <= i < j < |CodeOf(p, b)| && Candidate(CodeOf(p, b)[i]) && SameExpression(CodeOf(p, b)[i], CodeOf(p, b)[j]) ==>
      CodeOf(p, b)[i].id in repl || CodeOf(p, b)[j].id in repl || Clashes(hash, repl, CodeOf(p, b), i)
  }

  /** Where instruction i of the original stands after replacing. */
  lemma PlaceOf(repl: map<Id, Id>, code: seq<Ins>, i: nat) returns (k: nat)
    requires i < |code| && code[i].id !in repl
    ensures k == |ApplyCode(repl, code[..i])| && k < |ApplyCode(repl, code)| && ApplyCode(repl, code)[k] == SubstIns(repl, code[i])
  {
    hide SubstIns;
    k := |ApplyCode(repl, code[..i])|;
    assert code == code[..i] + code[i..];
    ApplyCodeSplit(repl, code[..i], code[i..]);
  }

  lemma RepeatsAreGone(p: Program, repl: map<Id, Id>, b: Block, hash: Hash)
    requires RepeatsCollide(CodeOf(Apply(p, repl), b), hash)
    ensures RepeatsGone(p, repl, b, hash)
  {
    hide Apply, ApplyCode, RepeatsCollide, HashOf, SameExpression, Clashes, Candidate;
    var code := CodeOf(p, b);
    AppliedCode(p, repl, b);
    forall i, j | 0 <= i < j < |code| && Candidate(code[i]) && SameExpression(code[i], code[j]) && code[i].id !in repl && code[j].id !in repl
      ensures Clashes(hash, repl, code, i)
    {
      RepeatClashes(repl, code, hash, i, j);
    }
  }

  lemma RepeatClashes(repl: map<Id, Id>, code: seq<Ins>, hash: Hash, i: nat, j: nat)
    requires RepeatsCollide(ApplyCode(repl, code), hash)
    requires i < j < |code| && Candidate(code[i]) && SameExpression(code[i], code[j]) && code[i].id !in repl && code[j].id !in repl
    ensures Clashes(hash, repl, code, i)
  {
    hide *;
    var k, l := PlacesOf(repl, code, i, j);
    StillSame(repl, code[i], code[j]);
    var now := ApplyCode(repl, code);
    var f' := Collides(now, hash, k, l);
    SplitAt(repl, code, i, f');
    var f := ApplyCodeSource(repl, code[..i], f');
    ClashFound(hash, repl, code, f, i, now[f'], now[k]);
  }

  lemma PlacesOf(repl: map<Id, Id>, code: seq<Ins>, i: nat, j: nat) returns (k: nat, l: nat)
    requires i < j < |code| && code[i].id !in repl && code[j].id !in repl
    ensures k == |ApplyCode(repl, code[..i])| && k < l < |ApplyCode(repl, code)|
    ensures ApplyCode(repl, code)[k] == SubstIns(repl, code[i]) && ApplyCode(repl, code)[l] == SubstIns(repl, code[j])
  {
    hide ApplyCode, SubstIns;
    k := PlaceOf(repl, code, i);
    l := PlaceOf(repl, code, j);
    assert code[..j] == code[..i] + code[i..j];
    ApplyCodeSplit(repl, code[..i], code[i..j]);
    FirstKept(repl, code[i..j]);
  }

  lemma Collides(code: seq<Ins>, hash: Hash, k: nat, l: nat) returns (f: nat)
    requires RepeatsCollide(code, hash) && k < l < |code| && Candidate(code[k]) && SameExpression(code[k], code[l])
    ensures f < k && Candidate(code[f]) && HashOf(hash, code[f]) == HashOf(hash, code[k]) && !SameExpression(code[f], code[k])
  {
    hide HashOf, SameExpression;
    f :| 0 <= f < k && Candidate(code[f]) && HashOf(hash, code[f]) == HashOf(hash, code[k]) && !SameExpression(code[f], code[k]);
  }

  lemma SplitAt(repl: map<Id, Id>, code: seq<Ins>, i: nat, f: nat)
    requires i < |code| && f < |ApplyCode(repl, code[..i])|
    ensures f < |ApplyCode(repl, code)| && ApplyCode(repl, code)[f] == ApplyCode(repl, code[..i])[f]
  {
    hide ApplyCode;
    assert code == code[..i] + code[i..];
    ApplyCodeSplit(repl, code[..i], code[i..]);
  }

  lemma ClashFound(hash: Hash, repl: map<Id, Id>, code: seq<Ins>, f: nat, i: nat, first: Ins, later: Ins)
    requires f < i < |code| && code[..i][f].id !in repl && first == SubstIns(repl, code[..i][f]) && later == SubstIns(repl, code[i])
    requires Candidate(first) && HashOf(hash, first) == HashOf(hash, later) && !SameExpression(first, later)
    ensures Clashes(hash, repl, code, i)
  {
    hide HashOf, SameExpression;
    assert code[..i][f] == code[f];
    assert Clash(hash, repl, code, f, i);
  }

  lemma StillSame(repl: map<Id, Id>, i: Ins, j: Ins)
    requires SameExpression(i, j)
    ensures SameExpression(SubstIns(repl, i), SubstIns(repl, j)) && (Candidate(i) <==> Candidate(SubstIns(repl, i)))
  {
  }

  lemma FirstKept(repl: map<Id, Id>, code: seq<Ins>)
    requires code != [] && code[0].id !in repl
    ensures |ApplyCode(repl, code)| > 0
  {
  }

  lemma GoneStays(p: Program, done: map<Id, Id>, repl: map<Id, Id>, b: Block, c: Block, hash: Hash)
    requires OnlyFrom(p, done, repl, b) && RepeatsGone(p, done, c, hash)
    ensures RepeatsGone(p, repl, c, hash)
  {
    hide SameExpression, Clash, Candidate;
    forall i | 0 <= i < |CodeOf(p, c)| && Clashes(hash, done, CodeOf(p, c), i) ensures Clashes(hash, repl, CodeOf(p, c), i) {
      var r, f :| (forall x :: x in r ==> x in done && done[x] == r[x]) && 0 <= f < i && Clash(hash, r, CodeOf(p, c), f, i);
    }
  }

  lemma OthersUntouched(p: Program, done: map<Id, Id>, repl: map<Id, Id>, b: Block, c: Block)
    requires UniqueDefs(p) && OnlyFrom(p, done, repl, b) && Untouched(p, done, c, 0) && b in p.g.blocks && c in p.g.blocks && b != c
    ensures Untouched(p, repl, c, 0)
  {
    forall k: nat | k < |CodeOf(p, c)| ensures CodeOf(p, c)[k].id !in repl {
      assert DefinedAt(p, CodeOf(p, c)[k].id, AsIns(c, k));
      forall j: nat | j < |CodeOf(p, b)| ensures CodeOf(p, b)[j].id != CodeOf(p, c)[k].id {
        assert DefinedAt(p, CodeOf(p, b)[j].id, AsIns(b, j));
      }
    }
  }

  lemma NothingReplaced(p: Program)
    requires Strict(p)
    ensures AlwaysSound(p, map[]) && Apply(p, map[]) == p && forall b :: Untouched(p, map[], b, 0)
  {
    hide Strict;
    forall b | b in p.phis ensures SubstPhis(map[], p.phis[b]) == p.phis[b] {
      forall y | y in p.phis[b] ensures SubstOperands(map[], p.phis[b][y]) == p.phis[b][y] {
      }
    }
    forall b | b in p.code ensures ApplyCode(map[], p.code[b]) == p.code[b] {
      NothingInCode(p.code[b]);
    }
  }

  lemma {:induction false} NothingInCode(code: seq<Ins>)
    ensures ApplyCode(map[], code) == code
  {
    if code != [] {
      assert SubstAll(map[], code[0].args) == code[0].args;
      NothingInCode(code[1..]);
    }
  }

  class FunctionIr {
    var ir: Program

    constructor (p: Program)
      ensures ir == p
    {
      ir := p;
    }

    /** p is the function before the whole pass, done what earlier blocks replaced in it. */
    method BlockCommonSubexpressionElimination(bb: Block, hash: Hash, depth: nat, ghost p: Program, ghost done: map<Id, Id>)
        returns (ghost repl: map<Id, Id>)
      requires AlwaysSound(p, done) && ir == Apply(p, done) && AllShaped(p)
      requires bb in p.g.blocks && Untouched(p, done, bb, 0) && depth > 0
      modifies this
      ensures AlwaysSound(p, repl) && ir == Apply(p, repl) && OnlyFrom(p, done, repl, bb)
      ensures RepeatsCollide(CodeOf(ir, bb), hash)
    {
      hide *;
      repl := done;
      ghost var m := 0;
      var k := 0;
      var seen: map<nat, Id> := map[];
      PassStarts(p, done, ir, bb, hash);
      Current(p, done, repl, ir, bb, m, k, hash, seen);
      while k < |CodeOf(ir, bb)|
        invariant Passing(p, done, repl, ir, bb, m, k, hash, seen)
        invariant k <= |CodeOf(ir, bb)| && |CodeOf(ir, bb)| - k == |CodeOf(p, bb)| - m
        decreases |CodeOf(p, bb)| - m
      {
        Current(p, done, repl, ir, bb, m, k, hash, seen);
        var ins := CodeOf(ir, bb)[k];
        if !Candidate(ins) {
          PassKeeps(p, done, repl, ir, bb, m, k, hash, seen);
          k := k + 1;
        } else if HashOf(hash, ins) in seen {
          var a := seen[HashOf(hash, ins)];
          var defs := Collect(ir);
          if Equals(defs, Result(ins.id), Result(a), depth) {
            PassReplaces(p, done, repl, ir, bb, m, k, hash, seen, defs, depth);
            ir, repl := Apply(ir, map[ins.id := a]), repl[ins.id := a];
          } else {
            forall i | 0 <= i < k && CodeOf(ir, bb)[i].id == a ensures !SameExpression(CodeOf(ir, bb)[i], ins) {
              Unequal(p, repl, ir, defs, bb, i, k, depth);
            }
            PassKeeps(p, done, repl, ir, bb, m, k, hash, seen);
            k := k + 1;
          }
        } else {
          PassRecords(p, done, repl, ir, bb, m, k, hash, seen);
          seen := seen[HashOf(hash, ins) := ins.id];
          k := k + 1;
        }
        m := m + 1;
        Current(p, done, repl, ir, bb, m, k, hash, seen);
      }
      Current(p, done, repl, ir, bb, m, k, hash, seen);
      assert CodeOf(ir, bb)[..k] == CodeOf(ir, bb);
      FirstsThenRepeats(CodeOf(ir, bb), hash, seen);
    }

    /**
      Every block in turn.  The result runs as the original did, whatever the
      operators mean and whatever the world, provided + and * commute.
     */
    method LocalCommonSubexpressionElimination(hash: Hash, depth: nat) returns (ghost repl: map<Id, Id>)
      requires Strict(ir) && AllShaped(ir) && depth > 0
      requires forall i, j :: 0 <= i < j < |ir.g.blocks| ==> ir.g.blocks[i] != ir.g.blocks[j]
      modifies this
      ensures ReplOk(old(ir), repl) && ir == Apply(old(ir), repl)
      ensures forall sem, world, n :: Commutes(sem) ==> Related(old(ir), repl, Steps(old(ir), sem, Start(old(ir), world), n), Steps(ir, sem, Start(old(ir), world), n))
      ensures forall b :: b in old(ir).g.blocks ==> RepeatsGone(old(ir), repl, b, hash)
    {
      hide *;
      ghost var p := ir;
      var blocks := ir.g.blocks;
      repl := map[];
      NothingReplaced(p);
      for i := 0 to |blocks|
        invariant AlwaysSound(p, repl) && ir == Apply(p, repl)
        invariant forall j :: i <= j < |blocks| ==> Untouched(p, repl, blocks[j], 0)
        invariant forall j :: 0 <= j < i ==> RepeatsGone(p, repl, blocks[j], hash)
      {
        ghost var done := repl;
        repl := BlockCommonSubexpressionElimination(blocks[i], hash, depth, p, done);
        SoundParts(p, repl);
        forall j | i < j < |blocks| ensures Untouched(p, repl, blocks[j], 0) {
          OthersUntouched(p, done, repl, blocks[i], blocks[j]);
        }
        RepeatsAreGone(p, repl, blocks[i], hash);
        forall j | 0 <= j < i ensures RepeatsGone(p, repl, blocks[j], hash) {
          GoneStays(p, done, repl, blocks[i], blocks[j], hash);
        }
      }
      SoundParts(p, repl);
      AllRunsPreserved(p, repl);
    }
  }

  lemma SoundParts(p: Program, repl: map<Id, Id>)
    requires AlwaysSound(p, repl)
    ensures UniqueDefs(p) && ReplOk(p, repl)
  {
  }

  lemma AllRunsPreserved(p: Program, repl: map<Id, Id>)
    requires AlwaysSound(p, repl)
    ensures forall sem, world, n :: Commutes(sem) ==> Related(p, repl, Steps(p, sem, Start(p, world), n), Steps(Apply(p, repl), sem, Start(p, world), n))
  {
    hide *;
    forall sem, world, n: nat ensures Commutes(sem) ==> Related(p, repl, Steps(p, sem, Start(p, world), n), Steps(Apply(p, repl), sem, Start(p, world), n)) {
      if Commutes(sem) {
        SoundFor(p, sem, world, repl);
        ReplacementPreserves(p, sem, world, repl, n);
      }
    }
  }

  lemma SoundFor(p: Program, sem: Sem, world: World, repl: map<Id, Id>)
    requires AlwaysSound(p, repl) && Commutes(sem)
    ensures Sound(p, sem, world, repl)
  {
  }

  lemma Unequal(p: Program, repl: map<Id, Id>, ir: Program, defs: map<Id, Ins>, b: Block, i: nat, k: nat, depth: nat)
    requires ir == Apply(p, repl) && Collected(ir, defs) && UniqueDefs(p) && AllShaped(p) && b in p.g.blocks && i < k < |CodeOf(ir, b)|
    requires Candidate(CodeOf(ir, b)[k]) && depth > 0
    requires !Equals(defs, Result(CodeOf(ir, b)[k].id), Result(CodeOf(ir, b)[i].id), depth)
    ensures !SameExpression(CodeOf(ir, b)[i], CodeOf(ir, b)[k])
  {
    hide Apply, Collected, UniqueDefs, Equals, CodeOf;
    StillShaped(p, repl, b, k);
    if SameExpression(CodeOf(ir, b)[i], CodeOf(ir, b)[k]) {
      SameIsEqual(p, repl, ir, defs, b, i, k, depth);
    }
  }

  lemma StillShaped(p: Program, repl: map<Id, Id>, b: Block, k: nat)
    requires AllShaped(p) && b in p.g.blocks && k < |CodeOf(Apply(p, repl), b)|
    ensures Shaped(CodeOf(Apply(p, repl), b)[k])
  {
    hide ApplyCode, Apply;
    AppliedCode(p, repl, b);
    var j := ApplyCodeSource(repl, CodeOf(p, b), k);
  }
}
