/**
  Removing a phi that merges a single value from a program in strict SSA form keeps
  every run, and the program strict.
 */
module TrivialPhis {
  import opened Cfg
  import opened NaturalLoops
  import opened Ssa

  // ----- removing one phi -----

  function Repl(x: Id, a: Value, v: Value): Value {
    if v == Result(x) then a else v
  }

  function ReplAll(x: Id, a: Value, vs: seq<Value>): (r: seq<Value>)
    ensures |r| == |vs| && forall i :: 0 <= i < |vs| ==> r[i] == Repl(x, a, vs[i])
  {
    seq(|vs|, i requires 0 <= i < |vs| => Repl(x, a, vs[i]))
  }

  function ReplCode(x: Id, a: Value, code: seq<Ins>): (r: seq<Ins>)
    ensures |r| == |code| && forall i :: 0 <= i < |code| ==> r[i] == code[i].(args := ReplAll(x, a, code[i].args))
  {
    seq(|code|, i requires 0 <= i < |code| => code[i].(args := ReplAll(x, a, code[i].args)))
  }

  function ReplTerm(x: Id, a: Value, t: Term): Term {
    match t
    case Jump(_) => t
    case Branch(c, tb, fb) => Branch(Repl(x, a, c), tb, fb)
    case Return(v) => Return(Repl(x, a, v))
  }

  function ReplOperands(x: Id, a: Value, operands: map<Block, Value>): map<Block, Value> {
    map q | q in operands :: Repl(x, a, operands[q])
  }

  function ReplPhis(x: Id, a: Value, phis: map<Id, map<Block, Value>>): map<Id, map<Block, Value>> {
    map y | y in phis && y != x :: ReplOperands(x, a, phis[y])
  }

  /** The phi x is gone, and a is read instead. */
  function WithoutPhi(p: Program, x: Id, a: Value): Program {
    p.(phis := map b | b in p.phis :: ReplPhis(x, a, p.phis[b]),
       code := map b | b in p.code :: ReplCode(x, a, p.code[b]),
       term := map b | b in p.term :: ReplTerm(x, a, p.term[b]))
  }

  /** Every operand of the phi x of block b is a, or the phi itself. */
  ghost predicate Merges(p: Program, b: Block, x: Id, a: Value) {
    && b in p.g.blocks && b in p.g.preds && x in PhisOf(p, b) && a != Result(x)
    && forall q :: q in p.g.preds[b] ==> PhiOperand(PhisOf(p, b)[x], q) == a || PhiOperand(PhisOf(p, b)[x], q) == Result(x)
  }

  ghost predicate Removable(p: Program, b: Block, x: Id, a: Value) {
    Strict(p) && Merges(p, b, x, a) && forall c :: c in p.g.blocks ==> Reachable(p.g, c)
  }

  lemma RemovableParts(p: Program, b: Block, x: Id, a: Value)
    requires Removable(p, b, x, a)
    ensures WellFormed(p.g) && UniqueDefs(p) && b in p.g.blocks && x in PhisOf(p, b) && DefinedAt(p, x, AsPhi(b)) && a != Result(x)
    ensures b != p.g.entry && CodeUsesOk(p) && TermUsesOk(p) && PhiUsesOk(p) && TargetsMatch(p) && PhisOf(p, p.g.entry) == map[]
  {
    hide CodeUsesOk, TermUsesOk, PhiUsesOk, TargetsMatch, UniqueDefs, Reachable;
  }

  lemma Here(p: Program, b: Block, x: Id, a: Value, d: Def)
    requires Removable(p, b, x, a) && DefinedAt(p, x, d)
    ensures d == AsPhi(b)
  {
    RemovableParts(p, b, x, a);
    hide Removable, DefinedAt;
  }

  // ----- the merged value comes from further up -----

  /** A walk to b first comes to b from a predecessor for which the phi's operand is a. */
  lemma FirstArrival(p: Program, b: Block, x: Id, a: Value, w: seq<Block>) returns (k: nat)
    requires Removable(p, b, x, a) && Connects(p.g, w, p.g.entry, b)
    ensures 0 < k < |w| && w[k] == b && b !in w[..k] && w[k - 1] in p.g.preds[b]
    ensures PhiOperand(PhisOf(p, b)[x], w[k - 1]) == a
  {
    RemovableParts(p, b, x, a);
    k := First(w, b);
    assert k > 0;
    assert Edge(p.g, w[k - 1], w[k - 1 + 1]);
    Prefix(p.g, w, k);
    var q := w[k - 1];
    NotAvailableBefore(p, b, x, a, w[..k]);
    assert UseOk(p, PhiOperand(PhisOf(p, b)[x], q), q, |CodeOf(p, q)|);
  }

  lemma NotAvailableBefore(p: Program, b: Block, x: Id, a: Value, v: seq<Block>)
    requires Removable(p, b, x, a) && IsWalk(p.g, v) && v[0] == p.g.entry && b !in v
    ensures !AvailableOut(p, x, Last(v))
  {
    var q := Last(v);
    if AvailableOut(p, x, q) {
      var d := DefBefore(p, x, q, |CodeOf(p, q)|);
      Here(p, b, x, a, d);
      assert Connects(p.g, v, p.g.entry, q);
    }
  }

  /** What is available was defined in a dominating block, here or earlier. */
  lemma DefBefore(p: Program, x: Id, b: Block, i: nat) returns (d: Def)
    requires AvailableAt(p, x, b, i)
    ensures DefinedAt(p, x, d) && Dominates(p.g, d.block, b)
    ensures d.block != b || d == AsPhi(b) || (d.AsIns? && d.index < i)
  {
    if AvailableIn(p, x, b) {
      d :| DefinedAt(p, x, d) && if d == AsPhi(b) then true else d.block != b && Dominates(p.g, d.block, b);
    } else {
      var j: nat :| j < i && DefinedAt(p, x, AsIns(b, j));
      d := AsIns(b, j);
    }
  }

  /** The merged value is defined in another block, which dominates the phi's. */
  lemma DefinedAbove(p: Program, b: Block, x: Id, a: Value) returns (d: Def)
    requires Removable(p, b, x, a) && a.Result?
    ensures DefinedAt(p, a.id, d) && d.block != b && Dominates(p.g, d.block, b)
  {
    var w :| Connects(p.g, w, p.g.entry, b);
    d := AboveOn(p, b, x, a, w);
    forall v | Connects(p.g, v, p.g.entry, b) ensures d.block in v {
      var e := AboveOn(p, b, x, a, v);
      RemovableParts(p, b, x, a);
      assert e == d;
    }
  }

  lemma AboveOn(p: Program, b: Block, x: Id, a: Value, w: seq<Block>) returns (d: Def)
    requires Removable(p, b, x, a) && a.Result? && Connects(p.g, w, p.g.entry, b)
    ensures DefinedAt(p, a.id, d) && d.block != b && d.block in w
  {
    var k := FirstArrival(p, b, x, a, w);
    RemovableParts(p, b, x, a);
    Prefix(p.g, w, k);
    var q := w[k - 1];
    assert q in p.g.blocks;
    assert UseOk(p, a, q, |CodeOf(p, q)|);
    d := DefBefore(p, a.id, q, |CodeOf(p, q)|);
    assert d.block in w[..k];
  }

  /** Wherever the phi can be read, so can the merged value. */
  lemma ValueAvailable(p: Program, b: Block, x: Id, a: Value, c: Block, i: nat)
    requires Removable(p, b, x, a) && c in p.g.blocks && AvailableAt(p, x, c, i)
    ensures UseOk(p, a, c, i)
    ensures a.Result? ==> AvailableIn(p, a.id, c)
  {
    if a.Result? {
      var e := DefBefore(p, x, c, i);
      Here(p, b, x, a, e);
      var d := DefinedAbove(p, b, x, a);
      DominanceTransitive(p.g, d.block, b, c);
      NotTheSame(p, b, x, a, c, d.block);
      assert AvailableIn(p, a.id, c);
    }
  }

  lemma NotTheSame(p: Program, b: Block, x: Id, a: Value, c: Block, d: Block)
    requires Removable(p, b, x, a) && c in p.g.blocks && Dominates(p.g, b, c) && Dominates(p.g, d, b) && d != b
    ensures d != c
  {
    if d == c {
      assert Reachable(p.g, b);
      DominanceAntisymmetric(p.g, c, b);
    }
  }

  /** While the phi can be read, nothing writes the merged value again. */
  lemma NotWritten(p: Program, b: Block, x: Id, a: Value, c: Block, i: nat)
    requires Removable(p, b, x, a) && c in p.g.blocks && i < |CodeOf(p, c)| && AvailableAt(p, x, c, i)
    ensures a != Result(CodeOf(p, c)[i].id)
  {
    if a.Result? {
      ValueAvailable(p, b, x, a, c, i);
      RemovableParts(p, b, x, a);
      assert AvailableIn(p, a.id, c) && DefinedAt(p, CodeOf(p, c)[i].id, AsIns(c, i));
    }
  }

  lemma NotMerged(p: Program, b: Block, x: Id, a: Value, c: Block)
    requires Removable(p, b, x, a) && c in p.g.blocks && AvailableIn(p, x, c) && a.Result?
    ensures a.id !in PhisOf(p, c)
  {
    RemovableParts(p, b, x, a);
    assert AvailableAt(p, x, c, 0);
    var e := DefBefore(p, x, c, 0);
    Here(p, b, x, a, e);
    var d := DefinedAbove(p, b, x, a);
    NotTheSame(p, b, x, a, c, d.block);
    if a.id in PhisOf(p, c) {
      assert DefinedAt(p, a.id, AsPhi(c));
    }
  }

  lemma NotAnInstruction(p: Program, b: Block, x: Id, a: Value, c: Block, i: nat)
    requires Removable(p, b, x, a) && c in p.g.blocks && i < |CodeOf(p, c)|
    ensures CodeOf(p, c)[i].id != x
  {
    if CodeOf(p, c)[i].id == x {
      Here(p, b, x, a, AsIns(c, i));
    }
  }

  // ----- runs side by side -----

  /** Both runs hold the same but for x, for which the original's run holds what a holds. */
  ghost predicate SameAt(p: Program, x: Id, a: Value, sem: Sem, c: Block, i: nat, env: Env, env': Env) {
    && (forall y :: y != x && AvailableAt(p, y, c, i) ==> Get(env, y) == Get(env', y))
    && (AvailableAt(p, x, c, i) ==> Get(env, x) == Read(sem, env, a))
  }

  ghost predicate SameIn(p: Program, x: Id, a: Value, sem: Sem, c: Block, env: Env, env': Env) {
    && (forall y :: y != x && AvailableIn(p, y, c) ==> Get(env, y) == Get(env', y))
    && (AvailableIn(p, x, c) ==> Get(env, x) == Read(sem, env, a))
  }

  lemma SameAtHead(p: Program, x: Id, a: Value, sem: Sem, c: Block, env: Env, env': Env)
    ensures SameIn(p, x, a, sem, c, env, env') <==> SameAt(p, x, a, sem, c, 0, env, env')
  {
    assert forall y :: AvailableAt(p, y, c, 0) <==> AvailableIn(p, y, c);
  }

  lemma SameRead(p: Program, b: Block, x: Id, a: Value, sem: Sem, c: Block, i: nat, env: Env, env': Env, v: Value)
    requires Removable(p, b, x, a) && c in p.g.blocks && SameAt(p, x, a, sem, c, i, env, env') && UseOk(p, v, c, i)
    ensures Read(sem, env, v) == Read(sem, env', Repl(x, a, v))
  {
    hide Removable, AvailableAt;
    RemovableParts(p, b, x, a);
    if v == Result(x) {
      ValueAvailable(p, b, x, a, c, i);
    }
  }

  lemma SameReadAll(p: Program, b: Block, x: Id, a: Value, sem: Sem, c: Block, i: nat, env: Env, env': Env, vs: seq<Value>)
    requires Removable(p, b, x, a) && c in p.g.blocks && SameAt(p, x, a, sem, c, i, env, env')
    requires forall v :: v in vs ==> UseOk(p, v, c, i)
    ensures ReadAll(sem, env, vs) == ReadAll(sem, env', ReplAll(x, a, vs))
  {
    hide Removable, SameAt, UseOk, Repl, Read;
    forall j | 0 <= j < |vs| ensures ReadAll(sem, env, vs)[j] == ReadAll(sem, env', ReplAll(x, a, vs))[j] {
      SameRead(p, b, x, a, sem, c, i, env, env', vs[j]);
    }
  }

  lemma SameIns(p: Program, b: Block, x: Id, a: Value, sem: Sem, c: Block, i: nat, st: State, st': State)
    requires Removable(p, b, x, a) && c in p.g.blocks && i < |CodeOf(p, c)|
    requires SameAt(p, x, a, sem, c, i, st.env, st'.env) && st.world == st'.world
    ensures var ins := CodeOf(p, c)[i];
            var next, next' := Execute(sem, ins, st), Execute(sem, ins.(args := ReplAll(x, a, ins.args)), st');
            SameAt(p, x, a, sem, c, i + 1, next.env, next'.env) && next.world == next'.world
  {
    var ins := CodeOf(p, c)[i];
    RemovableParts(p, b, x, a);
    SameReadAll(p, b, x, a, sem, c, i, st.env, st'.env, ins.args);
    NotAnInstruction(p, b, x, a, c, i);
    hide Removable, AvailableAt, ReadAll;
    var next, next' := Execute(sem, ins, st), Execute(sem, ins.(args := ReplAll(x, a, ins.args)), st');
    forall y | y != x && AvailableAt(p, y, c, i + 1) ensures Get(next.env, y) == Get(next'.env, y) {
      AvailableNext(p, y, c, i);
    }
    if AvailableAt(p, x, c, i + 1) {
      AvailableNext(p, x, c, i);
      NotWritten(p, b, x, a, c, i);
    }
  }

  lemma {:induction false} SameBody(p: Program, b: Block, x: Id, a: Value, sem: Sem, c: Block, i: nat, st: State, st': State)
    requires Removable(p, b, x, a) && c in p.g.blocks && i <= |CodeOf(p, c)|
    requires SameIn(p, x, a, sem, c, st.env, st'.env) && st.world == st'.world
    ensures var end, end' := RunCode(sem, CodeOf(p, c)[..i], st), RunCode(sem, ReplCode(x, a, CodeOf(p, c))[..i], st');
            SameAt(p, x, a, sem, c, i, end.env, end'.env) && end.world == end'.world
  {
    hide Removable, SameAt, SameIn, Execute;
    if i == 0 {
      SameAtHead(p, x, a, sem, c, st.env, st'.env);
    } else {
      SameBody(p, b, x, a, sem, c, i - 1, st, st');
      var code, code' := CodeOf(p, c), ReplCode(x, a, CodeOf(p, c));
      assert code[..i] == code[..i - 1] + [code[i - 1]] && code'[..i] == code'[..i - 1] + [code'[i - 1]];
      RunCodeSnoc(sem, code[..i - 1], code[i - 1], st);
      RunCodeSnoc(sem, code'[..i - 1], code'[i - 1], st');
      SameIns(p, b, x, a, sem, c, i - 1, RunCode(sem, code[..i - 1], st), RunCode(sem, code'[..i - 1], st'));
    }
  }

  lemma CodeAfter(p: Program, x: Id, a: Value, c: Block)
    ensures CodeOf(WithoutPhi(p, x, a), c) == ReplCode(x, a, CodeOf(p, c))
  {
  }

  lemma PhisAfter(p: Program, x: Id, a: Value, c: Block)
    ensures PhisOf(WithoutPhi(p, x, a), c) == ReplPhis(x, a, PhisOf(p, c))
  {
  }

  lemma TermAfter(p: Program, x: Id, a: Value, c: Block)
    ensures TermOf(WithoutPhi(p, x, a), c) == ReplTerm(x, a, TermOf(p, c))
  {
  }

  /** The environment at the head of s, entered from c. */
  lemma AtEntry(p: Program, sem: Sem, c: Block, s: Block, st: State, y: Id)
    ensures Get(EnterBlock(p, sem, c, s, st).env, y)
         == if y in PhisOf(p, s) then Read(sem, st.env, PhiOperand(PhisOf(p, s)[y], c)) else Get(st.env, y)
    ensures EnterBlock(p, sem, c, s, st).world == st.world
  {
    hide Read;
  }

  lemma ReadAfterEntry(p: Program, sem: Sem, c: Block, s: Block, st: State, a: Value)
    requires a.Result? ==> a.id !in PhisOf(p, s)
    ensures Read(sem, EnterBlock(p, sem, c, s, st).env, a) == Read(sem, st.env, a)
  {
    if a.Result? {
      AtEntry(p, sem, c, s, st, a.id);
    }
  }

  lemma OperandAfter(x: Id, a: Value, operands: map<Block, Value>, q: Block)
    ensures PhiOperand(ReplOperands(x, a, operands), q) == Repl(x, a, PhiOperand(operands, q))
  {
  }

  lemma SameOther(p: Program, b: Block, x: Id, a: Value, sem: Sem, c: Block, s: Block, st: State, st': State, y: Id)
    requires Removable(p, b, x, a) && c in p.g.blocks && s in p.g.succs[c] && y != x && AvailableIn(p, y, s)
    requires SameAt(p, x, a, sem, c, |CodeOf(p, c)|, st.env, st'.env)
    ensures Get(EnterBlock(p, sem, c, s, st).env, y) == Get(EnterBlock(WithoutPhi(p, x, a), sem, c, s, st').env, y)
  {
    hide Removable, AvailableIn, Read, EnterBlock, WithoutPhi, ReplOperands;
    RemovableParts(p, b, x, a);
    hide AvailableAt, UniqueDefs, CodeUsesOk, TermUsesOk, TargetsMatch;
    assert c in p.g.preds[s];
    PhisAfter(p, x, a, s);
    AtEntry(p, sem, c, s, st, y);
    AtEntry(WithoutPhi(p, x, a), sem, c, s, st', y);
    if y in PhisOf(p, s) {
      SameRead(p, b, x, a, sem, c, |CodeOf(p, c)|, st.env, st'.env, PhiOperand(PhisOf(p, s)[y], c));
      OperandAfter(x, a, PhisOf(p, s)[y], c);
    } else {
      StrictOf(p, b, x, a);
      AvailableAcrossEdge(p, y, c, s);
    }
  }

  lemma StrictOf(p: Program, b: Block, x: Id, a: Value)
    requires Removable(p, b, x, a)
    ensures Strict(p)
  {
  }

  lemma SameMerged(p: Program, b: Block, x: Id, a: Value, sem: Sem, c: Block, s: Block, st: State, st': State)
    requires Removable(p, b, x, a) && c in p.g.blocks && s in p.g.succs[c] && AvailableIn(p, x, s)
    requires SameAt(p, x, a, sem, c, |CodeOf(p, c)|, st.env, st'.env)
    ensures Get(EnterBlock(p, sem, c, s, st).env, x) == Read(sem, EnterBlock(p, sem, c, s, st).env, a)
  {
    assert Merges(p, b, x, a);
    hide Removable, AvailableIn, Read, EnterBlock;
    RemovableParts(p, b, x, a);
    hide AvailableAt, UniqueDefs, CodeUsesOk, TermUsesOk, TargetsMatch;
    assert c in p.g.preds[s];
    if a.Result? {
      NotMerged(p, b, x, a, s);
    }
    ReadAfterEntry(p, sem, c, s, st, a);
    AtEntry(p, sem, c, s, st, x);
    if x in PhisOf(p, s) {
      Here(p, b, x, a, AsPhi(s));
      var v := PhiOperand(PhisOf(p, b)[x], c);
      assert UseOk(p, v, c, |CodeOf(p, c)|);
      ReadOf(sem, st.env, x);
    } else {
      StrictOf(p, b, x, a);
      AvailableAcrossEdge(p, x, c, s);
    }
  }

  lemma ReadOf(sem: Sem, env: Env, x: Id)
    ensures Read(sem, env, Result(x)) == Get(env, x)
  {
  }

  ghost predicate Alongside(p: Program, x: Id, a: Value, sem: Sem, c: Config, c': Config) {
    match c
    case Done(_, _) => c' == c
    case At(s, st) =>
      && c'.At? && c'.block == s && s in p.g.blocks && c'.st.world == st.world
      && SameIn(p, x, a, sem, s, st.env, c'.st.env)
  }

  lemma SameEdge(p: Program, b: Block, x: Id, a: Value, sem: Sem, c: Block, s: Block, st: State, st': State)
    requires Removable(p, b, x, a) && c in p.g.blocks && s in p.g.succs[c] && st.world == st'.world
    requires SameAt(p, x, a, sem, c, |CodeOf(p, c)|, st.env, st'.env)
    ensures Alongside(p, x, a, sem, At(s, EnterBlock(p, sem, c, s, st)), At(s, EnterBlock(WithoutPhi(p, x, a), sem, c, s, st')))
  {
    RemovableParts(p, b, x, a);
    hide Removable, AvailableIn, Read, EnterBlock, WithoutPhi, SameAt, CodeUsesOk, TermUsesOk, TargetsMatch, UniqueDefs, PhiUsesOk;
    forall y | y != x && AvailableIn(p, y, s)
      ensures Get(EnterBlock(p, sem, c, s, st).env, y) == Get(EnterBlock(WithoutPhi(p, x, a), sem, c, s, st').env, y)
    {
      SameOther(p, b, x, a, sem, c, s, st, st', y);
    }
    if AvailableIn(p, x, s) {
      SameMerged(p, b, x, a, sem, c, s, st, st');
    }
    AtEntry(p, sem, c, s, st, x);
    AtEntry(WithoutPhi(p, x, a), sem, c, s, st', x);
  }

  lemma SameExit(p: Program, b: Block, x: Id, a: Value, sem: Sem, c: Block, env: Env, env': Env)
    requires Removable(p, b, x, a) && c in p.g.blocks && SameAt(p, x, a, sem, c, |CodeOf(p, c)|, env, env')
    ensures var t, t' := TermOf(p, c), ReplTerm(x, a, TermOf(p, c));
            && (t.Return? <==> t'.Return?)
            && (t.Return? ==> Read(sem, env, t.value) == Read(sem, env', t'.value))
            && (!t.Return? ==> Target(t, sem, env) == Target(t', sem, env') && Target(t, sem, env) in p.g.succs[c])
  {
    RemovableParts(p, b, x, a);
    hide Removable, SameAt, UseOk, CodeUsesOk, PhiUsesOk, UniqueDefs, Read;
    var t := TermOf(p, c);
    assert p.g.succs[c] == TermTargets(t);
    forall v | v in TermUses(t) ensures Read(sem, env, v) == Read(sem, env', Repl(x, a, v)) {
      SameRead(p, b, x, a, sem, c, |CodeOf(p, c)|, env, env', v);
    }
    match t
    case Jump(_) =>
    case Branch(v, _, _) => assert v in TermUses(t);
    case Return(v) => assert v in TermUses(t);
  }

  lemma SameStep(p: Program, b: Block, x: Id, a: Value, sem: Sem, c: Config, c': Config)
    requires Removable(p, b, x, a) && Alongside(p, x, a, sem, c, c')
    ensures Alongside(p, x, a, sem, StepConfig(p, sem, c), StepConfig(WithoutPhi(p, x, a), sem, c'))
  {
    hide Removable, SameIn, SameAt, WithoutPhi, EnterBlock, RunCode, Read, Target, ReplTerm, ReplCode;
    if c.At? {
      var code, code' := CodeOf(p, c.block), ReplCode(x, a, CodeOf(p, c.block));
      CodeAfter(p, x, a, c.block);
      TermAfter(p, x, a, c.block);
      SameBody(p, b, x, a, sem, c.block, |code|, c.st, c'.st);
      assert code[..|code|] == code && code'[..|code|] == code';
      var end, end' := RunCode(sem, code, c.st), RunCode(sem, code', c'.st);
      SameExit(p, b, x, a, sem, c.block, end.env, end'.env);
      if !TermOf(p, c.block).Return? {
        SameEdge(p, b, x, a, sem, c.block, Target(TermOf(p, c.block), sem, end.env), end, end');
      }
    }
  }

  /** Step by step, the program without the phi does what the one with it does. */
  lemma {:induction false} RemovalPreserves(p: Program, b: Block, x: Id, a: Value, sem: Sem, world: World, n: nat)
    requires Removable(p, b, x, a)
    ensures Alongside(p, x, a, sem, Steps(p, sem, Start(p, world), n), Steps(WithoutPhi(p, x, a), sem, Start(WithoutPhi(p, x, a), world), n))
    decreases n
  {
    hide Removable, Alongside, WithoutPhi, StepConfig;
    var p' := WithoutPhi(p, x, a);
    if n == 0 {
      SameStart(p, b, x, a, sem, world);
    } else {
      RemovalPreserves(p, b, x, a, sem, world, n - 1);
      var c, c' := Steps(p, sem, Start(p, world), n - 1), Steps(p', sem, Start(p', world), n - 1);
      SameStep(p, b, x, a, sem, c, c');
      StepsAdd(p, sem, Start(p, world), n - 1, 1);
      StepsAdd(p', sem, Start(p', world), n - 1, 1);
      assert Steps(p, sem, c, 1) == StepConfig(p, sem, c) && Steps(p', sem, c', 1) == StepConfig(p', sem, c');
    }
  }

  lemma SameStart(p: Program, b: Block, x: Id, a: Value, sem: Sem, world: World)
    requires Removable(p, b, x, a)
    ensures Alongside(p, x, a, sem, Start(p, world), Start(WithoutPhi(p, x, a), world))
  {
    RemovableParts(p, b, x, a);
    hide CodeUsesOk, TermUsesOk, TargetsMatch, UniqueDefs, PhiUsesOk;
    if AvailableIn(p, x, p.g.entry) {
      assert AvailableAt(p, x, p.g.entry, 0);
      var d := DefBefore(p, x, p.g.entry, 0);
      Here(p, b, x, a, d);
      EntryDominatedOnlyByItself(p.g, b);
    }
  }

  // ----- strict again -----

  lemma DefsAfter(p: Program, b: Block, x: Id, a: Value, y: Id, d: Def)
    requires Removable(p, b, x, a)
    ensures DefinedAt(WithoutPhi(p, x, a), y, d) <==> DefinedAt(p, y, d) && y != x
  {
    CodeAfter(p, x, a, d.block);
    PhisAfter(p, x, a, d.block);
    hide Removable, ReplPhis, ReplCode, CodeOf, PhisOf;
    if d.AsIns? && d.block in p.g.blocks && d.index < |CodeOf(p, d.block)| {
      NotAnInstruction(p, b, x, a, d.block, d.index);
    }
    PhiKeysAfter(x, a, PhisOf(p, d.block));
  }

  lemma PhiKeysAfter(x: Id, a: Value, phis: map<Id, map<Block, Value>>)
    ensures ReplPhis(x, a, phis).Keys == phis.Keys - {x}
  {
  }

  lemma AvailableAfter(p: Program, b: Block, x: Id, a: Value, y: Id, c: Block, i: nat)
    requires Removable(p, b, x, a) && y != x && AvailableAt(p, y, c, i)
    ensures AvailableAt(WithoutPhi(p, x, a), y, c, i)
  {
    hide Removable, DefinedAt;
    if AvailableIn(p, y, c) {
      var d :| DefinedAt(p, y, d) && if d == AsPhi(c) then true else d.block != c && Dominates(p.g, d.block, c);
      DefsAfter(p, b, x, a, y, d);
      assert AvailableIn(WithoutPhi(p, x, a), y, c);
    } else {
      var j: nat :| j < i && DefinedAt(p, y, AsIns(c, j));
      DefsAfter(p, b, x, a, y, AsIns(c, j));
    }
  }

  lemma UseAfter(p: Program, b: Block, x: Id, a: Value, v: Value, c: Block, i: nat)
    requires Removable(p, b, x, a) && c in p.g.blocks && UseOk(p, v, c, i)
    ensures UseOk(WithoutPhi(p, x, a), Repl(x, a, v), c, i)
  {
    hide Removable, AvailableAt, WithoutPhi, AvailableIn;
    RemovableParts(p, b, x, a);
    if v == Result(x) {
      ValueAvailable(p, b, x, a, c, i);
      if a.Result? {
        AvailableAfter(p, b, x, a, a.id, c, i);
      }
    } else if v.Result? {
      AvailableAfter(p, b, x, a, v.id, c, i);
    }
  }

  lemma CodeUsesAfter(p: Program, b: Block, x: Id, a: Value)
    requires Removable(p, b, x, a)
    ensures CodeUsesOk(WithoutPhi(p, x, a))
  {
    RemovableParts(p, b, x, a);
    hide Removable, UseOk, Repl, TermUsesOk, PhiUsesOk, TargetsMatch, UniqueDefs;
    var p' := WithoutPhi(p, x, a);
    forall c, i, v | c in p'.g.blocks && 0 <= i < |CodeOf(p', c)| && v in CodeOf(p', c)[i].args ensures UseOk(p', v, c, i) {
      CodeAfter(p, x, a, c);
      var args := CodeOf(p, c)[i].args;
      var j :| 0 <= j < |args| && v == Repl(x, a, args[j]);
      UseAfter(p, b, x, a, args[j], c, i);
    }
  }

  lemma TermUsesAfter(p: Program, b: Block, x: Id, a: Value)
    requires Removable(p, b, x, a)
    ensures TermUsesOk(WithoutPhi(p, x, a))
  {
    RemovableParts(p, b, x, a);
    hide Removable, UseOk, Repl, CodeUsesOk, PhiUsesOk, TargetsMatch, UniqueDefs;
    var p' := WithoutPhi(p, x, a);
    forall c, v | c in p'.g.blocks && v in TermUses(TermOf(p', c)) ensures UseOk(p', v, c, |CodeOf(p', c)|) {
      TermAfter(p, x, a, c);
      CodeAfter(p, x, a, c);
      var u := TermUses(TermOf(p, c))[0];
      assert v == Repl(x, a, u) && u in TermUses(TermOf(p, c));
      UseAfter(p, b, x, a, u, c, |CodeOf(p, c)|);
    }
  }

  lemma PhiUsesAfter(p: Program, b: Block, x: Id, a: Value)
    requires Removable(p, b, x, a)
    ensures PhiUsesOk(WithoutPhi(p, x, a))
  {
    RemovableParts(p, b, x, a);
    hide Removable, UseOk, Repl, CodeUsesOk, TermUsesOk, TargetsMatch, UniqueDefs, ReplOperands;
    var p' := WithoutPhi(p, x, a);
    forall c, y, q | c in p'.g.blocks && y in PhisOf(p', c) && q in p'.g.preds[c]
      ensures UseOk(p', PhiOperand(PhisOf(p', c)[y], q), q, |CodeOf(p', q)|)
    {
      PhisAfter(p, x, a, c);
      CodeAfter(p, x, a, q);
      OperandAfter(x, a, PhisOf(p, c)[y], q);
      UseAfter(p, b, x, a, PhiOperand(PhisOf(p, c)[y], q), q, |CodeOf(p, q)|);
    }
  }

  lemma TargetsAfter(p: Program, b: Block, x: Id, a: Value)
    requires Removable(p, b, x, a)
    ensures TargetsMatch(WithoutPhi(p, x, a))
  {
    RemovableParts(p, b, x, a);
    hide Removable, CodeUsesOk, TermUsesOk, PhiUsesOk, UniqueDefs;
    var p' := WithoutPhi(p, x, a);
    forall c | c in p'.g.blocks ensures p'.g.succs[c] == TermTargets(TermOf(p', c)) {
      TermAfter(p, x, a, c);
    }
  }

  lemma StrictAfter(p: Program, b: Block, x: Id, a: Value)
    requires Removable(p, b, x, a)
    ensures Strict(WithoutPhi(p, x, a)) && WithoutPhi(p, x, a).g == p.g
  {
    StrictOf(p, b, x, a);
    hide Removable, CodeUsesOk, TermUsesOk, PhiUsesOk, TargetsMatch, DefinedAt, ReplCode, ReplTerm, ReplOperands;
    var p' := WithoutPhi(p, x, a);
    CodeUsesAfter(p, b, x, a);
    TermUsesAfter(p, b, x, a);
    PhiUsesAfter(p, b, x, a);
    TargetsAfter(p, b, x, a);
    forall y, d, e | DefinedAt(p', y, d) && DefinedAt(p', y, e) ensures d == e {
      DefsAfter(p, b, x, a, y, d);
      DefsAfter(p, b, x, a, y, e);
    }
    PhisAfter(p, x, a, p.g.entry);
  }
}
