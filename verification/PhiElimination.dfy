/**
  Leaving SSA: every phi gets one temporary, written at the end of each
  predecessor and copied into the phi at the head of its block.
 */
module PhiElimination {
  import opened Cfg
  import opened Ssa

  /** An instruction after elimination.  A phi move reads the operand of the block it stands in. */
  datatype Low = Plain(ins: Ins) | PhiMov(phi: Id, operands: map<Block, Value>) | PhiCopy(phi: Id)

  /** temps holds the value of each phi's move. */
  datatype LowState = LowState(env: Env, temps: Env, world: World)

  function ExecuteLow(sem: Sem, b: Block, i: Low, st: LowState): LowState {
    match i
    case Plain(ins) =>
      var r := Execute(sem, ins, State(st.env, st.world));
      LowState(r.env, st.temps, r.world)
    case PhiMov(x, operands) => st.(temps := st.temps[x := Read(sem, st.env, PhiOperand(operands, b))])
    case PhiCopy(x) => st.(env := st.env[x := Get(st.temps, x)])
  }

  function RunLow(sem: Sem, b: Block, code: seq<Low>, st: LowState): LowState {
    if code == [] then st else RunLow(sem, b, code[1..], ExecuteLow(sem, b, code[0], st))
  }

  lemma {:induction false} RunLowAppend(sem: Sem, b: Block, c: seq<Low>, d: seq<Low>, st: LowState)
    ensures RunLow(sem, b, c + d, st) == RunLow(sem, b, d, RunLow(sem, b, c, st))
  {
    if c == [] {
      assert c + d == d;
    } else {
      assert (c + d)[1..] == c[1..] + d;
      RunLowAppend(sem, b, c[1..], d, ExecuteLow(sem, b, c[0], st));
    }
  }

  /** A run of the lowered code is at a block, before the phi copies, or has returned. */
  datatype LowConfig = LowAt(block: Block, st: LowState) | LowDone(result: int, world: World)

  function StepLow(p: Program, code: map<Block, seq<Low>>, sem: Sem, c: LowConfig): LowConfig {
    match c
    case LowDone(_, _) => c
    case LowAt(b, st) =>
      var end := RunLow(sem, b, if b in code then code[b] else [], st);
      var t := TermOf(p, b);
      if t.Return? then LowDone(Read(sem, end.env, t.value), end.world)
      else LowAt(Target(t, sem, end.env), end)
  }

  function StepsLow(p: Program, code: map<Block, seq<Low>>, sem: Sem, c: LowConfig, n: nat): LowConfig
    decreases n
  {
    if n == 0 then c else StepsLow(p, code, sem, StepLow(p, code, sem, c), n - 1)
  }

  // ----- where the moves go -----

  /** Instructions after the insertion point: a comparison directly before a branch stays last. */
  function TailLength(p: Program, b: Block): (n: nat)
    ensures n <= |CodeOf(p, b)|
  {
    var c := CodeOf(p, b);
    if TermOf(p, b).Branch? && |c| > 0 && c[|c| - 1].kind.CMP? then 1 else 0
  }

  function Lower(code: seq<Ins>): (r: seq<Low>)
    ensures |r| == |code|
    ensures forall i :: 0 <= i < |code| ==> r[i] == Plain(code[i])
  {
    seq(|code|, i requires 0 <= i < |code| => Plain(code[i]))
  }

  function Body(p: Program, b: Block): seq<Low> {
    Lower(CodeOf(p, b)[..|CodeOf(p, b)| - TailLength(p, b)])
  }

  function Tail(p: Program, b: Block): seq<Low> {
    Lower(CodeOf(p, b)[|CodeOf(p, b)| - TailLength(p, b)..])
  }

  ghost predicate AreCopies(copies: seq<Low>, xs: set<Id>) {
    && (forall i :: 0 <= i < |copies| ==> copies[i].PhiCopy? && copies[i].phi in xs)
    && (forall x :: x in xs ==> PhiCopy(x) in copies)
  }

  /** The moves at the end of b: one or more for each listed phi, all with that phi's operands. */
  ghost predicate AreMoves(p: Program, movs: seq<Low>, want: set<(Block, Id)>) {
    && (forall i :: 0 <= i < |movs| ==> movs[i].PhiMov? && exists s :: (s, movs[i].phi) in want && IsPhi(p, s, movs[i].phi, movs[i].operands))
    && (forall s, x :: (s, x) in want ==> x in PhisOf(p, s) && PhiMov(x, PhisOf(p, s)[x]) in movs)
  }

  ghost predicate IsPhi(p: Program, s: Block, x: Id, operands: map<Block, Value>) {
    s in p.g.blocks && x in PhisOf(p, s) && PhisOf(p, s)[x] == operands
  }

  ghost predicate LaidOut(p: Program, b: Block, code: seq<Low>, copies: set<Id>, movs: set<(Block, Id)>) {
    exists c, m :: AreCopies(c, copies) && AreMoves(p, m, movs) && code == c + Body(p, b) + m + Tail(p, b)
  }

  /** The phis of successors that take an operand from b. */
  ghost function MovesOf(p: Program, b: Block): set<(Block, Id)> {
    set s, x | s in p.g.blocks && x in PhisOf(p, s) && b in PhisOf(p, s)[x] :: (s, x)
  }

  ghost predicate Eliminated(p: Program, code: map<Block, seq<Low>>) {
    forall b :: b in p.g.blocks ==>
      b in code && LaidOut(p, b, code[b], PhisOf(p, b).Keys, MovesOf(p, b))
  }

  // ----- meaning -----

  lemma {:induction false} RunPlain(sem: Sem, b: Block, c: seq<Ins>, st: LowState)
    ensures var r := RunCode(sem, c, State(st.env, st.world));
            RunLow(sem, b, Lower(c), st) == LowState(r.env, st.temps, r.world)
  {
    if c == [] {
    } else {
      assert Lower(c)[1..] == Lower(c[1..]);
      RunPlain(sem, b, c[1..], ExecuteLow(sem, b, Plain(c[0]), st));
    }
  }

  ghost predicate Consistent(movs: seq<Low>) {
    && (forall i :: 0 <= i < |movs| ==> movs[i].PhiMov?)
    && (forall i, j :: 0 <= i < |movs| && 0 <= j < |movs| && movs[i].phi == movs[j].phi ==> movs[i] == movs[j])
  }

  lemma {:induction false} RunMoves(sem: Sem, b: Block, movs: seq<Low>, st: LowState)
    requires Consistent(movs)
    ensures var r := RunLow(sem, b, movs, st);
            && r.env == st.env && r.world == st.world
            && (forall i :: 0 <= i < |movs| ==>
                  Get(r.temps, movs[i].phi) == Read(sem, st.env, PhiOperand(movs[i].operands, b)))
            && (forall x :: (forall i :: 0 <= i < |movs| ==> movs[i].phi != x) ==> Get(r.temps, x) == Get(st.temps, x))
  {
    if movs != [] {
      var rest := movs[1..];
      var st1 := ExecuteLow(sem, b, movs[0], st);
      assert forall i :: 0 <= i < |rest| ==> rest[i] == movs[i + 1];
      RunMoves(sem, b, rest, st1);
      var r := RunLow(sem, b, movs, st);
      forall i | 0 <= i < |movs|
        ensures Get(r.temps, movs[i].phi) == Read(sem, st.env, PhiOperand(movs[i].operands, b))
      {
        if i > 0 {
          assert rest[i - 1] == movs[i];
        } else if exists j :: 0 <= j < |rest| && rest[j].phi == movs[0].phi {
          var j :| 0 <= j < |rest| && rest[j].phi == movs[0].phi;
          assert movs[j + 1] == movs[0];
        }
      }
    }
  }

  /** env with every id of xs taken from temps. */
  ghost function Overlay(env: Env, xs: set<Id>, temps: Env): Env {
    env + map x | x in xs :: Get(temps, x)
  }

  lemma {:induction false} RunCopies(sem: Sem, b: Block, copies: seq<Low>, xs: set<Id>, st: LowState)
    requires AreCopies(copies, xs)
    ensures var r := RunLow(sem, b, copies, st);
            && r.temps == st.temps && r.world == st.world
            && r.env == Overlay(st.env, xs, st.temps)
  {
    if copies == [] {
    } else {
      var x0, rest := copies[0].phi, copies[1..];
      var ys := if copies[0] in rest then xs else xs - {x0};
      var st1 := ExecuteLow(sem, b, copies[0], st);
      RestOfCopies(copies, xs);
      OverlayOne(st.env, xs, ys, x0, st.temps);
      hide AreCopies, Overlay;
      RunCopies(sem, b, rest, ys, st1);
    }
  }

  lemma RestOfCopies(copies: seq<Low>, xs: set<Id>)
    requires AreCopies(copies, xs) && copies != []
    ensures copies[0].PhiCopy? && copies[0].phi in xs
    ensures AreCopies(copies[1..], if copies[0] in copies[1..] then xs else xs - {copies[0].phi})
  {
    assert copies == [copies[0]] + copies[1..];
  }

  lemma OverlayOne(env: Env, xs: set<Id>, ys: set<Id>, x: Id, temps: Env)
    requires x in xs && (ys == xs || ys == xs - {x})
    ensures Overlay(env[x := Get(temps, x)], ys, temps) == Overlay(env, xs, temps)
  {
  }

  /** No phi operand is the comparison that ends its predecessor. */
  ghost predicate NoComparisonOperands(p: Program) {
    forall s, x, b :: s in p.g.blocks && x in PhisOf(p, s) && b in PhisOf(p, s)[x] && TailLength(p, b) == 1 ==>
      PhisOf(p, s)[x][b] != Result(CodeOf(p, b)[|CodeOf(p, b)| - 1].id)
  }

  ghost predicate PhisMatch(p: Program) {
    forall s, x :: s in p.g.blocks && s in p.g.preds && x in PhisOf(p, s) ==> PhisOf(p, s)[x].Keys == p.g.preds[s]
  }

  /** The phis of b, given the temporaries the chosen predecessor left behind. */
  ghost function AfterCopies(p: Program, b: Block, st: LowState): State {
    State(Overlay(st.env, PhisOf(p, b).Keys, st.temps), st.world)
  }

  ghost predicate Related(p: Program, c: Config, d: LowConfig) {
    match c
    case Done(r, w) => d == LowDone(r, w)
    case At(b, st) => d.LowAt? && d.block == b && b in p.g.blocks && AfterCopies(p, b, d.st) == st
  }

  /** Every move of b has left its operand in its temporary. */
  ghost predicate TempsReady(p: Program, sem: Sem, b: Block, st: LowState) {
    forall s, x :: (s, x) in MovesOf(p, b) ==> Get(st.temps, x) == Read(sem, st.env, PhiOperand(PhisOf(p, s)[x], b))
  }

  /** Running one lowered block computes the block's body and leaves every operand in its temporary. */
  lemma RunLaidOut(p: Program, sem: Sem, b: Block, code: seq<Low>, st: LowState) returns (r: LowState)
    requires UniqueDefs(p) && NoComparisonOperands(p) && b in p.g.blocks
    requires LaidOut(p, b, code, PhisOf(p, b).Keys, MovesOf(p, b))
    ensures r == RunLow(sem, b, code, st)
    ensures State(r.env, r.world) == RunCode(sem, CodeOf(p, b), AfterCopies(p, b, st))
    ensures TempsReady(p, sem, b, r)
  {
    hide *;
    var c, m := Parts(p, b, code);
    RunParts(sem, b, c, Body(p, b), m, Tail(p, b), st);
    var s1 := RunLow(sem, b, c, st);
    var s2 := RunLow(sem, b, Body(p, b), s1);
    var s3 := RunLow(sem, b, m, s2);
    r := RunLow(sem, b, Tail(p, b), s3);
    RunCopies(sem, b, c, PhisOf(p, b).Keys, st);
    RunMoves(sem, b, m, s2);
    MovesFillTemps(p, sem, b, m, s2, s3);
    RunMainAndTail(p, sem, b, s1, s2, s3, r);
    TailKeepsTemps(p, sem, b, s3, r);
    CopiesState(p, b, st, s1);
  }

  lemma Parts(p: Program, b: Block, code: seq<Low>) returns (c: seq<Low>, m: seq<Low>)
    requires UniqueDefs(p) && LaidOut(p, b, code, PhisOf(p, b).Keys, MovesOf(p, b))
    ensures AreCopies(c, PhisOf(p, b).Keys) && AreMoves(p, m, MovesOf(p, b)) && Consistent(m)
    ensures code == c + Body(p, b) + m + Tail(p, b)
  {
    c, m :| AreCopies(c, PhisOf(p, b).Keys) && AreMoves(p, m, MovesOf(p, b)) && code == c + Body(p, b) + m + Tail(p, b);
    MovesAgree(p, m, MovesOf(p, b));
  }

  lemma CopiesState(p: Program, b: Block, st: LowState, s1: LowState)
    requires s1.env == Overlay(st.env, PhisOf(p, b).Keys, st.temps) && s1.world == st.world
    ensures AfterCopies(p, b, st) == State(s1.env, s1.world)
  {
  }

  /** The body and the tail, with the moves between them, compute the block's code. */
  lemma RunMainAndTail(p: Program, sem: Sem, b: Block, s1: LowState, s2: LowState, s3: LowState, s4: LowState)
    requires s2 == RunLow(sem, b, Body(p, b), s1) && s3.env == s2.env && s3.world == s2.world
    requires s4 == RunLow(sem, b, Tail(p, b), s3)
    ensures State(s4.env, s4.world) == RunCode(sem, CodeOf(p, b), State(s1.env, s1.world)) && s4.temps == s3.temps
    ensures s4.env == RunCode(sem, CodeOf(p, b)[|CodeOf(p, b)| - TailLength(p, b)..], State(s3.env, s3.world)).env
  {
    hide RunLow, RunCode;
    var k := |CodeOf(p, b)| - TailLength(p, b);
    var main, tail := CodeOf(p, b)[..k], CodeOf(p, b)[k..];
    RunPlain(sem, b, main, s1);
    RunPlain(sem, b, tail, s3);
    assert main + tail == CodeOf(p, b);
    RunCodeAppend(sem, main, tail, State(s1.env, s1.world));
  }

  lemma RunParts(sem: Sem, b: Block, c: seq<Low>, d: seq<Low>, m: seq<Low>, t: seq<Low>, st: LowState)
    ensures RunLow(sem, b, c + d + m + t, st)
         == RunLow(sem, b, t, RunLow(sem, b, m, RunLow(sem, b, d, RunLow(sem, b, c, st))))
  {
    hide RunLow;
    RunLowAppend(sem, b, c, d, st);
    RunLowAppend(sem, b, c + d, m, st);
    RunLowAppend(sem, b, c + d + m, t, st);
  }

  lemma MovesFillTemps(p: Program, sem: Sem, b: Block, m: seq<Low>, s2: LowState, s3: LowState)
    requires AreMoves(p, m, MovesOf(p, b)) && s3.env == s2.env
    requires forall i :: 0 <= i < |m| ==> Get(s3.temps, m[i].phi) == Read(sem, s2.env, PhiOperand(m[i].operands, b))
    ensures TempsReady(p, sem, b, s3)
  {
    forall s, x | (s, x) in MovesOf(p, b)
      ensures Get(s3.temps, x) == Read(sem, s3.env, PhiOperand(PhisOf(p, s)[x], b))
    {
      var i :| 0 <= i < |m| && m[i] == PhiMov(x, PhisOf(p, s)[x]);
    }
  }

  lemma TailKeepsTemps(p: Program, sem: Sem, b: Block, s3: LowState, r: LowState)
    requires NoComparisonOperands(p) && TempsReady(p, sem, b, s3) && r.temps == s3.temps
    requires r.env == RunCode(sem, CodeOf(p, b)[|CodeOf(p, b)| - TailLength(p, b)..], State(s3.env, s3.world)).env
    ensures TempsReady(p, sem, b, r)
  {
    var tail := CodeOf(p, b)[|CodeOf(p, b)| - TailLength(p, b)..];
    forall s, x | (s, x) in MovesOf(p, b)
      ensures Get(r.temps, x) == Read(sem, r.env, PhiOperand(PhisOf(p, s)[x], b))
    {
      TailKeeps(sem, tail, State(s3.env, s3.world), PhisOf(p, s)[x][b]);
    }
  }

  /** The tail writes at most one id. */
  lemma TailKeeps(sem: Sem, tail: seq<Ins>, st: State, v: Value)
    requires |tail| <= 1 && (|tail| == 1 ==> v != Result(tail[0].id))
    ensures Read(sem, RunCode(sem, tail, st).env, v) == Read(sem, st.env, v)
  {
    if |tail| == 1 {
      assert RunCode(sem, tail, st) == RunCode(sem, tail[1..], Execute(sem, tail[0], st));
    }
  }

  lemma {:induction false} RunCodeAppend(sem: Sem, c: seq<Ins>, d: seq<Ins>, st: State)
    ensures RunCode(sem, c + d, st) == RunCode(sem, d, RunCode(sem, c, st))
  {
    if c == [] {
      assert c + d == d;
    } else {
      assert (c + d)[1..] == c[1..] + d;
      RunCodeAppend(sem, c[1..], d, Execute(sem, c[0], st));
    }
  }

  lemma MovesAgree(p: Program, movs: seq<Low>, want: set<(Block, Id)>)
    requires UniqueDefs(p) && AreMoves(p, movs, want)
    ensures Consistent(movs)
  {
    forall i, j | 0 <= i < |movs| && 0 <= j < |movs| && movs[i].phi == movs[j].phi ensures movs[i] == movs[j] {
      var s :| (s, movs[i].phi) in want && IsPhi(p, s, movs[i].phi, movs[i].operands);
      var t :| (t, movs[j].phi) in want && IsPhi(p, t, movs[j].phi, movs[j].operands);
      assert DefinedAt(p, movs[i].phi, AsPhi(s)) && DefinedAt(p, movs[i].phi, AsPhi(t));
    }
  }

  /** Along an edge, the copies of the target compute what its phis compute. */
  lemma CopiesAreEntry(p: Program, sem: Sem, b: Block, next: Block, end: LowState)
    requires WellFormed(p.g) && PhisMatch(p) && TempsReady(p, sem, b, end)
    requires b in p.g.blocks && next in p.g.succs[b]
    ensures AfterCopies(p, next, end) == EnterBlock(p, sem, b, next, State(end.env, end.world))
  {
    var ps := PhisOf(p, next);
    forall x | x in ps ensures Read(sem, end.env, PhiOperand(ps[x], b)) == Get(end.temps, x) {
      assert (next, x) in MovesOf(p, b);
    }
    assert (map x | x in ps :: Read(sem, end.env, PhiOperand(ps[x], b))) == (map x | x in ps.Keys :: Get(end.temps, x));
  }

  lemma StepRelated(p: Program, code: map<Block, seq<Low>>, sem: Sem, c: Config, d: LowConfig)
    requires Strict(p) && PhisMatch(p) && NoComparisonOperands(p) && Eliminated(p, code) && Related(p, c, d)
    ensures Related(p, StepConfig(p, sem, c), StepLow(p, code, sem, d))
  {
    hide RunLow, RunCode, EnterBlock, AfterCopies, LaidOut, MovesOf, TempsReady, UseOk, UniqueDefs;
    hide NoComparisonOperands, PhisMatch;
    if c.At? {
      var b, t := c.block, TermOf(p, c.block);
      var end := RunLaidOut(p, sem, b, code[b], d.st);
      if !t.Return? {
        var next := Target(t, sem, end.env);
        assert next in TermTargets(t);
        assert p.g.succs[b] == TermTargets(t);
        CopiesAreEntry(p, sem, b, next, end);
      }
    }
  }

  /**
    Every run of the lowered program visits the same blocks with the same values
    in every original id, performs the same effects and returns the same result.
   */
  lemma {:induction false} EliminationRefines(p: Program, code: map<Block, seq<Low>>, sem: Sem, world: World, temps: Env, n: nat)
    requires Strict(p) && PhisMatch(p) && NoComparisonOperands(p) && Eliminated(p, code)
    ensures Related(p, Steps(p, sem, Start(p, world), n),
                       StepsLow(p, code, sem, LowAt(p.g.entry, LowState(map[], temps, world)), n))
    decreases n
  {
    var d0 := LowAt(p.g.entry, LowState(map[], temps, world));
    assert AfterCopies(p, p.g.entry, d0.st) == State(map[], world);
    StepsRelated(p, code, sem, Start(p, world), d0, n);
  }

  lemma {:induction false} StepsRelated(p: Program, code: map<Block, seq<Low>>, sem: Sem, c: Config, d: LowConfig, n: nat)
    requires Strict(p) && PhisMatch(p) && NoComparisonOperands(p) && Eliminated(p, code) && Related(p, c, d)
    ensures Related(p, Steps(p, sem, c, n), StepsLow(p, code, sem, d, n))
    decreases n
  {
    hide Strict, PhisMatch, NoComparisonOperands, Eliminated, Related, StepConfig, StepLow;
    if n > 0 {
      StepRelated(p, code, sem, c, d);
      StepsRelated(p, code, sem, StepConfig(p, sem, c), StepLow(p, code, sem, d), n - 1);
    }
  }

  // ----- the pass -----

  /** Moves wanted at b by the finished phis, and by phi (bb, x) for the finished predecessors. */
  ghost function MovesSoFar(p: Program, done: set<(Block, Id)>, e: (Block, Id), preds: seq<Block>, b: Block): set<(Block, Id)> {
    MovesDone(p, done, b) + if b in preds then {e} else {}
  }

  ghost function MovesDone(p: Program, done: set<(Block, Id)>, b: Block): set<(Block, Id)> {
    set d: (Block, Id) | d in done && d.1 in PhisOf(p, d.0) && b in PhisOf(p, d.0)[d.1]
  }

  ghost function CopiesSoFar(done: set<(Block, Id)>, b: Block): set<Id> {
    set d: (Block, Id) | d in done && d.0 == b :: d.1
  }

  /** Every finished phi is in place, and no other. */
  ghost predicate Placed(p: Program, code: map<Block, seq<Low>>, done: set<(Block, Id)>) {
    forall b :: b in p.g.blocks ==> b in code && LaidOut(p, b, code[b], CopiesSoFar(done, b), MovesDone(p, done, b))
  }

  lemma PlacedIsLayout(p: Program, code: map<Block, seq<Low>>, done: set<(Block, Id)>, e: (Block, Id))
    requires Placed(p, code, done)
    ensures Layout(p, code, done, e, [])
  {
    hide LaidOut, MovesDone;
    forall b ensures MovesSoFar(p, done, e, [], b) == MovesDone(p, done, b) {
      assert MovesDone(p, done, b) + {} == MovesDone(p, done, b);
    }
  }

  ghost predicate Layout(p: Program, code: map<Block, seq<Low>>, done: set<(Block, Id)>, e: (Block, Id), preds: seq<Block>) {
    forall b :: b in p.g.blocks ==> b in code && LaidOut(p, b, code[b], CopiesSoFar(done, b), MovesSoFar(p, done, e, preds, b))
  }

  /** Index where a move goes: before the last instruction when that is the comparison of a branch. */
  function InsertionPoint(t: Term, code: seq<Low>): (n: nat)
    ensures n <= |code|
  {
    if t.Branch? && |code| > 0 && code[|code| - 1].Plain? && code[|code| - 1].ins.kind.CMP? then |code| - 1 else |code|
  }

  lemma AddMove(p: Program, m: seq<Low>, movs: set<(Block, Id)>, s: Block, x: Id)
    requires AreMoves(p, m, movs) && s in p.g.blocks && x in PhisOf(p, s)
    ensures AreMoves(p, m + [PhiMov(x, PhisOf(p, s)[x])], movs + {(s, x)})
  {
    var mov := PhiMov(x, PhisOf(p, s)[x]);
    var m', movs' := m + [mov], movs + {(s, x)};
    forall i | 0 <= i < |m'|
      ensures m'[i].PhiMov? && exists t :: (t, m'[i].phi) in movs' && IsPhi(p, t, m'[i].phi, m'[i].operands)
    {
      if i < |m| {
        assert m'[i] == m[i] && m[i].PhiMov?;
        var t :| (t, m[i].phi) in movs && IsPhi(p, t, m[i].phi, m[i].operands);
        assert (t, m'[i].phi) in movs';
      } else {
        assert IsPhi(p, s, x, PhisOf(p, s)[x]) && (s, x) in movs';
      }
    }
    assert m'[|m|] == mov;
    forall t, y | (t, y) in movs' ensures y in PhisOf(p, t) && PhiMov(y, PhisOf(p, t)[y]) in m' {
      if (t, y) in movs {
        assert PhiMov(y, PhisOf(p, t)[y]) in m;
      }
    }
  }

  lemma InsertMove(p: Program, b: Block, code: seq<Low>, copies: set<Id>, movs: set<(Block, Id)>, s: Block, x: Id)
    requires LaidOut(p, b, code, copies, movs)
    requires s in p.g.blocks && x in PhisOf(p, s)
    ensures var n := InsertionPoint(TermOf(p, b), code);
            LaidOut(p, b, code[..n] + [PhiMov(x, PhisOf(p, s)[x])] + code[n..], copies, movs + {(s, x)})
  {
    var c: seq<Low>, m: seq<Low> :| AreCopies(c, copies) && AreMoves(p, m, movs) && code == c + Body(p, b) + m + Tail(p, b);
    var n := InsertionPoint(TermOf(p, b), code);
    var mov := PhiMov(x, PhisOf(p, s)[x]);
    AddMove(p, m, movs, s, x);
    TailPosition(p, b, c, m, n);
    hide AreCopies, AreMoves, InsertionPoint, Body, Tail;
    InsertAt(c + Body(p, b), m, Tail(p, b), n, mov);
  }

  lemma InsertAt(a: seq<Low>, m: seq<Low>, tail: seq<Low>, n: nat, mov: Low)
    requires n == |a + m|
    ensures (a + m + tail)[..n] + [mov] + (a + m + tail)[n..] == a + (m + [mov]) + tail
  {
  }

  lemma TailPosition(p: Program, b: Block, c: seq<Low>, m: seq<Low>, n: nat)
    requires forall i :: 0 <= i < |c| ==> c[i].PhiCopy?
    requires forall i :: 0 <= i < |m| ==> m[i].PhiMov?
    requires n == InsertionPoint(TermOf(p, b), c + Body(p, b) + m + Tail(p, b))
    ensures n == |c + Body(p, b) + m|
  {
    var code := c + Body(p, b) + m + Tail(p, b);
    var k := |CodeOf(p, b)|;
    if TailLength(p, b) == 1 {
      assert code[|code| - 1] == Tail(p, b)[0] == Plain(CodeOf(p, b)[k - 1]);
    } else if |code| > 0 {
      assert code == c + Body(p, b) + m;
      if |m| > 0 {
        assert code[|code| - 1] == m[|m| - 1];
      } else if |Body(p, b)| > 0 {
        assert code[|code| - 1] == Body(p, b)[k - 1] == Plain(CodeOf(p, b)[k - 1]);
      } else {
        assert code[|code| - 1] == c[|c| - 1];
      }
    }
  }

  lemma AddCopy(c: seq<Low>, copies: set<Id>, x: Id)
    requires AreCopies(c, copies)
    ensures AreCopies([PhiCopy(x)] + c, copies + {x})
  {
    var c' := [PhiCopy(x)] + c;
    assert c'[0] == PhiCopy(x);
    forall y | y in copies ensures PhiCopy(y) in c' {
      assert PhiCopy(y) in c;
    }
  }

  lemma InsertCopy(p: Program, b: Block, code: seq<Low>, copies: set<Id>, movs: set<(Block, Id)>, x: Id)
    requires LaidOut(p, b, code, copies, movs)
    ensures LaidOut(p, b, [PhiCopy(x)] + code, copies + {x}, movs)
  {
    var c: seq<Low>, m: seq<Low> :| AreCopies(c, copies) && AreMoves(p, m, movs) && code == c + Body(p, b) + m + Tail(p, b);
    AddCopy(c, copies, x);
    hide AreCopies, AreMoves, Body, Tail;
    assert [PhiCopy(x)] + code == ([PhiCopy(x)] + c) + Body(p, b) + m + Tail(p, b);
  }

  lemma InitiallyLaidOut(p: Program, b: Block)
    ensures LaidOut(p, b, Lower(CodeOf(p, b)), {}, {})
  {
    assert AreCopies([], {}) && AreMoves(p, [], {});
    assert Lower(CodeOf(p, b)) == [] + Body(p, b) + [] + Tail(p, b);
  }

  lemma InitialLayout(p: Program, code: map<Block, seq<Low>>)
    requires forall b :: b in p.g.blocks ==> b in code && code[b] == Lower(CodeOf(p, b))
    ensures Placed(p, code, {})
  {
    forall b | b in p.g.blocks ensures LaidOut(p, b, code[b], CopiesSoFar({}, b), MovesDone(p, {}, b)) {
      InitiallyLaidOut(p, b);
      hide LaidOut;
      assert CopiesSoFar({}, b) == {} && MovesDone(p, {}, b) == {};
    }
  }

  // ----- once each -----

  predicate NoneFor(c: seq<Low>, x: Id) {
    forall i :: 0 <= i < |c| ==> c[i].Plain? || c[i].phi != x
  }

  predicate NoMove(c: seq<Low>, x: Id) {
    forall i :: 0 <= i < |c| ==> c[i].PhiMov? ==> c[i].phi != x
  }

  predicate NoCopy(c: seq<Low>, x: Id) {
    forall i :: 0 <= i < |c| ==> c[i].PhiCopy? ==> c[i].phi != x
  }

  /** No phi has two moves or two copies in the block. */
  predicate OnceEach(c: seq<Low>) {
    forall i, j :: 0 <= i < j < |c| ==>
      && (c[i].PhiMov? && c[j].PhiMov? ==> c[i].phi != c[j].phi)
      && (c[i].PhiCopy? && c[j].PhiCopy? ==> c[i].phi != c[j].phi)
  }

  lemma MoveOnce(c: seq<Low>, n: nat, mov: Low)
    requires n <= |c| && mov.PhiMov?
    ensures var d := c[..n] + [mov] + c[n..];
            && (OnceEach(c) && NoMove(c, mov.phi) ==> OnceEach(d))
            && (forall y :: NoCopy(c, y) ==> NoCopy(d, y))
            && (forall y :: y != mov.phi && NoneFor(c, y) ==> NoneFor(d, y))
  {
    var d := c[..n] + [mov] + c[n..];
    forall i | 0 <= i < |d| ensures d[i] == if i < n then c[i] else if i == n then mov else c[i - 1] {
    }
  }

  lemma CopyOnce(c: seq<Low>, x: Id)
    ensures var d := [PhiCopy(x)] + c;
            && (OnceEach(c) && NoCopy(c, x) ==> OnceEach(d))
            && (forall y :: y != x && NoneFor(c, y) ==> NoneFor(d, y))
  {
    var d := [PhiCopy(x)] + c;
    forall i | 0 <= i < |d| ensures d[i] == if i == 0 then PhiCopy(x) else c[i - 1] {
    }
  }

  ghost predicate AllOnce(code: map<Block, seq<Low>>) {
    forall b :: b in code ==> OnceEach(code[b])
  }

  ghost predicate Untouched(code: map<Block, seq<Low>>, x: Id) {
    forall b :: b in code ==> NoneFor(code[b], x)
  }

  /** Nothing for x in the blocks, but moves in those listed. */
  ghost predicate Moving(code: map<Block, seq<Low>>, x: Id, placed: seq<Block>) {
    forall b :: b in code ==> NoCopy(code[b], x) && (b !in placed ==> NoMove(code[b], x))
  }

  /** The list has no block twice, and no two blocks share a phi. */
  ghost predicate Separate(p: Program) {
    && (forall i, j :: 0 <= i < j < |p.g.blocks| ==> p.g.blocks[i] != p.g.blocks[j])
    && (forall s, t, x :: s in p.g.blocks && t in p.g.blocks && x in PhisOf(p, s) && x in PhisOf(p, t) ==> s == t)
  }

  lemma NothingYet(p: Program, code: map<Block, seq<Low>>)
    requires forall b :: b in code ==> forall i :: 0 <= i < |code[b]| ==> code[b][i].Plain?
    ensures AllOnce(code) && forall x :: Untouched(code, x)
  {
  }

  lemma MovingStarts(code: map<Block, seq<Low>>, x: Id)
    requires Untouched(code, x)
    ensures Moving(code, x, [])
  {
  }

  lemma MovePlaced(code: map<Block, seq<Low>>, x: Id, placed: seq<Block>, pred: Block, n: nat, mov: Low)
    requires pred in code && n <= |code[pred]| && mov.PhiMov? && mov.phi == x
    ensures var code' := code[pred := code[pred][..n] + [mov] + code[pred][n..]];
            && (AllOnce(code) && Moving(code, x, placed) && pred !in placed ==> AllOnce(code') && Moving(code', x, placed + [pred]))
            && forall y :: y != x && Untouched(code, y) ==> Untouched(code', y)
  {
    hide OnceEach, NoneFor, NoMove, NoCopy;
    MoveOnce(code[pred], n, mov);
  }

  lemma CopyPlaced(code: map<Block, seq<Low>>, x: Id, placed: seq<Block>, b: Block)
    requires b in code
    ensures var code' := code[b := [PhiCopy(x)] + code[b]];
            && (AllOnce(code) && Moving(code, x, placed) ==> AllOnce(code'))
            && forall y :: y != x && Untouched(code, y) ==> Untouched(code', y)
  {
    hide OnceEach, NoneFor, NoMove, NoCopy;
    CopyOnce(code[b], x);
  }

  /** The phis dealt with so far are those of the first i blocks, and the first k of block i. */
  ghost predicate DoneAre(p: Program, done: set<(Block, Id)>, i: nat, phis: seq<Id>, k: nat) {
    && i <= |p.g.blocks| && k <= |phis|
    && forall d :: d in done ==>
         && d.0 in p.g.blocks && d.1 in PhisOf(p, d.0)
         && ((exists j :: 0 <= j < i && p.g.blocks[j] == d.0) || (i < |p.g.blocks| && d.0 == p.g.blocks[i] && d.1 in phis[..k]))
  }

  ghost predicate OthersUntouched(code: map<Block, seq<Low>>, done: set<(Block, Id)>) {
    forall y :: (forall d :: d in done ==> d.1 != y) ==> Untouched(code, y)
  }

  lemma NotDone(p: Program, code: map<Block, seq<Low>>, done: set<(Block, Id)>, i: nat, phis: seq<Id>, k: nat)
    requires Separate(p) && DoneAre(p, done, i, phis, k) && i < |p.g.blocks| && k < |phis| && phis[k] in PhisOf(p, p.g.blocks[i])
    requires forall m, n :: 0 <= m < n < |phis| ==> phis[m] != phis[n]
    requires OthersUntouched(code, done)
    ensures Untouched(code, phis[k])
  {
    hide Untouched;
    forall d | d in done ensures d.1 != phis[k] {
      assert d.0 in p.g.blocks && d.1 in PhisOf(p, d.0);
    }
  }

  lemma DoneNext(p: Program, done: set<(Block, Id)>, i: nat, phis: seq<Id>, k: nat)
    requires DoneAre(p, done, i, phis, k) && i < |p.g.blocks| && k < |phis| && phis[k] in PhisOf(p, p.g.blocks[i])
    ensures DoneAre(p, done + {(p.g.blocks[i], phis[k])}, i, phis, k + 1)
  {
    assert phis[..k + 1] == phis[..k] + [phis[k]];
    assert p.g.blocks[i] in p.g.blocks;
  }

  lemma BlockDone(p: Program, done: set<(Block, Id)>, i: nat, phis: seq<Id>)
    requires DoneAre(p, done, i, phis, |phis|) && i < |p.g.blocks|
    ensures DoneAre(p, done, i + 1, [], 0)
  {
  }

  lemma BlockBegins(p: Program, done: set<(Block, Id)>, i: nat, phis: seq<Id>)
    requires DoneAre(p, done, i, [], 0)
    ensures DoneAre(p, done, i, phis, 0)
  {
  }

  lemma StillUntouched(code: map<Block, seq<Low>>, code': map<Block, seq<Low>>, done: set<(Block, Id)>, b: Block, x: Id)
    requires OthersUntouched(code, done) && forall y :: y != x && Untouched(code, y) ==> Untouched(code', y)
    ensures OthersUntouched(code', done + {(b, x)})
  {
    hide Untouched;
    forall y | forall d :: d in done + {(b, x)} ==> d.1 != y ensures Untouched(code', y) {
      assert (b, x) in done + {(b, x)};
      assert forall d :: d in done ==> d in done + {(b, x)};
    }
  }

  method PlaceMove(p: Program, code0: map<Block, seq<Low>>, bb: Block, x: Id, pred: Block,
                   ghost done: set<(Block, Id)>, ghost placed: seq<Block>)
      returns (code: map<Block, seq<Low>>)
    requires bb in p.g.blocks && x in PhisOf(p, bb) && pred in p.g.blocks
    requires Layout(p, code0, done, (bb, x), placed)
    ensures Layout(p, code, done, (bb, x), placed + [pred])
    ensures AllOnce(code0) && Moving(code0, x, placed) && pred !in placed ==> AllOnce(code) && Moving(code, x, placed + [pred])
    ensures forall y :: y != x && Untouched(code0, y) ==> Untouched(code, y)
  {
    hide LaidOut, MovesSoFar, CopiesSoFar, AllOnce, Moving, Untouched;
    var operands := PhisOf(p, bb)[x];
    var n := InsertionPoint(TermOf(p, pred), code0[pred]);
    InsertMove(p, pred, code0[pred], CopiesSoFar(done, pred), MovesSoFar(p, done, (bb, x), placed, pred), bb, x);
    code := code0[pred := code0[pred][..n] + [PhiMov(x, operands)] + code0[pred][n..]];
    MoveRecorded(p, code0, code, done, (bb, x), placed, pred);
    MovePlaced(code0, x, placed, pred, n, PhiMov(x, operands));
  }

  method PlaceCopy(p: Program, code0: map<Block, seq<Low>>, bb: Block, x: Id,
                   ghost done: set<(Block, Id)>, ghost preds: seq<Block>)
      returns (code: map<Block, seq<Low>>)
    requires bb in p.g.blocks && x in PhisOf(p, bb)
    requires forall q :: q in preds <==> q in PhisOf(p, bb)[x]
    requires Layout(p, code0, done, (bb, x), preds)
    ensures Placed(p, code, done + {(bb, x)})
    ensures AllOnce(code0) && Moving(code0, x, preds) ==> AllOnce(code)
    ensures forall y :: y != x && Untouched(code0, y) ==> Untouched(code, y)
  {
    hide LaidOut, MovesSoFar, CopiesSoFar, AllOnce, Moving, Untouched;
    InsertCopy(p, bb, code0[bb], CopiesSoFar(done, bb), MovesSoFar(p, done, (bb, x), preds, bb), x);
    code := code0[bb := [PhiCopy(x)] + code0[bb]];
    CopyRecorded(p, code0, code, done, bb, x, preds);
    CopyPlaced(code0, x, preds, bb);
  }

  lemma OperandBlocks(p: Program, bb: Block, x: Id)
    requires WellFormed(p.g) && PhisMatch(p) && bb in p.g.blocks && x in PhisOf(p, bb)
    ensures forall q :: q in PhisOf(p, bb)[x] ==> q in p.g.blocks
  {
  }

  /** Places one phi: its moves in every predecessor, then its copy at the head of bb. */
  method PlacePhi(p: Program, code0: map<Block, seq<Low>>, bb: Block, x: Id, ghost done: set<(Block, Id)>)
      returns (code: map<Block, seq<Low>>)
    requires WellFormed(p.g) && PhisMatch(p) && bb in p.g.blocks && x in PhisOf(p, bb)
    requires Placed(p, code0, done)
    ensures Placed(p, code, done + {(bb, x)})
    ensures AllOnce(code0) && Untouched(code0, x) ==> AllOnce(code)
    ensures forall y :: y != x && Untouched(code0, y) ==> Untouched(code, y)
  {
    hide *;
    var operands := PhisOf(p, bb)[x];
    OperandBlocks(p, bb, x);
    PlacedIsLayout(p, code0, done, (bb, x));
    code := code0;
    var preds := Enumerate(operands.Keys);
    ghost var isNew := AllOnce(code0) && Untouched(code0, x);
    if isNew {
      MovingStarts(code, x);
    }
    for i := 0 to |preds|
      invariant Layout(p, code, done, (bb, x), preds[..i])
      invariant isNew ==> AllOnce(code) && Moving(code, x, preds[..i])
      invariant forall y :: y != x && Untouched(code0, y) ==> Untouched(code, y)
    {
      code := PlaceMove(p, code, bb, x, preds[i], done, preds[..i]);
      assert preds[..i + 1] == preds[..i] + [preds[i]];
    }
    assert preds[..|preds|] == preds;
    code := PlaceCopy(p, code, bb, x, done, preds);
  }

  class Function {
    var code: map<Block, seq<Low>>

    constructor (p: Program)
      requires WellFormed(p.g)
      ensures Placed(p, code, {})
      ensures forall b :: b in code ==> forall i :: 0 <= i < |code[b]| ==> code[b][i].Plain?
    {
      code := map b | b in BlockSet(p.g) :: Lower(CodeOf(p, b));
      new;
      InitialLayout(p, code);
    }

    /** Inserts the moves and copies of every phi into the instruction lists. */
    method PhiElimination(p: Program)
      requires WellFormed(p.g) && PhisMatch(p) && Placed(p, code, {})
      requires forall b :: b in code ==> forall i :: 0 <= i < |code[b]| ==> code[b][i].Plain?
      modifies this
      ensures Eliminated(p, code)
      ensures Separate(p) ==> forall b :: b in code ==> OnceEach(code[b])
    {
      code := PlaceAll(p, code);
    }
  }

  method PlaceAll(p: Program, code0: map<Block, seq<Low>>) returns (code: map<Block, seq<Low>>)
    requires WellFormed(p.g) && PhisMatch(p) && Placed(p, code0, {})
    requires forall b :: b in code0 ==> forall i :: 0 <= i < |code0[b]| ==> code0[b][i].Plain?
    ensures Eliminated(p, code)
    ensures Separate(p) ==> AllOnce(code)
  {
    hide Placed, PhisMatch, WellFormed, Eliminated, LaidOut, Separate, AllOnce, Untouched, OthersUntouched, DoneAre;
    code := code0;
    ghost var done: set<(Block, Id)> := {};
    NothingYet(p, code);
    NothingDone(p, code);
    for i := 0 to |p.g.blocks|
      invariant Placed(p, code, done)
      invariant forall d :: d in done ==> d.0 in p.g.blocks && d.1 in PhisOf(p, d.0)
      invariant forall j, x :: 0 <= j < i && x in PhisOf(p, p.g.blocks[j]) ==> (p.g.blocks[j], x) in done
      invariant DoneAre(p, done, i, [], 0) && (Separate(p) ==> AllOnce(code) && OthersUntouched(code, done))
    {
      var bb := p.g.blocks[i];
      var phis := Enumerate(PhisOf(p, bb).Keys);
      BlockBegins(p, done, i, phis);
      for k := 0 to |phis|
        invariant Placed(p, code, done)
        invariant forall d :: d in done ==> d.0 in p.g.blocks && d.1 in PhisOf(p, d.0)
        invariant forall j, x :: 0 <= j < i && x in PhisOf(p, p.g.blocks[j]) ==> (p.g.blocks[j], x) in done
        invariant forall j :: 0 <= j < k ==> (bb, phis[j]) in done
        invariant DoneAre(p, done, i, phis, k) && (Separate(p) ==> AllOnce(code) && OthersUntouched(code, done))
      {
        assert phis[k] in PhisOf(p, bb).Keys;
        if Separate(p) {
          NotDone(p, code, done, i, phis, k);
        }
        ghost var before := code;
        code := PlacePhi(p, code, bb, phis[k], done);
        if Separate(p) {
          StillUntouched(before, code, done, bb, phis[k]);
        }
        DoneNext(p, done, i, phis, k);
        done := done + {(bb, phis[k])};
      }
      BlockDone(p, done, i, phis);
    }
    AllPlaced(p, code, done);
  }

  lemma NothingDone(p: Program, code: map<Block, seq<Low>>)
    requires forall x :: Untouched(code, x)
    ensures DoneAre(p, {}, 0, [], 0) && OthersUntouched(code, {})
  {
  }

  lemma MoveRecorded(p: Program, code: map<Block, seq<Low>>, code': map<Block, seq<Low>>,
                     done: set<(Block, Id)>, e: (Block, Id), preds: seq<Block>, pred: Block)
    requires Layout(p, code, done, e, preds) && pred in code && pred in code' && code' == code[pred := code'[pred]]
    requires LaidOut(p, pred, code'[pred], CopiesSoFar(done, pred), MovesSoFar(p, done, e, preds, pred) + {e})
    ensures Layout(p, code', done, e, preds + [pred])
  {
    hide LaidOut;
    forall b | b in p.g.blocks
      ensures b in code' && LaidOut(p, b, code'[b], CopiesSoFar(done, b), MovesSoFar(p, done, e, preds + [pred], b))
    {
      if b == pred {
        assert MovesSoFar(p, done, e, preds + [pred], b) == MovesSoFar(p, done, e, preds, b) + {e};
      } else {
        assert MovesSoFar(p, done, e, preds + [pred], b) == MovesSoFar(p, done, e, preds, b);
      }
    }
  }

  lemma CopyRecorded(p: Program, code: map<Block, seq<Low>>, code': map<Block, seq<Low>>,
                     done: set<(Block, Id)>, bb: Block, x: Id, preds: seq<Block>)
    requires bb in p.g.blocks && x in PhisOf(p, bb)
    requires forall q :: q in preds <==> q in PhisOf(p, bb)[x]
    requires Layout(p, code, done, (bb, x), preds)
    requires bb in code && bb in code' && code' == code[bb := code'[bb]]
    requires LaidOut(p, bb, code'[bb], CopiesSoFar(done, bb) + {x}, MovesSoFar(p, done, (bb, x), preds, bb))
    ensures Placed(p, code', done + {(bb, x)})
  {
    hide LaidOut;
    var done' := done + {(bb, x)};
    forall b | b in p.g.blocks
      ensures b in code' && LaidOut(p, b, code'[b], CopiesSoFar(done', b), MovesDone(p, done', b))
    {
      assert MovesDone(p, done', b) == MovesSoFar(p, done, (bb, x), preds, b);
      if b == bb {
        assert CopiesSoFar(done', b) == CopiesSoFar(done, b) + {x};
      } else {
        assert CopiesSoFar(done', b) == CopiesSoFar(done, b);
      }
    }
  }

  lemma AllPlaced(p: Program, code: map<Block, seq<Low>>, done: set<(Block, Id)>)
    requires Placed(p, code, done)
    requires forall d :: d in done ==> d.0 in p.g.blocks && d.1 in PhisOf(p, d.0)
    requires forall j, x :: 0 <= j < |p.g.blocks| && x in PhisOf(p, p.g.blocks[j]) ==> (p.g.blocks[j], x) in done
    ensures Eliminated(p, code)
  {
    hide LaidOut;
    forall b | b in p.g.blocks ensures b in code && LaidOut(p, b, code[b], PhisOf(p, b).Keys, MovesOf(p, b)) {
      assert CopiesSoFar(done, b) == PhisOf(p, b).Keys;
      assert MovesDone(p, done, b) == MovesOf(p, b) by {
        forall s, x | (s, x) in MovesOf(p, b) ensures (s, x) in done {
          var j :| 0 <= j < |p.g.blocks| && p.g.blocks[j] == s;
        }
      }
    }
  }
}
