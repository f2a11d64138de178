/**
  Structured statements and the blocks they become.  Conditions are lowered to
  branches with short circuit, loops are inverted: the condition is emitted before
  the loop and once more in a judge block behind the body.
 */
module Lowering {
  import opened Wrappers
  import opened Cfg

  // ----- source language -----

  datatype Cond = Or(left: Cond, right: Cond) | And(left: Cond, right: Cond) | Test(exp: nat)

  /** Act stands for what has no control flow: expressions, assignments and definitions. */
  datatype Stmt =
    | Empty
    | Act(act: nat)
    | Return(value: Option<nat>)
    | Break
    | Continue
    | Scope(items: seq<Stmt>)
    | If(cond: Cond, taken: Stmt)
    | IfElse(cond: Cond, taken: Stmt, otherwise: Stmt)
    | While(cond: Cond, body: Stmt)

  type Store = seq<int>

  /** Meaning of actions, tests and returned values; each may have effects. */
  datatype Sem = Sem(act: (nat, Store) -> Store, test: (nat, Store) -> (bool, Store), value: (nat, Store) -> (int, Store))

  datatype Outcome =
    | Normal(st: Store)
    | Broke(st: Store)
    | Continued(st: Store)
    | Returned(value: Option<int>, st: Store)
    | OutOfFuel

  function EvalCond(sem: Sem, c: Cond, st: Store): (bool, Store) {
    match c
    case Test(e) => sem.test(e, st)
    case Or(l, r) =>
      var (v, st1) := EvalCond(sem, l, st);
      if v then (true, st1) else EvalCond(sem, r, st1)
    case And(l, r) =>
      var (v, st1) := EvalCond(sem, l, st);
      if v then EvalCond(sem, r, st1) else (false, st1)
  }

  function EvalReturn(sem: Sem, value: Option<nat>, st: Store): (Option<int>, Store) {
    match value
    case None => (None, st)
    case Some(e) => var (v, st1) := sem.value(e, st); (Some(v), st1)
  }

  /** What a statement does; fuel bounds the number of loop rounds. */
  function Exec(sem: Sem, s: Stmt, st: Store, fuel: nat): Outcome
    decreases fuel, s
  {
    match s
    case Empty => Normal(st)
    case Act(a) => Normal(sem.act(a, st))
    case Return(v) => var (r, st1) := EvalReturn(sem, v, st); Returned(r, st1)
    case Break => Broke(st)
    case Continue => Continued(st)
    case Scope(items) => ExecItems(sem, s, |items|, st, fuel)
    case If(c, taken) =>
      var (v, st1) := EvalCond(sem, c, st);
      if v then Exec(sem, taken, st1, fuel) else Normal(st1)
    case IfElse(c, taken, otherwise) =>
      var (v, st1) := EvalCond(sem, c, st);
      if v then Exec(sem, taken, st1, fuel) else Exec(sem, otherwise, st1, fuel)
    case While(c, body) =>
      var (v, st1) := EvalCond(sem, c, st);
      if !v then Normal(st1)
      else if fuel == 0 then OutOfFuel
      else
        match Exec(sem, body, st1, fuel - 1)
        case Normal(st2) => Exec(sem, s, st2, fuel - 1)
        case Continued(st2) => Exec(sem, s, st2, fuel - 1)
        case Broke(st2) => Normal(st2)
        case Returned(r, st2) => Returned(r, st2)
        case OutOfFuel => OutOfFuel
  }

  /** The first n items of a scope. */
  function ExecItems(sem: Sem, s: Stmt, n: nat, st: Store, fuel: nat): Outcome
    requires s.Scope? && n <= |s.items|
    decreases fuel, s, n
  {
    if n == 0 then Normal(st)
    else
      match ExecItems(sem, s, n - 1, st, fuel)
      case Normal(st1) => Exec(sem, s.items[n - 1], st1, fuel)
      case o => o
  }

  /** Break and continue stand in loops. */
  predicate WellNested(s: Stmt, inLoop: bool) {
    match s
    case Break => inLoop
    case Continue => inLoop
    case Scope(items) => forall i :: 0 <= i < |items| ==> WellNested(items[i], inLoop)
    case If(_, taken) => WellNested(taken, inLoop)
    case IfElse(_, taken, otherwise) => WellNested(taken, inLoop) && WellNested(otherwise, inLoop)
    case While(_, body) => WellNested(body, true)
    case _ => true
  }

  /** Control certainly leaves: nothing that follows is lowered. */
  predicate Jumps(s: Stmt) {
    match s
    case Return(_) => true
    case Break => true
    case Continue => true
    case Scope(items) => exists i :: 0 <= i < |items| && Jumps(items[i])
    case IfElse(_, taken, otherwise) => Jumps(taken) && Jumps(otherwise)
    case _ => false
  }

  predicate JumpsBefore(s: Stmt, n: nat)
    requires s.Scope? && n <= |s.items|
  {
    exists i :: 0 <= i < n && Jumps(s.items[i])
  }

  /** Some continue of this loop is lowered. */
  predicate Continues(s: Stmt) {
    match s
    case Continue => true
    case Scope(items) => exists i :: 0 <= i < |items| && !JumpsBefore(s, i) && Continues(items[i])
    case If(_, taken) => Continues(taken)
    case IfElse(_, taken, otherwise) => Continues(taken) || Continues(otherwise)
    case _ => false
  }

  // ----- target language -----

  datatype Ins = Do(act: nat) | Branch(exp: nat, trueBlock: Block, falseBlock: Block) | Jump(target: Block) | Ret(value: Option<nat>)

  datatype Func = Func(blocks: seq<Block>, code: map<Block, seq<Ins>>, preds: map<Block, set<Block>>, succs: map<Block, set<Block>>)

  /** Instruction i of b, which is a block the function lists. */
  predicate HasAt(f: Func, b: Block, i: nat, ins: Ins) {
    b in f.blocks && b in f.code && i < |f.code[b]| && f.code[b][i] == ins
  }

  datatype Config = At(block: Block, index: nat, st: Store) | Done(value: Option<int>, st: Store)

  /** One instruction; a run stands still where there is none. */
  function Step(f: Func, sem: Sem, c: Config): Config {
    match c
    case Done(_, _) => c
    case At(b, i, st) =>
      if b in f.blocks && b in f.code && i < |f.code[b]| then
        match f.code[b][i]
        case Do(a) => At(b, i + 1, sem.act(a, st))
        case Branch(e, t, e') => var (v, st1) := sem.test(e, st); At(if v then t else e', 0, st1)
        case Jump(t) => At(t, 0, st)
        case Ret(v) => var (r, st1) := EvalReturn(sem, v, st); Done(r, st1)
      else c
  }

  function Run(f: Func, sem: Sem, c: Config, n: nat): Config
    decreases n
  {
    if n == 0 then c else Run(f, sem, Step(f, sem, c), n - 1)
  }

  lemma {:induction false} RunAdd(f: Func, sem: Sem, c: Config, m: nat, n: nat)
    ensures Run(f, sem, c, m + n) == Run(f, sem, Run(f, sem, c, m), n)
    decreases m
  {
    if m > 0 {
      RunAdd(f, sem, Step(f, sem, c), m - 1, n);
    }
  }

  // ----- when blocks implement a statement -----

  /** From instruction i of b, the condition decides between t and e. */
  ghost predicate CondIn(f: Func, c: Cond, b: Block, i: nat, t: Block, e: Block) {
    match c
    case Test(x) => HasAt(f, b, i, Branch(x, t, e))
    case Or(l, r) => exists m :: CondIn(f, l, b, i, t, m) && CondIn(f, r, m, 0, t, e)
    case And(l, r) => exists m :: CondIn(f, l, b, i, m, e) && CondIn(f, r, m, 0, t, e)
  }

  datatype Loop = Loop(judge: Block, end: Block)

  /** From instruction i of b, the statement runs and leaves normally at instruction j of d. */
  ghost predicate StmtIn(f: Func, s: Stmt, b: Block, i: nat, d: Block, j: nat, loop: Loop)
    decreases s
  {
    match s
    case Empty => d == b && j == i
    case Act(a) => HasAt(f, b, i, Do(a)) && d == b && j == i + 1
    case Return(v) => HasAt(f, b, i, Ret(v))
    case Break => HasAt(f, b, i, Jump(loop.end))
    case Continue => HasAt(f, b, i, Jump(loop.judge))
    case Scope(items) => ItemsIn(f, s, |items|, b, i, d, j, loop)
    case If(c, taken) =>
      j == 0 && exists t :: CondIn(f, c, b, i, t, d) && BranchIn(f, s, taken, t, d, loop)
    case IfElse(c, taken, otherwise) =>
      j == 0 && exists t, e :: CondIn(f, c, b, i, t, e) && BranchIn(f, s, taken, t, d, loop) && BranchIn(f, s, otherwise, e, d, loop)
    case While(c, body) =>
      j == 0 && exists t, judge :: CondIn(f, c, b, i, t, d) && BodyIn(f, s, t, judge, d)
  }

  /** The statement runs from the head of t and then goes on to the block next. */
  ghost predicate BranchIn(f: Func, whole: Stmt, s: Stmt, t: Block, next: Block, loop: Loop)
    requires s < whole
    decreases whole, 0
  {
    exists x, k :: StmtIn(f, s, t, 0, x, k, loop) && (Jumps(s) || HasAt(f, x, k, Jump(next)))
  }

  /** The loop body, and the judge block wherever it can be reached. */
  ghost predicate BodyIn(f: Func, s: Stmt, t: Block, judge: Block, end: Block)
    requires s.While?
    decreases s, 1
  {
    && BranchIn(f, s, s.body, t, judge, Loop(judge, end))
    && (!Jumps(s.body) || Continues(s.body) ==> CondIn(f, s.cond, judge, 0, t, end))
  }

  ghost predicate ItemsIn(f: Func, s: Stmt, n: nat, b: Block, i: nat, d: Block, j: nat, loop: Loop)
    requires s.Scope? && n <= |s.items|
    decreases s, n
  {
    if n == 0 then d == b && j == i
    else
      var m := n - 1;
      exists x, k :: ItemsIn(f, s, m, b, i, x, k, loop)
                     && if JumpsBefore(s, m) then d == x && j == k else StmtIn(f, s.items[m], x, k, d, j, loop)
  }

  // ----- more code keeps what is implemented -----

  ghost predicate Extends(f: Func, g: Func) {
    && (forall b :: b in f.blocks ==> b in g.blocks)
    && (forall b :: b in f.code ==> b in g.code && f.code[b] <= g.code[b])
  }

  lemma {:induction false} CondStays(f: Func, g: Func, c: Cond, b: Block, i: nat, t: Block, e: Block)
    requires Extends(f, g) && CondIn(f, c, b, i, t, e)
    ensures CondIn(g, c, b, i, t, e)
  {
    match c
    case Test(_) =>
    case Or(l, r) =>
      var m :| CondIn(f, l, b, i, t, m) && CondIn(f, r, m, 0, t, e);
      CondStays(f, g, l, b, i, t, m);
      CondStays(f, g, r, m, 0, t, e);
    case And(l, r) =>
      var m :| CondIn(f, l, b, i, m, e) && CondIn(f, r, m, 0, t, e);
      CondStays(f, g, l, b, i, m, e);
      CondStays(f, g, r, m, 0, t, e);
  }

  lemma {:induction false} StmtStays(f: Func, g: Func, s: Stmt, b: Block, i: nat, d: Block, j: nat, loop: Loop)
    requires Extends(f, g) && StmtIn(f, s, b, i, d, j, loop)
    ensures StmtIn(g, s, b, i, d, j, loop)
    decreases s
  {
    hide Extends, Jumps, Continues;
    match s
    case Empty =>
    case Act(a) => InsStays(f, g, b, i, Do(a));
    case Return(v) => InsStays(f, g, b, i, Ret(v));
    case Break => InsStays(f, g, b, i, Jump(loop.end));
    case Continue => InsStays(f, g, b, i, Jump(loop.judge));
    case Scope(items) => ItemsStay(f, g, s, |items|, b, i, d, j, loop);
    case If(c, taken) =>
      var t :| CondIn(f, c, b, i, t, d) && BranchIn(f, s, taken, t, d, loop);
      CondStays(f, g, c, b, i, t, d);
      BranchStays(f, g, s, taken, t, d, loop);
    case IfElse(c, taken, otherwise) =>
      var t, e :| CondIn(f, c, b, i, t, e) && BranchIn(f, s, taken, t, d, loop) && BranchIn(f, s, otherwise, e, d, loop);
      CondStays(f, g, c, b, i, t, e);
      BranchStays(f, g, s, taken, t, d, loop);
      BranchStays(f, g, s, otherwise, e, d, loop);
    case While(c, body) =>
      var t, judge :| CondIn(f, c, b, i, t, d) && BodyIn(f, s, t, judge, d);
      CondStays(f, g, c, b, i, t, d);
      BranchStays(f, g, s, body, t, judge, Loop(judge, d));
      if !Jumps(body) || Continues(body) {
        CondStays(f, g, c, judge, 0, t, d);
      }
      assert BodyIn(g, s, t, judge, d);
  }

  lemma InsStays(f: Func, g: Func, b: Block, i: nat, ins: Ins)
    requires Extends(f, g) && HasAt(f, b, i, ins)
    ensures HasAt(g, b, i, ins)
  {
  }

  lemma {:induction false} BranchStays(f: Func, g: Func, whole: Stmt, s: Stmt, t: Block, next: Block, loop: Loop)
    requires s < whole && Extends(f, g) && BranchIn(f, whole, s, t, next, loop)
    ensures BranchIn(g, whole, s, t, next, loop)
    decreases whole, 0
  {
    hide Extends, Jumps;
    var x, k :| StmtIn(f, s, t, 0, x, k, loop) && (Jumps(s) || HasAt(f, x, k, Jump(next)));
    StmtStays(f, g, s, t, 0, x, k, loop);
    if !Jumps(s) {
      InsStays(f, g, x, k, Jump(next));
    }
  }

  lemma {:induction false} ItemsStay(f: Func, g: Func, s: Stmt, n: nat, b: Block, i: nat, d: Block, j: nat, loop: Loop)
    requires s.Scope? && n <= |s.items| && Extends(f, g) && ItemsIn(f, s, n, b, i, d, j, loop)
    ensures ItemsIn(g, s, n, b, i, d, j, loop)
    decreases s, n
  {
    hide Extends, JumpsBefore;
    if n > 0 {
      var m := n - 1;
      var x, k :| ItemsIn(f, s, m, b, i, x, k, loop)
                  && if JumpsBefore(s, m) then d == x && j == k else StmtIn(f, s.items[m], x, k, d, j, loop);
      ItemsStay(f, g, s, m, b, i, x, k, loop);
      if !JumpsBefore(s, m) {
        StmtStays(f, g, s.items[m], x, k, d, j, loop);
      }
    }
  }

  // ----- control never comes where nothing was lowered -----

  lemma {:induction false} JumpsNeverNormal(sem: Sem, s: Stmt, st: Store, fuel: nat)
    requires Jumps(s)
    ensures !Exec(sem, s, st, fuel).Normal?
    decreases s
  {
    match s
    case Scope(items) =>
      var i :| 0 <= i < |items| && Jumps(items[i]);
      JumpsStopItems(sem, s, |items|, i, st, fuel);
    case IfElse(c, taken, otherwise) =>
      var st1 := EvalCond(sem, c, st).1;
      JumpsNeverNormal(sem, taken, st1, fuel);
      JumpsNeverNormal(sem, otherwise, st1, fuel);
    case _ =>
  }

  lemma {:induction false} JumpsStopItems(sem: Sem, s: Stmt, n: nat, i: nat, st: Store, fuel: nat)
    requires s.Scope? && i < n <= |s.items| && Jumps(s.items[i])
    ensures !ExecItems(sem, s, n, st, fuel).Normal?
    decreases s, n
  {
    var o := ExecItems(sem, s, n - 1, st, fuel);
    if i < n - 1 {
      JumpsStopItems(sem, s, n - 1, i, st, fuel);
    } else if o.Normal? {
      JumpsNeverNormal(sem, s.items[i], o.st, fuel);
    }
  }

  lemma {:induction false} OnlyLoweredContinues(sem: Sem, s: Stmt, st: Store, fuel: nat)
    requires !Continues(s)
    ensures !Exec(sem, s, st, fuel).Continued?
    decreases fuel, s
  {
    match s
    case Scope(items) => ItemsContinue(sem, s, |items|, st, fuel);
    case If(c, taken) => OnlyLoweredContinues(sem, taken, EvalCond(sem, c, st).1, fuel);
    case IfElse(c, taken, otherwise) =>
      OnlyLoweredContinues(sem, taken, EvalCond(sem, c, st).1, fuel);
      OnlyLoweredContinues(sem, otherwise, EvalCond(sem, c, st).1, fuel);
    case While(c, body) =>
      var (v, st1) := EvalCond(sem, c, st);
      if v && fuel > 0 {
        match Exec(sem, body, st1, fuel - 1)
        case Normal(st2) => OnlyLoweredContinues(sem, s, st2, fuel - 1);
        case Continued(st2) => OnlyLoweredContinues(sem, s, st2, fuel - 1);
        case _ =>
      }
    case _ =>
  }

  lemma {:induction false} ItemsContinue(sem: Sem, s: Stmt, n: nat, st: Store, fuel: nat)
    requires s.Scope? && n <= |s.items| && !Continues(s)
    ensures !ExecItems(sem, s, n, st, fuel).Continued?
    decreases fuel, s, n
  {
    if n > 0 {
      ItemsContinue(sem, s, n - 1, st, fuel);
      var o := ExecItems(sem, s, n - 1, st, fuel);
      if o.Normal? {
        if JumpsBefore(s, n - 1) {
          var i :| 0 <= i < n - 1 && Jumps(s.items[i]);
          JumpsStopItems(sem, s, n - 1, i, st, fuel);
        } else {
          OnlyLoweredContinues(sem, s.items[n - 1], o.st, fuel);
        }
      }
    }
  }

  // ----- the blocks run as the statement does -----

  /** c leads to d in at least k steps. */
  ghost predicate Arrives(f: Func, sem: Sem, c: Config, d: Config, k: nat) {
    exists n :: n >= k && Run(f, sem, c, n) == d
  }

  /** The run from c has not returned after k steps. */
  ghost predicate Lasts(f: Func, sem: Sem, c: Config, k: nat) {
    exists n :: n >= k && Run(f, sem, c, n).At?
  }

  lemma ArrivesThere(f: Func, sem: Sem, c: Config)
    ensures Arrives(f, sem, c, c, 0)
  {
    assert Run(f, sem, c, 0) == c;
  }

  lemma ArrivesNext(f: Func, sem: Sem, c: Config, d: Config)
    requires Step(f, sem, c) == d
    ensures Arrives(f, sem, c, d, 1)
  {
    assert Run(f, sem, c, 1) == d;
  }

  lemma ArrivesOver(f: Func, sem: Sem, c: Config, d: Config, e: Config, k: nat, l: nat)
    requires Arrives(f, sem, c, d, k) && Arrives(f, sem, d, e, l)
    ensures Arrives(f, sem, c, e, k + l)
  {
    var m :| m >= k && Run(f, sem, c, m) == d;
    var n :| n >= l && Run(f, sem, d, n) == e;
    RunAdd(f, sem, c, m, n);
  }

  lemma LastsOver(f: Func, sem: Sem, c: Config, d: Config, k: nat, l: nat)
    requires Arrives(f, sem, c, d, k) && Lasts(f, sem, d, l)
    ensures Lasts(f, sem, c, k + l)
  {
    var m :| m >= k && Run(f, sem, c, m) == d;
    var n :| n >= l && Run(f, sem, d, n).At?;
    RunAdd(f, sem, c, m, n);
  }

  /** The run from c ends as the outcome says, or goes on for as long as there was fuel. */
  ghost predicate Follows(f: Func, sem: Sem, c: Config, o: Outcome, d: Block, j: nat, loop: Loop, fuel: nat) {
    match o
    case Normal(st) => Arrives(f, sem, c, At(d, j, st), 0)
    case Broke(st) => Arrives(f, sem, c, At(loop.end, 0, st), 0)
    case Continued(st) => Arrives(f, sem, c, At(loop.judge, 0, st), 0)
    case Returned(v, st) => Arrives(f, sem, c, Done(v, st), 0)
    case OutOfFuel => Lasts(f, sem, c, fuel)
  }

  lemma FollowsOver(f: Func, sem: Sem, c: Config, c': Config, o: Outcome, d: Block, j: nat, loop: Loop, fuel: nat, k: nat)
    requires Arrives(f, sem, c, c', k) && Follows(f, sem, c', o, d, j, loop, fuel)
    ensures Follows(f, sem, c, o, d, j, loop, fuel)
    ensures o.OutOfFuel? ==> Lasts(f, sem, c, fuel + k)
  {
    hide Arrives, Lasts;
    match o
    case Normal(st) => ArrivesOver(f, sem, c, c', At(d, j, st), k, 0); ArrivesLess(f, sem, c, At(d, j, st), k);
    case Broke(st) => ArrivesOver(f, sem, c, c', At(loop.end, 0, st), k, 0); ArrivesLess(f, sem, c, At(loop.end, 0, st), k);
    case Continued(st) => ArrivesOver(f, sem, c, c', At(loop.judge, 0, st), k, 0); ArrivesLess(f, sem, c, At(loop.judge, 0, st), k);
    case Returned(v, st) => ArrivesOver(f, sem, c, c', Done(v, st), k, 0); ArrivesLess(f, sem, c, Done(v, st), k);
    case OutOfFuel => LastsOver(f, sem, c, c', k, fuel); LastsLess(f, sem, c, fuel + k, fuel);
  }

  lemma ArrivesLess(f: Func, sem: Sem, c: Config, d: Config, k: nat)
    requires Arrives(f, sem, c, d, k)
    ensures Arrives(f, sem, c, d, 0)
  {
  }

  lemma LastsLess(f: Func, sem: Sem, c: Config, k: nat, l: nat)
    requires Lasts(f, sem, c, k) && l <= k
    ensures Lasts(f, sem, c, l)
  {
  }

  /** Short circuit: the branches reach t or e with the effects of exactly the tests that were needed. */
  lemma {:induction false} CondRuns(f: Func, sem: Sem, c: Cond, b: Block, i: nat, t: Block, e: Block, st: Store)
    requires CondIn(f, c, b, i, t, e)
    ensures var (v, st1) := EvalCond(sem, c, st); Arrives(f, sem, At(b, i, st), At(if v then t else e, 0, st1), 1)
    decreases c
  {
    hide Arrives;
    match c
    case Test(x) =>
      var (v, st1) := sem.test(x, st);
      ArrivesNext(f, sem, At(b, i, st), At(if v then t else e, 0, st1));
    case Or(l, r) =>
      var m :| CondIn(f, l, b, i, t, m) && CondIn(f, r, m, 0, t, e);
      CondRuns(f, sem, l, b, i, t, m, st);
      var (v, st1) := EvalCond(sem, l, st);
      if !v {
        CondRuns(f, sem, r, m, 0, t, e, st1);
        var (v', st2) := EvalCond(sem, r, st1);
        ArrivesOver(f, sem, At(b, i, st), At(m, 0, st1), At(if v' then t else e, 0, st2), 1, 1);
        ArrivesOne(f, sem, At(b, i, st), At(if v' then t else e, 0, st2));
      }
    case And(l, r) =>
      var m :| CondIn(f, l, b, i, m, e) && CondIn(f, r, m, 0, t, e);
      CondRuns(f, sem, l, b, i, m, e, st);
      var (v, st1) := EvalCond(sem, l, st);
      if v {
        CondRuns(f, sem, r, m, 0, t, e, st1);
        var (v', st2) := EvalCond(sem, r, st1);
        ArrivesOver(f, sem, At(b, i, st), At(m, 0, st1), At(if v' then t else e, 0, st2), 1, 1);
        ArrivesOne(f, sem, At(b, i, st), At(if v' then t else e, 0, st2));
      }
  }

  lemma ArrivesOne(f: Func, sem: Sem, c: Config, d: Config)
    requires Arrives(f, sem, c, d, 2)
    ensures Arrives(f, sem, c, d, 1)
  {
  }

  /** The result: blocks that implement a statement run exactly as it does. */
  lemma {:induction false} StmtRuns(f: Func, sem: Sem, s: Stmt, b: Block, i: nat, d: Block, j: nat, loop: Loop, st: Store, fuel: nat)
    requires StmtIn(f, s, b, i, d, j, loop)
    ensures Follows(f, sem, At(b, i, st), Exec(sem, s, st, fuel), d, j, loop, fuel)
    decreases fuel, s, 2
  {
    hide Arrives, Lasts, Jumps, Continues;
    match s
    case Empty => ArrivesThere(f, sem, At(b, i, st));
    case Act(a) => StepRuns(f, sem, b, i, st, Normal(sem.act(a, st)), d, j, loop, fuel);
    case Return(v) =>
      var (r, st1) := EvalReturn(sem, v, st);
      StepRuns(f, sem, b, i, st, Returned(r, st1), d, j, loop, fuel);
    case Break => StepRuns(f, sem, b, i, st, Broke(st), d, j, loop, fuel);
    case Continue => StepRuns(f, sem, b, i, st, Continued(st), d, j, loop, fuel);
    case Scope(items) => ItemsRun(f, sem, s, |items|, b, i, d, j, loop, st, fuel);
    case If(c, taken) =>
      var t :| CondIn(f, c, b, i, t, d) && BranchIn(f, s, taken, t, d, loop);
      CondRuns(f, sem, c, b, i, t, d, st);
      var (v, st1) := EvalCond(sem, c, st);
      if v {
        BranchRuns(f, sem, s, taken, t, d, loop, st1, fuel);
        FollowsOver(f, sem, At(b, i, st), At(t, 0, st1), Exec(sem, taken, st1, fuel), d, 0, loop, fuel, 1);
      } else {
        ArrivesLess(f, sem, At(b, i, st), At(d, 0, st1), 1);
      }
    case IfElse(c, taken, otherwise) =>
      var t, e :| CondIn(f, c, b, i, t, e) && BranchIn(f, s, taken, t, d, loop) && BranchIn(f, s, otherwise, e, d, loop);
      CondRuns(f, sem, c, b, i, t, e, st);
      var (v, st1) := EvalCond(sem, c, st);
      BranchRuns(f, sem, s, if v then taken else otherwise, if v then t else e, d, loop, st1, fuel);
      FollowsOver(f, sem, At(b, i, st), At(if v then t else e, 0, st1), Exec(sem, if v then taken else otherwise, st1, fuel), d, 0, loop, fuel, 1);
    case While(c, body) =>
      var t, judge :| CondIn(f, c, b, i, t, d) && BodyIn(f, s, t, judge, d);
      LoopRuns(f, sem, s, b, i, t, judge, d, loop, st, fuel);
  }

  lemma StepRuns(f: Func, sem: Sem, b: Block, i: nat, st: Store, o: Outcome, d: Block, j: nat, loop: Loop, fuel: nat)
    requires match o
             case Normal(st1) => Step(f, sem, At(b, i, st)) == At(d, j, st1)
             case Broke(st1) => Step(f, sem, At(b, i, st)) == At(loop.end, 0, st1)
             case Continued(st1) => Step(f, sem, At(b, i, st)) == At(loop.judge, 0, st1)
             case Returned(v, st1) => Step(f, sem, At(b, i, st)) == Done(v, st1)
             case OutOfFuel => false
    ensures Follows(f, sem, At(b, i, st), o, d, j, loop, fuel)
  {
    hide Arrives;
    var c := Step(f, sem, At(b, i, st));
    ArrivesNext(f, sem, At(b, i, st), c);
    ArrivesLess(f, sem, At(b, i, st), c, 1);
  }

  /** A branch that ends normally goes on to the block next. */
  lemma {:induction false} BranchRuns(f: Func, sem: Sem, whole: Stmt, s: Stmt, t: Block, next: Block, loop: Loop, st: Store, fuel: nat)
    requires s < whole && BranchIn(f, whole, s, t, next, loop)
    ensures Follows(f, sem, At(t, 0, st), Exec(sem, s, st, fuel), next, 0, loop, fuel)
    decreases fuel, whole, 0
  {
    hide Arrives, Lasts, Jumps;
    var x, k :| StmtIn(f, s, t, 0, x, k, loop) && (Jumps(s) || HasAt(f, x, k, Jump(next)));
    StmtRuns(f, sem, s, t, 0, x, k, loop, st, fuel);
    var o := Exec(sem, s, st, fuel);
    if o.Normal? {
      if Jumps(s) {
        JumpsNeverNormal(sem, s, st, fuel);
      } else {
        ArrivesNext(f, sem, At(x, k, o.st), At(next, 0, o.st));
        ArrivesOver(f, sem, At(t, 0, st), At(x, k, o.st), At(next, 0, o.st), 0, 1);
        ArrivesLess(f, sem, At(t, 0, st), At(next, 0, o.st), 1);
      }
    }
  }

  lemma {:induction false} ItemsRun(f: Func, sem: Sem, s: Stmt, n: nat, b: Block, i: nat, d: Block, j: nat, loop: Loop, st: Store, fuel: nat)
    requires s.Scope? && n <= |s.items| && ItemsIn(f, s, n, b, i, d, j, loop)
    ensures Follows(f, sem, At(b, i, st), ExecItems(sem, s, n, st, fuel), d, j, loop, fuel)
    decreases fuel, s, 1, n
  {
    hide Arrives, Lasts, JumpsBefore;
    if n == 0 {
      ArrivesThere(f, sem, At(b, i, st));
    } else {
      var m := n - 1;
      var x, k :| ItemsIn(f, s, m, b, i, x, k, loop)
                  && if JumpsBefore(s, m) then d == x && j == k else StmtIn(f, s.items[m], x, k, d, j, loop);
      ItemsRun(f, sem, s, m, b, i, x, k, loop, st, fuel);
      var o := ExecItems(sem, s, m, st, fuel);
      if o.Normal? {
        if JumpsBefore(s, m) {
          ItemsNeverNormal(sem, s, m, st, fuel);
        } else {
          StmtRuns(f, sem, s.items[m], x, k, d, j, loop, o.st, fuel);
          FollowsOver(f, sem, At(b, i, st), At(x, k, o.st), Exec(sem, s.items[m], o.st, fuel), d, j, loop, fuel, 0);
        }
      }
    }
  }

  lemma ItemsNeverNormal(sem: Sem, s: Stmt, n: nat, st: Store, fuel: nat)
    requires s.Scope? && n <= |s.items| && JumpsBefore(s, n)
    ensures !ExecItems(sem, s, n, st, fuel).Normal?
  {
    var i :| 0 <= i < n && Jumps(s.items[i]);
    JumpsStopItems(sem, s, n, i, st, fuel);
  }

  /** A loop entered at its condition, which stands before the loop or in the judge block. */
  lemma {:induction false} LoopRuns(f: Func, sem: Sem, s: Stmt, b: Block, i: nat, t: Block, judge: Block, end: Block, loop: Loop, st: Store, fuel: nat)
    requires s.While? && CondIn(f, s.cond, b, i, t, end) && BodyIn(f, s, t, judge, end)
    ensures Follows(f, sem, At(b, i, st), Exec(sem, s, st, fuel), end, 0, loop, fuel)
    decreases fuel, s, 1
  {
    hide Arrives, Lasts, Jumps, Continues, CondIn, BranchIn;
    CondRuns(f, sem, s.cond, b, i, t, end, st);
    var (v, st1) := EvalCond(sem, s.cond, st);
    if !v {
      ArrivesLess(f, sem, At(b, i, st), At(end, 0, st1), 1);
    } else if fuel == 0 {
      LastsNow(f, sem, At(b, i, st));
    } else {
      BranchRuns(f, sem, s, s.body, t, judge, Loop(judge, end), st1, fuel - 1);
      var o := Exec(sem, s.body, st1, fuel - 1);
      FollowsOver(f, sem, At(b, i, st), At(t, 0, st1), o, judge, 0, Loop(judge, end), fuel - 1, 1);
      if o.Normal? || o.Continued? {
        JudgeIsThere(f, sem, s, t, judge, end, st1, fuel - 1);
        LoopRuns(f, sem, s, judge, 0, t, judge, end, loop, o.st, fuel - 1);
        ArrivesOver(f, sem, At(b, i, st), At(t, 0, st1), At(judge, 0, o.st), 1, 0);
        FollowsOver(f, sem, At(b, i, st), At(judge, 0, o.st), Exec(sem, s, o.st, fuel - 1), end, 0, loop, fuel - 1, 1);
      }
    }
  }

  lemma LastsNow(f: Func, sem: Sem, c: Config)
    requires c.At?
    ensures Lasts(f, sem, c, 0)
  {
    assert Run(f, sem, c, 0) == c;
  }

  /** Where the judge block is entered, it was lowered. */
  lemma JudgeIsThere(f: Func, sem: Sem, s: Stmt, t: Block, judge: Block, end: Block, st: Store, fuel: nat)
    requires s.While? && BodyIn(f, s, t, judge, end)
    requires Exec(sem, s.body, st, fuel).Normal? || Exec(sem, s.body, st, fuel).Continued?
    ensures CondIn(f, s.cond, judge, 0, t, end)
  {
    hide CondIn, BranchIn;
    if Jumps(s.body) && !Continues(s.body) {
      JumpsNeverNormal(sem, s.body, st, fuel);
      OnlyLoweredContinues(sem, s.body, st, fuel);
    }
  }

  lemma {:induction false} DoneStays(f: Func, sem: Sem, c: Config, n: nat)
    requires c.Done?
    ensures Run(f, sem, c, n) == c
    decreases n
  {
    if n > 0 {
      DoneStays(f, sem, c, n - 1);
    }
  }

  /** Once returned, the run stays there. */
  lemma DoneOnce(f: Func, sem: Sem, c: Config, m: nat, n: nat)
    requires Run(f, sem, c, m).Done? && m <= n
    ensures Run(f, sem, c, n) == Run(f, sem, c, m)
  {
    RunAdd(f, sem, c, m, n - m);
    DoneStays(f, sem, Run(f, sem, c, m), n - m);
  }

  /** From the same store, the blocks return v and end exactly if the body does. */
  ghost predicate ReturnsAlike(f: Func, sem: Sem, body: Stmt, entry: Block, st: Store, v: Option<int>, end: Store) {
    (exists n :: Run(f, sem, At(entry, 0, st), n) == Done(v, end)) <==> (exists fuel :: Exec(sem, body, st, fuel) == Returned(v, end))
  }

  /**
    A function body and the blocks it became return the same value with the same
    store, and the one returns whenever the other does.
   */
  lemma ReturnsExactly(f: Func, sem: Sem, s: Stmt, entry: Block, d: Block, j: nat, loop: Loop, st: Store, v: Option<int>, end: Store)
    requires StmtIn(f, s, entry, 0, d, j, loop) && WellNested(s, false)
    requires !HasIns(f, d, j) || Jumps(s)
    ensures ReturnsAlike(f, sem, s, entry, st, v, end)
  {
    hide Lasts, Arrives, StmtIn, Jumps, HasIns;
    var c := At(entry, 0, st);
    if fuel :| Exec(sem, s, st, fuel) == Returned(v, end) {
      StmtRuns(f, sem, s, entry, 0, d, j, loop, st, fuel);
      ArrivesAt(f, sem, c, Done(v, end));
    }
    if n: nat :| Run(f, sem, c, n) == Done(v, end) {
      StmtRuns(f, sem, s, entry, 0, d, j, loop, st, n);
      ReturnsOnly(f, sem, s, d, j, loop, c, n, v, end, Exec(sem, s, st, n));
      NeverLeaves(sem, s, st, n);
      if Jumps(s) {
        JumpsNeverNormal(sem, s, st, n);
      }
    }
  }

  /** Instruction j of d exists. */
  predicate HasIns(f: Func, d: Block, j: nat) {
    d in f.blocks && d in f.code && j < |f.code[d]|
  }

  lemma ArrivesAt(f: Func, sem: Sem, c: Config, d: Config)
    requires Arrives(f, sem, c, d, 0)
    ensures exists n :: Run(f, sem, c, n) == d
  {
  }

  lemma ReturnsOnly(f: Func, sem: Sem, s: Stmt, d: Block, j: nat, loop: Loop, c: Config, n: nat, v: Option<int>, end: Store, o: Outcome)
    requires Run(f, sem, c, n) == Done(v, end) && Follows(f, sem, c, o, d, j, loop, n)
    ensures o.Returned? ==> o == Returned(v, end)
    ensures !o.OutOfFuel?
    ensures o.Normal? ==> HasIns(f, d, j)
  {
    match o
    case Returned(w, st) =>
      var m :| m >= 0 && Run(f, sem, c, m) == Done(w, st);
      DoneOnce(f, sem, c, if m < n then m else n, if m < n then n else m);
    case OutOfFuel =>
      var m :| m >= n && Run(f, sem, c, m).At?;
      DoneOnce(f, sem, c, n, m);
    case Normal(st) =>
      var m :| m >= 0 && Run(f, sem, c, m) == At(d, j, st);
      if !HasIns(f, d, j) {
        StandsStill(f, sem, At(d, j, st), n);
        RunAdd(f, sem, c, m, n);
        DoneOnce(f, sem, c, n, m + n);
      }
    case _ =>
  }

  lemma {:induction false} StandsStill(f: Func, sem: Sem, c: Config, n: nat)
    requires c.At? && !HasIns(f, c.block, c.index)
    ensures Run(f, sem, c, n) == c
    decreases n
  {
    if n > 0 {
      StandsStill(f, sem, c, n - 1);
    }
  }

  /** Outside loops nothing breaks or continues. */
  lemma {:induction false} NeverLeaves(sem: Sem, s: Stmt, st: Store, fuel: nat)
    requires WellNested(s, false)
    ensures var o := Exec(sem, s, st, fuel); !o.Broke? && !o.Continued?
    decreases fuel, s, 1
  {
    match s
    case Scope(items) => ItemsNeverLeave(sem, s, |items|, st, fuel);
    case If(c, taken) => NeverLeaves(sem, taken, EvalCond(sem, c, st).1, fuel);
    case IfElse(c, taken, otherwise) =>
      NeverLeaves(sem, taken, EvalCond(sem, c, st).1, fuel);
      NeverLeaves(sem, otherwise, EvalCond(sem, c, st).1, fuel);
    case While(c, body) => LoopNeverLeaves(sem, s, st, fuel);
    case _ =>
  }

  lemma {:induction false} LoopNeverLeaves(sem: Sem, s: Stmt, st: Store, fuel: nat)
    requires s.While?
    ensures var o := Exec(sem, s, st, fuel); !o.Broke? && !o.Continued?
    decreases fuel
  {
    var (v, st1) := EvalCond(sem, s.cond, st);
    if v && fuel > 0 {
      match Exec(sem, s.body, st1, fuel - 1)
      case Normal(st2) => LoopNeverLeaves(sem, s, st2, fuel - 1);
      case Continued(st2) => LoopNeverLeaves(sem, s, st2, fuel - 1);
      case _ =>
    }
  }

  lemma {:induction false} ItemsNeverLeave(sem: Sem, s: Stmt, n: nat, st: Store, fuel: nat)
    requires s.Scope? && n <= |s.items| && WellNested(s, false)
    ensures var o := ExecItems(sem, s, n, st, fuel); !o.Broke? && !o.Continued?
    decreases fuel, s, 0, n
  {
    if n > 0 {
      ItemsNeverLeave(sem, s, n - 1, st, fuel);
      var o := ExecItems(sem, s, n - 1, st, fuel);
      if o.Normal? {
        NeverLeaves(sem, s.items[n - 1], o.st, fuel);
      }
    }
  }
}
