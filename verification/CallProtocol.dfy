/**
  Calls: the caller saves its registers, pushes the arguments from the fifth on in
  groups of four and puts the first four in R0 to R3; the callee opens a frame, runs and
  closes it together with the pushed arguments; the caller restores its registers and
  fetches the result.
 */
module CallProtocol {
  import opened ArmStack
  import opened FrameLayout

  /** A constant, an address the linker knows, or a value of the function (alloc: a local array, read as its address). */
  datatype Value = Number(n: int) | Named(name: string) | Virtual(id: nat, alloc: bool)

  /** Where the caller's values are: stack slots, temporary registers, allocated registers. */
  datatype Homes = Homes(slots: map<nat, int>, temps: map<nat, int>, regs: map<nat, int>)

  /** One home each; temporaries in R0 to R3 and R14, a register each; allocated registers R4 to R12. */
  ghost predicate Sound(h: Homes) {
    && (forall x :: x in h.slots ==> 0 <= h.slots[x] && x !in h.temps && x !in h.regs)
    && (forall x :: x in h.temps ==> (0 <= h.temps[x] < 4 || h.temps[x] == LR) && x !in h.regs)
    && (forall x, y :: x in h.temps && y in h.temps && x != y ==> h.temps[x] != h.temps[y])
    && forall x :: x in h.regs ==> 4 <= h.regs[x] <= 12
  }

  predicate HasHome(v: Value, h: Homes) {
    v.Virtual? ==> v.id in h.slots || (!v.alloc && (v.id in h.temps || v.id in h.regs))
  }

  /** The register a value is in, or -1. */
  function HomeRegister(v: Value, h: Homes): int {
    if !v.Virtual? || v.id in h.slots then -1
    else if v.id in h.temps then h.temps[v.id]
    else if v.id in h.regs then h.regs[v.id]
    else -1
  }

  /** A value as read in state s, whose stack pointer is the given number of bytes below the frame. */
  function Reading(v: Value, h: Homes, lowered: int, s: State): int {
    match v
    case Number(n) => n
    case Named(name) => s.symbol(name)
    case Virtual(id, alloc) =>
      if id in h.slots then
        var address := s.reg(SP) + h.slots[id] + lowered;
        if alloc then address else s.mem(address)
      else s.reg(HomeRegister(v, h))
  }

  // ----- loading one value -----

  ghost predicate FillsFrom(s: State, t: State, v: Value, h: Homes, des: int, lowered: int, scratch: int) {
    && t.reg(des) == Reading(v, h, lowered, s)
    && t.mem == s.mem && t.symbol == s.symbol
    && forall r :: r != des && r != scratch ==> t.reg(r) == s.reg(r)
  }

  ghost predicate Fills(code: seq<Ins>, v: Value, h: Homes, des: int, lowered: int, scratch: int) {
    forall s: State :: FillsFrom(s, Run(code, s), v, h, des, lowered, scratch)
  }

  lemma FillsByOne(i: Ins, v: Value, h: Homes, des: int, lowered: int, scratch: int)
    requires forall s: State :: FillsFrom(s, Step(i, s), v, h, des, lowered, scratch)
    ensures Fills([i], v, h, des, lowered, scratch)
  {
    forall s: State ensures FillsFrom(s, Run([i], s), v, h, des, lowered, scratch) {
      RunOne(i, s);
    }
  }

  lemma FillsByTwo(i: Ins, j: Ins, v: Value, h: Homes, des: int, lowered: int, scratch: int)
    requires forall s: State :: FillsFrom(s, Step(j, Step(i, s)), v, h, des, lowered, scratch)
    ensures Fills([i] + [j], v, h, des, lowered, scratch)
  {
    forall s: State ensures FillsFrom(s, Run([i] + [j], s), v, h, des, lowered, scratch) {
      RunOne(i, s);
      RunJoin([i], [j], s);
      RunOne(j, Step(i, s));
    }
  }

  method LoadVal2Reg(v: Value, h: Homes, des: int, compensate: int, scratch: int, fits: int -> bool)
    returns (code: seq<Ins>)
    requires HasHome(v, h) && des != SP && scratch != SP
    ensures Fills(code, v, h, des, compensate, scratch)
  {
    match v {
      case Number(n) =>
        code := [Constant(des, n)];
        FillsByOne(code[0], v, h, des, compensate, scratch);
      case Named(name) =>
        code := [AddressOf(des, name)];
        FillsByOne(code[0], v, h, des, compensate, scratch);
      case Virtual(id, alloc) =>
        if id !in h.slots {
          var r := HomeRegister(v, h);
          if r == des {
            code := [];
          } else {
            code := [Move(des, r)];
            FillsByOne(code[0], v, h, des, compensate, scratch);
          }
        } else {
          var offset := h.slots[id] + compensate;
          if alloc {
            if fits(offset) {
              code := [Add(des, SP, offset)];
              FillsByOne(code[0], v, h, des, compensate, scratch);
            } else {
              code := [Constant(scratch, offset)] + [AddRegister(des, SP, scratch)];
              FillsByTwo(Constant(scratch, offset), AddRegister(des, SP, scratch), v, h, des, compensate, scratch);
            }
          } else if -4096 < offset < 4096 {
            code := [Load(des, SP, offset)];
            FillsByOne(code[0], v, h, des, compensate, scratch);
          } else {
            code := [Constant(scratch, offset)] + [LoadIndexed(des, SP, scratch)];
            FillsByTwo(Constant(scratch, offset), LoadIndexed(des, SP, scratch), v, h, des, compensate, scratch);
          }
        }
    }
  }

  // ----- what arrives -----

  /** The register argument i of n passes through. */
  function Target(n: nat, i: nat): int
    requires i < n
  {
    if i >= 4 then 3 - (n - 1 - i) % 4 else i
  }

  /** What register r holds once arguments i and later are in place: arguments go last to first. */
  function Held(args: seq<Value>, h: Homes, i: nat, r: int, s: State): int
    requires i <= |args|
    decreases |args| - i, 0
  {
    if i == |args| then s.reg(r)
    else if Target(|args|, i) == r then Placed(args, h, i, s)
    else Held(args, h, i + 1, r, s)
  }

  /** What is delivered as argument i: a value in a register is read after the later arguments are in place. */
  function Placed(args: seq<Value>, h: Homes, i: nat, s: State): int
    requires i < |args|
    decreases |args| - i - 1, 1
  {
    var q := HomeRegister(args[i], h);
    if q >= 0 then Held(args, h, i + 1, q, s) else Reading(args[i], h, 0, s)
  }

  /** Argument i is in a register that some later argument passes through. */
  predicate Overwritten(args: seq<Value>, h: Homes, i: nat)
    requires i < |args|
  {
    exists k :: i < k < |args| && Target(|args|, k) == HomeRegister(args[i], h)
  }

  /** Arguments in temporaries are different values. */
  predicate DistinctTemps(args: seq<Value>, h: Homes) {
    forall i, k :: 0 <= i < k < |args| && args[i].Virtual? && args[k].Virtual? && args[i].id == args[k].id ==>
      args[i].id !in h.temps
  }

  lemma {:induction false} HeldUntouched(args: seq<Value>, h: Homes, i: nat, r: int, s: State)
    requires i <= |args| && forall k :: i <= k < |args| ==> Target(|args|, k) != r
    ensures Held(args, h, i, r, s) == s.reg(r)
    decreases |args| - i
  {
    if i < |args| {
      HeldUntouched(args, h, i + 1, r, s);
    }
  }

  lemma {:induction false} HeldIs(args: seq<Value>, h: Homes, i: nat, k: nat, s: State)
    requires i <= k < |args| && forall m :: i <= m < k ==> Target(|args|, m) != Target(|args|, k)
    ensures Held(args, h, i, Target(|args|, k), s) == Placed(args, h, k, s)
    decreases k - i
  {
    if i < k {
      HeldIs(args, h, i + 1, k, s);
    }
  }

  /** A register no later argument lives in does not show in what is delivered. */
  lemma {:induction false} PlacedIgnores(args: seq<Value>, h: Homes, k: nat, q: int, s: State, t: State)
    requires k < |args| && q != SP && Sound(h)
    requires forall m :: k <= m < |args| ==> HasHome(args[m], h) && HomeRegister(args[m], h) != q
    requires t.mem == s.mem && t.symbol == s.symbol && forall r :: r != q ==> t.reg(r) == s.reg(r)
    ensures Placed(args, h, k, s) == Placed(args, h, k, t)
    decreases |args| - k, 0
  {
    var r := HomeRegister(args[k], h);
    if r >= 0 {
      HeldIgnores(args, h, k + 1, r, q, s, t);
    }
  }

  lemma {:induction false} HeldIgnores(args: seq<Value>, h: Homes, k: nat, r: int, q: int, s: State, t: State)
    requires k <= |args| && q != SP && r != q && Sound(h)
    requires forall m :: k <= m < |args| ==> HasHome(args[m], h) && HomeRegister(args[m], h) != q
    requires t.mem == s.mem && t.symbol == s.symbol && forall r :: r != q ==> t.reg(r) == s.reg(r)
    ensures Held(args, h, k, r, s) == Held(args, h, k, r, t)
    decreases |args| - k, 1
  {
    if k < |args| {
      if Target(|args|, k) == r {
        PlacedIgnores(args, h, k, q, s, t);
      } else {
        HeldIgnores(args, h, k + 1, r, q, s, t);
      }
    }
  }

  /** An argument not overwritten is delivered as it was before the call. */
  lemma ArgumentIntact(args: seq<Value>, h: Homes, i: nat, s: State)
    requires i < |args| && HasHome(args[i], h) && !Overwritten(args, h, i)
    ensures Placed(args, h, i, s) == Reading(args[i], h, 0, s)
  {
    var q := HomeRegister(args[i], h);
    if q >= 0 {
      HeldUntouched(args, h, i + 1, q, s);
    }
  }

  /** An overwritten argument is delivered wrongly in some state. */
  lemma ArgumentLost(args: seq<Value>, h: Homes, i: nat) returns (s: State)
    requires Sound(h) && DistinctTemps(args, h) && i < |args| && Overwritten(args, h, i)
    requires forall m :: 0 <= m < |args| ==> HasHome(args[m], h)
    ensures Placed(args, h, i, s) != Reading(args[i], h, 0, s)
  {
    var n, q := |args|, HomeRegister(args[i], h);
    var k := FirstThrough(args, i, q);
    assert 0 <= q < 4;
    assert args[i].Virtual? && args[i].id in h.temps;
    forall m | k <= m < n ensures HomeRegister(args[m], h) != q {
      if args[m].Virtual? && args[m].id !in h.slots && args[m].id in h.temps {
        assert args[m].id != args[i].id;
      }
    }
    var zero := State(x => 0, x => 0, x => 0);
    var one := zero.(reg := x => if x == q then 1 else 0);
    PlacedIgnores(args, h, k, q, zero, one);
    HeldIs(args, h, i + 1, k, zero);
    HeldIs(args, h, i + 1, k, one);
    s := if Placed(args, h, k, zero) == 0 then one else zero;
  }

  lemma FirstThrough(args: seq<Value>, i: nat, q: int) returns (k: nat)
    requires i < |args| && exists k :: i < k < |args| && Target(|args|, k) == q
    ensures i < k < |args| && Target(|args|, k) == q
    ensures forall m :: i < m < k ==> Target(|args|, m) != q
  {
    k := i + 1;
    while Target(|args|, k) != q
      invariant i < k < |args| && forall m :: i < m < k ==> Target(|args|, m) != q
      decreases |args| - k
    {
      k := k + 1;
    }
  }

  /** Every argument arrives whatever the state, exactly when none is overwritten on the way. */
  lemma ArgumentsArriveIff(args: seq<Value>, h: Homes)
    requires Sound(h) && DistinctTemps(args, h) && forall m :: 0 <= m < |args| ==> HasHome(args[m], h)
    ensures (forall s: State, i :: 0 <= i < |args| ==> Placed(args, h, i, s) == Reading(args[i], h, 0, s))
            <==> (forall i :: 0 <= i < |args| ==> !Overwritten(args, h, i))
  {
    if forall i :: 0 <= i < |args| ==> !Overwritten(args, h, i) {
      forall s: State, i | 0 <= i < |args| ensures Placed(args, h, i, s) == Reading(args[i], h, 0, s) {
        ArgumentIntact(args, h, i, s);
      }
    } else {
      var i: nat :| i < |args| && Overwritten(args, h, i);
      var s := ArgumentLost(args, h, i);
    }
  }

  /** The front end keeps an argument in a temporary only when it is the sole argument; then none is overwritten. */
  lemma CompiledArgumentsArrive(args: seq<Value>, h: Homes, i: nat, s: State)
    requires Sound(h) && i < |args| && HasHome(args[i], h)
    requires |args| > 1 ==> args[i].Virtual? ==> args[i].id !in h.temps
    ensures Placed(args, h, i, s) == Reading(args[i], h, 0, s)
  {
    ArgumentIntact(args, h, i, s);
  }

  // ----- saving registers and passing arguments -----

  /** A register list as PUSH and POP take it. */
  predicate Ascending(regs: seq<int>) {
    && (forall j :: 0 <= j < |regs| ==> 0 <= regs[j] <= LR && regs[j] != SP)
    && forall i, j :: 0 <= i < j < |regs| ==> regs[i] < regs[j]
  }

  /**
    From caller state s to t: the registers in context are saved, arguments lo and later are
    in place, and those from mid on are pushed.
   */
  ghost predicate Progress(args: seq<Value>, h: Homes, context: seq<int>, lo: nat, mid: nat, s: State, t: State) {
    && lo <= mid <= |args|
    && t.reg(SP) == s.reg(SP) - 4 * |context| - 4 * (|args| - mid) && t.symbol == s.symbol
    && (forall r :: r != SP ==> t.reg(r) == Held(args, h, lo, r, s))
    && (forall a :: a >= s.reg(SP) ==> t.mem(a) == s.mem(a))
    && (forall j :: 0 <= j < |context| ==> t.mem(s.reg(SP) - 4 * |context| + 4 * j) == s.reg(context[j]))
    && forall k :: mid <= k < |args| ==>
         t.mem(s.reg(SP) - 4 * |context| - 4 * (|args| - k)) == Placed(args, h, k, s)
  }

  ghost predicate Reached(code: seq<Ins>, args: seq<Value>, h: Homes, context: seq<int>, lo: nat, mid: nat) {
    forall s: State :: Progress(args, h, context, lo, mid, s, Run(code, s))
  }

  lemma ContextSaved(args: seq<Value>, h: Homes, context: seq<int>)
    requires Ascending(context)
    ensures Reached(if context == [] then [] else [Push(context)], args, h, context, |args|, |args|)
  {
    var code := if context == [] then [] else [Push(context)];
    forall s: State ensures Progress(args, h, context, |args|, |args|, s, Run(code, s)) {
      PushStores(context, s);
      if context != [] {
        RunOne(code[0], s);
      }
    }
  }

  lemma PlacesFrom(args: seq<Value>, h: Homes, context: seq<int>, i: nat, mid: nat, s: State, t: State, u: State, h': Homes)
    requires i < mid <= |args| && Sound(h) && HasHome(args[i], h) && SameHome(args[i], h, h')
    requires Progress(args, h, context, i + 1, mid, s, t)
    requires FillsFrom(t, u, args[i], h', Target(|args|, i), 4 * |context| + 4 * (|args| - mid), Target(|args|, i))
    ensures Progress(args, h, context, i, mid, s, u)
  {
    var v := args[i];
    var lowered := 4 * |context| + 4 * (|args| - mid);
    assert Reading(v, h, lowered, t) == Placed(args, h, i, s) by {
      if v.Virtual? && v.id in h.slots {
        assert t.reg(SP) + h.slots[v.id] + lowered == s.reg(SP) + h.slots[v.id];
      }
    }
  }

  /** The value is found in the same place. */
  predicate SameHome(v: Value, h: Homes, h': Homes) {
    v.Virtual? ==> h'.slots == h.slots && h'.regs == h.regs && (v.id in h'.temps <==> v.id in h.temps)
                   && (v.id in h.temps ==> h'.temps[v.id] == h.temps[v.id])
  }

  lemma Places(code: seq<Ins>, more: seq<Ins>, args: seq<Value>, h: Homes, context: seq<int>, i: nat, mid: nat, h': Homes)
    requires i < mid <= |args| && Sound(h) && HasHome(args[i], h) && SameHome(args[i], h, h')
    requires Reached(code, args, h, context, i + 1, mid)
    requires Fills(more, args[i], h', Target(|args|, i), 4 * |context| + 4 * (|args| - mid), Target(|args|, i))
    ensures Reached(code + more, args, h, context, i, mid)
  {
    forall s: State ensures Progress(args, h, context, i, mid, s, Run(code + more, s)) {
      RunJoin(code, more, s);
      PlacesFrom(args, h, context, i, mid, s, Run(code, s), Run(code + more, s), h');
    }
  }

  lemma PushesFrom(args: seq<Value>, h: Homes, context: seq<int>, lo: nat, mid: nat, regs: seq<int>, s: State, t: State)
    requires 4 <= lo <= mid <= |args| && mid - lo <= 4 && (|args| - mid) % 4 == 0
    requires |regs| == mid - lo && forall j :: 0 <= j < |regs| ==> regs[j] == 4 - |regs| + j
    requires Progress(args, h, context, lo, mid, s, t)
    ensures Progress(args, h, context, lo, lo, s, PushAll(regs, t))
  {
    hide PushAll, Held, Placed, Target;
    var n := |args|;
    PushStores(regs, t);
    var u := PushAll(regs, t);
    forall k | lo <= k < n ensures u.mem(s.reg(SP) - 4 * |context| - 4 * (n - k)) == Placed(args, h, k, s) {
      if k < mid {
        GroupPushed(args, h, lo, mid, k, s);
        assert regs[k - lo] == Target(n, k);
        assert u.reg(SP) + 4 * (k - lo) == s.reg(SP) - 4 * |context| - 4 * (n - k);
      }
    }
    forall j | 0 <= j < |context| ensures u.mem(s.reg(SP) - 4 * |context| + 4 * j) == s.reg(context[j]) {
      assert s.reg(SP) - 4 * |context| + 4 * j >= t.reg(SP);
    }
  }

  lemma GroupPushed(args: seq<Value>, h: Homes, lo: nat, mid: nat, k: nat, s: State)
    requires 4 <= lo <= k < mid <= |args| && mid - lo <= 4 && (|args| - mid) % 4 == 0
    ensures Held(args, h, lo, Target(|args|, k), s) == Placed(args, h, k, s)
    ensures Target(|args|, k) == 4 - (mid - k)
  {
    GroupTargets(|args|, lo, mid, k);
    HeldIs(args, h, lo, k, s);
  }

  /** Within a group the arguments pass through R3, R2, R1, R0 from the last to the first. */
  lemma GroupTargets(n: nat, lo: nat, mid: nat, k: nat)
    requires 4 <= lo <= k < mid <= n && mid - lo <= 4 && (n - mid) % 4 == 0
    ensures Target(n, k) == 4 - (mid - k)
    ensures forall m :: lo <= m < k ==> Target(n, m) != Target(n, k)
  {
    forall m | lo <= m < mid ensures Target(n, m) == 4 - (mid - m) {
      assert n - 1 - m == (n - mid) + (mid - 1 - m);
    }
  }

  lemma Pushes(code: seq<Ins>, args: seq<Value>, h: Homes, context: seq<int>, lo: nat, mid: nat, regs: seq<int>)
    requires 4 <= lo <= mid <= |args| && mid - lo <= 4 && (|args| - mid) % 4 == 0
    requires |regs| == mid - lo && forall j :: 0 <= j < |regs| ==> regs[j] == 4 - |regs| + j
    requires Reached(code, args, h, context, lo, mid)
    ensures Reached(code + [Push(regs)], args, h, context, lo, lo)
  {
    forall s: State ensures Progress(args, h, context, lo, lo, s, Run(code + [Push(regs)], s)) {
      RunJoin(code, [Push(regs)], s);
      RunOne(Push(regs), Run(code, s));
      PushesFrom(args, h, context, lo, mid, regs, s, Run(code, s));
    }
  }

  /** Values passed as argument lo or a later one of the first four. */
  function PassedInRegisters(args: seq<Value>, lo: int): set<nat> {
    set k | 0 <= k < |args| && lo <= k < 4 && args[k].Virtual? :: args[k].id
  }

  /**
    The caller's half of a call: save the context, push the arguments from the last down to
    the fifth in groups of four, then put the first four in their registers.
   */
  method PassArguments(args: seq<Value>, h: Homes, context: seq<int>, fits: int -> bool)
    returns (code: seq<Ins>, left: Homes)
    requires Sound(h) && DistinctTemps(args, h) && Ascending(context)
    requires forall m :: 0 <= m < |args| ==> HasHome(args[m], h)
    ensures Reached(code, args, h, context, 0, if |args| < 4 then |args| else 4)
    ensures left.slots == h.slots && left.regs == h.regs
    ensures left.temps == h.temps - PassedInRegisters(args, 0)
  {
    hide Reached, Fills, Sound, PassedInRegisters;
    ContextSaved(args, h, context);
    code := if context == [] then [] else [Push(context)];
    var n := |args|;
    var compensate := 4 * |context|;
    var i := n - 1;
    while i >= 4
      invariant i == n - 1 || 3 <= i < n
      invariant i > 3 ==> (n - 1 - i) % 4 == 0
      invariant compensate == 4 * |context| + 4 * (n - 1 - i)
      invariant Reached(code, args, h, context, i + 1, i + 1)
    {
      var j := 0;
      var regs: seq<int> := [];
      ghost var mid := i + 1;
      while i >= 4 && j < 4
        invariant 0 <= j <= 4 && i == mid - 1 - j && 3 <= i
        invariant |regs| == j && forall m :: 0 <= m < j ==> regs[m] == 4 - j + m
        invariant Reached(code, args, h, context, i + 1, mid)
      {
        assert Target(n, i) == 3 - j by {
          GroupTargets(n, i, mid, i);
        }
        var load := LoadVal2Reg(args[i], h, 3 - j, compensate, 3 - j, fits);
        Places(code, load, args, h, context, i, mid, h);
        code := code + load;
        regs := [3 - j] + regs;
        j := j + 1;
        i := i - 1;
      }
      Pushes(code, args, h, context, i + 1, mid, regs);
      code := code + [Push(regs)];
      compensate := compensate + j * 4;
    }
    left := h;
    ghost var mid := i + 1;
    NonePassed(args, i + 1, h);
    while i >= 0
      invariant -1 <= i < 4 && i < mid <= n && (mid == 4 || mid == n < 4)
      invariant Reached(code, args, h, context, i + 1, mid)
      invariant left.slots == h.slots && left.regs == h.regs && left.temps == h.temps - PassedInRegisters(args, i + 1)
      invariant forall k :: 0 <= k <= i ==> SameHome(args[k], h, left)
    {
      var v := args[i];
      var more: seq<Ins> := [];
      ghost var home := left;
      if !v.Virtual? || (v.id !in left.regs && v.id !in left.temps) {
        more := LoadVal2Reg(v, left, i, compensate, i, fits);
      } else {
        var r := if v.id in left.regs then left.regs[v.id] else left.temps[v.id];
        if v.id !in left.regs {
          left := left.(temps := left.temps - {v.id});
        }
        if r != i {
          more := [Move(i, r)];
        }
        FillsByMove(more, v, h, home, i, r, compensate);
      }
      Released(args, h, home, left, i);
      Places(code, more, args, h, context, i, mid, home);
      code := code + more;
      i := i - 1;
    }
  }

  lemma NonePassed(args: seq<Value>, lo: nat, h: Homes)
    requires lo == |args| || lo == 4
    ensures h.temps == h.temps - PassedInRegisters(args, lo)
  {
    assert PassedInRegisters(args, lo) == {};
  }

  /** Passing argument i releases its temporary, if it has one. */
  lemma Released(args: seq<Value>, h: Homes, home: Homes, left: Homes, i: nat)
    requires i < |args| && i < 4 && Sound(h) && SameHome(args[i], h, home)
    requires home.regs == h.regs && home.temps == h.temps - PassedInRegisters(args, i + 1)
    requires var v := args[i];
             left.temps == if v.Virtual? && v.id !in h.regs && v.id in home.temps then home.temps - {v.id} else home.temps
    ensures left.temps == h.temps - PassedInRegisters(args, i)
  {
    var v, later := args[i], PassedInRegisters(args, i + 1);
    assert PassedInRegisters(args, i) == if v.Virtual? then later + {v.id} else later by {
      forall x | x in PassedInRegisters(args, i) ensures x in later || (v.Virtual? && x == v.id) {
        var k :| 0 <= k < |args| && i <= k < 4 && args[k].Virtual? && args[k].id == x;
      }
    }
    if v.Virtual? && v.id !in left.temps {
      assert home.temps - {v.id} == h.temps - (later + {v.id});
    }
  }

  lemma FillsByMove(more: seq<Ins>, v: Value, h: Homes, home: Homes, i: int, r: int, compensate: int)
    requires v.Virtual? && Sound(h) && SameHome(v, h, home) && i != SP
    requires v.id in home.regs || v.id in home.temps
    requires r == if v.id in home.regs then home.regs[v.id] else home.temps[v.id]
    requires more == if r != i then [Move(i, r)] else []
    ensures Fills(more, v, home, i, compensate, i)
  {
    assert HomeRegister(v, home) == r;
    if r != i {
      FillsByOne(Move(i, r), v, home, i, compensate, i);
    }
  }

  // ----- after the callee returns -----

  /** Where the result goes: nowhere, a register, or a slot by way of a temporary. */
  datatype Destination = Discard | InRegister(r: int) | InSlot(id: nat, tmp: int, scratch: int)

  predicate Usable(dest: Destination) {
    match dest
    case Discard => true
    case InRegister(r) => r != SP
    case InSlot(_, tmp, scratch) => tmp != SP && scratch != SP && tmp != scratch
  }

  /** Registers the result passes through. */
  function Through(dest: Destination): set<int> {
    match dest
    case Discard => {}
    case InRegister(r) => {r}
    case InSlot(_, tmp, scratch) => {tmp, scratch}
  }

  predicate IsSlot(dest: Destination, offsets: map<nat, int>, a: int, sp: int) {
    dest.InSlot? && dest.id in offsets && a == sp + offsets[dest.id]
  }

  ghost predicate HoldsResult(dest: Destination, offsets: map<nat, int>, t: State, v: int) {
    match dest
    case Discard => true
    case InRegister(r) => t.reg(r) == v
    case InSlot(id, _, _) => id in offsets && t.mem(t.reg(SP) + offsets[id]) == v
  }

  /** From the callee's return in state s: registers restored from the stack, the result where it belongs. */
  ghost predicate FetchesFrom(s: State, t: State, context: seq<int>, dest: Destination, offsets: map<nat, int>) {
    && t.reg(SP) == s.reg(SP) + 4 * |context|
    && (forall j :: 0 <= j < |context| && context[j] !in Through(dest) ==> t.reg(context[j]) == s.mem(s.reg(SP) + 4 * j))
    && (forall r :: r != SP && r !in context && r !in Through(dest) ==> t.reg(r) == s.reg(r))
    && HoldsResult(dest, offsets, t, s.reg(0))
    && forall a :: a >= s.reg(SP) && !IsSlot(dest, offsets, a, t.reg(SP)) ==> t.mem(a) == s.mem(a)
  }

  ghost predicate Fetches(code: seq<Ins>, context: seq<int>, dest: Destination, offsets: map<nat, int>) {
    forall s: State :: FetchesFrom(s, Run(code, s), context, dest, offsets)
  }

  /** The registers to save: temporaries in use and the registers of values alive across the call. */
  method SavedRegisters(h: Homes, alive: set<int>) returns (context: seq<int>, useR0: bool)
    requires Sound(h) && forall r :: r in alive ==> 4 <= r <= 12
    ensures Ascending(context) && (useR0 <==> 0 in context)
    ensures forall r :: r in context <==> r in h.temps.Values || r in alive
  {
    useR0 := 0 in h.temps.Values;
    var regIndex := h.temps.Values + alive;
    context := [];
    for r := 0 to 15
      invariant Ascending(context)
      invariant forall q :: q in context <==> q in regIndex && q < r
    {
      if r in regIndex {
        assert forall j :: 0 <= j < |context| ==> context[j] in context;
        context := context + [r];
      }
    }
  }

  /** The saved registers are back, and the callee's R0 is in R0 or just under the saved words. */
  ghost predicate Popped(s: State, t: State, context: seq<int>, useR0: bool) {
    && t.reg(SP) == s.reg(SP) + 4 * |context|
    && (forall j :: 0 <= j < |context| ==> t.reg(context[j]) == s.mem(s.reg(SP) + 4 * j))
    && (forall r :: r != SP && r !in context ==> t.reg(r) == s.reg(r))
    && (forall a :: a >= s.reg(SP) ==> t.mem(a) == s.mem(a))
    && (if useR0 then t.mem(s.reg(SP) - 4) == s.reg(0) else t.reg(0) == s.reg(0))
  }

  lemma Pops(s: State, context: seq<int>, useR0: bool, keep: seq<Ins>, pop: seq<Ins>)
    requires Ascending(context) && (useR0 <==> 0 in context)
    requires keep == if useR0 then [Store(0, SP, -4)] else []
    requires pop == if context == [] then [] else [Pop(context)]
    ensures Popped(s, Run(pop, Run(keep, s)), context, useR0)
  {
    hide Run, Popped;
    var k := Run(keep, s);
    KeepsR0(s, useR0, keep);
    PopRuns(k, context, pop);
    PopsFrom(s, k, Run(pop, k), context, useR0);
  }

  lemma KeepsR0(s: State, useR0: bool, keep: seq<Ins>)
    requires keep == if useR0 then [Store(0, SP, -4)] else []
    ensures var k := Run(keep, s);
            && k.reg == s.reg && (forall a :: a >= s.reg(SP) ==> k.mem(a) == s.mem(a))
            && (useR0 ==> k.mem(s.reg(SP) - 4) == s.reg(0))
  {
    if useR0 {
      RunOne(keep[0], s);
    }
  }

  lemma PopRuns(k: State, context: seq<int>, pop: seq<Ins>)
    requires pop == if context == [] then [] else [Pop(context)]
    ensures Run(pop, k) == PopAll(context, k)
  {
    if pop != [] {
      RunOne(pop[0], k);
    }
  }

  lemma PopsFrom(s: State, k: State, p: State, context: seq<int>, useR0: bool)
    requires Ascending(context) && (useR0 <==> 0 in context) && p == PopAll(context, k)
    requires k.reg == s.reg && (forall a :: a >= s.reg(SP) ==> k.mem(a) == s.mem(a))
    requires useR0 ==> k.mem(s.reg(SP) - 4) == s.reg(0)
    ensures Popped(s, p, context, useR0)
  {
    hide PopAll;
    PopLoads(context, k);
    forall j | 0 <= j < |context| ensures p.reg(context[j]) == s.mem(s.reg(SP) + 4 * j) {
      assert p.reg(context[j]) == k.mem(k.reg(SP) + 4 * j);
    }
  }

  /** After the pop the result is moved or loaded into the register r. */
  lemma Moves(s: State, p: State, context: seq<int>, useR0: bool, r: int)
    requires Popped(s, p, context, useR0) && r != SP
    ensures var m := Run(if useR0 then [Load(r, SP, -4 * |context| - 4)] else [Move(r, 0)], p);
            m == SetReg(p, r, s.reg(0))
  {
    RunOne(if useR0 then Load(r, SP, -4 * |context| - 4) else Move(r, 0), p);
    assert p.reg(SP) + (-4 * |context| - 4) == s.reg(SP) - 4;
  }

  lemma FetchedToRegister(s: State, p: State, context: seq<int>, useR0: bool, r: int, offsets: map<nat, int>)
    requires Popped(s, p, context, useR0) && r != SP
    ensures FetchesFrom(s, SetReg(p, r, s.reg(0)), context, InRegister(r), offsets)
  {
  }

  lemma FetchedToSlot(s: State, p: State, t: State, context: seq<int>, useR0: bool, dest: Destination,
                      offsets: map<nat, int>)
    requires Ascending(context) && Popped(s, p, context, useR0) && dest.InSlot? && Usable(dest) && dest.id in offsets
    requires SavesFrom(SetReg(p, dest.tmp, s.reg(0)), t, dest.tmp, offsets[dest.id], dest.scratch)
    ensures FetchesFrom(s, t, context, dest, offsets)
  {
    assert t.reg(SP) == p.reg(SP);
    forall j | 0 <= j < |context| && context[j] !in Through(dest)
      ensures t.reg(context[j]) == s.mem(s.reg(SP) + 4 * j)
    {
      assert t.reg(context[j]) == p.reg(context[j]);
    }
  }

  /** The pieces of the code after the call, in order. */
  lemma FetchRuns(s: State, context: seq<int>, useR0: bool, dest: Destination, offsets: map<nat, int>,
                  keep: seq<Ins>, pop: seq<Ins>, move: seq<Ins>, store: seq<Ins>)
    requires Ascending(context) && (useR0 <==> 0 in context) && Usable(dest) && !dest.Discard?
    requires keep == if useR0 then [Store(0, SP, -4)] else []
    requires pop == if context == [] then [] else [Pop(context)]
    requires var r := if dest.InRegister? then dest.r else dest.tmp;
             move == if useR0 then [Load(r, SP, -4 * |context| - 4)] else [Move(r, 0)]
    requires dest.InRegister? ==> store == []
    requires dest.InSlot? ==> dest.id in offsets && Saves(store, dest.tmp, offsets[dest.id], dest.scratch)
    ensures FetchesFrom(s, Run(store, Run(move, Run(pop, Run(keep, s)))), context, dest, offsets)
  {
    hide Popped, FetchesFrom, Ascending, SavesFrom;
    var p := Run(pop, Run(keep, s));
    Pops(s, context, useR0, keep, pop);
    var r := if dest.InRegister? then dest.r else dest.tmp;
    Moves(s, p, context, useR0, r);
    if dest.InRegister? {
      FetchedToRegister(s, p, context, useR0, r, offsets);
    } else {
      FetchedToSlot(s, p, Run(store, SetReg(p, r, s.reg(0))), context, useR0, dest, offsets);
    }
  }

  /** The code after the branch: keep R0 under the stack pointer if it is about to be restored, pop, fetch. */
  method FetchResult(func: MachineFunc, context: seq<int>, useR0: bool, dest: Destination) returns (code: seq<Ins>)
    requires func.Valid() && Ascending(context) && (useR0 <==> 0 in context) && Usable(dest)
    requires dest.InSlot? && dest.id !in func.var2offset ==> func.stackPointer + 4 <= func.stackSize - 20
    modifies func`stackPointer, func`var2offset, func`extent
    ensures func.Valid() && Fetches(code, context, dest, func.var2offset)
    ensures !dest.InSlot? || dest.id in old(func.var2offset) ==> func.var2offset == old(func.var2offset)
    ensures dest.InSlot? && dest.id !in old(func.var2offset) ==>
              func.var2offset == old(func.var2offset)[dest.id := old(func.stackPointer)]
  {
    hide Run, Fetches, FetchesFrom, Saves;
    var pop: seq<Ins> := if context == [] then [] else [Pop(context)];
    if dest.Discard? {
      code := pop;
      FetchesNothing(context, func.var2offset);
    } else {
      var keep: seq<Ins> := if useR0 then [Store(0, SP, -4)] else [];
      var r := if dest.InRegister? then dest.r else dest.tmp;
      var move: seq<Ins> := if useR0 then [Load(r, SP, -4 * |context| - 4)] else [Move(r, 0)];
      var store: seq<Ins> := [];
      if dest.InSlot? {
        store := func.Store2Memory(dest.tmp, dest.id, dest.scratch);
      }
      code := keep + pop + move + store;
      FetchesAll(context, useR0, dest, func.var2offset, keep, pop, move, store);
    }
  }

  lemma FetchesNothing(context: seq<int>, offsets: map<nat, int>)
    requires Ascending(context)
    ensures Fetches(if context == [] then [] else [Pop(context)], context, Discard, offsets)
  {
    var pop := if context == [] then [] else [Pop(context)];
    forall s: State ensures FetchesFrom(s, Run(pop, s), context, Discard, offsets) {
      PopLoads(context, s);
      if pop != [] {
        RunOne(pop[0], s);
      }
    }
  }

  lemma FetchesAll(context: seq<int>, useR0: bool, dest: Destination, offsets: map<nat, int>,
                   keep: seq<Ins>, pop: seq<Ins>, move: seq<Ins>, store: seq<Ins>)
    requires Ascending(context) && (useR0 <==> 0 in context) && Usable(dest) && !dest.Discard?
    requires keep == if useR0 then [Store(0, SP, -4)] else []
    requires pop == if context == [] then [] else [Pop(context)]
    requires var r := if dest.InRegister? then dest.r else dest.tmp;
             move == if useR0 then [Load(r, SP, -4 * |context| - 4)] else [Move(r, 0)]
    requires dest.InRegister? ==> store == []
    requires dest.InSlot? ==> dest.id in offsets && Saves(store, dest.tmp, offsets[dest.id], dest.scratch)
    ensures Fetches(keep + pop + move + store, context, dest, offsets)
  {
    hide Saves, FetchesFrom, Run;
    forall s: State ensures FetchesFrom(s, Run(keep + pop + move + store, s), context, dest, offsets) {
      RunJoin(keep + pop + move, store, s);
      RunJoin(keep + pop, move, s);
      RunJoin(keep, pop, s);
      FetchRuns(s, context, useR0, dest, offsets, keep, pop, move, store);
    }
  }

  // ----- where the result goes -----

  /** What the IR does with the result of a call: a variable, a temporary, or nothing. */
  datatype ResultUse = LValue | RValue | Unused

  /**
    A variable in a register is written there, one without by way of a temporary, and a
    temporary is taken for a temporary.  A result nobody uses is not discarded: it is moved
    to R1, which has not been asked for.
   */
  function DestinationOf(intCallee: bool, use: ResultUse, id: nat, regs: map<nat, int>, tmp: int, scratch: int): Destination {
    if !intCallee then Discard
    else
      match use
      case LValue => if id in regs then InRegister(regs[id]) else InSlot(id, tmp, scratch)
      case RValue => InRegister(tmp)
      case Unused => InRegister(1)
  }

  /** The saved registers in needed hold again what was saved. */
  ghost predicate Restored(s: State, t: State, context: seq<int>, needed: set<int>) {
    forall j :: 0 <= j < |context| && context[j] in needed ==> t.reg(context[j]) == s.mem(s.reg(SP) + 4 * j)
  }

  /**
    All registers needed after the call are restored in every state, unless an int result
    goes unused and R1 is needed.  The pool hands out no needed temporary, and register
    allocation keeps the result apart from what is live after the call.
   */
  lemma RestoredIff(code: seq<Ins>, context: seq<int>, offsets: map<nat, int>, intCallee: bool, use: ResultUse, id: nat,
                    regs: map<nat, int>, tmp: int, scratch: int, needed: set<int>)
    requires Fetches(code, context, DestinationOf(intCallee, use, id, regs, tmp, scratch), offsets) && Ascending(context)
    requires forall r :: r in needed ==> r in context
    requires tmp !in needed && scratch !in needed && (id in regs ==> regs[id] !in needed)
    ensures (forall s: State :: Restored(s, Run(code, s), context, needed)) <==> !(intCallee && use.Unused? && 1 in needed)
  {
    hide Fetches, Run, Restored, Ascending, DestinationOf;
    if intCallee && use.Unused? && 1 in needed {
      var s := OneIsLost(code, context, offsets, id, regs, tmp, scratch, needed);
      assert !Restored(s, Run(code, s), context, needed);
    } else {
      forall s: State ensures Restored(s, Run(code, s), context, needed) {
        NeededAreBack(code, context, offsets, intCallee, use, id, regs, tmp, scratch, needed, s);
      }
    }
  }

  lemma OneIsLost(code: seq<Ins>, context: seq<int>, offsets: map<nat, int>, id: nat, regs: map<nat, int>, tmp: int,
                  scratch: int, needed: set<int>) returns (s: State)
    requires Fetches(code, context, DestinationOf(true, Unused, id, regs, tmp, scratch), offsets)
    requires 1 in needed && 1 in context
    ensures !Restored(s, Run(code, s), context, needed)
  {
    var j :| 0 <= j < |context| && context[j] == 1;
    s := OneInR0();
    hide Run;
    assert FetchesFrom(s, Run(code, s), context, InRegister(1), offsets);
    assert Run(code, s).reg(context[j]) != s.mem(s.reg(SP) + 4 * j);
  }

  lemma NeededAreBack(code: seq<Ins>, context: seq<int>, offsets: map<nat, int>, intCallee: bool, use: ResultUse, id: nat,
                      regs: map<nat, int>, tmp: int, scratch: int, needed: set<int>, s: State)
    requires Fetches(code, context, DestinationOf(intCallee, use, id, regs, tmp, scratch), offsets)
    requires tmp !in needed && scratch !in needed && (id in regs ==> regs[id] !in needed)
    requires !(intCallee && use.Unused? && 1 in needed)
    ensures Restored(s, Run(code, s), context, needed)
  {
    hide Run;
    assert FetchesFrom(s, Run(code, s), context, DestinationOf(intCallee, use, id, regs, tmp, scratch), offsets);
  }

  lemma OneInR0() returns (s: State)
    ensures s.reg(0) == 1 && s.reg(SP) == 0 && forall a :: s.mem(a) == 0
  {
    s := State((r: int) => if r == 0 then 1 else 0, a => 0, x => 0);
  }

  /** R0 and R1 are saved, the result is unused: R1 ends up with the result, not with what was saved for it. */
  lemma UnusedResultOverwrites(code: seq<Ins>, offsets: map<nat, int>, tmp: int, scratch: int, s: State)
    requires Fetches(code, [0, 1], DestinationOf(true, Unused, 0, map[], tmp, scratch), offsets)
    ensures Run(code, s).reg(0) == s.mem(s.reg(SP)) && Run(code, s).reg(1) == s.reg(0)
  {
    assert FetchesFrom(s, Run(code, s), [0, 1], InRegister(1), offsets);
    assert [0, 1][0] == 0;
  }

  /** Registers that do not hold after the call what was saved for them. */
  function TakenByResult(intCallee: bool, use: ResultUse, id: nat, regs: map<nat, int>, tmp: int, scratch: int): set<int> {
    if !intCallee then {}
    else if use.Unused? then {1}
    else if use.RValue? then {tmp}
    else if id in regs then {regs[id]}
    else {tmp, scratch}
  }

  /**
    From the callee's return in state s to t: the stack pointer is back above the saved words,
    the saved registers are back, and the callee's R0 is the value of the variable or the temporary.
   */
  ghost predicate ResultArrives(s: State, t: State, context: seq<int>, intCallee: bool, use: ResultUse, id: nat,
                                regs: map<nat, int>, offsets: map<nat, int>, tmp: int, taken: set<int>) {
    && t.reg(SP) == s.reg(SP) + 4 * |context|
    && (intCallee && use.LValue? && id in regs ==> t.reg(regs[id]) == s.reg(0))
    && (intCallee && use.LValue? && id !in regs ==> id in offsets && t.mem(t.reg(SP) + offsets[id]) == s.reg(0))
    && (intCallee && use.RValue? ==> t.reg(tmp) == s.reg(0))
    && (intCallee && use.Unused? ==> t.reg(1) == s.reg(0))
    && (forall j :: 0 <= j < |context| && context[j] !in taken ==> t.reg(context[j]) == s.mem(s.reg(SP) + 4 * j))
    && (forall r :: r != SP && r !in context && r !in taken ==> t.reg(r) == s.reg(r))
    && forall a :: a >= s.reg(SP) && !(intCallee && use.LValue? && id !in regs && id in offsets && a == t.reg(SP) + offsets[id]) ==>
         t.mem(a) == s.mem(a)
  }

  lemma DestinationIsRight(code: seq<Ins>, context: seq<int>, intCallee: bool, use: ResultUse, id: nat, regs: map<nat, int>,
                           offsets: map<nat, int>, tmp: int, scratch: int)
    requires Fetches(code, context, DestinationOf(intCallee, use, id, regs, tmp, scratch), offsets)
    ensures forall s: State :: ResultArrives(s, Run(code, s), context, intCallee, use, id, regs, offsets, tmp,
                                             TakenByResult(intCallee, use, id, regs, tmp, scratch))
  {
    hide Run;
    forall s: State
      ensures ResultArrives(s, Run(code, s), context, intCallee, use, id, regs, offsets, tmp,
                            TakenByResult(intCallee, use, id, regs, tmp, scratch))
    {
      assert FetchesFrom(s, Run(code, s), context, DestinationOf(intCallee, use, id, regs, tmp, scratch), offsets);
    }
  }

  /** All the code of a call to a compiled function, before and after the branch. */
  method GenInvoke(func: MachineFunc, args: seq<Value>, h: Homes, alive: set<int>, intCallee: bool, use: ResultUse, id: nat,
                   tmp: int, scratch: int, fits: int -> bool)
    returns (before: seq<Ins>, after: seq<Ins>, context: seq<int>, left: Homes)
    requires func.Valid() && h.slots == func.var2offset && h.regs == func.lValRegs && Sound(h) && DistinctTemps(args, h)
    requires forall m :: 0 <= m < |args| ==> HasHome(args[m], h)
    requires forall r :: r in alive ==> 4 <= r <= 12
    requires tmp != SP && scratch != SP && tmp != scratch
    requires intCallee && use.LValue? && id !in func.lValRegs && id !in func.var2offset ==>
               func.stackPointer + 4 <= func.stackSize - 20
    modifies func`stackPointer, func`var2offset, func`extent
    ensures func.Valid() && Ascending(context)
    ensures forall r :: r in context <==> r in h.temps.Values || r in alive
    ensures Reached(before, args, h, context, 0, if |args| < 4 then |args| else 4)
    ensures Fetches(after, context, DestinationOf(intCallee, use, id, func.lValRegs, tmp, scratch), func.var2offset)
    ensures forall s: State :: ResultArrives(s, Run(after, s), context, intCallee, use, id, func.lValRegs, func.var2offset, tmp,
                                             TakenByResult(intCallee, use, id, func.lValRegs, tmp, scratch))
    ensures func.var2offset == if intCallee && use.LValue? && id !in func.lValRegs && id !in old(func.var2offset)
                               then old(func.var2offset)[id := old(func.stackPointer)] else old(func.var2offset)
    ensures left.slots == h.slots && left.regs == h.regs && left.temps == h.temps - PassedInRegisters(args, 0)
  {
    hide Reached, Fetches, FetchesFrom, ResultArrives, PassedInRegisters;
    var useR0;
    context, useR0 := SavedRegisters(h, alive);
    before, left := PassArguments(args, h, context, fits);
    after := FetchResult(func, context, useR0, DestinationOf(intCallee, use, id, func.lValRegs, tmp, scratch));
    DestinationIsRight(after, context, intCallee, use, id, func.lValRegs, func.var2offset, tmp, scratch);
  }

  // ----- leaving a function -----

  datatype Returned = Nothing | Result(v: Value)

  function PushedWords(n: nat): nat {
    if n < 4 then 0 else n - 4
  }

  /** The frame and the pushed arguments are gone, control is at the saved link register, the result is in R0. */
  ghost predicate LeavesFrom(s: State, t: State, ret: Returned, h: Homes, n: nat, stackSize: int) {
    && t.reg(SP) == s.reg(SP) + stackSize + 4 * PushedWords(n)
    && t.reg(PC) == s.mem(s.reg(SP) + stackSize - 20)
    && t.mem == s.mem
    && (ret.Result? ==> t.reg(0) == Reading(ret.v, h, 0, s))
  }

  ghost predicate Leaves(code: seq<Ins>, ret: Returned, h: Homes, n: nat, stackSize: int) {
    forall s: State :: LeavesFrom(s, Run(code, s), ret, h, n, stackSize)
  }

  lemma LeavesByConstant(s: State, n: nat, stackSize: int, restore: int)
    requires restore == stackSize + 4 * PushedWords(n)
    ensures var code := [Add(SP, SP, restore)] + [Load(PC, SP, -20 - PushedWords(n) * 4)];
            var t := Run(code, s);
            && t.reg(SP) == s.reg(SP) + restore && t.reg(PC) == s.mem(s.reg(SP) + stackSize - 20)
            && t.mem == s.mem && t.reg(0) == s.reg(0)
  {
    RunOne(Add(SP, SP, restore), s);
    RunJoin([Add(SP, SP, restore)], [Load(PC, SP, -20 - PushedWords(n) * 4)], s);
    RunOne(Load(PC, SP, -20 - PushedWords(n) * 4), Run([Add(SP, SP, restore)], s));
  }

  lemma LeavesByRegister(s: State, n: nat, stackSize: int, restore: int)
    requires restore == stackSize + 4 * PushedWords(n)
    ensures var code := [Constant(1, restore)] + [AddRegister(SP, SP, 1)] + [Load(PC, SP, -20 - PushedWords(n) * 4)];
            var t := Run(code, s);
            && t.reg(SP) == s.reg(SP) + restore && t.reg(PC) == s.mem(s.reg(SP) + stackSize - 20)
            && t.mem == s.mem && t.reg(0) == s.reg(0)
  {
    RunOne(Constant(1, restore), s);
    RunJoin([Constant(1, restore)], [AddRegister(SP, SP, 1)], s);
    RunOne(AddRegister(SP, SP, 1), Run([Constant(1, restore)], s));
    RunJoin([Constant(1, restore)] + [AddRegister(SP, SP, 1)], [Load(PC, SP, -20 - PushedWords(n) * 4)], s);
    RunOne(Load(PC, SP, -20 - PushedWords(n) * 4), Run([Constant(1, restore)] + [AddRegister(SP, SP, 1)], s));
  }

  method GenRetIns(ret: Returned, h: Homes, n: nat, stackSize: int, fits: int -> bool) returns (code: seq<Ins>)
    requires ret.Result? ==> HasHome(ret.v, h)
    ensures Leaves(code, ret, h, n, stackSize)
  {
    var fetch: seq<Ins> := [];
    if ret.Result? {
      fetch := LoadVal2Reg(ret.v, h, 0, 0, 3, fits);
    }
    var paraSize := if n < 4 then 0 else n - 4;
    var restore := stackSize + paraSize * 4;
    var close: seq<Ins>;
    if fits(restore) {
      close := [Add(SP, SP, restore)] + [Load(PC, SP, -20 - paraSize * 4)];
    } else {
      close := [Constant(1, restore)] + [AddRegister(SP, SP, 1)] + [Load(PC, SP, -20 - paraSize * 4)];
    }
    code := fetch + close;
    forall s: State ensures LeavesFrom(s, Run(code, s), ret, h, n, stackSize) {
      RunJoin(fetch, close, s);
      LeavesAtLast(s, Run(fetch, s), fetch, close, ret, h, n, stackSize, restore);
    }
  }

  lemma LeavesAtLast(s: State, t: State, fetch: seq<Ins>, close: seq<Ins>, ret: Returned, h: Homes, n: nat,
                     stackSize: int, restore: int)
    requires t == Run(fetch, s) && restore == stackSize + 4 * PushedWords(n)
    requires if ret.Result? then Fills(fetch, ret.v, h, 0, 0, 3) else fetch == []
    requires || close == [Add(SP, SP, restore)] + [Load(PC, SP, -20 - PushedWords(n) * 4)]
             || close == [Constant(1, restore)] + [AddRegister(SP, SP, 1)] + [Load(PC, SP, -20 - PushedWords(n) * 4)]
    ensures LeavesFrom(s, Run(close, t), ret, h, n, stackSize)
  {
    if ret.Result? {
      assert FillsFrom(s, t, ret.v, h, 0, 0, 3);
    }
    LeavesByConstant(t, n, stackSize, restore);
    LeavesByRegister(t, n, stackSize, restore);
  }

  // ----- the round trip -----

  /** The stack pointer is back, and words from floor bytes above it on are kept unless written on purpose. */
  ghost predicate FrameKept(s: State, t: State, floor: int, written: iset<int>) {
    && t.reg(SP) == s.reg(SP)
    && forall a :: a >= s.reg(SP) + floor && a !in written ==> t.mem(a) == s.mem(a)
  }

  /** On entry to the callee every argument is where the entry code looks for it. */
  lemma ArgumentsIncoming(args: seq<Value>, h: Homes, context: seq<int>, s: State, t: State, i: nat)
    requires i < |args| && Progress(args, h, context, 0, if |args| < 4 then |args| else 4, s, t)
    ensures Incoming(i, t) == Placed(args, h, i, s)
  {
    if i < 4 {
      HeldIs(args, h, 0, i, s);
      assert Target(|args|, i) == i;
    } else {
      assert t.reg(SP) + 4 * (i - 4) == s.reg(SP) - 4 * |context| - 4 * (|args| - i);
    }
  }

  /**
    A call and its return: the callee's parameters are the caller's arguments, control
    comes back, the stack pointer and the saved registers are as before, the result is at
    its destination, and the caller's memory is as the callee's body left it.
   */
  lemma CallRoundTrip(args: seq<Value>, h: Homes, context: seq<int>, before: seq<Ins>, after: seq<Ins>,
                      dest: Destination, slots: map<nat, int>, params: seq<nat>, regs: map<nat, int>,
                      offsets: map<nat, int>, stackSize: int, entry: seq<Ins>, exit: seq<Ins>, ret: Returned, hc: Homes,
                      s0: State, address: int, s4: State, written: iset<int>)
    requires |params| == |args| && Usable(dest) && (dest.InSlot? ==> dest.id in slots && slots[dest.id] >= 0)
    requires Reached(before, args, h, context, 0, if |args| < 4 then |args| else 4)
    requires Enters(entry, params, regs, offsets, stackSize) && Leaves(exit, ret, hc, |params|, stackSize)
    requires Fetches(after, context, dest, slots)
    requires FrameKept(Run(entry, SetReg(Run(before, s0), LR, address)), s4, stackSize - 20, written)
    requires forall a :: a in written ==> a >= s0.reg(SP)
    ensures var s3 := Run(entry, SetReg(Run(before, s0), LR, address));
            forall i :: 0 <= i < |params| && !LostParam(params, regs, i) ==>
              ParamValue(params[i], regs, offsets, s3) == Placed(args, h, i, s0)
    ensures Run(exit, s4).reg(PC) == address
    ensures var s6 := Run(after, Run(exit, s4));
            && s6.reg(SP) == s0.reg(SP)
            && (forall r :: r in context && r !in Through(dest) ==> s6.reg(r) == s0.reg(r))
            && (ret.Result? ==> HoldsResult(dest, slots, s6, Reading(ret.v, hc, 0, s4)))
            && (forall a :: a >= s0.reg(SP) && !IsSlot(dest, slots, a, s0.reg(SP)) ==> s6.mem(a) == s4.mem(a))
            && FrameKept(s0, s6, 0, written + iset a | IsSlot(dest, slots, a, s0.reg(SP)))
  {
    hide *;
    var mid := if |args| < 4 then |args| else 4;
    var s1 := Run(before, s0);
    var s2 := SetReg(s1, LR, address);
    var s3 := Run(entry, s2);
    var s5 := Run(exit, s4);
    var s6 := Run(after, s5);
    Promises(args, h, context, before, after, dest, slots, params, regs, offsets, stackSize, entry, exit, ret, hc, mid,
             s0, s2, s4, s5);
    forall i | 0 <= i < |params| && !LostParam(params, regs, i)
      ensures ParamValue(params[i], regs, offsets, s3) == Placed(args, h, i, s0)
    {
      ParameterIsArgument(args, h, context, s0, s1, s2, s3, address, params, regs, offsets, stackSize, i);
    }
    CallRestores(args, h, context, mid, s0, s1, s2, s3, s4, s5, address, stackSize, params, regs, offsets, ret, hc, written);
    CallerResumes(context, dest, slots, s0, s4, s5, s6, written, ret, hc, stackSize, |params|);
  }

  /** What each piece of code promises, at the states of one call. */
  lemma Promises(args: seq<Value>, h: Homes, context: seq<int>, before: seq<Ins>, after: seq<Ins>,
                 dest: Destination, slots: map<nat, int>, params: seq<nat>, regs: map<nat, int>,
                 offsets: map<nat, int>, stackSize: int, entry: seq<Ins>, exit: seq<Ins>, ret: Returned, hc: Homes,
                 mid: nat, s0: State, s2: State, s4: State, s5: State)
    requires Reached(before, args, h, context, 0, mid) && Enters(entry, params, regs, offsets, stackSize)
    requires Leaves(exit, ret, hc, |params|, stackSize) && Fetches(after, context, dest, slots)
    ensures Progress(args, h, context, 0, mid, s0, Run(before, s0))
    ensures EntersFrom(s2, Run(entry, s2), params, regs, offsets, stackSize)
    ensures LeavesFrom(s4, Run(exit, s4), ret, hc, |params|, stackSize)
    ensures FetchesFrom(s5, Run(after, s5), context, dest, slots)
  {
  }

  lemma ParameterIsArgument(args: seq<Value>, h: Homes, context: seq<int>, s0: State, s1: State, s2: State, s3: State,
                            address: int, params: seq<nat>, regs: map<nat, int>, offsets: map<nat, int>,
                            stackSize: int, i: nat)
    requires i < |params| == |args| && Progress(args, h, context, 0, if |args| < 4 then |args| else 4, s0, s1)
    requires s2 == SetReg(s1, LR, address) && EntersFrom(s2, s3, params, regs, offsets, stackSize)
    requires !LostParam(params, regs, i)
    ensures ParamValue(params[i], regs, offsets, s3) == Placed(args, h, i, s0)
  {
    ArgumentsIncoming(args, h, context, s0, s1, i);
    assert Incoming(i, s2) == Incoming(i, s1);
  }

  /** Back in the caller. */
  lemma CallerResumes(context: seq<int>, dest: Destination, slots: map<nat, int>, s0: State, s4: State, s5: State,
                      s6: State, written: iset<int>, ret: Returned, hc: Homes, stackSize: int, n: nat)
    requires FetchesFrom(s5, s6, context, dest, slots) && LeavesFrom(s4, s5, ret, hc, n, stackSize)
    requires s5.reg(SP) == s0.reg(SP) - 4 * |context|
    requires forall j :: 0 <= j < |context| ==> s5.mem(s5.reg(SP) + 4 * j) == s0.reg(context[j])
    requires forall a :: a >= s0.reg(SP) && a !in written ==> s5.mem(a) == s0.mem(a)
    ensures s6.reg(SP) == s0.reg(SP)
    ensures forall r :: r in context && r !in Through(dest) ==> s6.reg(r) == s0.reg(r)
    ensures ret.Result? ==> HoldsResult(dest, slots, s6, Reading(ret.v, hc, 0, s4))
    ensures forall a :: a >= s0.reg(SP) && !IsSlot(dest, slots, a, s0.reg(SP)) ==> s6.mem(a) == s4.mem(a)
    ensures FrameKept(s0, s6, 0, written + iset a | IsSlot(dest, slots, a, s0.reg(SP)))
  {
    forall r | r in context && r !in Through(dest) ensures s6.reg(r) == s0.reg(r) {
      var j :| 0 <= j < |context| && context[j] == r;
      assert s6.reg(context[j]) == s5.mem(s5.reg(SP) + 4 * j);
    }
  }

  /** Between the branch and the return the saved registers and the caller's frame stay on the stack. */
  lemma CallRestores(args: seq<Value>, h: Homes, context: seq<int>, mid: nat, s0: State, s1: State, s2: State, s3: State,
                     s4: State, s5: State, address: int, stackSize: int, params: seq<nat>, regs: map<nat, int>,
                     offsets: map<nat, int>, ret: Returned, hc: Homes, written: iset<int>)
    requires |params| == |args| && mid == (if |args| < 4 then |args| else 4)
    requires Progress(args, h, context, 0, mid, s0, s1) && s2 == SetReg(s1, LR, address)
    requires EntersFrom(s2, s3, params, regs, offsets, stackSize) && LeavesFrom(s4, s5, ret, hc, |params|, stackSize)
    requires FrameKept(s3, s4, stackSize - 20, written) && forall a :: a in written ==> a >= s0.reg(SP)
    ensures s5.reg(PC) == address && s5.reg(SP) == s0.reg(SP) - 4 * |context|
    ensures forall j :: 0 <= j < |context| ==> s5.mem(s5.reg(SP) + 4 * j) == s0.reg(context[j])
    ensures forall a :: a >= s0.reg(SP) && a !in written ==> s5.mem(a) == s0.mem(a)
  {
    assert s4.reg(SP) + stackSize - 20 == s2.reg(SP) - 20;
    forall j | 0 <= j < |context| ensures s5.mem(s5.reg(SP) + 4 * j) == s0.reg(context[j]) {
      var a := s0.reg(SP) - 4 * |context| + 4 * j;
      assert s5.reg(SP) + 4 * j == a && s1.mem(a) == s0.reg(context[j]);
      assert a >= s2.reg(SP);
    }
  }

  /** Under the front end's rule for arguments, the callee's parameters are the caller's arguments as they were. */
  lemma CallDeliversArguments(args: seq<Value>, h: Homes, context: seq<int>, before: seq<Ins>, params: seq<nat>,
                              regs: map<nat, int>, offsets: map<nat, int>, stackSize: int, entry: seq<Ins>, s0: State,
                              address: int, i: nat)
    requires i < |params| == |args| && Sound(h) && HasHome(args[i], h) && !LostParam(params, regs, i)
    requires |args| > 1 ==> args[i].Virtual? ==> args[i].id !in h.temps
    requires Reached(before, args, h, context, 0, if |args| < 4 then |args| else 4)
    requires Enters(entry, params, regs, offsets, stackSize)
    ensures var s3 := Run(entry, SetReg(Run(before, s0), LR, address));
            ParamValue(params[i], regs, offsets, s3) == Reading(args[i], h, 0, s0)
  {
    hide Run, Progress, EntersFrom, Reading, Placed;
    var s1 := Run(before, s0);
    var s2 := SetReg(s1, LR, address);
    assert Progress(args, h, context, 0, if |args| < 4 then |args| else 4, s0, s1);
    assert EntersFrom(s2, Run(entry, s2), params, regs, offsets, stackSize);
    ParameterIsArgument(args, h, context, s0, s1, s2, Run(entry, s2), address, params, regs, offsets, stackSize, i);
    CompiledArgumentsArrive(args, h, i, s0);
  }

  // ----- calls within calls -----

  /** One call: the pieces of code on both sides and what they were made for. */
  datatype Site = Site(args: seq<Value>, h: Homes, context: seq<int>, before: seq<Ins>, after: seq<Ins>,
                       dest: Destination, slots: map<nat, int>, params: seq<nat>, regs: map<nat, int>,
                       offsets: map<nat, int>, stackSize: int, entry: seq<Ins>, exit: seq<Ins>, ret: Returned,
                       hc: Homes, address: int)

  /** What a body does: it stores to its slots or through pointers, and it makes calls, whose bodies do the same. */
  datatype Act = Write | Call(site: Site, body: Acts)
  datatype Acts = Done | Then(first: Act, rest: Acts)

  /** The words of a frame of the given size that its function may store to. */
  predicate IsLocal(s: State, frame: int, a: int) {
    s.reg(SP) <= a < s.reg(SP) + frame - 20
  }

  ghost function Locals(s: State, frame: int): iset<int> {
    iset a | IsLocal(s, frame, a)
  }

  /** The code of the call is as generated, and the slot of its result is among the caller's. */
  ghost predicate SiteOk(c: Site, frame: int) {
    && |c.params| == |c.args| && Usable(c.dest) && c.stackSize >= 20
    && (c.dest.InSlot? ==> c.dest.id in c.slots && 0 <= c.slots[c.dest.id] < frame - 20)
    && Reached(c.before, c.args, c.h, c.context, 0, if |c.args| < 4 then |c.args| else 4)
    && Enters(c.entry, c.params, c.regs, c.offsets, c.stackSize)
    && Leaves(c.exit, c.ret, c.hc, |c.params|, c.stackSize)
    && Fetches(c.after, c.context, c.dest, c.slots)
  }

  /** The state in which the callee's body starts. */
  ghost function Entered(c: Site, s: State): State {
    Run(c.entry, SetReg(Run(c.before, s), LR, c.address))
  }

  /** From s the act leads to t; written are the words of other frames it may store to. */
  ghost predicate Does(a: Act, s: State, t: State, frame: int, written: iset<int>)
    decreases a
  {
    match a
    case Write => FrameKept(s, t, 0, written + Locals(s, frame))
    case Call(c, body) =>
      && SiteOk(c, frame)
      && exists s4 :: DoesAll(body, Entered(c, s), s4, c.stackSize, written + Locals(s, frame))
                      && t == Run(c.after, Run(c.exit, s4))
  }

  ghost predicate DoesAll(acts: Acts, s: State, t: State, frame: int, written: iset<int>)
    decreases acts
  {
    match acts
    case Done => t == s
    case Then(a, rest) => exists m :: Does(a, s, m, frame, written) && DoesAll(rest, m, t, frame, written)
  }

  /** Whatever a body does, to any depth of calls, its stack pointer is back and its frame is kept. */
  lemma {:induction false} BodyKeepsFrame(acts: Acts, s: State, t: State, frame: int, written: iset<int>)
    requires frame >= 20 && DoesAll(acts, s, t, frame, written) && forall a :: a in written ==> a >= s.reg(SP)
    ensures FrameKept(s, t, frame - 20, written)
    decreases acts
  {
    match acts
    case Done =>
    case Then(a, rest) =>
      var m :| Does(a, s, m, frame, written) && DoesAll(rest, m, t, frame, written);
      ActKeepsFrame(a, s, m, frame, written);
      BodyKeepsFrame(rest, m, t, frame, written);
  }

  lemma {:induction false} ActKeepsFrame(a: Act, s: State, t: State, frame: int, written: iset<int>)
    requires frame >= 20 && Does(a, s, t, frame, written) && forall x :: x in written ==> x >= s.reg(SP)
    ensures FrameKept(s, t, frame - 20, written)
    decreases a
  {
    match a
    case Write =>
    case Call(c, body) =>
      var within := written + Locals(s, frame);
      var s4 :| DoesAll(body, Entered(c, s), s4, c.stackSize, within) && t == Run(c.after, Run(c.exit, s4));
      CalleeIsBelow(c, s, frame);
      BodyKeepsFrame(body, Entered(c, s), s4, c.stackSize, within);
      CallKeepsFrame(c, s, s4, frame, written);
  }

  lemma CalleeIsBelow(c: Site, s: State, frame: int)
    requires SiteOk(c, frame)
    ensures Entered(c, s).reg(SP) <= s.reg(SP)
  {
    hide Run;
    var s1 := Run(c.before, s);
    assert Progress(c.args, c.h, c.context, 0, if |c.args| < 4 then |c.args| else 4, s, s1);
    var s2 := SetReg(s1, LR, c.address);
    assert EntersFrom(s2, Run(c.entry, s2), c.params, c.regs, c.offsets, c.stackSize);
  }

  lemma CallKeepsFrame(c: Site, s: State, s4: State, frame: int, written: iset<int>)
    requires frame >= 20 && SiteOk(c, frame) && (forall x :: x in written ==> x >= s.reg(SP))
    requires FrameKept(Entered(c, s), s4, c.stackSize - 20, written + Locals(s, frame))
    ensures FrameKept(s, Run(c.after, Run(c.exit, s4)), frame - 20, written)
  {
    hide Run, Reached, Enters, Leaves, Fetches;
    CallRoundTrip(c.args, c.h, c.context, c.before, c.after, c.dest, c.slots, c.params, c.regs, c.offsets, c.stackSize,
                  c.entry, c.exit, c.ret, c.hc, s, c.address, s4, written + Locals(s, frame));
  }

  /**
    A call whose callee's body stores and calls as above comes back with nothing assumed of
    the body: control at the return address, the stack pointer and saved registers as before.
   */
  lemma NestedCallReturns(c: Site, body: Acts, s: State, s4: State, frame: int, written: iset<int>)
    requires frame >= 20 && SiteOk(c, frame) && (forall x :: x in written ==> x >= s.reg(SP))
    requires DoesAll(body, Entered(c, s), s4, c.stackSize, written + Locals(s, frame))
    ensures Run(c.exit, s4).reg(PC) == c.address
    ensures var t := Run(c.after, Run(c.exit, s4));
            && t.reg(SP) == s.reg(SP)
            && (forall r :: r in c.context && r !in Through(c.dest) ==> t.reg(r) == s.reg(r))
            && (c.ret.Result? ==> HoldsResult(c.dest, c.slots, t, Reading(c.ret.v, c.hc, 0, s4)))
            && FrameKept(s, t, frame - 20, written)
  {
    hide Run, Reached, Enters, Leaves, Fetches, DoesAll;
    CalleeBodyKeeps(c, body, s, s4, frame, written);
    CallKeepsFrame(c, s, s4, frame, written);
    CallRoundTrip(c.args, c.h, c.context, c.before, c.after, c.dest, c.slots, c.params, c.regs, c.offsets, c.stackSize,
                  c.entry, c.exit, c.ret, c.hc, s, c.address, s4, written + Locals(s, frame));
  }

  lemma CalleeBodyKeeps(c: Site, body: Acts, s: State, s4: State, frame: int, written: iset<int>)
    requires frame >= 20 && SiteOk(c, frame) && (forall x :: x in written ==> x >= s.reg(SP))
    requires DoesAll(body, Entered(c, s), s4, c.stackSize, written + Locals(s, frame))
    ensures FrameKept(Entered(c, s), s4, c.stackSize - 20, written + Locals(s, frame))
  {
    CalleeIsBelow(c, s, frame);
    BodyKeepsFrame(body, Entered(c, s), s4, c.stackSize, written + Locals(s, frame));
  }
}
