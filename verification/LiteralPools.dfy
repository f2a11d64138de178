/**
  Literal pools: loads of labels and wide constants name the pool to come, and pools
  are laid down often enough for every load to find its own fewer than 800 instructions
  on.  The pool's own words come on top: WithinOffset says how many of them a load reaches.
 */
module LiteralPools {
  import opened Cfg

  const POOL_DISTANCE := 800

  /** An instruction before pools are placed. */
  datatype Ins = Comment | Plain(code: nat) | LoadGlobal(name: string) | LoadNumber(number: int)

  datatype Literal = Address(name: string) | Number(number: int)

  datatype Label = Label(literal: Literal, pool: nat)

  /** The emitted stream: instructions with their labels rewritten, and the pools between them. */
  datatype Item = Remark | Code(code: nat) | Load(target: Label) | Skip(pool: nat) | Define(target: Label) | Next(pool: nat)

  predicate IsInstruction(x: Item) {
    x.Code? || x.Load?
  }

  predicate IsPool(x: Item) {
    x.Skip? || x.Define? || x.Next?
  }

  /** Instructions among the items; comments and pools do not count. */
  function Counted(s: seq<Item>): nat {
    if s == [] then 0 else Counted(s[..|s| - 1]) + if IsInstruction(s[|s| - 1]) then 1 else 0
  }

  /** Everything but comments. */
  function Items(s: seq<Item>): nat {
    if s == [] then 0 else Items(s[..|s| - 1]) + if s[|s| - 1].Remark? then 0 else 1
  }

  function Pools(s: seq<Item>): nat {
    if s == [] then 0 else Pools(s[..|s| - 1]) + if s[|s| - 1].Skip? then 1 else 0
  }

  lemma OneItem(s: seq<Item>, x: Item)
    ensures Items(s + [x]) == Items(s) + if x.Remark? then 0 else 1
    ensures Pools(s + [x]) == Pools(s) + if x.Skip? then 1 else 0
  {
    assert (s + [x])[..|s|] == s;
  }

  lemma {:induction false} ManyDefinitions(s: seq<Item>, d: seq<Item>)
    requires forall i :: 0 <= i < |d| ==> d[i].Define?
    ensures Items(s + d) == Items(s) + |d| && Pools(s + d) == Pools(s)
    decreases |d|
  {
    if d == [] {
      assert s + d == s;
    } else {
      var n := |d| - 1;
      assert s + d == s + d[..n] + [d[n]];
      ManyDefinitions(s, d[..n]);
      OneItem(s + d[..n], d[n]);
    }
  }

  lemma {:induction false} CountedJoin(a: seq<Item>, b: seq<Item>)
    ensures Counted(a + b) == Counted(a) + Counted(b)
    decreases |b|
  {
    if b == [] {
      assert a + b == a;
    } else {
      assert (a + b)[..|a + b| - 1] == a + b[..|b| - 1];
      CountedJoin(a, b[..|b| - 1]);
    }
  }

  lemma CountedPart(s: seq<Item>, i: nat, j: nat)
    requires i <= j <= |s|
    ensures Counted(s[i..j]) <= Counted(s[i..]) && Counted(s[j..]) <= Counted(s[i..])
  {
    CountedJoin(s[i..j], s[j..]);
    assert s[i..j] + s[j..] == s[i..];
  }

  // ----- what a finished stream promises -----

  /**
    The load at i has its label at p and nowhere else, in the pool that starts at s, the
    next one, fewer than POOL_DISTANCE instructions away.
   */
  ghost predicate Reaches(out: seq<Item>, i: nat, s: nat, p: nat)
    requires i < |out| && out[i].Load?
  {
    && i < s < p < |out| && out[s] == Skip(out[i].target.pool) && out[p] == Define(out[i].target)
    && (forall q :: i < q < s ==> !IsPool(out[q])) && (forall q :: s < q < p ==> out[q].Define?)
    && Counted(out[i + 1..s]) < POOL_DISTANCE
    && forall q :: 0 <= q < |out| && out[q] == Define(out[i].target) ==> q == p
  }

  ghost predicate Resolved(out: seq<Item>, i: nat)
    requires i < |out| && out[i].Load?
  {
    exists s, p :: Reaches(out, i, s, p)
  }

  /** The skip over a pool finds its end, with nothing but definitions between. */
  ghost predicate SkipsPool(out: seq<Item>, i: nat)
    requires i < |out| && out[i].Skip?
  {
    exists p :: i < p < |out| && out[p] == Next(out[i].pool) && (forall q :: i < q < p ==> out[q].Define?)
                && forall q :: 0 <= q < |out| && out[q] == Next(out[i].pool) ==> q == p
  }

  // ----- the state between instructions -----

  /** Everything before seg is settled; behind it wait the loads for pool number pool. */
  ghost predicate Placing(out: seq<Item>, seg: nat, pool: nat, pending: set<int>, globals: seq<string>) {
    && seg <= |out|
    && (forall i :: 0 <= i < |out| ==> Settled(out, i, seg, pool, pending, globals))
  }

  ghost predicate Settled(out: seq<Item>, i: nat, seg: nat, pool: nat, pending: set<int>, globals: seq<string>)
    requires i < |out|
  {
    match out[i]
    case Load(l) =>
      if i < seg then l.pool < pool && Resolved(out, i)
      else l.pool == pool && Available(l.literal, pending, globals)
    case Skip(k) => i < seg && k < pool && SkipsPool(out, i)
    case Define(l) => i < seg && l.pool < pool
    case Next(k) => i < seg && k < pool
    case _ => true
  }

  /** The next pool will hold the literal. */
  predicate Available(l: Literal, pending: set<int>, globals: seq<string>) {
    match l
    case Address(n) => n in globals
    case Number(k) => k in pending
  }

  lemma ResolvedStays(out: seq<Item>, more: seq<Item>, i: nat, pool: nat)
    requires i < |out| && out[i].Load? && Resolved(out, i) && out[i].target.pool < pool
    requires forall j :: 0 <= j < |more| ==> !(more[j].Define? && more[j].target.pool < pool)
    ensures Resolved(out + more, i)
  {
    var s: nat, p: nat :| Reaches(out, i, s, p);
    assert (out + more)[i + 1..s] == out[i + 1..s];
    assert (out + more)[p] == out[p] && (out + more)[s] == out[s];
    assert Reaches(out + more, i, s, p);
  }

  lemma SkipStays(out: seq<Item>, more: seq<Item>, i: nat, pool: nat)
    requires i < |out| && out[i].Skip? && SkipsPool(out, i) && out[i].pool < pool
    requires forall j :: 0 <= j < |more| ==> !(more[j].Next? && more[j].pool < pool)
    ensures SkipsPool(out + more, i)
  {
    var p :| i < p < |out| && out[p] == Next(out[i].pool) && (forall q :: i < q < p ==> out[q].Define?)
             && forall q :: 0 <= q < |out| && out[q] == Next(out[i].pool) ==> q == p;
    assert (out + more)[p] == out[p];
    assert forall q :: i < q < p ==> (out + more)[q] == out[q];
  }

  /** One more instruction that waits for the next pool, if for any. */
  lemma PlaceOne(out: seq<Item>, seg: nat, pool: nat, pending: set<int>, globals: seq<string>, x: Item, pending': set<int>)
    requires Placing(out, seg, pool, pending, globals) && pending <= pending'
    requires x.Remark? || x.Code? || (x.Load? && x.target.pool == pool && Available(x.target.literal, pending', globals))
    ensures Placing(out + [x], seg, pool, pending', globals)
  {
    var all := out + [x];
    forall i | 0 <= i < |all| ensures Settled(all, i, seg, pool, pending', globals) {
      if i < |out| {
        assert Settled(out, i, seg, pool, pending, globals);
        assert all[i] == out[i];
        if i < seg && out[i].Load? {
          ResolvedStays(out, [x], i, pool);
        }
        if out[i].Skip? {
          SkipStays(out, [x], i, pool);
        }
      }
    }
  }

  // ----- one pool -----

  function Definitions(literals: seq<Literal>, pool: nat): (d: seq<Item>)
    ensures |d| == |literals| && forall i :: 0 <= i < |d| ==> d[i] == Define(Label(literals[i], pool))
  {
    seq(|literals|, i requires 0 <= i < |literals| => Define(Label(literals[i], pool)))
  }

  function PoolOf(literals: seq<Literal>, pool: nat): seq<Item> {
    [Skip(pool)] + Definitions(literals, pool) + [Next(pool)]
  }

  lemma OnePool(out: seq<Item>, literals: seq<Literal>, pool: nat)
    ensures Items(out + PoolOf(literals, pool)) == Items(out) + |PoolOf(literals, pool)|
    ensures Pools(out + PoolOf(literals, pool)) == Pools(out) + 1
  {
    var d := Definitions(literals, pool);
    assert out + PoolOf(literals, pool) == out + [Skip(pool)] + d + [Next(pool)];
    OneItem(out, Skip(pool));
    ManyDefinitions(out + [Skip(pool)], d);
    OneItem(out + [Skip(pool)] + d, Next(pool));
  }

  predicate Distinct(literals: seq<Literal>) {
    forall i, j :: 0 <= i < j < |literals| ==> literals[i] != literals[j]
  }

  /** The pool resolves every load that waited for it. */
  lemma PoolResolves(out: seq<Item>, seg: nat, pool: nat, pending: set<int>, globals: seq<string>, literals: seq<Literal>)
    requires Placing(out, seg, pool, pending, globals) && Distinct(literals) && Counted(out[seg..]) <= POOL_DISTANCE
    requires forall l :: Available(l, pending, globals) ==> l in literals
    ensures var all := out + PoolOf(literals, pool); Placing(all, |all|, pool + 1, {}, globals)
  {
    var more := PoolOf(literals, pool);
    var all := out + more;
    var n, next := |all|, pool + 1;
    forall i | 0 <= i < |all| ensures Settled(all, i, n, next, {}, globals) {
      if i < |out| {
        assert Settled(out, i, seg, pool, pending, globals);
        assert all[i] == out[i];
        if out[i].Load? {
          if i < seg {
            ResolvedStays(out, more, i, pool);
          } else {
            NowResolved(out, seg, pool, pending, globals, literals, i);
          }
        }
        if out[i].Skip? {
          SkipStays(out, more, i, pool);
        }
      } else if i == |out| {
        PoolSkips(out, seg, pool, pending, globals, literals);
      }
    }
  }

  /** The number of the next pool has not been used yet. */
  lemma PoolIsNew(out: seq<Item>, seg: nat, pool: nat, pending: set<int>, globals: seq<string>)
    requires Placing(out, seg, pool, pending, globals)
    ensures forall q :: 0 <= q < |out| ==> out[q] != Next(pool) && (out[q].Define? ==> out[q].target.pool != pool)
  {
    forall q | 0 <= q < |out| ensures out[q] != Next(pool) && (out[q].Define? ==> out[q].target.pool != pool) {
      assert Settled(out, q, seg, pool, pending, globals);
    }
  }

  lemma NowResolved(out: seq<Item>, seg: nat, pool: nat, pending: set<int>, globals: seq<string>, literals: seq<Literal>, i: nat)
    requires Placing(out, seg, pool, pending, globals) && Distinct(literals) && Counted(out[seg..]) <= POOL_DISTANCE
    requires forall l :: Available(l, pending, globals) ==> l in literals
    requires seg <= i < |out| && out[i].Load?
    ensures Resolved(out + PoolOf(literals, pool), i)
  {
    assert Settled(out, i, seg, pool, pending, globals);
    var k :| 0 <= k < |literals| && literals[k] == out[i].target.literal;
    PoolIsNew(out, seg, pool, pending, globals);
    NoPoolSince(out, seg, pool, pending, globals, i);
    CountedAfter(out, seg, i);
    hide Placing, Counted, Available;
    DefinedOnce(out, literals, pool, k);
    var all := out + PoolOf(literals, pool);
    assert all[i] == out[i] && all[|out|] == Skip(pool) && all[i + 1..|out|] == out[i + 1..];
    assert Reaches(all, i, |out|, |out| + 1 + k);
  }

  lemma NoPoolSince(out: seq<Item>, seg: nat, pool: nat, pending: set<int>, globals: seq<string>, i: nat)
    requires Placing(out, seg, pool, pending, globals) && seg <= i < |out|
    ensures forall q :: i < q < |out| ==> !IsPool(out[q])
  {
    forall q | i < q < |out| ensures !IsPool(out[q]) {
      assert Settled(out, q, seg, pool, pending, globals);
    }
  }

  lemma DefinedOnce(out: seq<Item>, literals: seq<Literal>, pool: nat, k: nat)
    requires Distinct(literals) && k < |literals| && forall q :: 0 <= q < |out| ==> out[q].Define? ==> out[q].target.pool != pool
    ensures var all := out + PoolOf(literals, pool); var x := Define(Label(literals[k], pool));
            all[|out| + 1 + k] == x && forall q :: 0 <= q < |all| && all[q] == x ==> q == |out| + 1 + k
  {
    var all := out + PoolOf(literals, pool);
    assert forall q :: 0 <= q < |out| ==> all[q] == out[q];
    assert forall q :: |out| < q < |all| - 1 ==> all[q] == Define(Label(literals[q - |out| - 1], pool));
  }

  lemma CountedAfter(out: seq<Item>, seg: nat, i: nat)
    requires seg <= i < |out| && IsInstruction(out[i])
    ensures Counted(out[i + 1..]) < Counted(out[seg..])
  {
    var rest := out[i + 1..];
    assert out[i..] == [out[i]] + rest;
    CountedJoin([out[i]], rest);
    assert [out[i]][..0] == [];
    CountedPart(out, seg, i);
  }

  // ----- distance in words -----

  /** Words of the stream: an instruction, the branch over a pool and each literal take one. */
  function Words(s: seq<Item>): nat {
    if s == [] then 0
    else
      var x := s[|s| - 1];
      Words(s[..|s| - 1]) + if IsInstruction(x) || x.Skip? || x.Define? then 1 else 0
  }

  lemma {:induction false} WordsJoin(a: seq<Item>, b: seq<Item>)
    ensures Words(a + b) == Words(a) + Words(b)
    decreases |b|
  {
    if b == [] {
      assert a + b == a;
    } else {
      assert (a + b)[..|a + b| - 1] == a + b[..|b| - 1];
      WordsJoin(a, b[..|b| - 1]);
    }
  }

  lemma {:induction false} WordsOfCode(s: seq<Item>)
    requires forall i :: 0 <= i < |s| ==> !IsPool(s[i])
    ensures Words(s) == Counted(s)
  {
    if s != [] {
      WordsOfCode(s[..|s| - 1]);
    }
  }

  lemma {:induction false} WordsOfPool(s: seq<Item>)
    requires forall i :: 0 <= i < |s| ==> s[i].Skip? || s[i].Define?
    ensures Words(s) == |s|
  {
    if s != [] {
      WordsOfPool(s[..|s| - 1]);
    }
  }

  /** Between a load and its literal lie the instructions counted, the branch, and the literals before it. */
  lemma DistanceInWords(out: seq<Item>, i: nat, s: nat, p: nat)
    requires i < |out| && out[i].Load? && Reaches(out, i, s, p)
    ensures Words(out[i + 1..p]) == Counted(out[i + 1..s]) + (p - s)
  {
    assert out[i + 1..p] == out[i + 1..s] + out[s..p];
    WordsJoin(out[i + 1..s], out[s..p]);
    WordsOfCode(out[i + 1..s]);
    WordsOfPool(out[s..p]);
  }

  /** The program counter is two words ahead of a load, whose offset has twelve bits. */
  predicate InOffset(out: seq<Item>, i: nat, p: nat)
    requires i < p <= |out|
  {
    4 * (Words(out[i + 1..p]) + 1) - 8 < 4096
  }

  /** The instructions to the pool and the words of the pool up to the literal make up 1024 at most. */
  lemma WithinOffsetIff(out: seq<Item>, i: nat, s: nat, p: nat)
    requires i < |out| && out[i].Load? && Reaches(out, i, s, p)
    ensures InOffset(out, i, p) <==> Counted(out[i + 1..s]) + (p - s) <= 1024
  {
    DistanceInWords(out, i, s, p);
  }

  /** Wherever the load stands, the first 225 literals of its pool are reached. */
  lemma WithinOffset(out: seq<Item>, i: nat, s: nat, p: nat)
    requires i < |out| && out[i].Load? && Reaches(out, i, s, p) && p - s <= 225
    ensures InOffset(out, i, p)
  {
    WithinOffsetIff(out, i, s, p);
  }

  /** 300 loads of different numbers, 500 more instructions, and the pool in the opposite order. */
  function Crowded(): seq<Item> {
    seq(300, i => Load(Label(Number(i), 0))) + seq(500, i => Code(0))
    + ([Skip(0)] + seq(300, i => Define(Label(Number(299 - i), 0))) + [Next(0)])
  }

  lemma {:induction false} AllCounted(s: seq<Item>)
    requires forall i :: 0 <= i < |s| ==> IsInstruction(s[i])
    ensures Counted(s) == |s|
  {
    if s != [] {
      AllCounted(s[..|s| - 1]);
    }
  }

  /** The distance kept to the next pool is kept, and yet the first load does not reach its literal. */
  lemma CrowdedIsTooFar()
    ensures |Crowded()| == 1102 && Crowded()[0].Load?
    ensures Reaches(Crowded(), 0, 800, 1100) && !InOffset(Crowded(), 0, 1100)
  {
    var out := Crowded();
    CrowdedAt();
    assert forall q :: 0 <= q < 799 ==> out[1..800][q] == out[q + 1];
    AllCounted(out[1..800]);
    WithinOffsetIff(out, 0, 800, 1100);
  }

  lemma CrowdedAt()
    ensures var out := Crowded();
            && |out| == 1102 && out[0] == Load(Label(Number(0), 0)) && out[800] == Skip(0) && out[1100] == Define(Label(Number(0), 0))
            && (forall q :: 0 <= q < 800 ==> IsInstruction(out[q]) && !IsPool(out[q]) && !out[q].Define?)
            && (forall q :: 800 < q < 1101 ==> out[q] == Define(Label(Number(1100 - q), 0)))
            && !out[1101].Define?
  {
  }

  lemma PoolSkips(out: seq<Item>, seg: nat, pool: nat, pending: set<int>, globals: seq<string>, literals: seq<Literal>)
    requires Placing(out, seg, pool, pending, globals)
    ensures var all := out + PoolOf(literals, pool); all[|out|] == Skip(pool) && SkipsPool(all, |out|)
  {
    var all := out + PoolOf(literals, pool);
    var p := |all| - 1;
    assert all[p] == Next(pool);
    PoolIsNew(out, seg, pool, pending, globals);
    assert forall q :: 0 <= q < |out| ==> all[q] == out[q];
  }

  /** Nothing waits: no pool is laid down, and the number is not used up. */
  lemma NothingWaits(out: seq<Item>, seg: nat, pool: nat, globals: seq<string>)
    requires Placing(out, seg, pool, {}, globals) && globals == []
    ensures Placing(out, |out|, pool, {}, globals)
  {
    forall i | 0 <= i < |out| ensures Settled(out, i, |out|, pool, {}, globals) {
      assert Settled(out, i, seg, pool, {}, globals);
    }
  }

  /** The label is defined at one place of the stream, and that is from start on. */
  ghost predicate DefinedBehind(out: seq<Item>, start: nat, label0: Label) {
    exists p :: start <= p < |out| && OnlyAt(out, p, Define(label0))
  }

  ghost predicate OnlyAt(out: seq<Item>, p: nat, x: Item)
    requires p < |out|
  {
    out[p] == x && forall q :: 0 <= q < |out| && out[q] == x ==> q == p
  }

  /** The pool defines its literals, each once, and nothing else. */
  lemma PoolHolds(out: seq<Item>, seg: nat, pool: nat, pending: set<int>, globals: seq<string>, literals: seq<Literal>)
    requires Placing(out, seg, pool, pending, globals) && Distinct(literals)
    ensures forall l :: l in literals <==> DefinedBehind(out + PoolOf(literals, pool), |out|, Label(l, pool))
    ensures literals == [] ==> forall l :: !DefinedBehind(out, |out|, Label(l, pool))
  {
    PoolIsNew(out, seg, pool, pending, globals);
    var all := out + PoolOf(literals, pool);
    forall p | |out| <= p < |all| && all[p].Define? ensures all[p].target.literal in literals {
      assert all[p] == PoolOf(literals, pool)[p - |out|];
    }
    forall l ensures l in literals <==> DefinedBehind(all, |out|, Label(l, pool)) {
      if l in literals {
        var k :| 0 <= k < |literals| && literals[k] == l;
        DefinedOnce(out, literals, pool, k);
        assert OnlyAt(all, |out| + 1 + k, Define(Label(l, pool)));
      }
    }
  }

  class PoolPlacer {
    const globals: seq<string>
    var out: seq<Item>
    var constPoolId: nat
    var insCount: nat
    var preInsCount: nat
    var invalidImm: set<int>
    ghost var seg: nat

    /** Between two instructions: what waits is within reach of a pool laid down now or one instruction later. */
    ghost predicate Valid()
      reads this
    {
      && Placing(out, seg, constPoolId, invalidImm, globals)
      && (forall i, j :: 0 <= i < j < |globals| ==> globals[i] != globals[j])
      && preInsCount <= insCount
      && Counted(out[seg..]) <= insCount - preInsCount
      && (Counted(out[seg..]) == 0 || insCount - preInsCount < POOL_DISTANCE)
    }

    constructor (names: seq<string>)
      requires forall i, j :: 0 <= i < j < |names| ==> names[i] != names[j]
      ensures Valid() && out == [] && globals == names && insCount == preInsCount == 0
    {
      globals := names;
      out, constPoolId, insCount, preInsCount, invalidImm, seg := [], 0, 0, 0, {}, 0;
    }

    /** The literals of the next pool: the address of every global, then the numbers that wait. */
    method PoolLiterals() returns (literals: seq<Literal>)
      requires forall i, j :: 0 <= i < j < |globals| ==> globals[i] != globals[j]
      ensures Distinct(literals) && forall l :: Available(l, invalidImm, globals) <==> l in literals
    {
      var addresses: seq<Literal> := seq(|globals|, i requires 0 <= i < |globals| => Address(globals[i]));
      var order := Enumerate(invalidImm);
      var numbers: seq<Literal> := seq(|order|, i requires 0 <= i < |order| => Number(order[i]));
      literals := addresses + numbers;
      forall l | Available(l, invalidImm, globals) ensures l in literals {
        match l
        case Address(n) => InAddresses(globals, addresses, n);
        case Number(k) => InNumbers(order, numbers, k);
      }
    }

    /** genGlobIns, put at the end of the stream; without anything to hold there is no pool. */
    method GenGlobIns() returns (size: nat)
      requires Placing(out, seg, constPoolId, invalidImm, globals) && Counted(out[seg..]) <= POOL_DISTANCE
      requires forall i, j :: 0 <= i < j < |globals| ==> globals[i] != globals[j]
      modifies this`out, this`constPoolId, this`invalidImm, this`seg
      ensures Placing(out, seg, constPoolId, invalidImm, globals) && seg == |out| && invalidImm == {}
      ensures size == |out| - |old(out)| && old(out) <= out
      ensures forall i :: |old(out)| <= i < |out| ==> IsPool(out[i])
      ensures Items(out) == Items(old(out)) + size && Pools(out) == Pools(old(out)) + if size > 0 then 1 else 0
      ensures constPoolId == old(constPoolId) + if size > 0 then 1 else 0
      ensures forall l :: Available(l, old(invalidImm), globals) <==> DefinedBehind(out, |old(out)|, Label(l, old(constPoolId)))
    {
      hide Placing, Counted;
      var literals := PoolLiterals();
      PoolHolds(out, seg, constPoolId, invalidImm, globals, literals);
      if literals != [] {
        PoolResolves(out, seg, constPoolId, invalidImm, globals, literals);
        OnePool(out, literals, constPoolId);
        size := |PoolOf(literals, constPoolId)|;
        out, constPoolId := out + PoolOf(literals, constPoolId), constPoolId + 1;
      } else {
        NothingIn(literals, invalidImm, globals);
        NothingWaits(out, seg, constPoolId, globals);
        size := 0;
      }
      invalidImm, seg := {}, |out|;
    }

    /** One instruction of the stream, with a pool behind it when the distance is reached. */
    method Place(ins: Ins)
      requires Valid() && (ins.LoadGlobal? ==> ins.name in globals)
      modifies this`out, this`constPoolId, this`insCount, this`preInsCount, this`invalidImm, this`seg
      ensures Valid() && |old(out)| < |out| && old(out) <= out
      ensures Means(ins, out[|old(out)|]) && forall i :: |old(out)| < i < |out| ==> IsPool(out[i])
      ensures out[|old(out)|].Load? ==> out[|old(out)|].target.pool == old(constPoolId)
      ensures var counted := if ins.Comment? then 0 else 1;
              var due := !ins.Comment? && old(insCount) + 1 - old(preInsCount) >= POOL_DISTANCE;
              && (!due ==> |out| == |old(out)| + 1 && preInsCount == old(preInsCount) && insCount == old(insCount) + counted)
              && (due ==> invalidImm == {} && seg == |out| && preInsCount == old(insCount) + 1)
              && insCount == old(insCount) + counted + (|out| - |old(out)| - 1)
              && Items(out) == Items(old(out)) + (insCount - old(insCount))
              && Pools(out) <= Pools(old(out)) + if due then 1 else 0
    {
      hide Placing, Counted, Items, Pools;
      ghost var before := out;
      if ins.Comment? {
        PlaceOne(out, seg, constPoolId, invalidImm, globals, Remark, invalidImm);
        SegInside(out, seg, constPoolId, invalidImm, globals);
        OneCounted(out, seg, Remark);
        OneItem(out, Remark);
        out := out + [Remark];
        return;
      }
      insCount := insCount + 1;
      var x;
      ghost var waiting := invalidImm;
      match ins {
        case Plain(c) => x := Code(c);
        case LoadGlobal(n) => x := Load(Label(Address(n), constPoolId));
        case LoadNumber(k) =>
          invalidImm := invalidImm + {k};
          x := Load(Label(Number(k), constPoolId));
      }
      PlaceOne(out, seg, constPoolId, waiting, globals, x, invalidImm);
      SegInside(out, seg, constPoolId, waiting, globals);
      OneCounted(out, seg, x);
      OneItem(out, x);
      out := out + [x];
      if insCount - preInsCount >= POOL_DISTANCE {
        var size := GenGlobIns();
        preInsCount := insCount;
        insCount := insCount + size;
        EmptyCounted(out);
      }
    }

    /** All instructions in turn.  A block may end with a pool, and the stream does. */
    method PlacePools(blocks: seq<seq<Ins>>, optimizeMachineIr: bool)
      requires Valid() && out == [] && insCount == preInsCount == 0
      requires forall b, i :: 0 <= b < |blocks| && 0 <= i < |blocks[b]| && blocks[b][i].LoadGlobal? ==> blocks[b][i].name in globals
      modifies this`out, this`constPoolId, this`insCount, this`preInsCount, this`invalidImm, this`seg
      ensures forall i :: 0 <= i < |out| && out[i].Load? ==> Resolved(out, i)
      ensures forall i :: 0 <= i < |out| && out[i].Skip? ==> SkipsPool(out, i)
      ensures SameCode(Flat(blocks), Kept(out))
      ensures POOL_DISTANCE * (Pools(out) - 1 - (if optimizeMachineIr then 0 else |blocks|)) <= Items(out)
      ensures !optimizeMachineIr ==> BlocksComplete(out, blocks, |blocks|)
    {
      hide Placing, Counted, Resolved, SkipsPool, Kept, Flat, SameCode, Items, Pools, Complete, BlocksComplete;
      NothingPlaced();
      for b := 0 to |blocks|
        invariant Valid() && SameCode(Flat(blocks[..b]), Kept(out))
        invariant insCount <= Items(out) && POOL_DISTANCE * (Pools(out) - (if optimizeMachineIr then 0 else b)) <= preInsCount
        invariant !optimizeMachineIr ==> BlocksComplete(out, blocks, b)
      {
        FlatNext(blocks, b);
        ghost var start := out;
        for i := 0 to |blocks[b]|
          invariant Valid() && SameCode(Flat(blocks[..b]) + blocks[b][..i], Kept(out)) && start <= out
          invariant insCount <= Items(out) && POOL_DISTANCE * (Pools(out) - (if optimizeMachineIr then 0 else b)) <= preInsCount
        {
          ghost var before := out;
          Place(blocks[b][i]);
          KeptNext(Flat(blocks[..b]) + blocks[b][..i], blocks[b][i], before, out);
          OneMore(Flat(blocks[..b]), blocks[b], i);
        }
        assert blocks[b][..|blocks[b]|] == blocks[b];
        if insCount - preInsCount >= POOL_DISTANCE {
          ghost var before := out;
          WithinReach();
          var size := GenGlobIns();
          preInsCount := insCount;
          insCount := insCount + size;
          EmptyCounted(out);
          KeptSame(before, out);
        }
        if !optimizeMachineIr {
          ghost var before := out;
          WithinReach();
          var size := GenGlobIns();
          preInsCount := insCount;
          EmptyCounted(out);
          KeptSame(before, out);
          AllSettled(out, constPoolId, globals);
          CompleteNow(out, Flat(blocks[..b + 1]));
          AllComplete(start, out, blocks, b);
          OneMoreComplete(out, blocks, b);
        }
      }
      assert blocks[..|blocks|] == blocks;
      ghost var before := out;
      WithinReach();
      var size := GenGlobIns();
      preInsCount := insCount;
      KeptSame(before, out);
      AllSettled(out, constPoolId, globals);
      if !optimizeMachineIr {
        AllComplete(before, out, blocks, |blocks|);
      }
    }

    lemma WithinReach()
      requires Valid()
      ensures Counted(out[seg..]) <= POOL_DISTANCE
    {
    }
  }

  lemma InAddresses(globals: seq<string>, addresses: seq<Literal>, n: string)
    requires |addresses| == |globals| && (forall i :: 0 <= i < |globals| ==> addresses[i] == Address(globals[i])) && n in globals
    ensures Address(n) in addresses
  {
    var i :| 0 <= i < |globals| && globals[i] == n;
    assert addresses[i] == Address(n);
  }

  lemma InNumbers(order: seq<int>, numbers: seq<Literal>, k: int)
    requires |numbers| == |order| && (forall i :: 0 <= i < |order| ==> numbers[i] == Number(order[i])) && k in order
    ensures Number(k) in numbers
  {
    var i :| 0 <= i < |order| && order[i] == k;
    assert numbers[i] == Number(k);
  }

  lemma NothingIn(literals: seq<Literal>, pending: set<int>, globals: seq<string>)
    requires literals == [] && forall l :: Available(l, pending, globals) <==> l in literals
    ensures pending == {} && globals == []
  {
    forall k ensures k !in pending {
      assert !Available(Number(k), pending, globals);
    }
    if globals != [] {
      assert Available(Address(globals[0]), pending, globals);
    }
  }

  lemma SegInside(out: seq<Item>, seg: nat, pool: nat, pending: set<int>, globals: seq<string>)
    requires Placing(out, seg, pool, pending, globals)
    ensures seg <= |out|
  {
  }

  lemma OneCounted(out: seq<Item>, seg: nat, x: Item)
    requires seg <= |out|
    ensures Counted((out + [x])[seg..]) == Counted(out[seg..]) + if IsInstruction(x) then 1 else 0
  {
    assert (out + [x])[seg..] == out[seg..] + [x];
    assert (out[seg..] + [x])[..|out[seg..]|] == out[seg..];
  }

  lemma EmptyCounted(out: seq<Item>)
    ensures Counted(out[|out|..]) == 0
  {
  }

  lemma AllSettled(out: seq<Item>, pool: nat, globals: seq<string>)
    requires Placing(out, |out|, pool, {}, globals)
    ensures forall i :: 0 <= i < |out| && out[i].Load? ==> Resolved(out, i)
    ensures forall i :: 0 <= i < |out| && out[i].Skip? ==> SkipsPool(out, i)
  {
    hide Resolved, SkipsPool;
    forall i | 0 <= i < |out| ensures (out[i].Load? ==> Resolved(out, i)) && (out[i].Skip? ==> SkipsPool(out, i)) {
      assert Settled(out, i, |out|, pool, {}, globals);
    }
  }

  // ----- nothing but labels changes -----

  predicate Means(ins: Ins, x: Item) {
    match ins
    case Comment => x == Remark
    case Plain(c) => x == Code(c)
    case LoadGlobal(n) => x.Load? && x.target.literal == Address(n)
    case LoadNumber(k) => x.Load? && x.target.literal == Number(k)
  }

  function Flat(blocks: seq<seq<Ins>>): seq<Ins> {
    if blocks == [] then [] else Flat(blocks[..|blocks| - 1]) + blocks[|blocks| - 1]
  }

  /** The stream without its pools. */
  function Kept(out: seq<Item>): seq<Item> {
    if out == [] then []
    else Kept(out[..|out| - 1]) + if IsPool(out[|out| - 1]) then [] else [out[|out| - 1]]
  }

  lemma {:induction false} KeptJoin(a: seq<Item>, b: seq<Item>)
    ensures Kept(a + b) == Kept(a) + Kept(b)
    decreases |b|
  {
    if b == [] {
      assert a + b == a;
    } else {
      assert (a + b)[..|a + b| - 1] == a + b[..|b| - 1];
      KeptJoin(a, b[..|b| - 1]);
    }
  }

  lemma {:induction false} KeptNone(b: seq<Item>)
    requires forall i :: 0 <= i < |b| ==> IsPool(b[i])
    ensures Kept(b) == []
  {
    if b != [] {
      KeptNone(b[..|b| - 1]);
    }
  }

  lemma KeptSame(before: seq<Item>, out: seq<Item>)
    requires before <= out && forall i :: |before| <= i < |out| ==> IsPool(out[i])
    ensures Kept(out) == Kept(before)
  {
    var more := out[|before|..];
    assert out == before + more;
    KeptJoin(before, more);
    KeptNone(more);
  }

  lemma KeptNext(code: seq<Ins>, ins: Ins, before: seq<Item>, out: seq<Item>)
    requires SameCode(code, Kept(before)) && before <= out && |before| < |out|
    requires Means(ins, out[|before|]) && forall j :: |before| < j < |out| ==> IsPool(out[j])
    ensures SameCode(code + [ins], Kept(out))
  {
    hide SameCode, Means;
    var x := out[|before|];
    MeansNoPool(ins, x);
    PrefixNext(before, out);
    KeptSame(before + [x], out);
    KeptOne(before, x);
    SameNext(code, Kept(before), ins, x);
  }

  lemma PrefixNext(before: seq<Item>, out: seq<Item>)
    requires before <= out && |before| < |out|
    ensures before + [out[|before|]] <= out
  {
  }

  lemma OneMore(done: seq<Ins>, block: seq<Ins>, i: nat)
    requires i < |block|
    ensures done + block[..i + 1] == done + block[..i] + [block[i]]
  {
  }

  lemma SameNext(code: seq<Ins>, kept: seq<Item>, ins: Ins, x: Item)
    requires SameCode(code, kept) && Means(ins, x)
    ensures SameCode(code + [ins], kept + [x])
  {
  }

  lemma MeansNoPool(ins: Ins, x: Item)
    requires Means(ins, x)
    ensures !IsPool(x)
  {
  }

  lemma KeptOne(before: seq<Item>, x: Item)
    requires !IsPool(x)
    ensures Kept(before + [x]) == Kept(before) + [x]
  {
    assert (before + [x])[..|before|] == before;
  }

  lemma FlatNext(blocks: seq<seq<Ins>>, b: nat)
    requires b < |blocks|
    ensures Flat(blocks[..b + 1]) == Flat(blocks[..b]) + blocks[b]
    ensures Flat(blocks[..b]) + blocks[b][..0] == Flat(blocks[..b])
  {
    assert blocks[..b + 1][..b] == blocks[..b];
  }

  /** The first n items hold the code, with every load in them resolved. */
  ghost predicate Complete(out: seq<Item>, n: nat, code: seq<Ins>) {
    n <= |out| && SameCode(code, Kept(out[..n])) && forall i :: 0 <= i < n && out[..n][i].Load? ==> Resolved(out[..n], i)
  }

  /** Some stretch from the start on is the first a blocks, complete. */
  ghost predicate Ends(out: seq<Item>, blocks: seq<seq<Ins>>, a: nat)
    requires a <= |blocks|
  {
    exists n :: Complete(out, n, Flat(blocks[..a]))
  }

  /** Each of the first b blocks ends with all its loads resolved, and those of the blocks before it. */
  ghost predicate BlocksComplete(out: seq<Item>, blocks: seq<seq<Ins>>, b: nat) {
    b <= |blocks| && forall a :: 0 < a <= b ==> Ends(out, blocks, a)
  }

  lemma StillEnds(before: seq<Item>, out: seq<Item>, blocks: seq<seq<Ins>>, a: nat)
    requires a <= |blocks| && Ends(before, blocks, a) && before <= out
    ensures Ends(out, blocks, a)
  {
    hide Complete;
    var code := Flat(blocks[..a]);
    var n :| Complete(before, n, code);
    CompleteStays(before, out, n, code);
  }

  lemma AllComplete(before: seq<Item>, out: seq<Item>, blocks: seq<seq<Ins>>, b: nat)
    requires BlocksComplete(before, blocks, b) && before <= out
    ensures BlocksComplete(out, blocks, b)
  {
    hide Ends;
    forall a | 0 < a <= b ensures Ends(out, blocks, a) {
      StillEnds(before, out, blocks, a);
    }
  }

  lemma OneMoreComplete(out: seq<Item>, blocks: seq<seq<Ins>>, b: nat)
    requires BlocksComplete(out, blocks, b) && b < |blocks| && Complete(out, |out|, Flat(blocks[..b + 1]))
    ensures BlocksComplete(out, blocks, b + 1)
  {
    assert Ends(out, blocks, b + 1);
    hide Ends;
  }

  lemma CompleteNow(out: seq<Item>, code: seq<Ins>)
    requires SameCode(code, Kept(out)) && forall i :: 0 <= i < |out| && out[i].Load? ==> Resolved(out, i)
    ensures Complete(out, |out|, code)
  {
    hide Resolved, SameCode;
    assert out[..|out|] == out;
  }

  lemma CompleteStays(before: seq<Item>, out: seq<Item>, n: nat, code: seq<Ins>)
    requires Complete(before, n, code) && before <= out
    ensures Complete(out, n, code)
  {
    hide Resolved, SameCode, Kept;
    assert out[..n] == before[..n];
  }

  lemma NothingPlaced()
    ensures SameCode(Flat([]), Kept([])) && Items([]) == 0 && Pools([]) == 0
    ensures forall out, blocks :: BlocksComplete(out, blocks, 0)
  {
  }

  ghost predicate SameCode(code: seq<Ins>, kept: seq<Item>) {
    |code| == |kept| && forall i :: 0 <= i < |code| ==> Means(code[i], kept[i])
  }
}
