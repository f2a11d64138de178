/**
  Arrays: nested initialisers flattened to offsets, the stores of a local array, the
  data directives of a global one, and the offset an index expression computes.
 */
module Arrays {
  import opened Wrappers
  import Arm

  /** A nested initialiser; it may give fewer values than the dimension asks for. */
  datatype Init<T> = Val(value: T) | Arr(expectedSize: nat, vals: seq<Init<T>>)

  function Product(dims: seq<nat>): nat {
    if dims == [] then 1 else dims[0] * Product(dims[1..])
  }

  predicate Positive(dims: seq<nat>) {
    forall i :: 0 <= i < |dims| ==> dims[i] > 0
  }

  /** The initialiser has one level of braces per dimension and nowhere too many values. */
  predicate Fits<T>(init: Init<T>, dims: seq<nat>)
    decreases |dims|
  {
    if dims == [] then init.Val?
    else init.Arr? && init.expectedSize == dims[0] && |init.vals| <= dims[0]
         && forall i :: 0 <= i < |init.vals| ==> Fits(init.vals[i], dims[1..])
  }

  predicate ValidIndex(dims: seq<nat>, idx: seq<nat>) {
    |idx| == |dims| && forall i :: 0 <= i < |dims| ==> idx[i] < dims[i]
  }

  /** What the initialiser says of one element: nothing means zero. */
  function Element<T>(init: Init<T>, idx: seq<nat>): Option<T>
    decreases |idx|
  {
    if idx == [] then (if init.Val? then Some(init.value) else None)
    else if init.Arr? && idx[0] < |init.vals| then Element(init.vals[idx[0]], idx[1..])
    else None
  }

  /** Row-major position. */
  function Offset(dims: seq<nat>, idx: seq<nat>): nat
    requires |idx| <= |dims|
  {
    if idx == [] then 0 else idx[0] * Product(dims[1..]) + Offset(dims[1..], idx[1..])
  }

  // ----- arithmetic -----

  lemma ProductPositive(dims: seq<nat>)
    requires Positive(dims)
    ensures Product(dims) > 0
  {
    if dims != [] {
      ProductPositive(dims[1..]);
      MulPositive(dims[0], Product(dims[1..]));
    }
  }

  lemma MulPositive(a: nat, b: nat)
    requires a > 0 && b > 0
    ensures a * b > 0
  {
  }

  lemma Part(a: nat, p: nat)
    requires a > 0
    ensures a * p / a == p
  {
    Arm.DivUnique(a * p, p, a);
  }

  /** A valid index lies in the array. */
  lemma {:induction false} OffsetInRange(dims: seq<nat>, idx: seq<nat>)
    requires ValidIndex(dims, idx)
    ensures Offset(dims, idx) < Product(dims)
    decreases |dims|
  {
    if dims != [] {
      OffsetInRange(dims[1..], idx[1..]);
      var p := Product(dims[1..]);
      Arm.MulMono(idx[0] + 1, dims[0], p);
      Distribute(idx[0], p);
    }
  }

  lemma Distribute(a: nat, p: nat)
    ensures (a + 1) * p == a * p + p
  {
  }

  /** Different indices have different offsets. */
  lemma {:induction false} OffsetInjective(dims: seq<nat>, a: seq<nat>, b: seq<nat>)
    requires ValidIndex(dims, a) && ValidIndex(dims, b) && Offset(dims, a) == Offset(dims, b)
    ensures a == b
    decreases |dims|
  {
    if dims != [] {
      var p := Product(dims[1..]);
      OffsetInRange(dims[1..], a[1..]);
      OffsetInRange(dims[1..], b[1..]);
      SameQuotient(a[0], Offset(dims[1..], a[1..]), b[0], Offset(dims[1..], b[1..]), p);
      OffsetInjective(dims[1..], a[1..], b[1..]);
      assert a == [a[0]] + a[1..] && b == [b[0]] + b[1..];
    }
  }

  lemma SameQuotient(q: nat, r: nat, t: nat, s: nat, p: nat)
    requires r < p && s < p && q * p + r == t * p + s
    ensures q == t && r == s
  {
    if q < t {
      Arm.MulMono(q + 1, t, p);
      Distribute(q, p);
    }
    if t < q {
      Arm.MulMono(t + 1, q, p);
      Distribute(t, p);
    }
  }

  // ----- flattening -----

  type Pairs<T> = seq<(nat, T)>

  predicate Increasing<T>(re: Pairs<T>) {
    forall i, j :: 0 <= i < j < |re| ==> re[i].0 < re[j].0
  }

  /** The pair is the element at idx with its offset behind start. */
  ghost predicate Places<T>(init: Init<T>, dims: seq<nat>, idx: seq<nat>, start: nat, pair: (nat, T)) {
    ValidIndex(dims, idx) && Element(init, idx) == Some(pair.1) && pair.0 == start + Offset(dims, idx)
  }

  predicate Within<T>(re: Pairs<T>, lo: nat, hi: nat) {
    forall i :: 0 <= i < |re| ==> lo <= re[i].0 < hi
  }

  /** Every given element whose first index is below k is listed. */
  ghost predicate Finds<T>(re: Pairs<T>, init: Init<T>, dims: seq<nat>, start: nat, k: nat) {
    forall idx :: ValidIndex(dims, idx) && Element(init, idx).Some? && (dims != [] ==> idx[0] < k) ==> (start + Offset(dims, idx), Element(init, idx).value) in re
  }

  /** Nothing else is listed. */
  ghost predicate OnlyElements<T>(re: Pairs<T>, init: Init<T>, dims: seq<nat>, start: nat) {
    forall i :: 0 <= i < |re| ==> IsElement(init, dims, start, re[i])
  }

  ghost predicate IsElement<T>(init: Init<T>, dims: seq<nat>, start: nat, pair: (nat, T)) {
    exists idx :: Places(init, dims, idx, start, pair)
  }

  /** Exactly the given elements, in strictly increasing order, within the array. */
  ghost predicate Lists<T>(re: Pairs<T>, init: Init<T>, dims: seq<nat>, start: nat) {
    && Increasing(re) && Within(re, start, start + Product(dims))
    && Finds(re, init, dims, start, if dims == [] then 0 else dims[0]) && OnlyElements(re, init, dims, start)
  }

  /** The same for the first k parts of an array. */
  ghost predicate ListsFirst<T>(re: Pairs<T>, init: Init<T>, k: nat, dims: seq<nat>, start: nat)
    requires dims != []
  {
    && Increasing(re) && Within(re, start, start + k * Product(dims[1..]))
    && Finds(re, init, dims, start, k) && OnlyElements(re, init, dims, start)
  }

  lemma ListsScalar<T>(init: Init<T>, start: nat)
    requires init.Val?
    ensures Lists([(start, init.value)], init, [], start)
  {
    assert Places(init, [], [], start, (start, init.value));
    forall idx | ValidIndex([], idx) ensures idx == [] {
    }
  }

  /** An element of part k, seen from the whole. */
  lemma PartPlaces<T>(init: Init<T>, dims: seq<nat>, k: nat, idx: seq<nat>, start: nat, pair: (nat, T))
    requires dims != [] && init.Arr? && k < |init.vals| && k < dims[0]
    requires Places(init.vals[k], dims[1..], idx, start + k * Product(dims[1..]), pair)
    ensures Places(init, dims, [k] + idx, start, pair)
  {
    var whole := [k] + idx;
    assert whole[1..] == idx && whole[0] == k;
    forall i | 0 <= i < |dims| ensures whole[i] < dims[i] {
      if i > 0 {
        assert dims[1..][i - 1] == dims[i] && idx[i - 1] == whole[i];
      }
    }
  }

  lemma OffsetCons(dims: seq<nat>, idx: seq<nat>)
    requires dims != [] && ValidIndex(dims, idx)
    ensures ValidIndex(dims[1..], idx[1..]) && Offset(dims, idx) == idx[0] * Product(dims[1..]) + Offset(dims[1..], idx[1..])
    ensures Product(dims) == dims[0] * Product(dims[1..])
  {
  }

  lemma ElementIn<T>(init: Init<T>, dims: seq<nat>, idx: seq<nat>)
    requires dims != [] && ValidIndex(dims, idx) && Element(init, idx).Some?
    ensures init.Arr? && idx[0] < |init.vals| && Element(init.vals[idx[0]], idx[1..]) == Element(init, idx)
  {
  }

  lemma ListsNext<T>(re: Pairs<T>, part: Pairs<T>, init: Init<T>, k: nat, dims: seq<nat>, start: nat)
    requires dims != [] && init.Arr? && k < |init.vals| <= dims[0] && ListsFirst(re, init, k, dims, start)
    requires Lists(part, init.vals[k], dims[1..], start + k * Product(dims[1..]))
    ensures ListsFirst(re + part, init, k + 1, dims, start)
  {
    hide Increasing, Within, Finds, OnlyElements;
    var p := Product(dims[1..]);
    Distribute(k, p);
    WithinJoin(re, part, start, start + k * p, start + k * p + p);
    IncreasingJoin(re, part, start, start + k * p, start + k * p + p);
    FindsJoin(re, part, init, k, dims, start, if dims[1..] == [] then 0 else dims[1..][0]);
    OnlyJoin(re, part, init, k, dims, start);
  }

  lemma FindsJoin<T>(re: Pairs<T>, part: Pairs<T>, init: Init<T>, k: nat, dims: seq<nat>, start: nat, m: nat)
    requires dims != [] && init.Arr? && k < |init.vals| && Finds(re, init, dims, start, k)
    requires Finds(part, init.vals[k], dims[1..], start + k * Product(dims[1..]), m) && (dims[1..] != [] ==> m == dims[1..][0])
    ensures Finds(re + part, init, dims, start, k + 1)
  {
    forall idx | ValidIndex(dims, idx) && Element(init, idx).Some? && idx[0] < k + 1 ensures (start + Offset(dims, idx), Element(init, idx).value) in re + part {
      if idx[0] == k {
        OffsetCons(dims, idx);
        ElementIn(init, dims, idx);
        assert (start + k * Product(dims[1..]) + Offset(dims[1..], idx[1..]), Element(init.vals[k], idx[1..]).value) in part;
      }
    }
  }

  lemma OnlyJoin<T>(re: Pairs<T>, part: Pairs<T>, init: Init<T>, k: nat, dims: seq<nat>, start: nat)
    requires dims != [] && init.Arr? && k < |init.vals| <= dims[0] && OnlyElements(re, init, dims, start)
    requires OnlyElements(part, init.vals[k], dims[1..], start + k * Product(dims[1..]))
    ensures OnlyElements(re + part, init, dims, start)
  {
    forall i | 0 <= i < |part| ensures IsElement(init, dims, start, part[i]) {
      assert IsElement(init.vals[k], dims[1..], start + k * Product(dims[1..]), part[i]);
      var idx :| Places(init.vals[k], dims[1..], idx, start + k * Product(dims[1..]), part[i]);
      PartPlaces(init, dims, k, idx, start, part[i]);
    }
    hide IsElement;
  }

  lemma WithinJoin<T>(re: Pairs<T>, part: Pairs<T>, lo: nat, mid: nat, hi: nat)
    requires Within(re, lo, mid) && Within(part, mid, hi) && lo <= mid <= hi
    ensures Within(re + part, lo, hi)
  {
  }

  lemma IncreasingJoin<T>(re: Pairs<T>, part: Pairs<T>, lo: nat, mid: nat, hi: nat)
    requires Increasing(re) && Increasing(part) && Within(re, lo, mid) && Within(part, mid, hi)
    ensures Increasing(re + part)
  {
  }

  lemma ListsAll<T>(re: Pairs<T>, init: Init<T>, dims: seq<nat>, start: nat)
    requires dims != [] && init.Arr? && |init.vals| <= dims[0] && ListsFirst(re, init, |init.vals|, dims, start)
    ensures Lists(re, init, dims, start)
  {
    hide OnlyElements, Increasing;
    ProductCons(dims);
    Arm.MulMono(|init.vals|, dims[0], Product(dims[1..]));
    AllFound(re, init, dims, start);
  }

  lemma AllFound<T>(re: Pairs<T>, init: Init<T>, dims: seq<nat>, start: nat)
    requires dims != [] && init.Arr? && Finds(re, init, dims, start, |init.vals|)
    ensures Finds(re, init, dims, start, dims[0])
  {
    forall idx | ValidIndex(dims, idx) && Element(init, idx).Some? ensures idx[0] < |init.vals| {
      ElementIn(init, dims, idx);
    }
  }

  lemma ProductCons(dims: seq<nat>)
    requires dims != []
    ensures Product(dims) == dims[0] * Product(dims[1..])
  {
  }

  method ToOneDimensionArray<T>(init: Init<T>, from: nat, size: nat, ghost dims: seq<nat>) returns (re: Pairs<T>)
    requires Fits(init, dims) && Positive(dims) && size == Product(dims)
    ensures Lists(re, init, dims, from)
    decreases init
  {
    hide Lists, ListsFirst;
    if init.Val? {
      ListsScalar(init, from);
      return [(from, init.value)];
    }
    var start := from;
    re := [];
    NothingListed(init, dims, from);
    for k := 0 to |init.vals|
      invariant start == from + k * Product(dims[1..]) && ListsFirst(re, init, k, dims, from)
    {
      Part(init.expectedSize, Product(dims[1..]));
      Distribute(k, Product(dims[1..]));
      var tempVector := ToOneDimensionArray(init.vals[k], start, size / init.expectedSize, dims[1..]);
      ListsNext(re, tempVector, init, k, dims, from);
      re := re + tempVector;
      start := start + size / init.expectedSize;
    }
    ListsAll(re, init, dims, from);
  }

  lemma NothingListed<T>(init: Init<T>, dims: seq<nat>, start: nat)
    requires dims != []
    ensures ListsFirst<T>([], init, 0, dims, start)
  {
  }

  // ----- reading an array back -----

  /** The element at a flat offset: the listed one, or zero. */
  ghost function At<T>(re: Pairs<T>, zero: T, o: nat): T {
    if exists i :: 0 <= i < |re| && re[i].0 == o then
      var i :| 0 <= i < |re| && re[i].0 == o; re[i].1
    else zero
  }

  /** Flattening loses nothing: at the offset of a full index stands the nested element, or zero. */
  lemma ListedElement<T>(re: Pairs<T>, init: Init<T>, dims: seq<nat>, idx: seq<nat>, zero: T)
    requires Lists(re, init, dims, 0) && ValidIndex(dims, idx)
    ensures At(re, zero, Offset(dims, idx)) == match Element(init, idx) case Some(v) => v case None => zero
  {
    var o := Offset(dims, idx);
    if Element(init, idx).Some? {
      assert (0 + o, Element(init, idx).value) in re;
    }
    if i :| 0 <= i < |re| && re[i].0 == o {
      assert IsElement(init, dims, 0, re[i]);
      var jdx :| Places(init, dims, jdx, 0, re[i]);
      OffsetInjective(dims, idx, jdx);
    }
  }

  // ----- local arrays: one store per index -----

  datatype Store<T> = Store(offset: nat, value: T)

  /** Stores 0, 1, 2, ... with the listed values and zeros between. */
  ghost predicate Filled<T>(stores: seq<Store<T>>, re: Pairs<T>, zero: T) {
    forall k :: 0 <= k < |stores| ==> stores[k] == Store(k, At(re, zero, k))
  }

  lemma AtListed<T>(re: Pairs<T>, zero: T, i: nat)
    requires Increasing(re) && i < |re|
    ensures At(re, zero, re[i].0) == re[i].1
  {
  }

  lemma AtGap<T>(re: Pairs<T>, zero: T, i: nat, o: nat)
    requires Increasing(re) && i <= |re| && (i < |re| ==> o < re[i].0) && (i > 0 ==> re[i - 1].0 < o)
    ensures At(re, zero, o) == zero
  {
    forall j | 0 <= j < |re| ensures re[j].0 != o {
      if j < i - 1 {
        assert re[j].0 < re[i - 1].0;
      } else if j > i {
        assert re[i].0 < re[j].0;
      }
    }
  }

  /** A local array with an initialiser: every element is stored exactly once, in order. */
  method VarDefToIr<T>(init: Init<T>, dimensions: seq<nat>, zero: T) returns (stores: seq<Store<T>>)
    requires Fits(init, dimensions) && Positive(dimensions)
    ensures |stores| == Product(dimensions)
    ensures forall idx :: ValidIndex(dimensions, idx) ==> StoredElement(stores, init, dimensions, idx, zero)
    ensures forall k :: 0 <= k < |stores| ==> stores[k].offset == k
  {
    hide Lists, Product, At, Fits, StoredElement;
    var units := Units(dimensions);
    var initValues := ToOneDimensionArray(init, 0, units, dimensions);
    ListsParts(initValues, init, dimensions);
    stores := [];
    var curIndex := 0;
    for i := 0 to |initValues|
      invariant curIndex == |stores| && Filled(stores, initValues, zero)
      invariant if i == 0 then curIndex == 0 else curIndex == initValues[i - 1].0 + 1
    {
      assert i > 0 ==> initValues[i - 1].0 < initValues[i].0;
      while curIndex < initValues[i].0
        invariant curIndex == |stores| <= initValues[i].0 && Filled(stores, initValues, zero)
        invariant i > 0 ==> initValues[i - 1].0 < curIndex
      {
        AtGap(initValues, zero, i, curIndex);
        stores := stores + [Store(curIndex, zero)];
        curIndex := curIndex + 1;
      }
      AtListed(initValues, zero, i);
      curIndex := curIndex + 1;
      stores := stores + [Store(initValues[i].0, initValues[i].1)];
    }
    while curIndex < units
      invariant curIndex == |stores| <= units && Filled(stores, initValues, zero)
      invariant |initValues| > 0 ==> initValues[|initValues| - 1].0 < curIndex
    {
      AtGap(initValues, zero, |initValues|, curIndex);
      stores := stores + [Store(curIndex, zero)];
      curIndex := curIndex + 1;
    }
    StoresRight(stores, initValues, init, dimensions, zero);
  }

  lemma ListsParts<T>(re: Pairs<T>, init: Init<T>, dims: seq<nat>)
    requires Lists(re, init, dims, 0)
    ensures Increasing(re) && forall i :: 0 <= i < |re| ==> re[i].0 < Product(dims)
  {
  }

  lemma StoresRight<T>(stores: seq<Store<T>>, re: Pairs<T>, init: Init<T>, dims: seq<nat>, zero: T)
    requires Lists(re, init, dims, 0) && Filled(stores, re, zero) && |stores| == Product(dims)
    ensures forall idx :: ValidIndex(dims, idx) ==> StoredElement(stores, init, dims, idx, zero)
  {
    hide Lists, At;
    forall idx | ValidIndex(dims, idx) ensures StoredElement(stores, init, dims, idx, zero) {
      ListedElement(re, init, dims, idx, zero);
      OffsetInRange(dims, idx);
    }
  }

  /** The store at the offset of idx holds the nested element, or zero. */
  ghost predicate StoredElement<T>(stores: seq<Store<T>>, init: Init<T>, dims: seq<nat>, idx: seq<nat>, zero: T)
    requires ValidIndex(dims, idx)
  {
    Offset(dims, idx) < |stores|
    && stores[Offset(dims, idx)] == Store(Offset(dims, idx), match Element(init, idx) case Some(v) => v case None => zero)
  }

  method Units(dims: seq<nat>) returns (units: nat)
    ensures units == Product(dims)
  {
    units := 1;
    for i := 0 to |dims|
      invariant units * Product(dims[i..]) == Product(dims)
    {
      assert dims[i..][1..] == dims[i + 1..];
      Associate(units, dims[i], Product(dims[i + 1..]));
      units := units * dims[i];
    }
    assert dims[|dims|..] == [];
  }

  lemma Associate(a: nat, b: nat, c: nat)
    ensures a * (b * c) == a * b * c
  {
  }

  // ----- index expressions -----

  lemma {:induction false} OffsetSnoc(dims: seq<nat>, idx: seq<nat>, x: nat)
    requires |idx| < |dims|
    ensures Offset(dims, idx + [x]) == Offset(dims, idx) + x * Product(dims[|idx| + 1..])
    decreases |idx|
  {
    if idx == [] {
      assert [x][1..] == [];
    } else {
      assert (idx + [x])[1..] == idx[1..] + [x];
      OffsetSnoc(dims[1..], idx[1..], x);
      assert dims[1..][|idx[1..]| + 1..] == dims[|idx| + 1..];
    }
  }

  /**
    The offset an index expression computes: of the element for a full index, in
    bytes of the sub-array for a partial one.  The first dimension is not looked at.
   */
  method PointerToIr(dims: seq<nat>, exps: seq<nat>) returns (offset: nat)
    requires 0 < |exps| <= |dims| && Positive(dims[1..])
    ensures |exps| == |dims| ==> offset == Offset(dims, exps)
    ensures |exps| < |dims| ==> offset == Offset(dims, exps) * 4
  {
    hide Product, Offset;
    var size := Units(dims[1..]);
    offset := 0;
    OffsetEmpty(dims);
    for i := 0 to |exps|
      invariant i < |dims| ==> size == Product(dims[i + 1..])
      invariant offset == Offset(dims, exps[..i])
    {
      OffsetSnoc(dims, exps[..i], exps[i]);
      assert exps[..i + 1] == exps[..i] + [exps[i]];
      var mul := exps[i] * size;
      offset := if i > 0 then offset + mul else mul;
      if i + 1 < |dims| {
        assert dims[i + 1] == dims[1..][i];
        ProductCons(dims[i + 1..]);
        assert dims[i + 1..][1..] == dims[i + 2..];
        Part(dims[i + 1], Product(dims[i + 2..]));
        size := size / dims[i + 1];
      }
    }
    assert exps[..|exps|] == exps;
    if |exps| < |dims| {
      offset := offset * 4;
    }
  }

  lemma OffsetEmpty(dims: seq<nat>)
    ensures Offset(dims, []) == 0
  {
  }

  // ----- global arrays: data directives -----

  /** What GlobalValue keeps: later insertions at a key change nothing, and flattening repeats none. */
  method GlobalValue(init: Option<Init<int>>, dimensions: seq<nat>) returns (size: nat, initValues: map<nat, int>)
    requires Positive(dimensions) && (init.Some? ==> Fits(init.value, dimensions))
    ensures size == Product(dimensions) && forall o :: o in initValues ==> o < size
    ensures forall idx :: ValidIndex(dimensions, idx) ==> Kept(initValues, init, dimensions, idx)
  {
    hide Lists, Fits, Product, Kept;
    size := Units(dimensions);
    initValues := map[];
    if init.Some? {
      var vec := ToOneDimensionArray(init.value, 0, size, dimensions);
      ListsParts(vec, init.value, dimensions);
      for i := 0 to |vec|
        invariant forall o :: o in initValues <==> exists j :: 0 <= j < i && vec[j].0 == o
        invariant forall j :: 0 <= j < i ==> vec[j].0 in initValues && initValues[vec[j].0] == vec[j].1
      {
        if vec[i].0 !in initValues {
          initValues := initValues[vec[i].0 := vec[i].1];
        }
      }
      forall idx | ValidIndex(dimensions, idx) ensures Kept(initValues, init, dimensions, idx) {
        KeptFrom(initValues, vec, init.value, dimensions, idx);
      }
    } else {
      forall idx | ValidIndex(dimensions, idx) ensures Kept(initValues, init, dimensions, idx) {
        KeptNone(dimensions, idx);
      }
    }
  }

  function WordAt(values: map<nat, int>, o: nat): int {
    if o in values then values[o] else 0
  }

  /** The element at idx, zero where there is no initialiser or the initialiser says nothing. */
  function ElementOrZero(init: Option<Init<int>>, idx: seq<nat>): int {
    match init
    case None => 0
    case Some(i) => match Element(i, idx) case Some(v) => v case None => 0
  }

  ghost predicate Kept(values: map<nat, int>, init: Option<Init<int>>, dims: seq<nat>, idx: seq<nat>)
    requires ValidIndex(dims, idx)
  {
    WordAt(values, Offset(dims, idx)) == ElementOrZero(init, idx)
  }

  lemma KeptFrom(values: map<nat, int>, vec: Pairs<int>, init: Init<int>, dims: seq<nat>, idx: seq<nat>)
    requires Lists(vec, init, dims, 0) && ValidIndex(dims, idx)
    requires forall o :: o in values <==> exists j :: 0 <= j < |vec| && vec[j].0 == o
    requires forall j :: 0 <= j < |vec| ==> vec[j].0 in values && values[vec[j].0] == vec[j].1
    ensures Kept(values, Some(init), dims, idx)
  {
    ListedElement(vec, init, dims, idx, 0);
    hide Lists, Offset, Element;
    var o := Offset(dims, idx);
    if o in values {
      var j :| 0 <= j < |vec| && vec[j].0 == o;
    }
  }

  lemma KeptNone(dims: seq<nat>, idx: seq<nat>)
    requires ValidIndex(dims, idx)
    ensures Kept(map[], None, dims, idx)
  {
  }

  datatype Directive = Word(value: int) | Zero(bytes: nat)

  function Zeros(n: nat): (z: seq<int>)
    ensures |z| == n && forall i :: 0 <= i < n ==> z[i] == 0
  {
    seq(n, i => 0)
  }

  /** The words that directives lay down. */
  function Expand(ds: seq<Directive>): seq<int> {
    if ds == [] then []
    else
      var d := ds[|ds| - 1];
      Expand(ds[..|ds| - 1]) + match d case Word(v) => [v] case Zero(b) => Zeros(b / 4)
  }

  lemma ExpandSnoc(ds: seq<Directive>, d: Directive)
    ensures Expand(ds + [d]) == Expand(ds) + match d case Word(v) => [v] case Zero(b) => Zeros(b / 4)
  {
    assert (ds + [d])[..|ds|] == ds;
  }

  /** Keys in ascending order, as an ordered map delivers them. */
  predicate Ascending(keys: seq<nat>) {
    forall i, j :: 0 <= i < j < |keys| ==> keys[i] < keys[j]
  }

  /** Runs of zeros are whole words, and never empty. */
  predicate WholeWords(ds: seq<Directive>) {
    forall i :: 0 <= i < |ds| && ds[i].Zero? ==> ds[i].bytes > 0 && ds[i].bytes % 4 == 0
  }

  /** Bytes laid down. */
  function Bytes(ds: seq<Directive>): nat {
    if ds == [] then 0
    else Bytes(ds[..|ds| - 1]) + match ds[|ds| - 1] case Word(_) => 4 case Zero(b) => b
  }

  /** Whole words leave nothing out of what Expand counts: it is what stands in memory. */
  lemma {:induction false} BytesAreWords(ds: seq<Directive>)
    requires WholeWords(ds)
    ensures Bytes(ds) == 4 * |Expand(ds)|
  {
    if ds != [] {
      BytesAreWords(ds[..|ds| - 1]);
      assert 0 <= |ds| - 1 < |ds|;
    }
  }

  ghost predicate FirstWords(ds: seq<Directive>, values: map<nat, int>, n: nat) {
    WholeWords(ds) && |Expand(ds)| == n && forall o :: 0 <= o < n ==> Expand(ds)[o] == WordAt(values, o)
  }

  lemma WordsNext(ds: seq<Directive>, values: map<nat, int>, n: nat, d: Directive, m: nat)
    requires FirstWords(ds, values, n) && n <= m
    requires match d case Word(v) => m == n + 1 && v == WordAt(values, n) case Zero(b) => b > 0 && b == (m - n) * 4 && forall o :: n <= o < m ==> o !in values
    ensures FirstWords(ds + [d], values, m)
  {
    ExpandSnoc(ds, d);
    if d.Zero? {
      assert d.bytes / 4 == m - n;
    }
  }

  /** Gaps become runs of zeros: exactly size words come out, each the value at its index. */
  method EmitData(values: map<nat, int>, keys: seq<nat>, size: nat) returns (ds: seq<Directive>)
    requires Ascending(keys) && (forall o :: o in keys <==> o in values) && forall o :: o in values ==> o < size
    ensures |Expand(ds)| == size && forall o :: 0 <= o < size ==> Expand(ds)[o] == WordAt(values, o)
    ensures WholeWords(ds) && Bytes(ds) == 4 * size
  {
    hide Expand;
    ds := [];
    var start, space := 0, 0;
    ghost var n: nat := 0;
    NoWords(values);
    for i := 0 to |keys|
      invariant start == n * 4 && FirstWords(ds, values, n)
      invariant n == if i == 0 then 0 else keys[i - 1] + 1
    {
      var key := keys[i];
      assert key in keys;
      GapFree(keys, values, i, n);
      space := key * 4 - start;
      if space != 0 {
        WordsNext(ds, values, n, Zero(space), key);
        ds := ds + [Zero(space)];
      }
      WordsNext(ds, values, key, Word(values[key]), key + 1);
      ds := ds + [Word(values[key])];
      start, n := key * 4 + 4, key + 1;
    }
    assert |keys| > 0 ==> keys[|keys| - 1] in keys;
    if start < size * 4 {
      GapFree(keys, values, |keys|, n);
      WordsNext(ds, values, n, Zero(size * 4 - start), size);
      ds := ds + [Zero(size * 4 - start)];
    }
    BytesAreWords(ds);
  }

  lemma NoWords(values: map<nat, int>)
    ensures FirstWords([], values, 0)
  {
  }

  /** Between one key and the next there is none. */
  lemma GapFree(keys: seq<nat>, values: map<nat, int>, i: nat, n: nat)
    requires Ascending(keys) && (forall o :: o in keys <==> o in values) && i <= |keys|
    requires n == if i == 0 then 0 else keys[i - 1] + 1
    ensures (i < |keys| ==> n <= keys[i]) && forall o :: n <= o && (i < |keys| ==> o < keys[i]) ==> o !in values
  {
    assert forall j :: 0 <= j < i ==> keys[j] <= keys[i - 1];
    assert forall j :: i <= j < |keys| ==> keys[i] <= keys[j];
    assert forall j :: 0 <= j < |keys| ==> keys[j] < n || (i < |keys| && keys[i] <= keys[j]);
  }

  /** The round trip of a global array: the word emitted at the offset an index expression computes is the nested element, or zero. */
  lemma GlobalRoundTrip(ds: seq<Directive>, values: map<nat, int>, init: Option<Init<int>>, dims: seq<nat>, idx: seq<nat>)
    requires |Expand(ds)| == Product(dims) && forall o :: 0 <= o < Product(dims) ==> Expand(ds)[o] == WordAt(values, o)
    requires ValidIndex(dims, idx) && Kept(values, init, dims, idx)
    ensures Offset(dims, idx) < |Expand(ds)| && Expand(ds)[Offset(dims, idx)] == ElementOrZero(init, idx)
  {
    hide Expand, Element;
    OffsetInRange(dims, idx);
  }
}
