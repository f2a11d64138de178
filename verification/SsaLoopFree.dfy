/**
  Where looking back for a variable meets no cycle, nothing gets lost: every phi removed
  on the way has no users.
 */
module SsaLoopFree {
  import opened Cfg
  import opened Ssa
  import opened SsaConstruction
  import opened SsaCascade
  import opened SsaCollapse
  import opened SsaReading

  type Rank = map<Block, int>

  /** In the region, a sealed block without a value for v has predecessors of lower rank, in the region. */
  ghost predicate LoopFree(s: Builder, v: Variable, rank: Rank, region: set<Block>) {
    forall b :: b in region ==>
      && b in rank && b in s.preds
      && (b in s.sealed && Place(b, v) !in s.defs ==> forall q :: q in s.preds[b] ==> q in region && q in rank && rank[q] < rank[b])
  }

  /** Nothing that counts refers to a removed phi, or to one to come. */
  ghost predicate Clean(s: Builder) {
    && (forall p :: p in s.defs ==> Sane(s, s.defs[p]))
    && (forall y, q :: y in s.phis && s.phis[y].live && q in s.phis[y].operands ==> Sane(s, s.phis[y].operands[q]))
    && forall y :: y in s.phis ==> y.serial < s.next
  }

  /** The phi z, of a place in a block of rank at least low, is held at that place only. */
  ghost predicate Pending(s: Builder, z: Id, pz: Place, rank: Rank, low: int) {
    && z in s.phis && s.phis[z].live && pz.block in rank && rank[pz.block] >= low
    && (forall r :: r in s.defs && r != pz ==> s.defs[r] != Result(z))
    && forall y, q :: y in s.phis && s.phis[y].live && q in s.phis[y].operands ==> s.phis[y].operands[q] != Result(z)
  }

  /** What was pending in s is pending in t. */
  ghost predicate StillPending(s: Builder, t: Builder, rank: Rank, low: int) {
    forall z, pz :: Pending(s, z, pz, rank, low) ==> Pending(t, z, pz, rank, low)
  }

  /** What was pending in s is pending in t, and is not the value. */
  ghost predicate Respects(s: Builder, t: Builder, value: Value, rank: Rank, low: int) {
    StillPending(s, t, rank, low) && forall z, pz :: Pending(s, z, pz, rank, low) ==> value != Result(z)
  }

  ghost predicate ReadsWell(s: Builder, r: Reading, rank: Rank, low: int) {
    r.right && Clean(r.state) && Sane(r.state, r.value) && Respects(s, r.state, r.value, rank, low)
  }

  /** What the builder keeps while its flag stands is enough. */
  lemma ReadyIsClean(s: Builder, labels: map<Place, Value>, forward: map<Id, Value>)
    requires Ready(s, labels, forward)
    ensures Clean(s)
  {
    hide PhisAgree, DefsAgree, UsesAgree, Shaped, Forwards;
  }

  lemma LoopFreeStays(s: Builder, t: Builder, v: Variable, rank: Rank, region: set<Block>)
    requires LoopFree(s, v, rank, region) && Grows(s, t)
    ensures LoopFree(t, v, rank, region)
  {
    assert forall p :: p in s.defs ==> p in t.defs.Keys;
  }

  lemma KnownWell(s: Builder, b: Block, v: Variable, rank: Rank)
    requires Clean(s) && Place(b, v) in s.defs && b in rank
    ensures ReadsWell(s, Reading(s, s.defs[Place(b, v)], true), rank, rank[b] + 1)
  {
  }

  lemma UnsealedWell(s: Builder, p: Place, rank: Rank, low: int)
    requires Clean(s) && p.block in rank && rank[p.block] < low && p !in s.defs
    ensures var x := Id(s.next);
            ReadsWell(s, Reading(WithPhi(s, p).(incomplete := s.incomplete[p := x]), Result(x), true), rank, low)
  {
  }

  /** A value for the place, which is not that of anything pending. */
  lemma DefWell(s: Builder, r: Reading, p: Place, rank: Rank, low: int)
    requires ReadsWell(s, r, rank, low) && p.block in rank && rank[p.block] < low
    ensures ReadsWell(s, Reading(WithDef(r.state, p, r.value), r.value, r.right), rank, low)
  {
  }

  lemma HigherRespects(s: Builder, r: Reading, rank: Rank, low: int, high: int)
    requires ReadsWell(s, r, rank, low) && low <= high
    ensures ReadsWell(s, r, rank, high)
  {
    forall z, pz | Pending(s, z, pz, rank, high) ensures Pending(r.state, z, pz, rank, high) && r.value != Result(z) {
      assert Pending(s, z, pz, rank, low);
    }
  }

  /** The phi just placed is pending, like those before it. */
  lemma NewIsPending(s: Builder, p: Place, rank: Rank, low: int)
    requires Clean(s) && p !in s.defs && p.block in rank && rank[p.block] >= low
    ensures Clean(WithPhi(s, p)) && Pending(WithPhi(s, p), Id(s.next), p, rank, low)
    ensures StillPending(s, WithPhi(s, p), rank, rank[p.block] + 1)
  {
  }

  lemma OperandWell(s: Builder, r: Reading, x: Id, q: Block, rank: Rank, low: int)
    requires ReadsWell(s, r, rank, low) && x in r.state.phis
    ensures Clean(WithOperand(r.state, x, q, r.value)) && Respects(s, WithOperand(r.state, x, q, r.value), r.value, rank, low)
  {
    var t := WithOperand(r.state, x, q, r.value);
    forall z, pz | Pending(s, z, pz, rank, low) ensures Pending(t, z, pz, rank, low) {
      assert Pending(r.state, z, pz, rank, low);
    }
  }

  /** Reading in a loop-free region is right, and disturbs nothing pending further up. */
  lemma {:induction false} ReadIsRight(s: Builder, b: Block, v: Variable, dist: map<Block, nat>, bound: nat, o: Orders, rank: Rank, region: set<Block>)
    requires b in s.preds && Searchable(s, dist, bound, o) && b in region && LoopFree(s, v, rank, region) && Clean(s)
    ensures b in rank && ReadsWell(s, ReadVariable(s, b, v, dist, bound, o), rank, rank[b] + 1)
    decreases Missing(s, v), dist[b], 2, 0
  {
    hide ReadVariable, ReadRecursively, AddOperands, Clean, ReadsWell, Pending, Respects, WithPhi, WithDef;
    var p := Place(b, v);
    ReadKnown(s, b, v, dist, bound, o);
    if p in s.defs {
      KnownWell(s, b, v, rank);
    } else if b !in s.sealed {
      ReadUnsealed(s, b, v, dist, bound, o);
      UnsealedWell(s, p, rank, rank[b] + 1);
    } else if |s.preds[b]| == 1 {
      ReadSingle(s, b, v, dist, bound, o);
      var q := o.preds(s, b)[0];
      ReadIsRight(s, q, v, dist, bound, o, rank, region);
      var r := ReadVariable(s, q, v, dist, bound, o);
      HigherRespects(s, r, rank, rank[q] + 1, rank[b] + 1);
      DefWell(s, r, p, rank, rank[b] + 1);
    } else {
      MergingIsRight(s, b, v, dist, bound, o, rank, region);
    }
  }

  lemma {:induction false} MergingIsRight(s: Builder, b: Block, v: Variable, dist: map<Block, nat>, bound: nat, o: Orders, rank: Rank, region: set<Block>)
    requires b in s.preds && Searchable(s, dist, bound, o) && b in region && LoopFree(s, v, rank, region) && Clean(s)
    requires Place(b, v) !in s.defs && b in s.sealed && |s.preds[b]| != 1
    ensures b in rank && ReadsWell(s, ReadRecursively(s, b, v, dist, bound, o), rank, rank[b] + 1)
    decreases Missing(s, v), dist[b], 1, 0
  {
    hide *;
    var p := Place(b, v);
    var t, x, blocks := WithPhi(s, p), Id(s.next), o.preds(WithPhi(s, p), b);
    PhiPlaced(s, b, v, dist, bound, o, rank, region);
    GatherIsRight(t, x, p, blocks, 0, dist, bound, o, rank, region, b);
    MergeWell(s, b, v, dist, bound, o, rank);
  }

  /** The operands can be gathered once the phi is placed. */
  lemma PhiPlaced(s: Builder, b: Block, v: Variable, dist: map<Block, nat>, bound: nat, o: Orders, rank: Rank, region: set<Block>)
    requires b in s.preds && Searchable(s, dist, bound, o) && b in region && LoopFree(s, v, rank, region) && Clean(s)
    requires Place(b, v) !in s.defs && b in s.sealed && |s.preds[b]| != 1
    ensures var p := Place(b, v); var t := WithPhi(s, p); var blocks := o.preds(t, b);
            && b in rank && b in dist && p.block == b && p.variable == v
            && MayGatherFrom(t, Id(s.next), p, blocks, dist, bound, o)
            && (forall q :: q in blocks ==> q in region && q in rank && rank[q] < rank[b])
            && LoopFree(t, v, rank, region) && Clean(t) && Pending(t, Id(s.next), p, rank, rank[b])
    ensures Missing(WithPhi(s, Place(b, v)), v) < Missing(s, v)
  {
    hide Clean, Pending, LoopFree, WithPhi, Missing, MayGatherFrom;
    var p := Place(b, v);
    var t := WithPhi(s, p);
    ReadMerging(s, b, v, dist, bound, o);
    PhiGrows(s, p);
    LoopFreeStays(s, t, v, rank, region);
    PredsAreLower(s, t, b, v, rank, region, o);
    NewIsPending(s, p, rank, rank[b]);
    FirstGather(t, Id(s.next), p, dist, bound, o);
  }

  /** What removing the phi makes of operands gathered rightly. */
  lemma MergeWell(s: Builder, b: Block, v: Variable, dist: map<Block, nat>, bound: nat, o: Orders, rank: Rank)
    requires b in s.preds && Searchable(s, dist, bound, o) && Clean(s) && b in rank
    requires Place(b, v) !in s.defs && b in s.sealed && |s.preds[b]| != 1
    requires MayGatherFrom(WithPhi(s, Place(b, v)), Id(s.next), Place(b, v), o.preds(WithPhi(s, Place(b, v)), b), dist, bound, o)
    requires var p := Place(b, v); var t := WithPhi(s, p);
             var g := GatherFrom(t, Id(s.next), p, o.preds(t, b), 0, dist, bound, o);
             g.right && Clean(g.state) && Pending(g.state, Id(s.next), p, rank, rank[b]) && StillPending(t, g.state, rank, rank[b])
    ensures ReadsWell(s, ReadRecursively(s, b, v, dist, bound, o), rank, rank[b] + 1)
  {
    hide ReadRecursively, AddOperands, GatherFrom, MayGatherFrom, Clean, ReadsWell, Pending, StillPending, WithPhi, WithDef, Cascade, Safe;
    var p := Place(b, v);
    var t, x := WithPhi(s, p), Id(s.next);
    ReadMerging(s, b, v, dist, bound, o);
    FirstGather(t, x, p, dist, bound, o);
    NewIsPending(s, p, rank, rank[b]);
    RemovalIsRight(s, t, GatherFrom(t, x, p, o.preds(t, b), 0, dist, bound, o).state, x, p, o.users, rank);
  }

  lemma PredsAreLower(s: Builder, t: Builder, b: Block, v: Variable, rank: Rank, region: set<Block>, o: Orders)
    requires LoopFree(s, v, rank, region) && b in region && b in s.sealed && Place(b, v) !in s.defs && t.preds == s.preds && OrdersOk(o)
    ensures b in rank && b in t.preds && forall q :: q in o.preds(t, b) ==> q in region && q in rank && rank[q] < rank[b]
  {
    OrderOfPreds(t, b, o);
  }

  lemma {:induction false} GatherIsRight(s: Builder, x: Id, p: Place, blocks: seq<Block>, i: nat, dist: map<Block, nat>, bound: nat, o: Orders,
                                         rank: Rank, region: set<Block>, b: Block)
    requires MayGatherFrom(s, x, p, blocks, dist, bound, o) && i <= |blocks| && p.block == b && b in rank
    requires forall q :: q in blocks ==> q in region && q in rank && rank[q] < rank[b]
    requires LoopFree(s, p.variable, rank, region) && Clean(s) && Pending(s, x, p, rank, rank[b])
    ensures var g := GatherFrom(s, x, p, blocks, i, dist, bound, o);
            && g.right && Clean(g.state) && Pending(g.state, x, p, rank, rank[b])
            && StillPending(s, g.state, rank, rank[b])
    decreases Missing(s, p.variable), bound, 0, |blocks| - i
  {
    hide ReadVariable, GatherFrom, Clean, ReadsWell, Pending, LoopFree, WithOperand, Missing;
    if i == |blocks| {
      LastGather(s, x, p, blocks, dist, bound, o);
    } else {
      var q := blocks[i];
      NextGather(s, x, p, blocks, i, dist, bound, o);
      BeforeOperand(s, s, p.variable, dist, bound, b, q);
      ReadIsRight(s, q, p.variable, dist, bound, o, rank, region);
      var r := ReadVariable(s, q, p.variable, dist, bound, o);
      HigherRespects(s, r, rank, rank[q] + 1, rank[b]);
      OperandWell(s, r, x, q, rank, rank[b]);
      var t := WithOperand(r.state, x, q, r.value);
      GrowsItself(s, p.variable);
      AfterOperand(s, s, r.state, x, q, r.value);
      LoopFreeStays(s, t, p.variable, rank, region);
      MissingLess(s, t, p.variable);
      GatherIsRight(t, x, p, blocks, i + 1, dist, bound, o, rank, region, b);
    }
  }

  /** Removing a pending phi: it has no users, so only it goes, and safely. */
  lemma RemovalIsRight(s: Builder, t: Builder, g: Builder, x: Id, p: Place, order: UserOrder, rank: Rank)
    requires VisitsUsers(order) && p.block in rank && Clean(s) && x == Id(s.next) && t == WithPhi(s, p)
    requires Clean(g) && Pending(g, x, p, rank, rank[p.block])
    requires StillPending(t, g, rank, rank[p.block]) && StillPending(s, t, rank, rank[p.block] + 1)
    ensures x in g.phis
    ensures var c := Cascade(g, x, order);
            ReadsWell(s, Reading(WithDef(c.state, p, c.value), c.value, Safe(g, x)), rank, rank[p.block] + 1)
  {
    hide Cascade, Safe, Clean, Pending, StillPending, Merges, Removed, WithPhi, WithDef, Respects;
    NoUsers(g, x, p, rank);
    CleanIsTidy(g);
    UnusedIsSafe(g, x);
    if Mergeable(g.phis[x], x) {
      var a := Merged(g.phis[x], x);
      NoVisit(g, x, a, order);
      MergedAway(g, x, p, a, rank);
      StillRespects(s, t, g, x, p, a, rank, rank[p.block] + 1);
    } else {
      NothingToRemove(g, x, order);
      KeptRespects(s, t, g, x, p, rank, rank[p.block] + 1);
    }
  }

  lemma CleanIsTidy(s: Builder)
    requires Clean(s)
    ensures Tidy(s)
  {
  }

  lemma NoUsers(g: Builder, x: Id, p: Place, rank: Rank)
    requires p.block in rank && Pending(g, x, p, rank, rank[p.block])
    ensures x in g.phis && g.phis[x].live && PhiUsers(g, x) == {}
  {
  }

  /** A phi without users is held where it was placed, so removing it changes only that place. */
  lemma OnlyItsPlace(g: Builder, x: Id, p: Place, a: Value, rank: Rank)
    requires p.block in rank && Pending(g, x, p, rank, rank[p.block])
    ensures forall r :: r in g.defs && r != p ==> Removed(g, x, a).defs[r] == g.defs[r]
    ensures forall z :: z in g.phis && z != x ==> Removed(g, x, a).phis[z].live == g.phis[z].live
    ensures forall z, q :: z in g.phis && z != x && g.phis[z].live && q in g.phis[z].operands ==>
              Removed(g, x, a).phis[z].operands[q] == g.phis[z].operands[q]
    ensures !Removed(g, x, a).phis[x].live
  {
    hide ReplacedIn, ReplacedPhi, ReplacedCode;
    RemovedShape(g, x, a);
    forall r | r in g.defs && r != p ensures r in Removed(g, x, a).defs && Removed(g, x, a).defs[r] == g.defs[r] {
      ReplacedOther(x, a, g.defs, r);
    }
    PhiGone(x, a, g.phis[x]);
    forall z | z in g.phis && z != x
      ensures z in Removed(g, x, a).phis && Removed(g, x, a).phis[z].live == g.phis[z].live
      ensures g.phis[z].live ==> forall q :: q in g.phis[z].operands ==>
                q in Removed(g, x, a).phis[z].operands && Removed(g, x, a).phis[z].operands[q] == g.phis[z].operands[q]
    {
      PhiUnchanged(x, a, z, g.phis[z]);
    }
  }

  lemma ReplacedOther<K>(x: Id, a: Value, m: map<K, Value>, k: K)
    requires k in m && m[k] != Result(x)
    ensures k in ReplacedIn(x, a, m) && ReplacedIn(x, a, m)[k] == m[k]
  {
  }

  lemma PhiGone(x: Id, a: Value, phi: Phi)
    ensures !ReplacedPhi(x, a, x, phi).live
  {
  }

  lemma PhiUnchanged(x: Id, a: Value, z: Id, phi: Phi)
    requires z != x && (phi.live ==> forall q :: q in phi.operands ==> phi.operands[q] != Result(x))
    ensures ReplacedPhi(x, a, z, phi).live == phi.live && ReplacedPhi(x, a, z, phi).operands.Keys == phi.operands.Keys
    ensures phi.live ==> forall q :: q in phi.operands ==> ReplacedPhi(x, a, z, phi).operands[q] == phi.operands[q]
  {
  }

  lemma MergedIsSane(g: Builder, x: Id, p: Place, a: Value, rank: Rank)
    requires Clean(g) && p.block in rank && Pending(g, x, p, rank, rank[p.block]) && Merges(g.phis[x], x, a)
    ensures Sane(Removed(g, x, a), a) && a != Result(x)
    ensures a.Result? ==> exists q :: q in g.phis[x].operands && g.phis[x].operands[q] == a
  {
  }

  lemma SaneAfter(g: Builder, x: Id, p: Place, a: Value, rank: Rank, u: Value)
    requires p.block in rank && Pending(g, x, p, rank, rank[p.block]) && Sane(g, u) && u != Result(x)
    ensures Sane(WithDef(Removed(g, x, a), p, a), u)
  {
  }

  lemma MergedAway(g: Builder, x: Id, p: Place, a: Value, rank: Rank)
    requires Clean(g) && p.block in rank && Pending(g, x, p, rank, rank[p.block]) && Merges(g.phis[x], x, a)
    ensures Clean(WithDef(Removed(g, x, a), p, a)) && Sane(Removed(g, x, a), a) && Sane(WithDef(Removed(g, x, a), p, a), a)
  {
    hide Removed, Sane, Merges;
    var c := WithDef(Removed(g, x, a), p, a);
    OnlyItsPlace(g, x, p, a, rank);
    MergedIsSane(g, x, p, a, rank);
    RemovedShape(g, x, a);
    DefIsNoMatter(Removed(g, x, a), p, a, a);
    forall r | r in c.defs ensures Sane(c, c.defs[r]) {
      if r != p {
        SaneAfter(g, x, p, a, rank, g.defs[r]);
      }
    }
    forall y, q | y in c.phis && c.phis[y].live && q in c.phis[y].operands ensures Sane(c, c.phis[y].operands[q]) {
      SaneAfter(g, x, p, a, rank, g.phis[y].operands[q]);
    }
  }

  lemma DefIsNoMatter(s: Builder, p: Place, a: Value, u: Value)
    ensures Sane(WithDef(s, p, a), u) <==> Sane(s, u)
  {
  }

  lemma StillRespects(s: Builder, t: Builder, g: Builder, x: Id, p: Place, a: Value, rank: Rank, high: int)
    requires p.block in rank && high == rank[p.block] + 1 && Clean(s) && x == Id(s.next)
    requires Clean(g) && Pending(g, x, p, rank, rank[p.block]) && Merges(g.phis[x], x, a)
    requires StillPending(t, g, rank, rank[p.block]) && StillPending(s, t, rank, high)
    ensures Respects(s, WithDef(Removed(g, x, a), p, a), a, rank, high)
  {
    forall z, pz | Pending(s, z, pz, rank, high)
      ensures Pending(WithDef(Removed(g, x, a), p, a), z, pz, rank, high) && a != Result(z)
    {
      assert Pending(t, z, pz, rank, high);
      assert Pending(t, z, pz, rank, rank[p.block]);
      assert Pending(g, z, pz, rank, rank[p.block]);
      StaysPending(g, x, p, a, z, pz, rank, high);
    }
  }

  lemma StaysPending(g: Builder, x: Id, p: Place, a: Value, z: Id, pz: Place, rank: Rank, high: int)
    requires p.block in rank && high == rank[p.block] + 1 && Pending(g, x, p, rank, rank[p.block]) && Pending(g, z, pz, rank, high)
    requires Clean(g) && Merges(g.phis[x], x, a) && z != x
    ensures Pending(WithDef(Removed(g, x, a), p, a), z, pz, rank, high) && a != Result(z)
  {
    hide Removed, Clean, Merges;
    MergedIsSane(g, x, p, a, rank);
    OnlyItsPlace(g, x, p, a, rank);
    RemovedShape(g, x, a);
  }

  lemma KeptRespects(s: Builder, t: Builder, g: Builder, x: Id, p: Place, rank: Rank, high: int)
    requires p.block in rank && high == rank[p.block] + 1 && Clean(s) && x == Id(s.next)
    requires Clean(g) && Pending(g, x, p, rank, rank[p.block])
    requires StillPending(t, g, rank, rank[p.block]) && StillPending(s, t, rank, high)
    ensures Clean(WithDef(g, p, Result(x))) && Sane(WithDef(g, p, Result(x)), Result(x))
    ensures Respects(s, WithDef(g, p, Result(x)), Result(x), rank, high)
  {
    forall z, pz | Pending(s, z, pz, rank, high)
      ensures Pending(WithDef(g, p, Result(x)), z, pz, rank, high) && z != x
    {
      assert Pending(t, z, pz, rank, high);
      assert Pending(t, z, pz, rank, rank[p.block]);
      assert Pending(g, z, pz, rank, rank[p.block]);
    }
  }
}
