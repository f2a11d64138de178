/**
  The builder itself: reading and writing variables, adding phi operands, removing
  trivial phis with everything that becomes trivial by it, and sealing blocks.
 */
module SsaBuilding {
  import opened Cfg
  import opened Ssa
  import opened SsaConstruction
  import opened SsaCascade
  import opened SsaCollapse
  import opened SsaReading

  /** Whether the operands other than the phi itself are one value, and which. */
  method SingleOperand(x: Id, phi: Phi) returns (single: bool, same: Value)
    ensures single ==> Merges(phi, x, same) && Mergeable(phi, x)
    ensures !single ==> !Mergeable(phi, x) && forall a :: !Merges(phi, x, a)
  {
    var blocks := Enumerate(phi.operands.Keys);
    var found := false;
    same := Undefined(x.serial);
    for i := 0 to |blocks|
      invariant !found ==> same == Undefined(x.serial) && forall j :: 0 <= j < i ==> phi.operands[blocks[j]] == Result(x)
      invariant found ==> same != Result(x) && (exists q :: q in phi.operands && phi.operands[q] == same)
      invariant forall j :: 0 <= j < i ==> phi.operands[blocks[j]] == same || phi.operands[blocks[j]] == Result(x)
    {
      var v := phi.operands[blocks[i]];
      if (found && v == same) || v == Result(x) {
        continue;
      }
      if found {
        return false, same;
      }
      found, same := true, v;
    }
    single := true;
    assert Merges(phi, x, same) by {
      assert forall q :: q in phi.operands ==> q in blocks;
    }
  }

  class SsaBuilder {
    const orders: Orders
    var st: Builder
    ghost var labels: map<Place, Value>
    ghost var forward: map<Id, Value>

    /** Every removal so far whose result was used was safe. */
    ghost var sound: bool

    /**
      Removes x if its operands merge one value, and then whatever becomes
      removable by that: exactly what goes with x, whatever the order of users.  The
      result follows to the value that stands for x; it is that value if x was safe.
     */
    method RemoveTrivialPhi(x: Id, ghost s0: Builder, ghost labels0: map<Place, Value>, ghost exempt: set<Id>) returns (r: Value)
      requires x in st.phis && VisitsUsers(orders.users) && MayCascade(sound, s0, labels0, st, labels, forward, exempt, x)
      modifies this`st, this`labels, this`forward
      ensures Outcome(st, r) == Cascade(old(st), x, orders.users)
      ensures GoesWith(old(st), x, st) && (old(st.phis[x].live) && Tidy(old(st)) && Safe(old(st), x) ==> !IsRemoved(st, r))
      ensures SameShape(old(st), st) && Empties(old(st), st, x) && labels.Keys == old(labels).Keys
      ensures Mergeable(old(st.phis[x]), x) ==> x in st.phis && !st.phis[x].live
      ensures sound ==> Between(s0, labels0, st, labels, forward, old(labels), old(forward), exempt, x, r)
      decreases LiveSet(st), if st.phis[x].live then 0 else 1
    {
      hide *;
      CascadeGoes(st, x, orders.users);
      var single, same := SingleOperand(x, st.phis[x]);
      if !single {
        SameShapeItself(st);
        NothingToRemove(st, x, orders.users);
        if sound {
          Unremovable(s0, labels0, st, labels, forward, exempt, x);
        }
        return Result(x);
      }
      var users := orders.users(st, x);
      FirstVisits(st, x, orders.users, same);
      ghost var whole, bound := Cascade(st, x, orders.users), LiveSet(Removed(st, x, same));
      if sound {
        FirstRemoval(s0, labels0, st, labels, forward, exempt, x, same);
      }
      UsersExist(st, x);
      AfterFirst(old(st), x, same);
      ReplacedKeys(x, same, labels);
      FromStart(users, PhiUsers(st, x), exempt);
      ghost var wasLive := st.phis[x].live;
      labels, forward := ReplacedIn(x, same, labels), if wasLive then ForwardedTo(forward, x, same) else forward;
      st := Removed(st, x, same);
      r := same;
      for i := 0 to |users|
        invariant SameShape(old(st), st) && LiveSet(st) <= LiveSet(old(st)) && (wasLive ==> LiveSet(st) < LiveSet(old(st)))
        invariant MayVisit(st, users, bound, orders.users) && Remaining(st, users, i, r, bound, orders.users) == whole
        invariant x in st.phis && !st.phis[x].live && Empties(old(st), st, x) && labels.Keys == old(labels).Keys
        invariant forall j :: 0 <= j < |users| ==> users[j] in st.phis && users[j] in LiveSet(old(st)) && users[j] in PhiUsers(old(st), x)
        invariant sound ==> forall j :: 0 <= j < |users| ==> users[j] !in s0.phis && Complete(st, users[j])
        invariant sound ==> Between(s0, labels0, st, labels, forward, old(labels), old(forward), exempt + From(users, i), x, r)
      {
        var u := users[i];
        ghost var s1, labels1, forward1, r1 := st, labels, forward, r;
        if sound {
          NextMayCascade(s0, labels0, st, labels, forward, old(labels), old(forward), exempt, x, r, users, i);
        } else {
          NothingClaimed(s0, labels0, st, labels, forward, exempt + From(users, i + 1), u);
        }
        LiveOrSmaller(st, u, LiveSet(old(st)));
        NextVisit(st, users, i, r, bound, orders.users);
        var newVal := RemoveTrivialPhi(u, s0, labels0, exempt + From(users, i + 1));
        if r == Result(u) {
          r := newVal;
        }
        ShapeTwice(old(st), s1, st);
        ShapeLive(s1, st);
        StaysRemoved(s1, st, x);
        EmptiesTwice(old(st), s1, st, x, u);
        CompleteStays(s1, st);
        if sound {
          NextUser(s0, labels0, s1, labels1, forward1, st, labels, forward, old(labels), old(forward), exempt, x, r1, users, i, newVal);
        }
      }
      FromEnd(users, exempt);
      LastVisit(st, users, r, bound, orders.users);
    }

    /** Reads the operand of every predecessor; x may merge a single value and go again. */
    method AddPhiOperands(x: Id, p: Place, ghost s0: Builder, ghost labels0: map<Place, Value>, ghost dist: map<Block, nat>, ghost bound: nat)
        returns (val: Value)
      requires x in st.phis && p in st.defs && p.block in st.preds && Searchable(st, dist, bound, orders)
      requires sound ==> Gathering(s0, labels0, st, labels, forward, x, p, {})
      modifies this
      ensures var a := AddOperands(old(st), x, p, dist, bound, orders);
              st == a.state && val == a.value && sound == (old(sound) && a.right)
      ensures Grows(old(st), st) && NewLabels(old(st), old(labels), labels)
      ensures sound ==> Gathered(s0, labels0, old(st), st, labels, forward, x, p, val)
      ensures sound ==> var g := AddOperands(old(st), x, p, dist, bound, orders).gathered; g.phis[x].live && Tidy(g)
      decreases Missing(st, p.variable), bound, 0
    {
      hide *;
      var blocks := orders.preds(st, p.block);
      ghost var done: set<Block> := {};
      GrowsItself(st, p.variable);
      FirstGather(st, x, p, dist, bound, orders);
      SearchableParts(st, dist, bound, orders);
      ghost var whole, right := GatherFrom(st, x, p, blocks, 0, dist, bound, orders), true;
      for i := 0 to |blocks|
        invariant Grows(old(st), st) && st.preds == old(st).preds && NewLabels(old(st), old(labels), labels)
        invariant x in st.phis && forall q :: q in done <==> q in blocks[..i]
        invariant sound == (old(sound) && right) && MayGatherFrom(st, x, p, blocks, dist, bound, orders)
        invariant var rest := GatherFrom(st, x, p, blocks, i, dist, bound, orders);
                  whole == Reading(rest.state, rest.value, whole.right) && whole.right == (right && rest.right)
        invariant sound ==> Gathering(s0, labels0, st, labels, forward, x, p, done) && Progress(old(st), st, p.variable, {x})
      {
        var q := blocks[i];
        ghost var s1, labels1, forward1 := st, labels, forward;
        NextGather(st, x, p, blocks, i, dist, bound, orders);
        right := right && ReadVariable(st, q, p.variable, dist, bound, orders).right;
        BeforeOperand(old(st), s1, p.variable, dist, bound, p.block, q);
        if sound {
          GatheringIsConsistent(s0, labels0, st, labels, forward, x, p, done);
        }
        var v := ReadLocalVariable(q, p.variable, dist, bound);
        NewLabelsTwice(old(st), s1, old(labels), labels1, labels);
        if sound {
          AfterRead(s0, labels0, s1, labels1, forward1, st, labels, forward, x, p, done, q, v);
        }
        AfterOperand(old(st), s1, st, x, q, v);
        if sound {
          ProgressTwice(old(st), s1, WithOperand(st, x, q, v), p, {x}, x);
        }
        st := WithOperand(st, x, q, v);
        done := done + {q};
      }
      AllDone(done, st.preds[p.block], blocks);
      LastGather(st, x, p, blocks, dist, bound, orders);
      ghost var s2, labels2, forward2 := st, labels, forward;
      if sound {
        GatheringHas(s0, labels0, st, labels, forward, x, p, done);
        GatheredIsLive(s0, labels0, st, labels, forward, x, p, done);
        GatheringIsConsistent(s0, labels0, st, labels, forward, x, p, done);
        ConsistentIsTidy(st, labels, forward);
        GatherDone(s0, labels0, st, labels, forward, x, p, done);
      } else {
        NothingClaimed(s0, labels0, st, labels, forward, s0.phis.Keys, x);
      }
      val := RemoveTrivialPhi(x, s0, labels0, s0.phis.Keys);
      SameLabels(old(st), old(labels), labels2, labels);
      ShapeGrows(s2, st);
      GrowsTwice(old(st), s2, st);
      if sound {
        NowGathered(s0, labels0, old(st), s2, labels2, forward2, st, labels, forward, x, p, done, val);
      }
    }

    method ReadLocalVariable(b: Block, v: Variable, ghost dist: map<Block, nat>, ghost bound: nat) returns (val: Value)
      requires b in st.preds && Searchable(st, dist, bound, orders)
      requires sound ==> Consistent(st, labels, forward)
      modifies this
      ensures var r := ReadVariable(old(st), b, v, dist, bound, orders);
              st == r.state && val == r.value && sound == (old(sound) && r.right)
      ensures Grows(old(st), st) && NewLabels(old(st), old(labels), labels)
      ensures sound ==> HasRead(old(st), old(labels), st, labels, forward, Place(b, v), val)
      decreases Missing(st, v), dist[b], 2
    {
      hide *;
      GrowsItself(st, v);
      ReadKnown(st, b, v, dist, bound, orders);
      SearchableParts(st, dist, bound, orders);
      if Place(b, v) in st.defs {
        if sound {
          ReadNothing(st, labels, forward, Place(b, v));
        }
        return st.defs[Place(b, v)];
      }
      val := ReadLocalVariableRecursively(b, v, dist, bound);
    }

    method ReadLocalVariableRecursively(b: Block, v: Variable, ghost dist: map<Block, nat>, ghost bound: nat) returns (val: Value)
      requires b in st.preds && Searchable(st, dist, bound, orders) && Place(b, v) !in st.defs
      requires sound ==> Consistent(st, labels, forward)
      modifies this
      ensures var r := ReadRecursively(old(st), b, v, dist, bound, orders);
              st == r.state && val == r.value && sound == (old(sound) && r.right)
      ensures Grows(old(st), st) && NewLabels(old(st), old(labels), labels)
      ensures sound ==> HasRead(old(st), old(labels), st, labels, forward, Place(b, v), val)
      decreases Missing(st, v), dist[b], 1
    {
      hide *;
      var p := Place(b, v);
      SearchableParts(st, dist, bound, orders);
      if b !in st.sealed {
        var x := Id(st.next);
        PhiGrows(st, p);
        ReadUnsealed(st, b, v, dist, bound, orders);
        if sound {
          ReadIncomplete(st, labels, forward, p);
        }
        OneNewLabel(st, labels, p, Result(x));
        labels := labels[p := Result(x)];
        st := WithPhi(st, p).(incomplete := st.incomplete[p := x]);
        val := Result(x);
      } else if |st.preds[b]| == 1 {
        ReadSingle(st, b, v, dist, bound, orders);
        var preds := orders.preds(st, b);
        var q := preds[0];
        val := ReadLocalVariable(q, v, dist, bound);
        DefGrows(old(st), st, p, val);
        if sound {
          ReadThrough(old(st), old(labels), old(forward), st, labels, forward, p, q, val);
        }
        OneMoreLabel(old(st), old(labels), labels, p, val);
        labels := labels[p := val];
        st := WithDef(st, p, val);
      } else {
        var x := Id(st.next);
        PhiGrows(st, p);
        ReadMerging(st, b, v, dist, bound, orders);
        if sound {
          StartGathering(st, labels, forward, p);
        }
        labels := labels[p := Result(x)];
        st := WithPhi(st, p);
        ghost var s1, labels1 := st, labels;
        val := AddPhiOperands(x, p, old(st), old(labels), dist, bound);
        OneNewLabel(old(st), old(labels), p, Result(x));
        NewLabelsTwice(old(st), s1, old(labels), labels1, labels);
        GrowsTwice(old(st), s1, st);
        DefGrows(old(st), st, p, val);
        // The value returned must not get lost in the cascade.
        if sound {
          SafeAddition(s1, x, p, dist, bound, orders);
          sound := Safe(AddOperands(s1, x, p, dist, bound, orders).gathered, x);
        }
        if sound {
          ReadMerged(old(st), old(labels), old(forward), s1, st, labels, forward, x, p, val);
        }
        st := WithDef(st, p, val);
      }
    }

    /** Completes the phis of b: every predecessor is known now. */
    method SealBasicBlock(b: Block, ghost dist: map<Block, nat>, ghost bound: nat)
      requires b in st.preds && b !in st.sealed && Searchable(st, dist, bound, orders) && Rooted(st)
      requires sound ==> Ready(st, labels, forward)
      modifies this
      ensures var r := Seal(old(st), b, dist, bound, orders); st == r.state && sound == (old(sound) && r.right)
      ensures st.preds == old(st).preds && st.sealed == old(st).sealed + {b} && Rooted(st)
      ensures sound ==> Ready(st, labels, forward)
    {
      hide *;
      var places := orders.waiting(st, b);
      FirstComplete(st, b, dist, bound, orders);
      SearchableParts(st, dist, bound, orders);
      ghost var whole, right := CompleteFrom(st, b, places, 0, dist, bound, orders), true;
      PlacesRooted(st, b, places);
      GrowsItself(st, 0);
      if sound {
        ReadyWaits(st, labels, forward, b, places);
        SealingStarts(st, labels, forward, b, places);
      }
      for i := 0 to |places|
        invariant Grows(old(st), st) && st.preds == old(st).preds && b !in st.sealed && st.sealed == old(st).sealed
        invariant sound == (old(sound) && right) && MayComplete(st, b, places, dist, bound, orders)
        invariant var rest := CompleteFrom(st, b, places, i, dist, bound, orders);
                  whole == Reading(rest.state, rest.value, whole.right) && whole.right == (right && rest.right)
        invariant sound ==> Sealing(st, labels, forward, b, places, i)
      {
        var p := places[i];
        ghost var s1, labels1, forward1, before := st, labels, forward, sound;
        StillRooted(old(st), st, p);
        var x := st.incomplete[p];
        NextComplete(st, b, places, i, dist, bound, orders);
        ghost var added := AddOperands(st, x, p, dist, bound, orders);
        right := right && added.right;
        if sound {
          MayGather(st, labels, forward, b, places, i);
          GatheringHas(Nothing(), map[], st, labels, forward, x, p, {});
        }
        var val := AddPhiOperands(x, p, Nothing(), map[], dist, bound);
        GrowsParts(old(st), s1, st);
        if sound {
          SealingHas(Nothing(), map[], s1, labels1, forward1, x, p);
          PlacesDefined(old(st), s1, b, places);
          SealingNext(s1, labels1, forward1, st, labels, forward, b, places, i, x, val);
        }
      }
      LastComplete(st, b, places, dist, bound, orders);
      if sound {
        SealingEnds(st, labels, forward, b, places);
      }
      RootedSealed(old(st), st, b);
      st := Sealed(st, b);
    }

    /** The program reads v in b and uses the value there. */
    method UseVariable(b: Block, v: Variable, ghost dist: map<Block, nat>, ghost bound: nat) returns (val: Value)
      requires Frontier(st, b) && Searchable(st, dist, bound, orders) && Rooted(st)
      requires sound ==> Ready(st, labels, forward)
      modifies this
      ensures b in old(st).preds
      ensures var r := ReadVariable(old(st), b, v, dist, bound, orders);
              b in r.state.code && st == Appended(r.state, b, Use(v, r.value)) && val == r.value && sound == (old(sound) && r.right)
      ensures Grows(old(st), st) && Rooted(st)
      ensures sound ==> Ready(st, labels, forward) && b in old(st).code && b in st.code && st.code[b] == old(st).code[b] + [Use(v, val)]
    {
      hide *;
      FrontierParts(st, b);
      if sound {
        ReadyIsConsistent(st, labels, forward);
      }
      val := ReadLocalVariable(b, v, dist, bound);
      FrontierStays(old(st), st, b);
      if sound {
        ReadKeepsReady(old(st), old(labels), old(forward), st, labels, forward, Place(b, v), val);
        AppendUse(old(st), old(labels), st, labels, forward, b, v, val);
      }
      AppendGrows(old(st), st, b, Use(v, val));
      st := Appended(st, b, Use(v, val));
    }

    /** The program assigns a to v in b. */
    method WriteLocalVariable(b: Block, v: Variable, a: Value)
      requires Frontier(st, b) && Rooted(st)
      requires sound ==> Ready(st, labels, forward) && b in st.code && Acceptable(st, b, Assign(v, a))
      modifies this
      ensures b in old(st).code && st == Appended(old(st), b, Assign(v, a)) && Rooted(st) && sound == old(sound)
      ensures sound ==> Ready(st, labels, forward)
    {
      hide *;
      FrontierParts(st, b);
      GrowsItself(st, v);
      AppendGrows(st, st, b, Assign(v, a));
      if sound {
        AppendKeeps(st, labels, forward, b, Assign(v, a));
      }
      st := Appended(st, b, Assign(v, a));
    }

    /** The program computes an instruction in b. */
    method ComputeInstruction(b: Block) returns (x: Id)
      requires Frontier(st, b) && Rooted(st)
      requires sound ==> Ready(st, labels, forward)
      modifies this
      ensures b in old(st).code && x == Id(old(st).next) && st == Appended(old(st), b, Compute(x)) && Rooted(st) && sound == old(sound)
      ensures sound ==> Ready(st, labels, forward)
    {
      hide *;
      FrontierParts(st, b);
      GrowsItself(st, 0);
      x := Id(st.next);
      AppendGrows(st, st, b, Compute(x));
      if sound {
        FreshCompute(st, b);
        AppendKeeps(st, labels, forward, b, Compute(x));
      }
      st := Appended(st, b, Compute(x));
    }

    method AddPredecessor(q: Block, b: Block)
      requires b in st.preds && q in st.preds && Rooted(st)
      requires sound ==> Ready(st, labels, forward) && MayGetPredecessor(st, labels, b)
      modifies this
      ensures st == WithEdge(old(st), q, b) && Rooted(st) && sound == old(sound)
      ensures sound ==> Ready(st, labels, forward)
    {
      RootedEdge(st, q, b);
      hide *;
      if sound {
        EdgeKeeps(st, labels, forward, q, b);
      }
      st := WithEdge(st, q, b);
    }

    method NewBlock(b: Block, isSealed: bool)
      requires b !in st.preds && Rooted(st)
      requires sound ==> Ready(st, labels, forward)
      modifies this
      ensures st == WithBlock(old(st), b, isSealed) && Rooted(st) && sound == old(sound)
      ensures sound ==> Ready(st, labels, forward)
    {
      RootedBlock(st, b, isSealed);
      hide *;
      if sound {
        BlockKeeps(st, labels, forward, b, isSealed);
      }
      st := WithBlock(st, b, isSealed);
    }

    constructor (o: Orders)
      ensures orders == o && st == Nothing() && sound && Ready(st, labels, forward) && Rooted(st)
    {
      orders := o;
      st, labels, forward, sound := Nothing(), map[], map[], true;
      new;
      NothingIsReady();
    }
  }
}
