/**
  What the values handed out by SSA construction mean: along every path from the
  entry, each use sees what the program last assigned to its variable.
 */
module SsaReads {
  import opened Cfg
  import opened Ssa
  import opened SsaConstruction

  /** Values of ids, and what the program's variables hold. */
  datatype Memory = Memory(env: Env, store: map<Variable, int>)

  /** A variable nobody assigned holds the value it has at the entry; EntryLabel: an undefined one. */
  function Stored(sem: Sem, labels: map<Place, Value>, entry: Block, store: map<Variable, int>, v: Variable): int {
    if v in store then store[v] else if Place(entry, v) in labels then Read(sem, map[], labels[Place(entry, v)]) else 0
  }

  /** What an instruction computes may depend on the whole path so far. */
  type Oracle = (Id, seq<Block>) -> int

  function Perform(sem: Sem, oracle: Oracle, w: seq<Block>, e: Event, m: Memory): Memory {
    match e
    case Compute(x) => m.(env := m.env[x := oracle(x, w)])
    case Use(_, _) => m
    case Assign(v, a) => m.(store := m.store[v := Read(sem, m.env, a)])
  }

  function PerformAll(sem: Sem, oracle: Oracle, w: seq<Block>, code: seq<Event>, m: Memory): Memory {
    if code == [] then m
    else Perform(sem, oracle, w, code[|code| - 1], PerformAll(sem, oracle, w, code[..|code| - 1], m))
  }

  function CodeIn(s: Builder, b: Block): seq<Event> {
    if b in s.code then s.code[b] else []
  }

  function PhiSource(phi: Phi, q: Block): Value {
    if q in phi.operands then phi.operands[q] else Number(0)
  }

  /** All phis of b read the operand for q at once. */
  function EnterPhis(s: Builder, sem: Sem, q: Block, b: Block, m: Memory): Memory {
    m.(env := m.env + map x | x in s.phis && s.phis[x].live && s.phis[x].block == b :: Read(sem, m.env, PhiSource(s.phis[x], q)))
  }

  function AtHead(s: Builder, sem: Sem, oracle: Oracle, w: seq<Block>): Memory
    requires |w| > 0
    decreases |w|, 0
  {
    if |w| == 1 then Memory(map[], map[])
    else EnterPhis(s, sem, w[|w| - 2], w[|w| - 1], AtEnd(s, sem, oracle, w[..|w| - 1]))
  }

  function AtEnd(s: Builder, sem: Sem, oracle: Oracle, w: seq<Block>): Memory
    requires |w| > 0
    decreases |w|, 1
  {
    PerformAll(sem, oracle, w, CodeIn(s, Last(w)), AtHead(s, sem, oracle, w))
  }

  /** A path of blocks from the entry along stored predecessors. */
  ghost predicate Path(s: Builder, entry: Block, w: seq<Block>) {
    && |w| > 0 && w[0] == entry && entry in s.preds && s.preds[entry] == {}
    && forall i :: 0 <= i < |w| - 1 ==> Arc(s, w[i], w[i + 1])
  }

  ghost predicate Arc(s: Builder, a: Block, b: Block) {
    a in s.preds && b in s.preds && a in s.preds[b]
  }

  lemma PathPrefix(s: Builder, entry: Block, w: seq<Block>, n: nat)
    requires Path(s, entry, w) && 0 < n <= |w|
    ensures Path(s, entry, w[..n]) && Last(w[..n]) == w[n - 1]
  {
  }

  /** Construction has finished: every block is sealed. */
  ghost predicate Finished(s: Builder, labels: map<Place, Value>, forward: map<Id, Value>) {
    Ready(s, labels, forward) && forall b :: b in s.preds ==> b in s.sealed
  }

  // ----- where the ids in labels come from -----

  ghost predicate ComputedIn(s: Builder, x: Id, b: Block) {
    exists i :: 0 <= i < |CodeIn(s, b)| && CodeIn(s, b)[i] == Compute(x)
  }

  /** x is computed by, or a phi of, a block on w. */
  ghost predicate MadeOn(s: Builder, a: Value, w: seq<Block>) {
    a.Result? ==> exists i :: 0 <= i < |w| && ((a.id in s.phis && s.phis[a.id].block == w[i]) || ComputedIn(s, a.id, w[i]))
  }

  ghost predicate LabelsMadeOn(s: Builder, labels: map<Place, Value>, w: seq<Block>)
    requires |w| > 0
  {
    forall p :: p in labels && p.block == Last(w) ==> MadeOn(s, labels[p], w)
  }

  lemma MadeOnLonger(s: Builder, a: Value, w: seq<Block>, b: Block)
    requires MadeOn(s, a, w)
    ensures MadeOn(s, a, w + [b])
  {
    if a.Result? {
      var i :| 0 <= i < |w| && ((a.id in s.phis && s.phis[a.id].block == w[i]) || ComputedIn(s, a.id, w[i]));
      assert (w + [b])[i] == w[i];
    }
  }

  /** Where an assigned id came from. */
  lemma AssignedFrom(s: Builder, labels: map<Place, Value>, b: Block, i: nat) returns (k: nat)
    requires UsesAgree(s, labels) && b in s.code && i < |s.code[b]| && s.code[b][i].Assign? && s.code[b][i].value.Result?
    ensures k < i
    ensures s.code[b][k] == Compute(s.code[b][i].value.id)
            || (s.code[b][k].Use? && s.code[b][k].value == s.code[b][i].value && UseAgrees(s.code[b], labels, b, k))
  {
    hide Known, Current, UniqueIds;
    assert Obtained(s.code[b], i, s.code[b][i].value);
    var j :| 0 <= j < i && !s.code[b][j].Assign? && ValueOf(s.code[b][j]) == s.code[b][i].value;
    k := j;
  }

  lemma ConstantMadeOn(s: Builder, a: Value, w: seq<Block>)
    requires !a.Result?
    ensures MadeOn(s, a, w)
  {
  }

  lemma ComputedHere(s: Builder, x: Id, w: seq<Block>, k: nat)
    requires |w| > 0 && Last(w) in s.code && k < |s.code[Last(w)]| && s.code[Last(w)][k] == Compute(x)
    ensures MadeOn(s, Result(x), w)
  {
    assert CodeIn(s, Last(w))[k] == Compute(x);
    assert ComputedIn(s, x, w[|w| - 1]);
  }

  /** Values current in the last block of w were made on w. */
  lemma {:induction false} CurrentMadeOn(s: Builder, labels: map<Place, Value>, w: seq<Block>, i: nat, v: Variable)
    requires |w| > 0 && UsesAgree(s, labels) && LabelsMadeOn(s, labels, w) && Last(w) in s.code
    requires i <= |s.code[Last(w)]| && Known(s.code[Last(w)][..i], labels, Place(Last(w), v))
    ensures MadeOn(s, Current(s.code[Last(w)][..i], labels, Place(Last(w), v)), w)
    decreases i
  {
    hide UsesAgree, MadeOn, Writes;
    var b := Last(w);
    var code := s.code[b];
    if Writes(code[..i], v) {
      SomeCode(code[..i], v);
      assert code[..i][..i - 1] == code[..i - 1];
      var e := code[i - 1];
      if e.Assign? && e.variable == v {
        if e.value.Result? {
          var k := AssignedFrom(s, labels, b, i - 1);
          if code[k].Compute? {
            ComputedHere(s, e.value.id, w, k);
          } else {
            CurrentMadeOn(s, labels, w, k, code[k].variable);
          }
        } else {
          ConstantMadeOn(s, e.value, w);
        }
      } else {
        StillWrites(code[..i], v);
        CurrentMadeOn(s, labels, w, i - 1, v);
      }
    }
  }

  lemma SomeCode(code: seq<Event>, v: Variable)
    requires Writes(code, v)
    ensures |code| > 0
  {
  }

  lemma StillWrites(code: seq<Event>, v: Variable)
    requires Writes(code, v) && !(code[|code| - 1].Assign? && code[|code| - 1].variable == v)
    ensures Writes(code[..|code| - 1], v) && LastWrite(code, v) == LastWrite(code[..|code| - 1], v)
  {
    var i :| 0 <= i < |code| && code[i].Assign? && code[i].variable == v;
    assert code[..|code| - 1][i] == code[i];
  }

  lemma {:induction false} AllMadeOn(s: Builder, labels: map<Place, Value>, forward: map<Id, Value>, entry: Block, w: seq<Block>)
    requires Consistent(s, labels, forward) && Path(s, entry, w)
    ensures LabelsMadeOn(s, labels, w)
    decreases |w|
  {
    hide Consistent, UsesAgree, PlainAgree, DefsAgree;
    ConsistentAll(s, labels, forward);
    var b := Last(w);
    forall p | p in labels && p.block == b ensures MadeOn(s, labels[p], w) {
      if OwnPhi(s, labels, p) {
        assert w[|w| - 1] == b;
      } else if |w| == 1 {
        PlainEntry(s, labels, p);
      } else {
        var v, q := w[..|w| - 1], w[|w| - 2];
        assert Arc(s, w[|w| - 2], w[|w| - 2 + 1]);
        PathPrefix(s, entry, w, |w| - 1);
        AllMadeOn(s, labels, forward, entry, v);
        PlainFrom(s, labels, p, q);
        CurrentMadeOn(s, labels, v, |s.code[q]|, p.variable);
        assert s.code[q][..|s.code[q]|] == s.code[q];
        MadeOnLonger(s, labels[p], v, b);
        assert v + [b] == w;
      }
    }
  }

  lemma ConsistentAll(s: Builder, labels: map<Place, Value>, forward: map<Id, Value>)
    requires Consistent(s, labels, forward)
    ensures Shaped(s, labels) && DefsAgree(s, labels) && UsesAgree(s, labels) && NothingRemoved(s, labels) && PhisAgree(s, labels) && PlainAgree(s, labels)
  {
  }

  lemma PlainEntry(s: Builder, labels: map<Place, Value>, p: Place)
    requires PlainAgree(s, labels) && p in labels && p.block in s.preds && s.preds[p.block] == {} && !OwnPhi(s, labels, p)
    ensures labels[p].Undefined?
  {
  }

  lemma PlainFrom(s: Builder, labels: map<Place, Value>, p: Place, q: Block)
    requires PlainAgree(s, labels) && DefsAgree(s, labels) && Shaped(s, labels)
    requires p in labels && p.block in s.preds && q in s.preds[p.block] && !OwnPhi(s, labels, p)
    ensures q in s.code && Known(s.code[q], labels, Place(q, p.variable)) && Current(s.code[q], labels, Place(q, p.variable)) == labels[p]
  {
    assert Place(q, p.variable) in s.defs;
  }

  /** At the first visit of a block nothing of it has run: its labels come from elsewhere, its own phis aside. */
  lemma LabelFromElsewhere(s: Builder, labels: map<Place, Value>, forward: map<Id, Value>, entry: Block, w: seq<Block>, p: Place)
    requires Consistent(s, labels, forward) && Path(s, entry, w) && p in labels && p.block == Last(w)
    ensures var a := labels[p]; a.Result? ==> !ComputedIn(s, a.id, p.block) && (a.id in s.phis && s.phis[a.id].block == p.block ==> OwnPhi(s, labels, p))
  {
    hide UsesAgree, PlainAgree, DefsAgree;
    ConsistentAll(s, labels, forward);
    var b := p.block;
    var k := First(w, b);
    if labels[p].Result? {
      var x := labels[p].id;
      if x in s.phis {
        NoPhiComputed(s, labels, x, b);
      }
      if !OwnPhi(s, labels, p) {
        if k == 0 {
          PlainEntry(s, labels, p);
        } else {
          var v, q := w[..k], w[k - 1];
          assert Arc(s, w[k - 1], w[k - 1 + 1]);
          PathPrefix(s, entry, w, k);
          AllMadeOn(s, labels, forward, entry, v);
          PlainFrom(s, labels, p, q);
          CurrentMadeOn(s, labels, v, |s.code[q]|, p.variable);
          assert s.code[q][..|s.code[q]|] == s.code[q];
          MadeElsewhere(s, labels, v, x, b);
        }
      }
    }
  }

  lemma NoPhiComputed(s: Builder, labels: map<Place, Value>, x: Id, b: Block)
    requires NothingRemoved(s, labels) && x in s.phis
    ensures !ComputedIn(s, x, b)
  {
  }

  lemma MadeElsewhere(s: Builder, labels: map<Place, Value>, v: seq<Block>, x: Id, b: Block)
    requires NothingRemoved(s, labels) && UsesAgree(s, labels) && MadeOn(s, Result(x), v) && b !in v
    ensures !ComputedIn(s, x, b) && !(x in s.phis && s.phis[x].block == b)
  {
    var i :| 0 <= i < |v| && ((x in s.phis && s.phis[x].block == v[i]) || ComputedIn(s, x, v[i]));
    assert v[i] != b;
    if x in s.phis {
      NoPhiComputed(s, labels, x, b);
      NoPhiComputed(s, labels, x, v[i]);
    } else {
      var k :| 0 <= k < |CodeIn(s, v[i])| && CodeIn(s, v[i])[k] == Compute(x);
    }
  }

  /** No label of b is computed in b. */
  ghost predicate LabelsElsewhere(s: Builder, labels: map<Place, Value>, b: Block) {
    forall p :: p in labels && p.block == b && labels[p].Result? ==> !ComputedIn(s, labels[p].id, b)
  }

  lemma DistinctComputes(s: Builder, labels: map<Place, Value>, b: Block, j: nat, k: nat)
    requires UsesAgree(s, labels) && b in s.code && j < k < |s.code[b]| && s.code[b][j].Compute? && s.code[b][k].Compute?
    ensures s.code[b][j].id != s.code[b][k].id
  {
  }

  /** What is current before instruction k of b is not what k computes. */
  lemma {:induction false} CurrentNotLater(s: Builder, labels: map<Place, Value>, b: Block, i: nat, k: nat, v: Variable)
    requires UsesAgree(s, labels) && LabelsElsewhere(s, labels, b) && b in s.code && i <= k < |s.code[b]| && s.code[b][k].Compute?
    requires Known(s.code[b][..i], labels, Place(b, v))
    ensures Current(s.code[b][..i], labels, Place(b, v)) != Result(s.code[b][k].id)
    decreases i
  {
    hide UsesAgree, Writes;
    var code := s.code[b];
    if Writes(code[..i], v) {
      SomeCode(code[..i], v);
      assert code[..i][..i - 1] == code[..i - 1];
      var e := code[i - 1];
      if e.Assign? && e.variable == v {
        if e.value.Result? {
          var j := AssignedFrom(s, labels, b, i - 1);
          if code[j].Use? {
            CurrentNotLater(s, labels, b, j, k, code[j].variable);
          } else {
            DistinctComputes(s, labels, b, j, k);
          }
        }
      } else {
        StillWrites(code[..i], v);
        CurrentNotLater(s, labels, b, i - 1, k, v);
      }
    } else {
      assert CodeIn(s, b)[k] == Compute(code[k].id);
    }
  }

  // ----- values agree -----

  /** Before event i of the last block, every known variable is held by its current value. */
  ghost predicate Agrees(s: Builder, labels: map<Place, Value>, entry: Block, sem: Sem, b: Block, i: nat, m: Memory)
    requires b in s.code && i <= |s.code[b]|
  {
    forall v :: Known(s.code[b][..i], labels, Place(b, v)) ==> Holds(s, labels, entry, sem, b, i, m, v)
  }

  ghost predicate Holds(s: Builder, labels: map<Place, Value>, entry: Block, sem: Sem, b: Block, i: nat, m: Memory, v: Variable)
    requires b in s.code && i <= |s.code[b]| && Known(s.code[b][..i], labels, Place(b, v))
  {
    Read(sem, m.env, Current(s.code[b][..i], labels, Place(b, v))) == Stored(sem, labels, entry, m.store, v)
  }

  lemma AgreesNext(s: Builder, labels: map<Place, Value>, entry: Block, sem: Sem, oracle: Oracle, w: seq<Block>, b: Block, i: nat, m: Memory)
    requires UsesAgree(s, labels) && LabelsElsewhere(s, labels, b) && b in s.code && i < |s.code[b]| && Agrees(s, labels, entry, sem, b, i, m)
    ensures Agrees(s, labels, entry, sem, b, i + 1, Perform(sem, oracle, w, s.code[b][i], m))
  {
    var code, e := s.code[b], s.code[b][i];
    var m' := Perform(sem, oracle, w, e, m);
    assert code[..i + 1] == code[..i] + [e];
    forall v | Known(code[..i + 1], labels, Place(b, v)) ensures Holds(s, labels, entry, sem, b, i + 1, m', v) {
      AppendWrites(code[..i], e, v);
      if !(e.Assign? && e.variable == v) {
        assert Holds(s, labels, entry, sem, b, i, m, v);
        if e.Compute? {
          CurrentNotLater(s, labels, b, i, i, v);
        }
      }
    }
  }

  lemma {:induction false} AgreesAt(s: Builder, labels: map<Place, Value>, entry: Block, sem: Sem, oracle: Oracle, w: seq<Block>, b: Block, i: nat, m: Memory)
    requires UsesAgree(s, labels) && LabelsElsewhere(s, labels, b) && b in s.code && i <= |s.code[b]| && Agrees(s, labels, entry, sem, b, 0, m)
    ensures Agrees(s, labels, entry, sem, b, i, PerformAll(sem, oracle, w, s.code[b][..i], m))
    decreases i
  {
    hide UsesAgree, LabelsElsewhere, Agrees;
    if i > 0 {
      AgreesAt(s, labels, entry, sem, oracle, w, b, i - 1, m);
      assert s.code[b][..i][..i - 1] == s.code[b][..i - 1];
      AgreesNext(s, labels, entry, sem, oracle, w, b, i - 1, PerformAll(sem, oracle, w, s.code[b][..i - 1], m));
    }
  }

  /** The operand of a complete phi is what is current at the end of the predecessor. */
  lemma OperandIsCurrent(s: Builder, labels: map<Place, Value>, p: Place, q: Block)
    requires Shaped(s, labels) && DefsAgree(s, labels) && PhisAgree(s, labels) && p in labels && OwnPhi(s, labels, p) && Complete(s, labels[p].id)
    requires p.block in s.preds && q in s.preds[p.block]
    ensures q in s.code && Known(s.code[q], labels, Place(q, p.variable))
    ensures PhiSource(s.phis[labels[p].id], q) == Current(s.code[q], labels, Place(q, p.variable))
  {
    hide Known, Current;
    assert PhiAgrees(s, labels, labels[p].id);
    assert q in s.phis[labels[p].id].operands.Keys;
  }

  lemma OwnIsComplete(s: Builder, labels: map<Place, Value>, forward: map<Id, Value>, p: Place)
    requires Finished(s, labels, forward) && p in labels && p.block in s.preds && OwnPhi(s, labels, p)
    ensures Complete(s, labels[p].id)
  {
    hide Consistent, Reduced, AllWaiting;
  }

  lemma EntersPhi(s: Builder, sem: Sem, q: Block, m: Memory, x: Id)
    requires x in s.phis && s.phis[x].live
    ensures Read(sem, EnterPhis(s, sem, q, s.phis[x].block, m).env, Result(x)) == Read(sem, m.env, PhiSource(s.phis[x], q))
  {
  }

  /** A live phi takes the value its variable had at the end of the predecessor. */
  lemma PhiTakes(s: Builder, labels: map<Place, Value>, forward: map<Id, Value>, entry: Block, sem: Sem, q: Block, m: Memory, p: Place)
    requires Finished(s, labels, forward) && p in labels && p.block in s.preds && q in s.preds[p.block] && q in s.code && OwnPhi(s, labels, p)
    requires Agrees(s, labels, entry, sem, q, |s.code[q]|, m)
    ensures Read(sem, EnterPhis(s, sem, q, p.block, m).env, labels[p]) == Stored(sem, labels, entry, m.store, p.variable)
  {
    hide Finished, Known, Current, EnterPhis, PhiSource, Shaped, DefsAgree, UsesAgree, NothingRemoved, PhisAgree, PlainAgree, Complete, Read;
    FinishedParts(s, labels, forward);
    OwnIsComplete(s, labels, forward, p);
    OperandIsCurrent(s, labels, p, q);
    EntersPhi(s, sem, q, m, labels[p].id);
    assert s.code[q][..|s.code[q]|] == s.code[q];
    assert Holds(s, labels, entry, sem, q, |s.code[q]|, m, p.variable);
  }

  lemma FinishedParts(s: Builder, labels: map<Place, Value>, forward: map<Id, Value>)
    requires Finished(s, labels, forward)
    ensures Shaped(s, labels) && DefsAgree(s, labels) && PhisAgree(s, labels)
  {
  }

  lemma PlainTakes(s: Builder, labels: map<Place, Value>, forward: map<Id, Value>, entry: Block, sem: Sem, q: Block, m: Memory, p: Place)
    requires Consistent(s, labels, forward) && p in labels && p.block in s.preds && q in s.preds[p.block] && q in s.code && !OwnPhi(s, labels, p)
    requires labels[p].Result? ==> !(labels[p].id in s.phis && s.phis[labels[p].id].block == p.block)
    requires Agrees(s, labels, entry, sem, q, |s.code[q]|, m)
    ensures Read(sem, EnterPhis(s, sem, q, p.block, m).env, labels[p]) == Stored(sem, labels, entry, m.store, p.variable)
  {
    hide UsesAgree, NothingRemoved, PlainAgree, Forwards, Writes, LastWrite, PhisAgree, DefsAgree;
    ConsistentAll(s, labels, forward);
    PlainFrom(s, labels, p, q);
    assert s.code[q][..|s.code[q]|] == s.code[q];
    assert Holds(s, labels, entry, sem, q, |s.code[q]|, m, p.variable);
  }

  lemma {:induction false} AgreesAtHead(s: Builder, labels: map<Place, Value>, forward: map<Id, Value>, sem: Sem, oracle: Oracle, entry: Block, w: seq<Block>)
    requires Finished(s, labels, forward) && Path(s, entry, w)
    ensures Last(w) in s.code && LabelsElsewhere(s, labels, Last(w))
    ensures Agrees(s, labels, entry, sem, Last(w), 0, AtHead(s, sem, oracle, w))
    decreases |w|
  {
    hide Consistent, UsesAgree, Agrees, NewPhisDone, AllWaiting, PlainAgree;
    ReadyIsConsistent(s, labels, forward);
    ConsistentAll(s, labels, forward);
    var b, m := Last(w), AtHead(s, sem, oracle, w);
    if |w| > 1 {
      assert Arc(s, w[|w| - 2], w[|w| - 2 + 1]);
    }
    forall p | p in labels && p.block == b && labels[p].Result? ensures !ComputedIn(s, labels[p].id, b) {
      LabelFromElsewhere(s, labels, forward, entry, w, p);
    }
    forall p | p in labels && p.block == b ensures Read(sem, m.env, labels[p]) == Stored(sem, labels, entry, m.store, p.variable) {
      LabelFromElsewhere(s, labels, forward, entry, w, p);
      if |w| == 1 {
        EntryLabel(s, labels, forward, p);
      } else {
        var v, q := w[..|w| - 1], w[|w| - 2];
        PathPrefix(s, entry, w, |w| - 1);
        AgreesAtHead(s, labels, forward, sem, oracle, entry, v);
        AgreesAt(s, labels, entry, sem, oracle, v, q, |s.code[q]|, AtHead(s, sem, oracle, v));
        assert s.code[q][..|s.code[q]|] == s.code[q];
        if OwnPhi(s, labels, p) {
          PhiTakes(s, labels, forward, entry, sem, q, AtEnd(s, sem, oracle, v), p);
        } else {
          PlainTakes(s, labels, forward, entry, sem, q, AtEnd(s, sem, oracle, v), p);
        }
      }
    }
    HeadAgrees(s, labels, entry, sem, b, m);
  }

  lemma EntryLabel(s: Builder, labels: map<Place, Value>, forward: map<Id, Value>, p: Place)
    requires Finished(s, labels, forward) && p in labels && p.block in s.preds && s.preds[p.block] == {}
    ensures labels[p].Undefined?
  {
    if OwnPhi(s, labels, p) {
      assert PhiAgrees(s, labels, labels[p].id);
      EmptyKeys(s.phis[labels[p].id].operands);
    }
  }

  lemma HeadAgrees(s: Builder, labels: map<Place, Value>, entry: Block, sem: Sem, b: Block, m: Memory)
    requires b in s.code && forall p :: p in labels && p.block == b ==> Read(sem, m.env, labels[p]) == Stored(sem, labels, entry, m.store, p.variable)
    ensures Agrees(s, labels, entry, sem, b, 0, m)
  {
  }

  /**
    The result: after any path from the entry, through any number of loops, each
    use sees the value the program last assigned to its variable.
   */
  lemma UsesSeeLastAssignment(s: Builder, labels: map<Place, Value>, forward: map<Id, Value>, sem: Sem, oracle: Oracle, entry: Block, w: seq<Block>, i: nat)
    requires Finished(s, labels, forward) && Path(s, entry, w) && i < |CodeIn(s, Last(w))| && CodeIn(s, Last(w))[i].Use?
    ensures var m := PerformAll(sem, oracle, w, CodeIn(s, Last(w))[..i], AtHead(s, sem, oracle, w));
            Read(sem, m.env, CodeIn(s, Last(w))[i].value) == Stored(sem, labels, entry, m.store, CodeIn(s, Last(w))[i].variable)
  {
    hide PlainAgree, PhisAgree, NothingRemoved, DefsAgree, NewPhisDone, AllWaiting, LabelsElsewhere;
    var b := Last(w);
    AgreesAtHead(s, labels, forward, sem, oracle, entry, w);
    AgreesAt(s, labels, entry, sem, oracle, w, b, i, AtHead(s, sem, oracle, w));
    assert UseAgrees(s.code[b], labels, b, i);
    assert Holds(s, labels, entry, sem, b, i, PerformAll(sem, oracle, w, s.code[b][..i], AtHead(s, sem, oracle, w)), s.code[b][i].variable);
  }

  // ----- looking back ends -----

  ghost predicate Reached(s: Builder, entry: Block, b: Block) {
    exists w :: Path(s, entry, w) && Last(w) == b
  }

  ghost predicate Shortest(s: Builder, entry: Block, w: seq<Block>) {
    Path(s, entry, w) && forall u :: Path(s, entry, u) && Last(u) == Last(w) ==> |w| <= |u|
  }

  lemma {:induction false} SomeShortest(s: Builder, entry: Block, w: seq<Block>) returns (v: seq<Block>)
    requires Path(s, entry, w)
    ensures Shortest(s, entry, v) && Last(v) == Last(w)
    decreases |w|
  {
    if u :| Path(s, entry, u) && Last(u) == Last(w) && |u| < |w| {
      v := SomeShortest(s, entry, u);
    } else {
      v := w;
    }
  }

  ghost function Distance(s: Builder, entry: Block, b: Block): nat
    requires exists w :: Shortest(s, entry, w) && Last(w) == b
  {
    var w :| Shortest(s, entry, w) && Last(w) == b;
    |w|
  }

  lemma {:induction false} SomeBound(dist: map<Block, nat>) returns (bound: nat)
    ensures forall b :: b in dist ==> dist[b] < bound
    decreases |dist.Keys|
  {
    if dist.Keys == {} {
      bound := 0;
    } else {
      var b :| b in dist.Keys;
      var rest := map c | c in dist && c != b :: dist[c];
      assert rest.Keys == dist.Keys - {b};
      bound := SomeBound(rest);
      bound := if dist[b] < bound then bound else dist[b] + 1;
      assert forall c :: c in dist && c != b ==> c in rest;
    }
  }

  lemma DistanceOf(s: Builder, entry: Block, b: Block) returns (w: seq<Block>)
    requires Reached(s, entry, b)
    ensures (exists v :: Shortest(s, entry, v) && Last(v) == b) && Shortest(s, entry, w) && Last(w) == b && |w| == Distance(s, entry, b)
  {
    var u :| Path(s, entry, u) && Last(u) == b;
    var v := SomeShortest(s, entry, u);
    w :| Shortest(s, entry, w) && Last(w) == b && |w| == Distance(s, entry, b);
  }

  lemma Nearer(s: Builder, entry: Block, b: Block, q: Block)
    requires Reached(s, entry, b) && Reached(s, entry, q) && b in s.preds && s.preds[b] == {q}
    ensures (exists v :: Shortest(s, entry, v) && Last(v) == b) && exists v :: Shortest(s, entry, v) && Last(v) == q
    ensures Distance(s, entry, q) < Distance(s, entry, b)
  {
    var w := DistanceOf(s, entry, b);
    var u := DistanceOf(s, entry, q);
    assert w[0] == entry && b != entry;
    assert Arc(s, w[|w| - 2], w[|w| - 2 + 1]);
    PathPrefix(s, entry, w, |w| - 1);
  }

  /** When every block is reachable from the entry, looking back through single predecessors ends. */
  lemma ReachableIsGrounded(s: Builder, labels: map<Place, Value>, entry: Block) returns (dist: map<Block, nat>, bound: nat)
    requires Shaped(s, labels) && forall b :: b in s.preds ==> Reached(s, entry, b)
    ensures Grounded(s.preds, dist, bound)
  {
    hide Reached;
    forall b | b in s.preds ensures exists w :: Shortest(s, entry, w) && Last(w) == b {
      var w := DistanceOf(s, entry, b);
    }
    dist := map b | b in s.preds :: Distance(s, entry, b);
    bound := SomeBound(dist);
    forall b, q | b in s.preds && s.preds[b] == {q} ensures q in s.preds && dist[q] < dist[b] {
      assert q in s.preds[b];
      Nearer(s, entry, b, q);
    }
  }
}
