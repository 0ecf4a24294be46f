/** Histories whose verdict can be read off: quiet ones, stale ones, and those of one write and one read. */
module Verdicts {
  import opened Collections
  import opened Histories
  import opened Linearizability
  import opened Locality

  ghost predicate IsOpIn(h: Trace, o: OpId) {
    o in Ops(h) && IsOperation(Filter(h, Only(o)))
  }

  lemma OpsAreComplete(h: Trace, o: OpId)
    requires Complete(h) && o in Ops(h)
    ensures IsOpIn(h, o)
  {
    OperationEntries(h, o);
  }

  // Quiet histories.

  /** No key is both read and written, and reads return what their register holds from the start. */
  ghost predicate Quiet(h: Trace, st: Registers)
    requires Complete(h)
  {
    forall r | r in Ops(h) && IsOpIn(h, r) && !IsWrite(h, r) ::
      && ValueOf(h, r) == Lookup(st, r.0)
      && forall w | w in Ops(h) && IsOpIn(h, w) && w.0 == r.0 :: !IsWrite(h, w)
  }

  lemma FirstIsMinimal(h: Trace)
    requires Complete(h) && h != []
    ensures IsMinimal(h, OpOf(h[0])) && IsOpIn(h, OpOf(h[0]))
  {
    var o := OpOf(h[0]);
    assert h[0] in h && o in Ops(h);
    OpsAreComplete(h, o);
    FilterCons(h[0], h[1..], Only(o));
    assert h == [h[0]] + h[1..];
    assert Invokation(h, o) == h[0];
    MinimalOpsAreMinimal(h, h[0]);
  }

  lemma SameInRest(h: Trace, op: OpId, o: OpId)
    requires Complete(h) && o in Ops(h) && o != op
    ensures IsOpIn(h, o) && o in Ops(Without(h, op)) && Filter(Without(h, op), Only(o)) == Filter(h, Only(o))
  {
    OpsAreComplete(h, o);
    WithoutOps(h, op);
    WithoutOperation(h, op, o);
  }

  lemma QuietRest(h: Trace, op: OpId, st: Registers)
    requires Complete(h) && IsOpIn(h, op) && Quiet(h, st)
    ensures Complete(Without(h, op)) && Quiet(Without(h, op), Effect(h, op, st))
  {
    var g := Without(h, op);
    SubhistoryComplete(h, Except(op));
    WithoutOps(h, op);
    forall r | r in Ops(g) && IsOpIn(g, r) && !IsWrite(g, r)
      ensures ValueOf(g, r) == Lookup(Effect(h, op, st), r.0)
      ensures forall w | w in Ops(g) && IsOpIn(g, w) && w.0 == r.0 :: !IsWrite(g, w)
    {
      SameInRest(h, op, r);
      forall w | w in Ops(g) && IsOpIn(g, w) && w.0 == r.0 ensures !IsWrite(g, w) {
        SameInRest(h, op, w);
      }
    }
  }

  /** Quiet histories are linearizable in any order that respects time. */
  lemma {:induction false} QuietIsLinearizable(h: Trace, st: Registers)
    requires Complete(h) && Quiet(h, st)
    ensures Linearizable(h, st)
    decreases |h|
  {
    if h == [] {
      EmptyLinearizable(h, st);
    } else {
      FirstIsMinimal(h);
      var op := OpOf(h[0]);
      QuietRest(h, op, st);
      WithoutShorter(h, op);
      QuietIsLinearizable(Without(h, op), Effect(h, op, st));
      var rest :| IsLinearization(rest, Without(h, op), Effect(h, op, st));
      Prepend(op, rest, h, st);
    }
  }

  // Stale reads.

  lemma {:induction false} WrittenIsNotZero(order: seq<OpId>, h: Trace, key: nat, initial: nat, w: OpId)
    requires forall op | op in order :: IsOperation(Filter(h, Only(op)))
    requires w in order && w.0 == key && IsWrite(h, w)
    requires forall op | op in order && op.0 == key && IsWrite(h, op) :: ValueOf(h, op) != 0
    ensures LastWritten(order, h, key, initial) != 0
  {
    var last := order[|order| - 1];
    if !(last.0 == key && IsWrite(h, last)) {
      WrittenIsNotZero(order[..|order| - 1], h, key, initial, w);
    }
  }

  lemma AfterItsPredecessor(order: seq<OpId>, h: Trace, st: Registers, w: OpId, r: OpId) returns (j: nat)
    requires IsLinearization(order, h, st) && IsOpIn(h, w) && IsOpIn(h, r) && w != r && Precedes(h, w, r)
    ensures j < |order| && order[j] == r && w in order[..j]
  {
    assert w in order && r in order;
    var i :| 0 <= i < |order| && order[i] == w;
    j :| 0 <= j < |order| && order[j] == r;
    assert i < j;
    assert order[..j][i] == w;
  }

  /** In every linearization a read that comes after a write of non-zero values does not return zero. */
  lemma LaterReadIsNotZero(order: seq<OpId>, h: Trace, st: Registers, w: OpId, r: OpId)
    requires IsLinearization(order, h, st) && IsOpIn(h, w) && IsOpIn(h, r) && w != r
    requires w.0 == r.0 && IsWrite(h, w) && !IsWrite(h, r) && Precedes(h, w, r)
    requires forall op | op in Ops(h) && IsOpIn(h, op) && op.0 == r.0 && IsWrite(h, op) :: ValueOf(h, op) != 0
    ensures ValueOf(h, r) != 0
  {
    var j := AfterItsPredecessor(order, h, st, w, r);
    LegalReadsLatestWrite(order, h, st);
    WrittenIsNotZero(order[..j], h, r.0, Lookup(st, r.0), w);
  }

  /** A read that returns zero although a write of its key had completed before it began. */
  lemma StaleReadIsNotLinearizable(h: Trace, st: Registers, w: OpId, r: OpId)
    requires IsOpIn(h, w) && IsOpIn(h, r) && w != r
    requires w.0 == r.0 && IsWrite(h, w) && !IsWrite(h, r) && Precedes(h, w, r) && ValueOf(h, r) == 0
    requires forall op | op in Ops(h) && IsOpIn(h, op) && op.0 == r.0 && IsWrite(h, op) :: ValueOf(h, op) != 0
    ensures !Linearizable(h, st)
  {
    forall order ensures !IsLinearization(order, h, st) {
      if IsLinearization(order, h, st) {
        LaterReadIsNotZero(order, h, st, w, r);
        assert false;
      }
    }
  }

  // One write and one read.

  lemma TwoInOrder(a: OpId, b: OpId, h: Trace, st: Registers)
    requires Complete(h) && Ops(h) == {a, b} && a != b && IsOpIn(h, a) && IsOpIn(h, b)
    requires !Precedes(h, b, a) && CanTake(h, a, st) && CanTake(h, b, Effect(h, a, st))
    ensures Linearizable(h, st)
  {
    var order := [a, b];
    assert order[1..] == [b] && [b][1..] == [];
    assert Legal([b], h, Effect(h, a, st));
    assert IsLinearization(order, h, st);
  }

  /** A read returns the old value unless the write came before it, or the new one unless it came before the write. */
  lemma PairIsLinearizable(h: Trace, st: Registers, w: OpId, r: OpId)
    requires Complete(h) && Ops(h) == {w, r} && w != r && w.0 == r.0 && IsOpIn(h, w) && IsOpIn(h, r)
    requires IsWrite(h, w) && !IsWrite(h, r)
    requires (ValueOf(h, r) == Lookup(st, r.0) && !Precedes(h, w, r)) || (ValueOf(h, r) == ValueOf(h, w) && !Precedes(h, r, w))
    ensures Linearizable(h, st)
  {
    if ValueOf(h, r) == Lookup(st, r.0) && !Precedes(h, w, r) {
      TwoInOrder(r, w, h, st);
    } else {
      TwoInOrder(w, r, h, st);
    }
  }

  // Test traces, sorted.

  lemma SortedEntries(t: Trace, o: OpId)
    requires IsTestTrace(t) && o in Ops(t)
    ensures IsOpIn(t, o) && IsOpIn(SortByTime(t), o)
    ensures Filter(SortByTime(t), Only(o)) == Filter(t, Only(o))
  {
    var e :| e in t && OpOf(e) == o;
    SortSorts(t);
    assert e in multiset(SortByTime(t));
    SortFiltered(t, Only(o));
    SortOfSorted(Filter(t, Only(o)));
  }

  lemma SortedOps(t: Trace)
    ensures Ops(SortByTime(t)) == Ops(t)
  {
    SortSorts(t);
    forall e ensures e in SortByTime(t) <==> e in t {
      assert e in multiset(SortByTime(t)) <==> e in multiset(t);
    }
  }

  /** In a sorted trace what comes first is not later. */
  lemma PrecedingIsEarlier(h: Trace, a: OpId, b: OpId)
    requires Complete(h) && SortedByTime(h) && IsOpIn(h, a) && IsOpIn(h, b) && Precedes(h, a, b)
    ensures Response(h, a).time <= Invokation(h, b).time
  {
    var i, j :| 0 <= i < j < |h| && OpOf(h[i]) == a && !h[i].operation.IsInvokation() && OpOf(h[j]) == b && h[j].operation.IsInvokation();
    OperationEntries(h, a);
    OperationEntries(h, b);
    assert h[i] in h && h[j] in h;
  }

  /** What is earlier comes first. */
  lemma EarlierPrecedes(h: Trace, a: OpId, b: OpId)
    requires Complete(h) && SortedByTime(h) && IsOpIn(h, a) && IsOpIn(h, b) && Response(h, a).time < Invokation(h, b).time
    ensures Precedes(h, a, b)
  {
    OperationEntries(h, a);
    OperationEntries(h, b);
    var i :| 0 <= i < |h| && h[i] == Response(h, a);
    var j :| 0 <= j < |h| && h[j] == Invokation(h, b);
    assert i < j;
  }
}
