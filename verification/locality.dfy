/** Checking every key on its own decides linearizability of the whole trace (lib.rs, `all_linearizable`). */
module Locality {
  import opened Collections
  import opened Histories
  import opened Linearizability

  // From the keys to the whole history.

  ghost predicate EachKeyLinearizable(h: Trace, st: Registers) {
    forall e | e in h :: Linearizable(Filter(h, OnKey(e.key)), st)
  }

  lemma KeyHistory(h: Trace, key: nat)
    requires Complete(h)
    ensures IsKeyHistory(Filter(h, OnKey(key)), key)
  {
    SubhistoryComplete(h, OnKey(key));
    FilterContents(h, OnKey(key));
  }

  lemma KeyOps(h: Trace, key: nat, op: OpId)
    ensures op in Ops(Filter(h, OnKey(key))) <==> op in Ops(h) && op.0 == key
  {
    FilterContents(h, OnKey(key));
    if op in Ops(h) && op.0 == key {
      var e :| e in h && OpOf(e) == op;
      assert e in Filter(h, OnKey(key));
    }
  }

  lemma KeyOperation(h: Trace, key: nat, op: OpId)
    requires op.0 == key
    ensures Filter(Filter(h, OnKey(key)), Only(op)) == Filter(h, Only(op))
  {
    FilterAbsorbs(h, OnKey(key), Only(op));
  }

  lemma KeyPrecedes(h: Trace, key: nat, a: OpId, b: OpId)
    requires a.0 == key && b.0 == key
    ensures Precedes(Filter(h, OnKey(key)), a, b) <==> Precedes(h, a, b)
  {
    PrecedesInSubhistory(h, OnKey(key), a, b);
  }

  /** Legality on one key depends only on that key's register. */
  lemma {:induction false} LegalOnKey(order: seq<OpId>, h: Trace, key: nat, st: Registers, st': Registers)
    requires forall op | op in order :: op.0 == key && IsOperation(Filter(h, Only(op)))
    requires Lookup(st, key) == Lookup(st', key)
    ensures Legal(order, h, st) <==> Legal(order, h, st')
  {
    if order != [] {
      LegalOnKey(order[1..], h, key, Effect(h, order[0], st), Effect(h, order[0], st'));
    }
  }

  lemma LinearizationOnKey(order: seq<OpId>, h: Trace, key: nat, st: Registers, st': Registers)
    requires IsLinearization(order, h, st) && forall e | e in h :: e.key == key
    requires Lookup(st, key) == Lookup(st', key)
    ensures IsLinearization(order, h, st')
  {
    forall op | op in order ensures op.0 == key {
      assert op in Ops(h);
    }
    LegalOnKey(order, h, key, st, st');
  }

  lemma {:induction false} FirstResponse(h: Trace) returns (r: nat)
    requires Complete(h) && h != []
    ensures r < |h| && !h[r].operation.IsInvokation()
    ensures forall i | 0 <= i < r :: h[i].operation.IsInvokation()
  {
    OperationEntries(h, OpOf(h[0]));
    var resp := Response(h, OpOf(h[0]));
    var i :| 0 <= i < |h| && h[i] == resp;
    r := |MinimalOps(h)|;
    MinimalPrefix(h);
    assert forall i | 0 <= i < r :: h[i] == MinimalOps(h)[i];
  }

  /** An operation that is invoked before the first response is minimal. */
  lemma InvokedEarly(h: Trace, r: nat, op: OpId)
    requires Complete(h) && op in Ops(h) && r < |h|
    requires forall i | 0 <= i < r :: h[i].operation.IsInvokation()
    requires !h[r].operation.IsInvokation()
    requires !Precedes(h, OpOf(h[r]), op)
    ensures IsMinimal(h, op)
  {
  }

  /**
   * Among the first operations of the keys' linearizations one is minimal in the whole history:
   * the one on the key whose response comes first.
   */
  lemma SomeHeadIsMinimal(h: Trace, st: Registers) returns (key: nat, order: seq<OpId>)
    requires Complete(h) && h != [] && EachKeyLinearizable(h, st)
    ensures order != [] && IsLinearization(order, Filter(h, OnKey(key)), st)
    ensures order[0].0 == key && IsMinimal(h, order[0])
  {
    var r := FirstResponse(h);
    key := h[r].key;
    var g := Filter(h, OnKey(key));
    order :| IsLinearization(order, g, st);
    var first := OpOf(h[r]);
    KeyOps(h, key, first);
    assert first in order;
    Behead(order, g, st);
    KeyOps(h, key, order[0]);
    KeyPrecedes(h, key, first, order[0]);
    InvokedEarly(h, r, order[0]);
  }

  lemma WithoutOnKey(h: Trace, op: OpId, key: nat)
    ensures Filter(Without(h, op), OnKey(key)) == Without(Filter(h, OnKey(key)), op)
    ensures op.0 != key ==> Filter(Without(h, op), OnKey(key)) == Filter(h, OnKey(key))
  {
    FilterCommutes(h, Except(op), OnKey(key));
    FilterContents(h, OnKey(key));
    FilterContents(Filter(h, OnKey(key)), Except(op));
  }

  lemma OtherKeyUnaffected(h: Trace, key: nat, st: Registers, st': Registers)
    requires Linearizable(Filter(h, OnKey(key)), st) && Lookup(st, key) == Lookup(st', key)
    ensures Linearizable(Filter(h, OnKey(key)), st')
  {
    var other :| IsLinearization(other, Filter(h, OnKey(key)), st);
    FilterContents(h, OnKey(key));
    LinearizationOnKey(other, Filter(h, OnKey(key)), key, st, st');
  }

  /** Taking the head of one key's linearization leaves every key linearizable. */
  lemma RestStaysLinearizable(h: Trace, st: Registers, key: nat, order: seq<OpId>)
    requires Complete(h) && EachKeyLinearizable(h, st)
    requires order != [] && IsLinearization(order, Filter(h, OnKey(key)), st) && order[0].0 == key
    requires order[0] in Ops(h)
    ensures IsOperation(Filter(h, Only(order[0]))) && CanTake(h, order[0], st)
    ensures EachKeyLinearizable(Without(h, order[0]), Effect(h, order[0], st))
  {
    var op := order[0];
    var g, st' := Without(h, op), Effect(h, op, st);
    OperationEntries(h, op);
    KeyOperation(h, key, op);
    Behead(order, Filter(h, OnKey(key)), st);
    FilterContents(h, Except(op));
    forall e | e in g
      ensures Linearizable(Filter(g, OnKey(e.key)), st')
    {
      WithoutOnKey(h, op, e.key);
      if e.key == key {
        var own := Filter(h, OnKey(key));
        Witnessed(order[1..], Without(own, op), Effect(own, op, st));
        assert Effect(own, op, st) == st';
      } else {
        assert e in h;
        OtherKeyUnaffected(h, e.key, st, st');
      }
    }
  }

  /** Per-key linearizations merge into one that respects real time across keys: there is never a cycle. */
  lemma {:induction false} Merge(h: Trace, st: Registers)
    requires Complete(h) && EachKeyLinearizable(h, st)
    ensures Linearizable(h, st)
    decreases |h|
  {
    if h == [] {
      EmptyLinearizable(h, st);
    } else {
      var key, order := SomeHeadIsMinimal(h, st);
      var op := order[0];
      RestStaysLinearizable(h, st, key, order);
      SubhistoryComplete(h, Except(op));
      WithoutShorter(h, op);
      Merge(Without(h, op), Effect(h, op, st));
      var rest :| IsLinearization(rest, Without(h, op), Effect(h, op, st));
      Prepend(op, rest, h, st);
    }
  }

  // From the whole history to a key.

  /** Each key of a linearizable history is linearizable: drop the other keys' operations from the order. */
  lemma {:induction false} Project(h: Trace, st: Registers, key: nat)
    requires Linearizable(h, st)
    ensures Linearizable(Filter(h, OnKey(key)), st)
    decreases |h|
  {
    var order :| IsLinearization(order, h, st);
    KeyHistory(h, key);
    assert h != [] ==> OpOf(h[0]) in Ops(h);
    if order == [] {
      EmptyLinearizable(Filter(h, OnKey(key)), st);
    } else {
      var op := order[0];
      var st' := Effect(h, op, st);
      Behead(order, h, st);
      WithoutShorter(h, op);
      Project(Without(h, op), st', key);
      WithoutOnKey(h, op, key);
      var g := Filter(h, OnKey(key));
      if op.0 == key {
        KeyOps(h, key, op);
        KeyOperation(h, key, op);
        KeyMinimal(h, key, op);
        var rest :| IsLinearization(rest, Without(g, op), st');
        Prepend(op, rest, g, st);
        Witnessed([op] + rest, g, st);
      } else {
        OtherKeyUnaffected(h, key, st', st);
      }
    }
  }

  lemma KeyMinimal(h: Trace, key: nat, op: OpId)
    requires IsMinimal(h, op) && op.0 == key
    ensures IsMinimal(Filter(h, OnKey(key)), op)
  {
    var g := Filter(h, OnKey(key));
    KeyOps(h, key, op);
    forall a ensures !Precedes(g, a, op) {
      PrecederOccurs(g, a, op);
      KeyOps(h, key, a);
      if a.0 == key {
        KeyPrecedes(h, key, a, op);
      }
    }
  }

  /** Linearizability is local: the whole history is linearizable exactly when each key's history is. */
  lemma LinearizabilityIsLocal(h: Trace, st: Registers)
    requires Complete(h)
    ensures Linearizable(h, st) <==> EachKeyLinearizable(h, st)
  {
    if Linearizable(h, st) {
      forall e | e in h ensures Linearizable(Filter(h, OnKey(e.key)), st) {
        Project(h, st, e.key);
      }
    } else if EachKeyLinearizable(h, st) {
      Merge(h, st);
    }
  }

  // Sorting by time.

  /** Inserts an entry before the first entry that is not earlier. */
  function InsertByTime(e: KVTimestamp, t: Trace): (r: Trace)
    ensures |r| == |t| + 1
  {
    if t == [] || e.time <= t[0].time then [e] + t else [t[0]] + InsertByTime(e, t[1..])
  }

  /** The stable sort by time. */
  function SortByTime(t: Trace): (r: Trace)
    ensures |r| == |t|
  {
    if t == [] then [] else InsertByTime(t[0], SortByTime(t[1..]))
  }

  predicate SortedByTime(t: Trace) {
    forall i, j | 0 <= i < j < |t| :: t[i].time <= t[j].time
  }

  lemma {:induction false} InsertContents(e: KVTimestamp, t: Trace)
    ensures multiset(InsertByTime(e, t)) == multiset(t) + multiset{e}
    ensures forall x | x in InsertByTime(e, t) :: x == e || x in t
  {
    if t != [] && e.time > t[0].time {
      InsertContents(e, t[1..]);
      assert t == [t[0]] + t[1..];
    }
  }

  lemma SortedCons(e: KVTimestamp, t: Trace)
    requires SortedByTime(t) && forall x | x in t :: e.time <= x.time
    ensures SortedByTime([e] + t)
  {
  }

  lemma {:induction false} InsertSorted(e: KVTimestamp, t: Trace)
    requires SortedByTime(t)
    ensures SortedByTime(InsertByTime(e, t))
  {
    if t == [] || e.time <= t[0].time {
      SortedCons(e, t);
    } else {
      InsertSorted(e, t[1..]);
      InsertContents(e, t[1..]);
      SortedCons(t[0], InsertByTime(e, t[1..]));
    }
  }

  lemma {:induction false} SortSorts(t: Trace)
    ensures SortedByTime(SortByTime(t)) && multiset(SortByTime(t)) == multiset(t)
  {
    if t != [] {
      SortSorts(t[1..]);
      InsertSorted(t[0], SortByTime(t[1..]));
      InsertContents(t[0], SortByTime(t[1..]));
      assert t == [t[0]] + t[1..];
    }
  }

  lemma {:induction false} InsertFiltered(e: KVTimestamp, t: Trace, sel: Selector)
    requires SortedByTime(t)
    ensures Filter(InsertByTime(e, t), sel)
         == if sel.Selects(e) then InsertByTime(e, Filter(t, sel)) else Filter(t, sel)
  {
    if t == [] || e.time <= t[0].time {
      FilterCons(e, t, sel);
      FilterContents(t, sel);
      if Filter(t, sel) != [] {
        assert Filter(t, sel)[0] in t;
      }
    } else {
      InsertFiltered(e, t[1..], sel);
      FilterCons(t[0], InsertByTime(e, t[1..]), sel);
      assert ([t[0]] + Filter(t[1..], sel))[1..] == Filter(t[1..], sel);
    }
  }

  /** Sorting a subhistory is taking the same subhistory of the sorted history. */
  lemma {:induction false} SortFiltered(t: Trace, sel: Selector)
    ensures Filter(SortByTime(t), sel) == SortByTime(Filter(t, sel))
  {
    if t != [] {
      SortFiltered(t[1..], sel);
      SortSorts(t[1..]);
      InsertFiltered(t[0], SortByTime(t[1..]), sel);
      assert sel.Selects(t[0]) ==> ([t[0]] + Filter(t[1..], sel))[1..] == Filter(t[1..], sel);
    }
  }

  lemma {:induction false} SortOfSorted(t: Trace)
    requires SortedByTime(t)
    ensures SortByTime(t) == t
  {
    if t != [] {
      SortOfSorted(t[1..]);
      assert t == [t[0]] + t[1..];
    }
  }

  /** The sort is stable: entries of one time keep their order. */
  lemma SortIsStable(t: Trace, time: int)
    ensures Filter(SortByTime(t), AtTime(time)) == Filter(t, AtTime(time))
  {
    SortFiltered(t, AtTime(time));
    FilterContents(t, AtTime(time));
    forall i | 0 <= i < |Filter(t, AtTime(time))| ensures Filter(t, AtTime(time))[i].time == time {
      assert Filter(t, AtTime(time))[i] in Filter(t, AtTime(time));
    }
    SortOfSorted(Filter(t, AtTime(time)));
  }

  // The whole checker.

  /** Each (key, sender) pair does one operation, and its response is not timed before its invocation. */
  ghost predicate IsTestTrace(t: Trace) {
    forall e | e in t ::
      IsOperation(Filter(t, Only(OpOf(e)))) && Invokation(t, OpOf(e)).time <= Response(t, OpOf(e)).time
  }

  lemma SortedTraceComplete(t: Trace)
    requires IsTestTrace(t)
    ensures Complete(SortByTime(t))
  {
    SortSorts(t);
    forall e | e in SortByTime(t)
      ensures IsOperation(Filter(SortByTime(t), Only(OpOf(e))))
    {
      assert e in multiset(SortByTime(t));
      assert e in t;
      SortFiltered(t, Only(OpOf(e)));
      SortOfSorted(Filter(t, Only(OpOf(e))));
    }
  }

  /** What `all_linearizable` has to decide: the time-sorted trace is linearizable as a map of registers, all 0 at first. */
  ghost predicate TraceLinearizable(t: Trace) {
    Linearizable(SortByTime(t), map[])
  }

  /** The verdict for one key, as the loop computes it. */
  ghost predicate KeyOk(t: Trace, key: nat) {
    Linearizable(SortByTime(Filter(t, OnKey(key))), map[key := 0])
  }

  /** The conjunction of the verdicts per key is the verdict for the whole sorted trace. */
  lemma AllKeysDecide(t: Trace)
    requires IsTestTrace(t)
    ensures TraceLinearizable(t) <==> forall e | e in t :: KeyOk(t, e.key)
  {
    var h := SortByTime(t);
    SortedTraceComplete(t);
    LinearizabilityIsLocal(h, map[]);
    SortSorts(t);
    forall e ensures e in h <==> e in t {
      assert e in multiset(h) <==> e in multiset(t);
    }
    forall e | e in t
      ensures KeyOk(t, e.key) <==> Linearizable(Filter(h, OnKey(e.key)), map[])
    {
      KeyVerdict(t, e.key);
    }
  }

  lemma KeyVerdict(t: Trace, key: nat)
    requires Complete(SortByTime(t))
    ensures KeyOk(t, key) <==> Linearizable(Filter(SortByTime(t), OnKey(key)), map[])
  {
    SortFiltered(t, OnKey(key));
    var g := Filter(SortByTime(t), OnKey(key));
    FilterContents(SortByTime(t), OnKey(key));
    forall order
      ensures IsLinearization(order, g, map[]) <==> IsLinearization(order, g, map[key := 0])
    {
      if IsLinearization(order, g, map[]) {
        LinearizationOnKey(order, g, key, map[], map[key := 0]);
      } else if IsLinearization(order, g, map[key := 0]) {
        LinearizationOnKey(order, g, key, map[key := 0], map[]);
      }
    }
  }

  /** One checker run per key, stopping at the first failure; keys come in any order. */
  method AllLinearizable(timestamps: Trace) returns (ok: bool)
    requires IsTestTrace(timestamps)
    ensures ok <==> TraceLinearizable(timestamps)
  {
    AllKeysDecide(timestamps);
    SortedTraceComplete(timestamps);
    var keys := set e | e in timestamps :: e.key;
    while keys != {}
      invariant keys <= set e | e in timestamps :: e.key
      invariant forall e | e in timestamps && e.key !in keys :: KeyOk(timestamps, e.key)
      decreases |keys|
    {
      var key :| key in keys;
      var trace := SortByTime(Filter(timestamps, OnKey(key)));
      KeyHistory(SortByTime(timestamps), key);
      SortFiltered(timestamps, OnKey(key));
      var s := new ValueStack(0);
      ok := IsLinearizable(trace, s, key);
      if !ok {
        return false;
      }
      keys := keys - {key};
    }
    ok := true;
  }
}
