/** Histories of register operations, as the linearizability checker of lib.rs sees them. */
module Histories {
  import opened Collections

  datatype KVOperation = ReadInvokation | ReadResponse | WriteInvokation | WriteResponse {
    predicate IsInvokation() {
      ReadInvokation? || WriteInvokation?
    }
  }

  datatype KVTimestamp = KVTimestamp(key: nat, operation: KVOperation, value: Option<nat>, time: int, sender: nat)

  type Trace = seq<KVTimestamp>

  /** An operation is known by its key and its sender. */
  type OpId = (nat, nat)

  function OpOf(e: KVTimestamp): OpId {
    (e.key, e.sender)
  }

  function Ops(h: Trace): set<OpId> {
    set e | e in h :: OpOf(e)
  }

  // Subhistories.

  datatype Selector = Except(op: OpId) | Only(op: OpId) | OnKey(key: nat) | NotFrom(sender: nat) | AtTime(time: int) {

    predicate Selects(e: KVTimestamp) {
      match this
      case Except(op) => OpOf(e) != op
      case Only(op) => OpOf(e) == op
      case OnKey(key) => e.key == key
      case NotFrom(sender) => e.sender != sender
      case AtTime(time) => e.time == time
    }
  }

  function Filter(h: Trace, sel: Selector): (r: Trace)
    ensures |r| <= |h|
  {
    if h == [] then []
    else if sel.Selects(h[0]) then [h[0]] + Filter(h[1..], sel)
    else Filter(h[1..], sel)
  }

  lemma {:induction false} FilterContents(h: Trace, sel: Selector)
    ensures forall e :: e in Filter(h, sel) <==> e in h && sel.Selects(e)
    ensures |Filter(h, sel)| == |h| ==> Filter(h, sel) == h
    ensures (forall e | e in h :: sel.Selects(e)) ==> Filter(h, sel) == h
  {
    if h != [] {
      FilterContents(h[1..], sel);
      assert h == [h[0]] + h[1..];
    }
  }

  lemma {:induction false} FilterCommutes(h: Trace, a: Selector, b: Selector)
    ensures Filter(Filter(h, a), b) == Filter(Filter(h, b), a)
  {
    if h != [] {
      FilterCommutes(h[1..], a, b);
      FilterCons(h[0], Filter(h[1..], a), b);
      FilterCons(h[0], Filter(h[1..], b), a);
    }
  }

  lemma FilterCons(e: KVTimestamp, t: Trace, sel: Selector)
    ensures Filter([e] + t, sel) == if sel.Selects(e) then [e] + Filter(t, sel) else Filter(t, sel)
  {
    assert ([e] + t)[1..] == t;
  }

  /** A finer selection is not affected by a coarser one. */
  lemma {:induction false} FilterAbsorbs(h: Trace, coarse: Selector, fine: Selector)
    requires forall e | e in h && fine.Selects(e) :: coarse.Selects(e)
    ensures Filter(Filter(h, coarse), fine) == Filter(h, fine)
  {
    if h != [] {
      FilterAbsorbs(h[1..], coarse, fine);
      FilterCons(h[0], Filter(h[1..], coarse), fine);
    }
  }

  ghost predicate Ordered(h: Trace, e: KVTimestamp, f: KVTimestamp) {
    exists i, j :: 0 <= i < j < |h| && h[i] == e && h[j] == f
  }

  /** A subhistory orders its entries as the whole history does. */
  lemma {:induction false} FilterKeepsOrder(h: Trace, sel: Selector, e: KVTimestamp, f: KVTimestamp)
    requires sel.Selects(e) && sel.Selects(f)
    ensures Ordered(Filter(h, sel), e, f) <==> Ordered(h, e, f)
  {
    if h != [] {
      var t := h[1..];
      FilterKeepsOrder(t, sel, e, f);
      FilterContents(t, sel);
      OrderedCons(h[0], t, e, f);
      assert h == [h[0]] + t;
      if sel.Selects(h[0]) {
        OrderedCons(h[0], Filter(t, sel), e, f);
      }
    }
  }

  lemma OrderedCons(x: KVTimestamp, t: Trace, e: KVTimestamp, f: KVTimestamp)
    ensures Ordered([x] + t, e, f) <==> (x == e && f in t) || Ordered(t, e, f)
  {
    var h := [x] + t;
    if Ordered(h, e, f) {
      var i, j :| 0 <= i < j < |h| && h[i] == e && h[j] == f;
      assert h[j] == t[j - 1];
      if i > 0 {
        assert h[i] == t[i - 1];
      }
    }
    if x == e && f in t {
      var j :| 0 <= j < |t| && t[j] == f;
      assert h[0] == e && h[j + 1] == f;
    }
    if Ordered(t, e, f) {
      var i, j :| 0 <= i < j < |t| && t[i] == e && t[j] == f;
      assert h[i + 1] == e && h[j + 1] == f;
    }
  }

  // Complete histories.

  /** One invocation followed by its response; a write carries its value, a read's response what it read. */
  predicate IsOperation(p: Trace) {
    && |p| == 2
    && ((p[0].operation.ReadInvokation? && p[1].operation.ReadResponse? && p[1].value.Some?)
        || (p[0].operation.WriteInvokation? && p[1].operation.WriteResponse? && p[0].value.Some?))
  }

  /** Every (key, sender) pair that occurs does exactly one operation. */
  ghost predicate Complete(h: Trace) {
    forall e | e in h :: IsOperation(Filter(h, Only(OpOf(e))))
  }

  /** The selector looks at the operation only. */
  predicate ByOperation(sel: Selector) {
    !sel.AtTime?
  }

  lemma SameOperation(h: Trace, sel: Selector, op: OpId)
    requires ByOperation(sel)
    requires exists e :: e in h && OpOf(e) == op && sel.Selects(e)
    ensures Filter(Filter(h, sel), Only(op)) == Filter(h, Only(op))
  {
    FilterAbsorbs(h, sel, Only(op));
  }

  lemma SubhistoryComplete(h: Trace, sel: Selector)
    requires Complete(h) && ByOperation(sel)
    ensures Complete(Filter(h, sel))
  {
    FilterContents(h, sel);
    forall e | e in Filter(h, sel)
      ensures IsOperation(Filter(Filter(h, sel), Only(OpOf(e))))
    {
      SameOperation(h, sel, OpOf(e));
    }
  }

  function Invokation(h: Trace, op: OpId): KVTimestamp
    requires IsOperation(Filter(h, Only(op)))
  {
    Filter(h, Only(op))[0]
  }

  function Response(h: Trace, op: OpId): KVTimestamp
    requires IsOperation(Filter(h, Only(op)))
  {
    Filter(h, Only(op))[1]
  }

  /** The two entries of an operation and their order. */
  lemma OperationEntries(h: Trace, op: OpId)
    requires Complete(h) && op in Ops(h)
    ensures IsOperation(Filter(h, Only(op)))
    ensures var inv, resp := Invokation(h, op), Response(h, op);
      && inv in h && resp in h && OpOf(inv) == op && OpOf(resp) == op
      && inv.operation.IsInvokation() && !resp.operation.IsInvokation()
      && forall e | e in h && OpOf(e) == op :: e == inv || e == resp
  {
    FilterContents(h, Only(op));
  }

  /** The response of `a` comes before the invocation of `b`. */
  ghost predicate Precedes(h: Trace, a: OpId, b: OpId) {
    exists i, j :: 0 <= i < j < |h|
      && OpOf(h[i]) == a && !h[i].operation.IsInvokation()
      && OpOf(h[j]) == b && h[j].operation.IsInvokation()
  }

  lemma PrecedesOrders(h: Trace, a: OpId, b: OpId)
    ensures Precedes(h, a, b) <==>
      exists e, f :: Ordered(h, e, f) && OpOf(e) == a && !e.operation.IsInvokation()
                     && OpOf(f) == b && f.operation.IsInvokation()
  {
    if Precedes(h, a, b) {
      var i, j :| 0 <= i < j < |h|
        && OpOf(h[i]) == a && !h[i].operation.IsInvokation()
        && OpOf(h[j]) == b && h[j].operation.IsInvokation();
      assert Ordered(h, h[i], h[j]);
    }
  }

  /** Real-time order is the same in a subhistory that keeps both operations. */
  lemma PrecedesInSubhistory(h: Trace, sel: Selector, a: OpId, b: OpId)
    requires forall e | OpOf(e) == a || OpOf(e) == b :: sel.Selects(e)
    ensures Precedes(Filter(h, sel), a, b) <==> Precedes(h, a, b)
  {
    PrecedesOrders(h, a, b);
    PrecedesOrders(Filter(h, sel), a, b);
    forall e, f | (OpOf(e) == a || OpOf(e) == b) && (OpOf(f) == a || OpOf(f) == b)
      ensures Ordered(Filter(h, sel), e, f) <==> Ordered(h, e, f)
    {
      FilterKeepsOrder(h, sel, e, f);
    }
  }

  /** No operation precedes itself. */
  lemma NotBeforeItself(h: Trace, op: OpId)
    requires Complete(h) && op in Ops(h)
    ensures !Precedes(h, op, op)
  {
    OperationEntries(h, op);
    PrecedesInSubhistory(h, Only(op), op, op);
  }

  // Linearizations.

  predicate IsWrite(h: Trace, op: OpId)
    requires IsOperation(Filter(h, Only(op)))
  {
    Invokation(h, op).operation.WriteInvokation?
  }

  /** What a write writes, or what a read returned. */
  function ValueOf(h: Trace, op: OpId): nat
    requires IsOperation(Filter(h, Only(op)))
  {
    if IsWrite(h, op) then Invokation(h, op).value.value else Response(h, op).value.value
  }

  /** Registers that were never written hold 0. */
  type Registers = map<nat, nat>

  function Lookup(st: Registers, key: nat): nat {
    if key in st then st[key] else 0
  }

  predicate CanTake(h: Trace, op: OpId, st: Registers)
    requires IsOperation(Filter(h, Only(op)))
  {
    !IsWrite(h, op) ==> Lookup(st, op.0) == ValueOf(h, op)
  }

  function Effect(h: Trace, op: OpId, st: Registers): Registers
    requires IsOperation(Filter(h, Only(op)))
  {
    if IsWrite(h, op) then st[op.0 := ValueOf(h, op)] else st
  }

  /** Run one after another, every read returns what its register holds. */
  predicate Legal(order: seq<OpId>, h: Trace, st: Registers)
    requires forall op | op in order :: IsOperation(Filter(h, Only(op)))
  {
    order == [] || (CanTake(h, order[0], st) && Legal(order[1..], h, Effect(h, order[0], st)))
  }

  ghost predicate RespectsTime(order: seq<OpId>, h: Trace) {
    forall i, j | 0 <= i < j < |order| :: !Precedes(h, order[j], order[i])
  }

  /** A sequential order of all operations that respects real time and the register semantics. */
  ghost predicate IsLinearization(order: seq<OpId>, h: Trace, st: Registers) {
    && Complete(h)
    && Distinct(order) && (forall op :: op in order <==> op in Ops(h))
    && RespectsTime(order, h)
    && (forall op | op in order :: IsOperation(Filter(h, Only(op))))
    && Legal(order, h, st)
  }

  ghost predicate Linearizable(h: Trace, st: Registers) {
    exists order :: IsLinearization(order, h, st)
  }

  /** What register `key` holds after the operations of `order`, starting from `initial`. */
  function LastWritten(order: seq<OpId>, h: Trace, key: nat, initial: nat): nat
    requires forall op | op in order :: IsOperation(Filter(h, Only(op)))
  {
    if order == [] then initial
    else
      var last := order[|order| - 1];
      if last.0 == key && IsWrite(h, last) then ValueOf(h, last)
      else LastWritten(order[..|order| - 1], h, key, initial)
  }

  /** The state after a sequence of operations. */
  function Apply(order: seq<OpId>, h: Trace, st: Registers): Registers
    requires forall op | op in order :: IsOperation(Filter(h, Only(op)))
  {
    if order == [] then st else Effect(h, order[|order| - 1], Apply(order[..|order| - 1], h, st))
  }

  lemma {:induction false} ApplyIsLastWritten(order: seq<OpId>, h: Trace, st: Registers, key: nat)
    requires forall op | op in order :: IsOperation(Filter(h, Only(op)))
    ensures Lookup(Apply(order, h, st), key) == LastWritten(order, h, key, Lookup(st, key))
  {
    if order != [] {
      ApplyIsLastWritten(order[..|order| - 1], h, st, key);
    }
  }

  lemma {:induction false} ApplyFirst(op: OpId, order: seq<OpId>, h: Trace, st: Registers)
    requires forall x | x in [op] + order :: IsOperation(Filter(h, Only(x)))
    ensures Apply([op] + order, h, st) == Apply(order, h, Effect(h, op, st))
  {
    if order == [] {
      assert ([op] + order)[..0] == [];
    } else {
      var shorter := order[..|order| - 1];
      ApplyFirst(op, shorter, h, st);
      assert ([op] + order)[..|order|] == [op] + shorter;
    }
  }

  /** Legal means: every read returns the latest preceding write to its key, or the initial value. */
  lemma {:induction false} LegalReadsLatestWrite(order: seq<OpId>, h: Trace, st: Registers)
    requires forall op | op in order :: IsOperation(Filter(h, Only(op)))
    ensures Legal(order, h, st) <==>
      forall i | 0 <= i < |order| && !IsWrite(h, order[i]) ::
        ValueOf(h, order[i]) == LastWritten(order[..i], h, order[i].0, Lookup(st, order[i].0))
    decreases |order|
  {
    if order != [] {
      var op, rest := order[0], order[1..];
      var st' := Effect(h, op, st);
      LegalReadsLatestWrite(rest, h, st');
      forall i | 0 <= i < |rest|
        ensures LastWritten(rest[..i], h, rest[i].0, Lookup(st', rest[i].0))
             == LastWritten(order[..i + 1], h, order[i + 1].0, Lookup(st, order[i + 1].0))
      {
        assert order[..i + 1] == [op] + rest[..i];
        ApplyFirst(op, rest[..i], h, st);
        ApplyIsLastWritten(rest[..i], h, st', rest[i].0);
        ApplyIsLastWritten(order[..i + 1], h, st, rest[i].0);
      }
      assert order[..0] == [];
      assert forall i | 1 <= i < |order| :: order[i] == rest[i - 1];
    }
  }
}
