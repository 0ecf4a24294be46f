/** The backtracking checker for one key (lib.rs, `is_linearizable`) decides linearizability. */
module Linearizability {
  import opened Collections
  import opened Histories

  // Taking one operation off the front of a linearization, and putting it back.

  function Without(h: Trace, op: OpId): Trace {
    Filter(h, Except(op))
  }

  lemma WithoutOps(h: Trace, op: OpId)
    ensures Ops(Without(h, op)) == Ops(h) - {op}
  {
    FilterContents(h, Except(op));
    forall e | e in h && OpOf(e) != op ensures OpOf(e) in Ops(Without(h, op)) {
      assert e in Without(h, op);
    }
  }

  lemma WithoutShorter(h: Trace, op: OpId)
    requires op in Ops(h)
    ensures |Without(h, op)| < |h|
  {
    FilterContents(h, Except(op));
  }

  lemma WithoutOperation(h: Trace, op: OpId, x: OpId)
    requires x != op && x in Ops(h)
    ensures Filter(Without(h, op), Only(x)) == Filter(h, Only(x))
  {
    FilterAbsorbs(h, Except(op), Only(x));
  }

  lemma WithoutPrecedes(h: Trace, op: OpId, a: OpId, b: OpId)
    requires a != op && b != op
    ensures Precedes(Without(h, op), a, b) <==> Precedes(h, a, b)
  {
    PrecedesInSubhistory(h, Except(op), a, b);
  }

  /** Legality looks only at the operations in the order. */
  lemma {:induction false} LegalInSubhistory(order: seq<OpId>, h: Trace, g: Trace, st: Registers)
    requires forall op | op in order :: Filter(g, Only(op)) == Filter(h, Only(op)) && IsOperation(Filter(h, Only(op)))
    ensures Legal(order, g, st) <==> Legal(order, h, st)
  {
    if order != [] {
      LegalInSubhistory(order[1..], h, g, Effect(h, order[0], st));
    }
  }

  /** No response precedes the invocation of `op`. */
  ghost predicate IsMinimal(h: Trace, op: OpId) {
    op in Ops(h) && forall a :: !Precedes(h, a, op)
  }

  lemma PrecederOccurs(h: Trace, a: OpId, b: OpId)
    ensures Precedes(h, a, b) ==> a in Ops(h) && b in Ops(h)
  {
  }

  /** The first operation of a linearization is minimal, and the rest linearizes what remains. */
  lemma Behead(order: seq<OpId>, h: Trace, st: Registers)
    requires IsLinearization(order, h, st) && order != []
    ensures IsMinimal(h, order[0]) && IsOperation(Filter(h, Only(order[0])))
    ensures CanTake(h, order[0], st)
    ensures IsLinearization(order[1..], Without(h, order[0]), Effect(h, order[0], st))
  {
    var op, rest := order[0], order[1..];
    var g := Without(h, op);
    assert op in order;
    forall a ensures !Precedes(h, a, op) {
      PrecederOccurs(h, a, op);
      NotBeforeItself(h, op);
      if a in Ops(h) {
        var j :| 0 <= j < |order| && order[j] == a;
      }
    }
    SubhistoryComplete(h, Except(op));
    WithoutOps(h, op);
    forall i | 0 <= i < |rest| ensures rest[i] == order[i + 1] && rest[i] != op {
    }
    forall x | x in rest ensures Filter(g, Only(x)) == Filter(h, Only(x)) {
      WithoutOperation(h, op, x);
    }
    forall x ensures x in rest <==> x in Ops(g) {
      if x in Ops(g) {
        var i :| 0 <= i < |order| && order[i] == x;
        assert rest[i - 1] == x;
      }
    }
    forall i, j | 0 <= i < j < |rest| ensures !Precedes(g, rest[j], rest[i]) {
      WithoutPrecedes(h, op, rest[j], rest[i]);
    }
    LegalInSubhistory(rest, h, g, Effect(h, op, st));
  }

  /** A minimal operation that can be taken may come first. */
  lemma Prepend(op: OpId, rest: seq<OpId>, h: Trace, st: Registers)
    requires Complete(h) && IsMinimal(h, op) && IsOperation(Filter(h, Only(op)))
    requires CanTake(h, op, st)
    requires IsLinearization(rest, Without(h, op), Effect(h, op, st))
    ensures IsLinearization([op] + rest, h, st)
  {
    var order, g := [op] + rest, Without(h, op);
    WithoutOps(h, op);
    assert order[1..] == rest;
    forall x | x in order ensures IsOperation(Filter(h, Only(x))) {
      OperationEntries(h, x);
    }
    forall x | x in rest ensures Filter(g, Only(x)) == Filter(h, Only(x)) {
      WithoutOperation(h, op, x);
    }
    forall i, j | 0 <= i < j < |order| ensures !Precedes(h, order[j], order[i]) {
      if i > 0 {
        assert order[i] == rest[i - 1] && order[j] == rest[j - 1];
        WithoutPrecedes(h, op, order[j], order[i]);
      }
    }
    LegalInSubhistory(rest, h, g, Effect(h, op, st));
    DistinctConcat([op], rest);
  }

  // The checker.

  /** The invocations before the first response. */
  function MinimalOps(h: Trace): (ops: Trace)
    ensures ops <= h
  {
    if h == [] || !h[0].operation.IsInvokation() then [] else [h[0]] + MinimalOps(h[1..])
  }

  /** The value of the first read response of a sender. */
  function FindReadResponse(h: Trace, sender: nat): Option<nat> {
    if h == [] then None
    else if h[0].operation.ReadResponse? && h[0].sender == sender then h[0].value
    else FindReadResponse(h[1..], sender)
  }

  function ResponseValue(invokation: KVTimestamp, h: Trace): Option<nat> {
    if invokation.operation.ReadInvokation? then FindReadResponse(h, invokation.sender) else invokation.value
  }

  function RemoveOp(entry: KVTimestamp, h: Trace): Trace {
    Filter(h, NotFrom(entry.sender))
  }

  /** What the checker answers for a trace when the top of its value stack is `v`. */
  predicate Checks(h: Trace, v: nat)
    decreases |h|
  {
    h == [] || exists i :: 0 <= i < |MinimalOps(h)| && Accepts(h, MinimalOps(h)[i], v)
  }

  /** The checker succeeds when it linearizes `op` first. */
  predicate Accepts(h: Trace, op: KVTimestamp, v: nat)
    decreases |h|, 0
  {
    var response := ResponseValue(op, h);
    && response.Some? && |RemoveOp(op, h)| < |h|
    && (if op.operation.WriteInvokation? then Checks(RemoveOp(op, h), response.value)
        else v == response.value && Checks(RemoveOp(op, h), v))
  }

  /** A history of a single register, complete. */
  ghost predicate IsKeyHistory(h: Trace, key: nat) {
    Complete(h) && forall e | e in h :: e.key == key
  }

  lemma {:induction false} MinimalPrefix(h: Trace)
    ensures forall i | 0 <= i < |MinimalOps(h)| :: MinimalOps(h)[i].operation.IsInvokation()
    ensures |MinimalOps(h)| < |h| ==> !h[|MinimalOps(h)|].operation.IsInvokation()
  {
    if h != [] {
      MinimalPrefix(h[1..]);
    }
  }

  lemma EarlyIsMinimal(h: Trace, i: nat)
    requires Complete(h) && i < |MinimalOps(h)|
    ensures h[i] == MinimalOps(h)[i] && IsMinimal(h, OpOf(h[i]))
  {
    MinimalPrefix(h);
    var n := |MinimalOps(h)|;
    assert forall x | 0 <= x < n :: h[x] == MinimalOps(h)[x];
    forall a ensures !Precedes(h, a, OpOf(h[i])) {
      if Precedes(h, a, OpOf(h[i])) {
        var p, q :| 0 <= p < q < |h| && OpOf(h[p]) == a && !h[p].operation.IsInvokation()
          && OpOf(h[q]) == OpOf(h[i]) && h[q].operation.IsInvokation();
        InvokedOnce(h, i, q);
      }
    }
  }

  lemma MinimalIsEarly(h: Trace, q: nat)
    requires q < |h| && h[q].operation.IsInvokation() && IsMinimal(h, OpOf(h[q]))
    ensures q < |MinimalOps(h)| && MinimalOps(h)[q] == h[q]
  {
    MinimalPrefix(h);
    var n := |MinimalOps(h)|;
    assert n <= q ==> Precedes(h, OpOf(h[n]), OpOf(h[q]));
  }

  /** `get_minimal_ops` returns exactly the invocations of the minimal operations. */
  lemma MinimalOpsAreMinimal(h: Trace, e: KVTimestamp)
    requires Complete(h)
    ensures e in MinimalOps(h) <==> e in h && e.operation.IsInvokation() && IsMinimal(h, OpOf(e))
  {
    MinimalPrefix(h);
    if e in MinimalOps(h) {
      var i :| 0 <= i < |MinimalOps(h)| && MinimalOps(h)[i] == e;
      EarlyIsMinimal(h, i);
    } else if e in h && e.operation.IsInvokation() && IsMinimal(h, OpOf(e)) {
      var q :| 0 <= q < |h| && h[q] == e;
      MinimalIsEarly(h, q);
    }
  }

  /** No operation is invoked twice. */
  lemma InvokedOnce(h: Trace, i: nat, j: nat)
    requires Complete(h) && i < |h| && j < |h| && i != j && OpOf(h[i]) == OpOf(h[j])
    ensures !(h[i].operation.IsInvokation() && h[j].operation.IsInvokation())
  {
    var first, second := if i < j then h[i] else h[j], if i < j then h[j] else h[i];
    FilterKeepsOrder(h, Only(OpOf(h[i])), first, second);
    assert Ordered(h, first, second);
  }

  lemma {:induction false} FindInOwn(h: Trace, key: nat, sender: nat)
    requires forall e | e in h :: e.key == key
    ensures FindReadResponse(h, sender) == FindReadResponse(Filter(h, Only((key, sender))), sender)
  {
    if h != [] {
      FindInOwn(h[1..], key, sender);
      var sub := Filter(h[1..], Only((key, sender)));
      assert ([h[0]] + sub)[1..] == sub;
    }
  }

  /** On a key history the code finds the operation's value and removes exactly the operation. */
  lemma CodeMatchesOperation(h: Trace, key: nat, e: KVTimestamp)
    requires IsKeyHistory(h, key) && e in h && e.operation.IsInvokation()
    ensures IsOperation(Filter(h, Only(OpOf(e)))) && e == Invokation(h, OpOf(e))
    ensures ResponseValue(e, h) == Some(ValueOf(h, OpOf(e)))
    ensures RemoveOp(e, h) == Without(h, OpOf(e)) && |RemoveOp(e, h)| < |h|
    ensures IsKeyHistory(RemoveOp(e, h), key)
  {
    var op := OpOf(e);
    OperationEntries(h, op);
    FindInOwn(h, key, e.sender);
    SameRemoval(h, key, e.sender);
    WithoutShorter(h, op);
    SubhistoryComplete(h, Except(op));
    FilterContents(h, Except(op));
  }

  lemma {:induction false} SameRemoval(h: Trace, key: nat, sender: nat)
    requires forall e | e in h :: e.key == key
    ensures Filter(h, NotFrom(sender)) == Filter(h, Except((key, sender)))
  {
    if h != [] {
      SameRemoval(h[1..], key, sender);
    }
  }

  /** Linearizing `e` first succeeds exactly when some linearization starts with `e`. */
  ghost predicate StartsLinearization(h: Trace, op: OpId, st: Registers) {
    exists order :: order != [] && order[0] == op && IsLinearization(order, h, st)
  }

  lemma StartsIff(h: Trace, op: OpId, st: Registers)
    requires Complete(h) && IsMinimal(h, op) && IsOperation(Filter(h, Only(op)))
    ensures StartsLinearization(h, op, st) <==> CanTake(h, op, st) && Linearizable(Without(h, op), Effect(h, op, st))
  {
    if CanTake(h, op, st) && Linearizable(Without(h, op), Effect(h, op, st)) {
      var rest :| IsLinearization(rest, Without(h, op), Effect(h, op, st));
      Prepend(op, rest, h, st);
      assert ([op] + rest)[0] == op;
    }
    if StartsLinearization(h, op, st) {
      var order :| order != [] && order[0] == op && IsLinearization(order, h, st);
      Behead(order, h, st);
    }
  }

  lemma Witnessed(order: seq<OpId>, h: Trace, st: Registers)
    requires IsLinearization(order, h, st)
    ensures Linearizable(h, st)
  {
  }

  lemma StartMeansLinearizable(h: Trace, op: OpId, st: Registers)
    requires StartsLinearization(h, op, st)
    ensures Linearizable(h, st)
  {
  }

  lemma NoStartMeansNot(h: Trace, st: Registers)
    requires Complete(h) && h != []
    requires forall i | 0 <= i < |MinimalOps(h)| :: !StartsLinearization(h, OpOf(MinimalOps(h)[i]), st)
    ensures !Linearizable(h, st)
  {
    SomeStart(h, st);
  }

  lemma EmptyLinearizable(h: Trace, st: Registers)
    requires h == []
    ensures IsLinearization([], h, st)
  {
  }

  /** A non-empty history is linearizable exactly when some minimal operation can start a linearization. */
  lemma SomeStart(h: Trace, st: Registers)
    requires Complete(h) && h != []
    ensures Linearizable(h, st) <==>
      exists i :: 0 <= i < |MinimalOps(h)| && StartsLinearization(h, OpOf(MinimalOps(h)[i]), st)
  {
    if Linearizable(h, st) {
      var order :| IsLinearization(order, h, st);
      assert OpOf(h[0]) in Ops(h);
      Behead(order, h, st);
      OperationEntries(h, order[0]);
      var e := Invokation(h, order[0]);
      MinimalOpsAreMinimal(h, e);
      var i :| 0 <= i < |MinimalOps(h)| && MinimalOps(h)[i] == e;
      assert StartsLinearization(h, OpOf(MinimalOps(h)[i]), st);
    }
  }

  /** What the register holds after `e`, for the checker: the value just written, or still `v`. */
  function TopAfter(h: Trace, e: KVTimestamp, v: nat): nat
    requires ResponseValue(e, h).Some?
  {
    if e.operation.WriteInvokation? then ResponseValue(e, h).value else v
  }

  /** Linearizing the minimal operation `e` first, in the code's terms. */
  lemma FirstOutcome(h: Trace, key: nat, e: KVTimestamp, v: nat)
    requires IsKeyHistory(h, key) && e in MinimalOps(h)
    ensures e.operation.IsInvokation() && ResponseValue(e, h).Some?
    ensures IsKeyHistory(RemoveOp(e, h), key) && |RemoveOp(e, h)| < |h|
    ensures StartsLinearization(h, OpOf(e), map[key := v]) <==>
      && (e.operation.ReadInvokation? ==> v == ResponseValue(e, h).value)
      && Linearizable(RemoveOp(e, h), map[key := TopAfter(h, e, v)])
  {
    MinimalPrefix(h);
    MinimalOpsAreMinimal(h, e);
    CodeMatchesOperation(h, key, e);
    var op, st := OpOf(e), map[key := v];
    StartsIff(h, op, st);
    assert Effect(h, op, st) == map[key := TopAfter(h, e, v)];
  }

  lemma AcceptsIff(h: Trace, key: nat, e: KVTimestamp, v: nat)
    requires IsKeyHistory(h, key) && e in MinimalOps(h)
    requires forall g: Trace, w: nat | |g| < |h| && IsKeyHistory(g, key) ::
      Checks(g, w) <==> Linearizable(g, map[key := w])
    ensures Accepts(h, e, v) <==> StartsLinearization(h, OpOf(e), map[key := v])
  {
    FirstOutcome(h, key, e, v);
  }

  /**
   * The checker decides linearizability: it accepts a complete single-key history exactly when
   * some order of its operations respects real time and the register semantics.
   */
  lemma {:induction false} CheckerDecides(h: Trace, key: nat, v: nat)
    requires IsKeyHistory(h, key)
    ensures Checks(h, v) <==> Linearizable(h, map[key := v])
    decreases |h|
  {
    if h == [] {
      EmptyLinearizable(h, map[key := v]);
    } else {
      forall g: Trace, w: nat | |g| < |h| && IsKeyHistory(g, key)
        ensures Checks(g, w) <==> Linearizable(g, map[key := w])
      {
        CheckerDecides(g, key, w);
      }
      forall i | 0 <= i < |MinimalOps(h)|
        ensures Accepts(h, MinimalOps(h)[i], v) <==> StartsLinearization(h, OpOf(MinimalOps(h)[i]), map[key := v])
      {
        AcceptsIff(h, key, MinimalOps(h)[i], v);
      }
      SomeStart(h, map[key := v]);
    }
  }

  // The checker as code: a loop with recursion over a mutable stack of values.

  /** The stack `s` of values written so far; its top is the register's current value. */
  class ValueStack {
    var values: seq<nat>

    constructor (initial: nat)
      ensures values == [initial]
    {
      values := [initial];
    }

    function Last(): nat
      requires values != []
      reads this
    {
      values[|values| - 1]
    }

    method Push(v: nat)
      modifies this
      ensures values == old(values) + [v]
    {
      values := values + [v];
    }

    method Pop()
      requires values != []
      modifies this
      ensures values == old(values)[..|old(values)| - 1]
    {
      values := values[..|values| - 1];
    }
  }

  /** The values an order writes, in order. */
  function Written(order: seq<OpId>, h: Trace): seq<nat>
    requires forall op | op in order :: IsOperation(Filter(h, Only(op)))
  {
    if order == [] then []
    else (if IsWrite(h, order[0]) then [ValueOf(h, order[0])] else []) + Written(order[1..], h)
  }

  lemma {:induction false} WrittenInSubhistory(order: seq<OpId>, h: Trace, g: Trace)
    requires forall op | op in order :: Filter(g, Only(op)) == Filter(h, Only(op)) && IsOperation(Filter(h, Only(op)))
    ensures Written(order, g) == Written(order, h)
  {
    if order != [] {
      WrittenInSubhistory(order[1..], h, g);
    }
  }

  /** Some linearization writes exactly what was pushed. */
  ghost predicate Explains(h: Trace, st: Registers, pushed: seq<nat>) {
    exists order :: IsLinearization(order, h, st) && Written(order, h) == pushed
  }

  lemma WrittenPrepend(op: OpId, rest: seq<OpId>, h: Trace)
    requires IsOperation(Filter(h, Only(op))) && op in Ops(h)
    requires forall x | x in rest :: x != op && x in Ops(h) && IsOperation(Filter(h, Only(x)))
    ensures forall x | x in rest :: IsOperation(Filter(Without(h, op), Only(x)))
    ensures Written([op] + rest, h)
         == (if IsWrite(h, op) then [ValueOf(h, op)] else []) + Written(rest, Without(h, op))
  {
    forall x | x in rest ensures Filter(Without(h, op), Only(x)) == Filter(h, Only(x)) {
      WithoutOperation(h, op, x);
    }
    WrittenInSubhistory(rest, h, Without(h, op));
    assert ([op] + rest)[1..] == rest;
  }

  /** What taking `op` first adds to the stack. */
  function Pushed(h: Trace, op: OpId): seq<nat>
    requires IsOperation(Filter(h, Only(op)))
  {
    if IsWrite(h, op) then [ValueOf(h, op)] else []
  }

  lemma ExplainPrepend(h: Trace, op: OpId, st: Registers, pushed: seq<nat>)
    requires Complete(h) && IsMinimal(h, op) && IsOperation(Filter(h, Only(op))) && CanTake(h, op, st)
    requires Explains(Without(h, op), Effect(h, op, st), pushed)
    ensures Explains(h, st, Pushed(h, op) + pushed)
  {
    var rest :| IsLinearization(rest, Without(h, op), Effect(h, op, st)) && Written(rest, Without(h, op)) == pushed;
    Prepend(op, rest, h, st);
    WithoutOps(h, op);
    forall x | x in rest ensures x != op && x in Ops(h) && IsOperation(Filter(h, Only(x))) {
      OperationEntries(h, x);
    }
    WrittenPrepend(op, rest, h);
  }

  /** The same in the code's terms. */
  lemma ExplainFirst(h: Trace, key: nat, e: KVTimestamp, v: nat, pushed: seq<nat>)
    requires IsKeyHistory(h, key) && e in MinimalOps(h) && ResponseValue(e, h).Some?
    requires e.operation.ReadInvokation? ==> v == ResponseValue(e, h).value
    requires Explains(RemoveOp(e, h), map[key := TopAfter(h, e, v)], pushed)
    ensures Explains(h, map[key := v],
      (if e.operation.WriteInvokation? then [ResponseValue(e, h).value] else []) + pushed)
  {
    MinimalPrefix(h);
    MinimalOpsAreMinimal(h, e);
    CodeMatchesOperation(h, key, e);
    var op, st := OpOf(e), map[key := v];
    assert Effect(h, op, st) == map[key := TopAfter(h, e, v)];
    ExplainPrepend(h, op, st, pushed);
  }

  lemma EmptyExplained(h: Trace, st: Registers)
    requires h == []
    ensures Linearizable(h, st) && Explains(h, st, [])
  {
    EmptyLinearizable(h, st);
    assert Written([], h) == [];
  }

  lemma MinimalOpsAre(h: Trace, n: nat)
    requires n <= |h| && forall i | 0 <= i < n :: h[i].operation.IsInvokation()
    requires n < |h| ==> !h[n].operation.IsInvokation()
    ensures MinimalOps(h) == h[..n]
  {
    MinimalPrefix(h);
    var ops := MinimalOps(h);
    assert forall i | 0 <= i < |ops| :: ops[i] == h[i];
  }

  method GetMinimalOps(trace: Trace) returns (ops: Trace)
    ensures ops == MinimalOps(trace)
  {
    ops := [];
    var i := 0;
    while i < |trace| && trace[i].operation.IsInvokation()
      invariant 0 <= i <= |trace| && ops == trace[..i]
      invariant forall j | 0 <= j < i :: trace[j].operation.IsInvokation()
    {
      ops := ops + [trace[i]];
      i := i + 1;
    }
    MinimalOpsAre(trace, i);
  }

  /**
   * The answer is the right one; a failed search leaves the stack as it was, and a successful one
   * has pushed the values of some linearization, in its order.
   */
  method IsLinearizable(h: Trace, s: ValueStack, ghost key: nat) returns (ok: bool)
    requires IsKeyHistory(h, key) && s.values != []
    modifies s
    ensures ok <==> Linearizable(h, map[key := old(s.Last())])
    ensures !ok ==> s.values == old(s.values)
    ensures ok ==> old(s.values) <= s.values && Explains(h, map[key := old(s.Last())], s.values[|old(s.values)|..])
    decreases |h|, 1
  {
    ghost var st := map[key := s.Last()];
    if h == [] {
      EmptyExplained(h, st);
      assert s.values[|old(s.values)|..] == [];
      return true;
    }
    var minimalOps := GetMinimalOps(h);
    for i := 0 to |minimalOps|
      invariant s.values == old(s.values)
      invariant forall j | 0 <= j < i :: !StartsLinearization(h, OpOf(minimalOps[j]), st)
    {
      ok := LinearizesFirst(minimalOps[i], h, s, key);
      if ok {
        StartMeansLinearizable(h, OpOf(minimalOps[i]), st);
        return;
      }
    }
    NoStartMeansNot(h, st);
    ok := false;
  }

  /** The body of the loop over the minimal operations. */
  method LinearizesFirst(op: KVTimestamp, h: Trace, s: ValueStack, ghost key: nat) returns (ok: bool)
    requires IsKeyHistory(h, key) && s.values != [] && op in MinimalOps(h)
    modifies s
    ensures ok <==> StartsLinearization(h, OpOf(op), map[key := old(s.Last())])
    ensures !ok ==> s.values == old(s.values)
    ensures ok ==> old(s.values) <= s.values && Explains(h, map[key := old(s.Last())], s.values[|old(s.values)|..])
    decreases |h|, 0
  {
    ghost var v, base := s.Last(), |s.values|;
    FirstOutcome(h, key, op, v);
    var responseVal := ResponseValue(op, h).value;
    var removedOpTrace := RemoveOp(op, h);
    ok := false;
    if op.operation.WriteInvokation? {
      s.Push(responseVal);
      ok := IsLinearizable(removedOpTrace, s, key);
      if ok {
        ExplainFirst(h, key, op, v, s.values[base + 1..]);
        assert s.values[base..] == [responseVal] + s.values[base + 1..];
      } else {
        s.Pop();
      }
    } else if s.Last() == responseVal {
      ok := IsLinearizable(removedOpTrace, s, key);
      if ok {
        ExplainFirst(h, key, op, v, s.values[base..]);
        assert s.values[base..] == [] + s.values[base..];
      }
    }
  }
}
