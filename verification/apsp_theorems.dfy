/** What holds of every run of the distributed computation. */
module ApspTheorems {
  import opened Collections
  import opened Weights
  import opened FloydWarshall
  import opened Blocks
  import opened ApspActors
  import opened ApspManager
  import opened ApspProtocol
  import opened ApspSafety
  import opened ApspPlan

  /** A finite run: it starts with the distributed matrix and delivers one message after another. */
  ghost predicate IsRun(m: Matrix, bs: nat, b: nat, run: seq<System>)
    requires Splits(m, bs, b)
  {
    && |run| > 0 && run[0] == Start(m, bs, b)
    && forall i | 0 <= i < |run| - 1 :: Next(run[i], run[i + 1])
  }

  lemma {:induction false} RunsKeepInv(m: Matrix, bs: nat, b: nat, run: seq<System>, i: nat)
    requires Splits(m, bs, b) && IsRun(m, bs, b, run) && i < |run|
    ensures Inv(PlanOf(m, bs, b), run[i]) && run[i].Valid()
  {
    var plan := PlanOf(m, bs, b);
    if i == 0 {
      StartHasInv(m, bs, b);
    } else {
      RunsKeepInv(m, bs, b, run, i - 1);
      assert Next(run[i - 1], run[i]);
      var p :| p in run[i - 1].net && Deliver(run[i - 1], p) == Some(run[i]);
      DeliverKeepsInv(plan, run[i - 1], p);
    }
    InvIsValid(plan, run[i]);
  }

  /** No message of any run makes its receiver panic. */
  lemma NoPanic(m: Matrix, bs: nat, b: nat, run: seq<System>, i: nat, p: Packet)
    requires Splits(m, bs, b) && IsRun(m, bs, b, run) && i < |run| && run[i].Valid() && p in run[i].net
    ensures Deliver(run[i], p).Some?
  {
    RunsKeepInv(m, bs, b, run, i);
    DeliverKeepsInv(PlanOf(m, bs, b), run[i], p);
  }

  /** At every moment each actor holds exactly its slice of the sequential matrix of its own phase. */
  lemma SliceInvariant(m: Matrix, bs: nat, b: nat, run: seq<System>, i: nat, id: nat)
    requires Splits(m, bs, b) && IsRun(m, bs, b, run) && i < |run| && id < b * b
    ensures |run[i].workers| == b * b && run[i].workers[id].k.Count() <= |m|
    ensures run[i].workers[id].currentData == BlockOf(After(m, run[i].workers[id].k.Count()), bs, b, id)
  {
    var plan := PlanOf(m, bs, b);
    RunsKeepInv(m, bs, b, run, i);
    assert WorkerInv(plan, run[i], id);
    PlanBlocks(m, bs, b, run[i].workers[id].k.Count(), id);
  }

  /** Actors in the same block row or column are never more than one phase apart. */
  lemma BoundedSkew(m: Matrix, bs: nat, b: nat, run: seq<System>, i: nat, x: nat, y: nat)
    requires Splits(m, bs, b) && IsRun(m, bs, b, run) && i < |run|
    requires x < b * b && y < b * b && SameRowOrColumn(x, y, b)
    ensures |run[i].workers| == b * b
    ensures run[i].workers[x].k.Count() <= run[i].workers[y].k.Count() + 1
  {
    var plan, s := PlanOf(m, bs, b), run[i];
    RunsKeepInv(m, bs, b, run, i);
    NeighboursAre(b, x);
    NeighboursAre(b, y);
    assert plan.nbrs[x] == NeighboursOf(b, x) && plan.nbrs[y] == NeighboursOf(b, y);
    assert WorkerInv(plan, s, x) && WorkerInv(plan, s, y);
    var q := s.workers[y].k.Count() + 1;
    if q <= plan.n {
      assert EdgeInv(plan, s, y, x, q);
    }
  }

  /**
   * Whatever the order of deliveries: once the manager has a result, it is the matrix the
   * sequential algorithm computes, every entry a shortest distance; the latch was opened exactly once.
   */
  lemma ResultIsSequential(m: Matrix, bs: nat, b: nat, run: seq<System>, i: nat)
    requires Splits(m, bs, b) && IsRun(m, bs, b, run) && i < |run|
    ensures var manager := run[i].manager;
      && (manager.result.Some? <==> manager.missingBlocks.None?)
      && manager.decrements == (if manager.result.Some? then 1 else 0)
      && (manager.result.Some? ==>
            manager.result.value == After(m, |m|) && HoldsShortestDistances(manager.result.value, m))
  {
    RunsKeepInv(m, bs, b, run, i);
    ShortestDistances(m);
  }

  // Deadlock freedom.

  /** Some message in flight changes the state when it is delivered. */
  ghost predicate CanProgress(s: System)
    requires s.Valid()
  {
    exists p :: p in s.net && Deliver(s, p) != Some(s)
  }

  lemma LeastPhase(s: System, n: nat) returns (low: nat)
    requires n <= |s.workers|
    requires n > 0
    ensures low < n && forall id: nat | id < n :: s.workers[low].k.Count() <= s.workers[id].k.Count()
  {
    low := 0;
    for i := 1 to n
      invariant low < i && forall id: nat | id < i :: s.workers[low].k.Count() <= s.workers[id].k.Count()
    {
      if s.workers[i].k.Count() < s.workers[low].k.Count() {
        low := i;
      }
    }
  }

  /** An actor in the least phase still lacks the announcement of some neighbour, and it is in flight. */
  lemma SlowestIsServed(plan: Plan, s: System, y: nat) returns (p: Packet)
    requires Inv(plan, s) && s.Valid() && y < plan.Size() && !s.workers[y].done && plan.nbrs[y] != []
    requires forall id: nat | id < plan.Size() ::
      s.workers[id].ready && s.workers[y].k.Count() <= s.workers[id].k.Count()
    ensures p in s.net && p.ToBlock? && p.to == y && p.msg.PhaseResult?
  {
    var w := s.workers[y];
    assert WorkerInv(plan, s, y) && Waits(plan, s, y);
    var all := set x | x in plan.nbrs[y];
    DistinctSize(plan.nbrs[y]);
    assert w.neighbourData.Keys <= all;
    SubsetSize(w.neighbourData.Keys, all);
    assert w.neighbourData.Keys != all;
    var x :| x in all && x !in w.neighbourData.Keys;
    assert y in plan.nbrs[x];
    assert EdgeInv(plan, s, x, y, w.k.Count());
    p := ResultMsg(plan, x, w.k.Count(), y);
  }

  /** Taking a message out without putting it back changes the state. */
  lemma FewerMessages(s: System, p: Packet, sent: multiset<Packet>, s': System)
    requires p in s.net && p !in sent && s'.net == s.net - multiset{p} + sent
    ensures s' != s
  {
    assert s'.net[p] == s.net[p] - 1;
  }

  /** While blocks are missing, some delivery makes progress. */
  lemma NoDeadlock(plan: Plan, s: System)
    requires Inv(plan, s) && s.Valid() && s.manager.missingBlocks.Some?
    requires forall id: nat | id < plan.Size() :: plan.nbrs[id] != []
    ensures CanProgress(s)
  {
    if id: nat :| id < plan.Size() && !s.workers[id].ready {
      var p := ToBlock(id, Neighbours(plan.nbrs[id]));
      assert CountInv(plan, s, id);
      var r := Receive(s.workers[id], p.msg);
      FewerMessages(s, p, multiset(r.sent), Deliver(s, p).value);
    } else if id: nat :| id < plan.Size() && ToManager(plan.blocks[plan.n][id]) in s.net {
      var p := ToManager(plan.blocks[plan.n][id]);
      DeliverKeepsInv(plan, s, p);
      FewerMessages(s, p, multiset{}, Deliver(s, p).value);
    } else {
      var some :| some in OutstandingSet(plan, s);
      var y := LeastPhase(s, plan.Size());
      assert WorkerInv(plan, s, y) && WorkerInv(plan, s, some);
      var p := SlowestIsServed(plan, s, y);
      DeliverKeepsInv(plan, s, p);
      ResultIsConsumed(s, p);
    }
  }

  /** In no run with more than one block per dimension do the actors come to a halt before the result. */
  lemma RunsNeverHalt(m: Matrix, bs: nat, b: nat, run: seq<System>, i: nat)
    requires Splits(m, bs, b) && b >= 2 && IsRun(m, bs, b, run) && i < |run| && run[i].manager.result.None?
    ensures run[i].Valid() && CanProgress(run[i])
  {
    RunsKeepInv(m, bs, b, run, i);
    var plan := PlanOf(m, bs, b);
    forall id: nat | id < plan.Size() ensures plan.nbrs[id] != [] {
      NeighboursAre(b, id);
      assert plan.nbrs[id] == NeighboursOf(b, id);
    }
    NoDeadlock(plan, run[i]);
  }

  /** A started, unfinished actor consumes the message it is handed. */
  lemma ResultIsConsumed(s: System, p: Packet)
    requires s.Valid() && p in s.net && Deliver(s, p).Some?
    requires p.ToBlock? && p.msg.PhaseResult? && s.workers[p.to].ready && !s.workers[p.to].done
    ensures Deliver(s, p) != Some(s)
  {
  }

  // Termination, with the exact number of deliveries.

  /** How many messages actor `id` has still to send. */
  function Unsent(plan: Plan, w: Worker, degree: nat): int {
    (if w.ready then plan.n - w.k.Count() else plan.n + 1) * degree + (if w.done then 0 else 1)
  }

  function UnsentBy(plan: Plan, s: System): seq<int>
    requires |s.workers| == plan.Size()
  {
    seq(plan.Size(), id requires 0 <= id < plan.Size() => Unsent(plan, s.workers[id], |plan.nbrs[id]|))
  }

  /** Messages in flight plus messages still to be sent. */
  function Work(plan: Plan, s: System): int
    requires |s.workers| == plan.Size()
  {
    |s.net| + Sum(UnsentBy(plan, s))
  }

  /** The gather loop sends one notification per neighbour for every phase it completes, and one report at the end. */
  lemma {:induction false} LoopSends(w: Worker)
    requires w.Valid() && !w.done && (|w.neighbours| > 0 || |w.neighbourData| > 0) && w.ready
    requires GatherLoop(w).Handled?
    ensures var r := GatherLoop(w);
      && r.worker.ready && r.worker.neighbours == w.neighbours
      && |r.sent| == (r.worker.k.Count() - w.k.Count()) * |w.neighbours| + (if r.worker.done then 1 else 0)
    decreases |w.neighbourData| + |w.nextNeighbourData|
  {
    if w.IsFull() {
      var next := w.Advanced();
      if !next.done {
        LoopSends(next);
        assert |GatherLoop(w).sent| == |w.neighbours| + |GatherLoop(next).sent|;
      }
    }
  }

  lemma WorkAfter(plan: Plan, s: System, y: nat, w: Worker, net: multiset<Packet>)
    requires |s.workers| == plan.Size() && y < plan.Size()
    ensures Work(plan, s.(workers := s.workers[y := w], net := net))
         == |net| + Sum(UnsentBy(plan, s)) - Unsent(plan, s.workers[y], |plan.nbrs[y]|) + Unsent(plan, w, |plan.nbrs[y]|)
  {
    var s' := s.(workers := s.workers[y := w], net := net);
    SumUpdate(UnsentBy(plan, s), y, Unsent(plan, w, |plan.nbrs[y]|));
    assert UnsentBy(plan, s') == UnsentBy(plan, s)[y := Unsent(plan, w, |plan.nbrs[y]|)];
  }

  lemma GatheringSends(plan: Plan, w: Worker, data: Block, d: nat)
    requires w.Valid() && w.ready && !w.done && |w.neighbours| == d
    requires GatherLoop(Gathering(w, data)).Handled?
    ensures var r := GatherLoop(Gathering(w, data));
      |r.sent| == Unsent(plan, w, d) - Unsent(plan, r.worker, d)
  {
    LoopSends(Gathering(w, data));
    var last := GatherLoop(Gathering(w, data)).worker;
    assert (plan.n - w.k.Count()) * d - (plan.n - last.k.Count()) * d == (last.k.Count() - w.k.Count()) * d;
  }

  lemma StartSends(plan: Plan, w: Worker, nodes: seq<nat>)
    requires !w.ready && w.k == Initial
    ensures |nodes| == Unsent(plan, w, |nodes|) - Unsent(plan, WithNeighbours(w, nodes), |nodes|)
  {
    assert (plan.n + 1) * |nodes| - plan.n * |nodes| == |nodes|;
  }

  /** What a started actor sends is what it no longer has to send. */
  lemma ReactionSends(plan: Plan, s: System, y: nat, msg: BlockMsg)
    requires Inv(plan, s) && s.Valid() && ToBlock(y, msg) in s.net && y < plan.Size()
    requires Receive(s.workers[y], msg).Handled?
    ensures var r, d := Receive(s.workers[y], msg), |plan.nbrs[y]|;
      (msg.PhaseResult? && !s.workers[y].ready)
      || |r.sent| == Unsent(plan, s.workers[y], d) - Unsent(plan, r.worker, d)
  {
    var w := s.workers[y];
    assert WorkerInv(plan, s, y) && PacketInv(plan, s, ToBlock(y, msg));
    match msg {
      case Neighbours(nodes) =>
        StartSends(plan, w, nodes);
      case PhaseResult(k, data) =>
        if w.ready && !w.done && k == w.k {
          GatheringSends(plan, w, data, |plan.nbrs[y]|);
        }
    }
  }

  /** Every delivery either queues the message again, changing nothing, or takes exactly one unit of work. */
  lemma DeliveryTakesOneUnit(plan: Plan, s: System, p: Packet)
    requires Inv(plan, s) && s.Valid() && p in s.net
    ensures Deliver(s, p).Some? && |Deliver(s, p).value.workers| == plan.Size()
    ensures Deliver(s, p).value == s || Work(plan, Deliver(s, p).value) == Work(plan, s) - 1
  {
    DeliverKeepsInv(plan, s, p);
    assert PacketInv(plan, s, p);
    match p {
      case ToManager(block) =>
        assert UnsentBy(plan, Deliver(s, p).value) == UnsentBy(plan, s);
      case ToBlock(y, msg) =>
        var w := s.workers[y];
        assert WorkerInv(plan, s, y) && plan.IdOk(w.k.Count(), y);
        if msg.PhaseResult? && !w.ready {
          RequeueChangesNothing(s, y, msg.k, msg.data);
        } else {
          ReactionSends(plan, s, y, msg);
          var r := Receive(w, msg);
          WorkAfter(plan, s, y, r.worker, s.net - multiset{p} + multiset(r.sent));
        }
    }
  }

  /** How many deliveries of a run did something. */
  function Effective(run: seq<System>): nat {
    if |run| < 2 then 0 else (if run[|run| - 2] == run[|run| - 1] then 0 else 1) + Effective(run[..|run| - 1])
  }

  lemma {:induction false} WorkAlongRun(m: Matrix, bs: nat, b: nat, run: seq<System>)
    requires Splits(m, bs, b) && IsRun(m, bs, b, run)
    ensures |run[0].workers| == |run[|run| - 1].workers| == b * b
    ensures Effective(run) + Work(PlanOf(m, bs, b), run[|run| - 1]) == Work(PlanOf(m, bs, b), run[0])
    decreases |run|
  {
    var plan := PlanOf(m, bs, b);
    RunsKeepInv(m, bs, b, run, 0);
    RunsKeepInv(m, bs, b, run, |run| - 1);
    if |run| >= 2 {
      var shorter := run[..|run| - 1];
      WorkAlongRun(m, bs, b, shorter);
      var s, s' := run[|run| - 2], run[|run| - 1];
      RunsKeepInv(m, bs, b, run, |run| - 2);
      assert Next(s, s');
      var p :| p in s.net && Deliver(s, p) == Some(s');
      DeliveryTakesOneUnit(plan, s, p);
    }
  }

  function TotalWork(n: nat, b: nat): int {
    (b * b) * ((n + 1) * (2 * b - 2) + 2)
  }

  lemma InitiallyUnsent(m: Matrix, bs: nat, b: nat, id: nat)
    requires Splits(m, bs, b) && id < b * b
    ensures var plan, s := PlanOf(m, bs, b), Start(m, bs, b);
      |s.workers| == plan.Size() == b * b && UnsentBy(plan, s)[id] == (|m| + 1) * (2 * b - 2) + 1
  {
    NeighboursAre(b, id);
    assert PlanOf(m, bs, b).nbrs[id] == NeighboursOf(b, id);
    assert Start(m, bs, b).workers[id] == NewWorker(BlockOf(m, bs, b, id), |m|);
  }

  lemma AddOneEach(n: int, each: int)
    ensures n * each + n == n * (each + 1)
  {
  }

  /** The work of the initial state. */
  lemma InitialWork(m: Matrix, bs: nat, b: nat)
    requires Splits(m, bs, b)
    ensures |Start(m, bs, b).workers| == PlanOf(m, bs, b).Size()
    ensures Work(PlanOf(m, bs, b), Start(m, bs, b)) == TotalWork(|m|, b)
  {
    var plan, s := PlanOf(m, bs, b), Start(m, bs, b);
    var unsent, each := UnsentBy(plan, s), (|m| + 1) * (2 * b - 2) + 1;
    forall id | 0 <= id < |unsent| ensures unsent[id] == each {
      InitiallyUnsent(m, bs, b, id);
    }
    SumConstant(unsent, each);
    AddOneEach(b * b, each);
  }

  lemma {:induction false} SumNonNegative(s: seq<int>)
    requires forall i | 0 <= i < |s| :: s[i] >= 0
    ensures Sum(s) >= 0
    ensures Sum(s) == 0 ==> forall i | 0 <= i < |s| :: s[i] == 0
  {
    if s != [] {
      SumNonNegative(s[1..]);
      assert forall i | 1 <= i < |s| :: s[i] == s[1..][i - 1];
    }
  }

  lemma WorkIsNonNegative(plan: Plan, s: System)
    requires Inv(plan, s)
    ensures Work(plan, s) >= 0
    ensures Work(plan, s) == 0 ==> s.net == multiset{} && forall id: nat | id < plan.Size() :: s.workers[id].done
  {
    forall id | 0 <= id < plan.Size()
      ensures UnsentBy(plan, s)[id] >= 0 && (UnsentBy(plan, s)[id] == 0 ==> s.workers[id].done)
    {
      assert WorkerInv(plan, s, id);
      var w, d := s.workers[id], |plan.nbrs[id]|;
      assert (plan.n - w.k.Count()) * d >= 0 && (plan.n + 1) * d >= 0;
    }
    SumNonNegative(UnsentBy(plan, s));
    if Work(plan, s) == 0 {
      assert |s.net| == 0;
    }
  }

  lemma FinishedActors(plan: Plan, s: System)
    requires Inv(plan, s) && s.manager.missingBlocks.None?
    ensures forall id: nat | id < plan.Size() :: s.workers[id].done && s.workers[id].ready
    ensures Sum(UnsentBy(plan, s)) == 0
  {
    forall id: nat | id < plan.Size()
      ensures s.workers[id].done && s.workers[id].ready && UnsentBy(plan, s)[id] == 0
    {
      assert WorkerInv(plan, s, id);
      assert id !in OutstandingSet(plan, s);
    }
    SumConstant(UnsentBy(plan, s), 0);
  }

  lemma FinishedActorsConsume(plan: Plan, s: System, p: Packet)
    requires Inv(plan, s) && s.Valid() && p in s.net
    requires forall id: nat | id < plan.Size() :: s.workers[id].done && s.workers[id].ready
    ensures Deliver(s, p) != Some(s)
  {
    assert PacketInv(plan, s, p);
    DeliverKeepsInv(plan, s, p);
    FewerMessages(s, p, multiset{}, Deliver(s, p).value);
  }

  /** When no delivery makes progress, nothing is in flight and every actor is done. */
  lemma StuckMeansFinished(plan: Plan, s: System)
    requires Inv(plan, s) && s.Valid() && !CanProgress(s)
    requires forall id: nat | id < plan.Size() :: plan.nbrs[id] != []
    ensures s.manager.missingBlocks.None? && Work(plan, s) == 0
  {
    if s.manager.missingBlocks.Some? {
      NoDeadlock(plan, s);
    }
    FinishedActors(plan, s);
    if p :| p in s.net {
      FinishedActorsConsume(plan, s, p);
    }
    assert s.net == multiset{};
  }

  /**
   * With at least two blocks per dimension no run makes more effective deliveries than `TotalWork`,
   * and a run that can make no more progress has made exactly that many and has produced the result.
   */
  lemma RunsTerminate(m: Matrix, bs: nat, b: nat, run: seq<System>)
    requires Splits(m, bs, b) && b >= 2 && IsRun(m, bs, b, run)
    ensures run[|run| - 1].Valid()
    ensures Effective(run) <= TotalWork(|m|, b)
    ensures !CanProgress(run[|run| - 1]) ==>
      Effective(run) == TotalWork(|m|, b) && run[|run| - 1].manager.result == Some(After(m, |m|))
  {
    var plan, s := PlanOf(m, bs, b), run[|run| - 1];
    RunsKeepInv(m, bs, b, run, |run| - 1);
    WorkAlongRun(m, bs, b, run);
    InitialWork(m, bs, b);
    WorkIsNonNegative(plan, s);
    if !CanProgress(s) {
      forall id: nat | id < plan.Size() ensures plan.nbrs[id] != [] {
        NeighboursAre(b, id);
        assert plan.nbrs[id] == NeighboursOf(b, id);
      }
      StuckMeansFinished(plan, s);
      ResultIsSequential(m, bs, b, run, |run| - 1);
    }
  }

  // A single block has no neighbours.

  lemma LoneBlockStays(plan: Plan, s: System, p: Packet)
    requires Inv(plan, s) && s.Valid() && plan.Size() == 1 && plan.nbrs[0] == [] && p in s.net
    requires !s.workers[0].done && Deliver(s, p).Some?
    ensures |Deliver(s, p).value.workers| == 1 && !Deliver(s, p).value.workers[0].done
  {
    assert PacketInv(plan, s, p);
  }

  lemma {:induction false} LoneBlockIsNeverDone(m: Matrix, bs: nat, run: seq<System>, i: nat)
    requires Splits(m, bs, 1) && IsRun(m, bs, 1, run) && i < |run|
    ensures |run[i].workers| == 1 && !run[i].workers[0].done
  {
    if i > 0 {
      LoneBlockIsNeverDone(m, bs, run, i - 1);
      RunsKeepInv(m, bs, 1, run, i - 1);
      assert Next(run[i - 1], run[i]);
      var p :| p in run[i - 1].net && Deliver(run[i - 1], p) == Some(run[i]);
      NeighboursAre(1, 0);
      assert PlanOf(m, bs, 1).nbrs[0] == NeighboursOf(1, 0);
      LoneBlockStays(PlanOf(m, bs, 1), run[i - 1], p);
    }
  }

  lemma UndoneMeansNoResult(plan: Plan, s: System, id: nat)
    requires Inv(plan, s) && id < plan.Size() && !s.workers[id].done
    ensures s.manager.result.None?
  {
    assert Outstanding(plan, s, id);
    assert id in OutstandingSet(plan, s);
  }

  /** A lone block is introduced to nobody, and then nothing ever happens. */
  lemma LoneBlockNeverFinishes(m: Matrix, bs: nat, run: seq<System>, i: nat)
    requires Splits(m, bs, 1) && IsRun(m, bs, 1, run) && i < |run|
    ensures run[i].manager.result.None?
  {
    RunsKeepInv(m, bs, 1, run, i);
    LoneBlockIsNeverDone(m, bs, run, i);
    UndoneMeansNoResult(PlanOf(m, bs, 1), run[i], 0);
  }

  lemma SplitRunsFinish(m: Matrix, bs: nat, b: nat, run: seq<System>)
    requires Splits(m, bs, b) && b >= 2 && IsRun(m, bs, b, run) && run[|run| - 1].Valid() && !CanProgress(run[|run| - 1])
    ensures run[|run| - 1].manager.result == Some(After(m, |m|))
  {
    RunsTerminate(m, bs, b, run);
  }

  lemma UnsplitRunsFail(m: Matrix, bs: nat, b: nat, run: seq<System>)
    requires Splits(m, bs, b) && b < 2 && IsRun(m, bs, b, run)
    ensures run[|run| - 1].manager.result.None?
  {
    LoneBlockNeverFinishes(m, bs, run, |run| - 1);
  }

  /**
   * Exactly when the computation succeeds: a run that can make no more progress
   * has produced the result if and only if the matrix was split into more than one block.
   */
  lemma FinishesIffSplit(m: Matrix, bs: nat, b: nat, run: seq<System>)
    requires Splits(m, bs, b) && IsRun(m, bs, b, run) && run[|run| - 1].Valid() && !CanProgress(run[|run| - 1])
    ensures run[|run| - 1].manager.result == Some(After(m, |m|)) <==> b >= 2
  {
    if b >= 2 {
      SplitRunsFinish(m, bs, b, run);
    } else {
      UnsplitRunsFail(m, bs, b, run);
    }
  }
}
