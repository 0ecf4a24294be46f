/** Every delivery keeps the invariant, and no delivery panics. */
module ApspSafety {
  import opened Collections
  import opened Weights
  import opened FloydWarshall
  import opened Blocks
  import opened ApspActors
  import opened ApspManager
  import opened ApspProtocol

  // One turn of a gather loop, seen from the whole system.

  function AdvancedSystem(s: System, y: nat): System
    requires y < |s.workers| && s.workers[y].Valid() && !s.workers[y].done && s.workers[y].CanCompute()
  {
    var w := s.workers[y].Advanced();
    s.(workers := s.workers[y := w], net := s.net + multiset(w.Announcements()))
  }

  lemma NotificationCount(plan: Plan, w: Worker, y: nat, q: nat, m: Packet)
    requires plan.HasShape() && y < plan.Size() && q <= plan.n
    requires w.neighbours == plan.nbrs[y] && w.k == PhaseAfter(q) && w.currentData == plan.blocks[q][y]
    ensures multiset(w.Notifications())[m]
         == if m.ToBlock? && m.to in plan.nbrs[y] && m == ResultMsg(plan, y, q, m.to) then 1 else 0
  {
    var sent := w.Notifications();
    assert Distinct(sent) by {
      forall i, j | 0 <= i < j < |sent| ensures sent[i] != sent[j] {
        assert sent[i].to == plan.nbrs[y][i] && sent[j].to == plan.nbrs[y][j];
      }
    }
    CountInDistinct(sent, m);
    if m.ToBlock? && m.to in plan.nbrs[y] && m == ResultMsg(plan, y, q, m.to) {
      var i :| 0 <= i < |plan.nbrs[y]| && plan.nbrs[y][i] == m.to;
      assert sent[i] == m;
    }
  }

  lemma FullBuffer(plan: Plan, s: System, y: nat)
    requires CoreInv(plan, s) && y < plan.Size() && s.workers[y].ready && s.workers[y].IsFull()
    ensures s.workers[y].k.Count() <= plan.n
    ensures s.workers[y].neighbourData == plan.Gathered(s.workers[y].k.Count(), y)
  {
    var w := s.workers[y];
    assert WorkerInv(plan, s, y);
    var all := set x | x in plan.nbrs[y];
    DistinctSize(plan.nbrs[y]);
    SubsetSize(w.neighbourData.Keys, all);
    assert w.neighbourData.Keys == all;
  }

  ghost predicate CanAdvance(plan: Plan, s: System, y: nat) {
    && CoreInv(plan, s) && y < plan.Size()
    && s.workers[y].ready && !s.workers[y].done && s.workers[y].IsFull()
  }

  lemma AdvanceComputes(plan: Plan, s: System, y: nat)
    requires CanAdvance(plan, s, y)
    ensures s.workers[y].Valid() && s.workers[y].CanCompute()
    ensures s.workers[y].k.Count() < plan.n
    ensures WorkerInv(plan, AdvancedSystem(s, y), y)
  {
    var w := s.workers[y];
    var p := w.k.Count();
    assert WorkerInv(plan, s, y);
    WorkerValid(plan, s, y);
    FullBuffer(plan, s, y);
    assert plan.PhaseOk(p, y);
    assert w.Advanced().currentData == plan.blocks[p + 1][y];
  }

  /** The messages a turn of the loop adds. */
  lemma AnnouncementCount(plan: Plan, s: System, y: nat, m: Packet)
    requires CanAdvance(plan, s, y)
    requires s.workers[y].Valid() && s.workers[y].CanCompute() && WorkerInv(plan, AdvancedSystem(s, y), y)
    ensures var w := s.workers[y].Advanced();
      AdvancedSystem(s, y).net[m] == s.net[m]
        + (if m.ToBlock? && m.to in plan.nbrs[y] && m == ResultMsg(plan, y, w.k.Count(), m.to) then 1 else 0)
        + (if w.done && m == ToManager(plan.blocks[plan.n][y]) then 1 else 0)
  {
    var w := s.workers[y].Advanced();
    assert WorkerInv(plan, s, y);
    NotificationCount(plan, w, y, w.k.Count(), m);
  }

  ghost predicate Advances(plan: Plan, s: System, y: nat) {
    && CanAdvance(plan, s, y)
    && s.workers[y].Valid() && s.workers[y].CanCompute() && s.workers[y].k.Count() < plan.n
    && WorkerInv(plan, AdvancedSystem(s, y), y)
  }

  lemma AdvanceKeepsEdgeIn(plan: Plan, s: System, y: nat, from: nat, q: nat)
    requires Advances(plan, s, y)
    requires from < plan.Size() && y in plan.nbrs[from] && q <= plan.n
    ensures EdgeInv(plan, AdvancedSystem(s, y), from, y, q)
  {
    var p := s.workers[y].k.Count();
    assert WorkerInv(plan, s, y);
    AnnouncementCount(plan, s, y, ResultMsg(plan, from, q, y));
    assert plan.IdOk(q, from) && plan.IdOk(p + 1, y);
    FullBuffer(plan, s, y);
    assert from in plan.nbrs[y] && from in s.workers[y].neighbourData;
    assert EdgeInv(plan, s, from, y, p) && EdgeInv(plan, s, from, y, q);
  }

  lemma AdvanceKeepsEdgeOut(plan: Plan, s: System, y: nat, to: nat, q: nat)
    requires Advances(plan, s, y)
    requires to in plan.nbrs[y] && to != y && q <= plan.n
    ensures EdgeInv(plan, AdvancedSystem(s, y), y, to, q)
  {
    var p := s.workers[y].k.Count();
    assert WorkerInv(plan, s, y) && WorkerInv(plan, s, to);
    assert EdgeInv(plan, s, y, to, q);
    AnnouncementCount(plan, s, y, ResultMsg(plan, y, q, to));
    assert EdgeInv(plan, s, y, to, p + 1);
    FullBuffer(plan, s, y);
    assert to in s.workers[y].neighbourData && y in plan.nbrs[to];
    assert EdgeInv(plan, s, to, y, p);
  }

  lemma AdvanceKeepsOtherEdge(plan: Plan, s: System, y: nat, from: nat, to: nat, q: nat)
    requires Advances(plan, s, y)
    requires from < plan.Size() && to in plan.nbrs[from] && q <= plan.n && from != y && to != y
    ensures EdgeInv(plan, AdvancedSystem(s, y), from, to, q)
  {
    assert WorkerInv(plan, s, y);
    assert EdgeInv(plan, s, from, to, q);
    AnnouncementCount(plan, s, y, ResultMsg(plan, from, q, to));
    assert plan.IdOk(q, from) && plan.IdOk(s.workers[y].k.Count() + 1, y);
  }

  lemma AdvanceKeepsOldPacket(plan: Plan, s: System, y: nat, m: Packet)
    requires Advances(plan, s, y) && m in s.net
    ensures PacketInv(plan, AdvancedSystem(s, y), m)
  {
    assert WorkerInv(plan, s, y);
    assert PacketInv(plan, s, m);
  }

  lemma AdvanceKeepsPacket(plan: Plan, s: System, y: nat, m: Packet)
    requires Advances(plan, s, y) == true
    requires m in AdvancedSystem(s, y).net
    ensures PacketInv(plan, AdvancedSystem(s, y), m)
  {
    if m in s.net {
      AdvanceKeepsOldPacket(plan, s, y, m);
    } else {
      AnnouncementCount(plan, s, y, m);
      assert WorkerInv(plan, s, y);
      assert plan.IdOk(s.workers[y].k.Count() + 1, y) && plan.IdOk(plan.n, y);
    }
  }

  lemma AdvanceKeepsCounts(plan: Plan, s: System, y: nat, id: nat)
    requires Advances(plan, s, y)
    requires id < plan.Size()
    ensures CountInv(plan, AdvancedSystem(s, y), id)
    ensures Outstanding(plan, AdvancedSystem(s, y), id) == Outstanding(plan, s, id)
  {
    var report := ToManager(plan.blocks[plan.n][id]);
    AnnouncementCount(plan, s, y, report);
    AnnouncementCount(plan, s, y, ToBlock(id, Neighbours(plan.nbrs[id])));
    assert CountInv(plan, s, id);
    assert plan.IdOk(plan.n, y) && plan.IdOk(plan.n, id);
    if report in s.net {
      assert PacketInv(plan, s, report);
    }
  }

  lemma AdvanceKeepsEdges(plan: Plan, s: System, y: nat)
    requires Advances(plan, s, y) == true
    ensures forall x: nat, z: nat, q: nat | x < plan.Size() && z in plan.nbrs[x] && q <= plan.n ::
      EdgeInv(plan, AdvancedSystem(s, y), x, z, q)
  {
    forall x: nat, z: nat, q: nat | x < plan.Size() && z in plan.nbrs[x] && q <= plan.n
      ensures EdgeInv(plan, AdvancedSystem(s, y), x, z, q)
    {
      if z == y {
        AdvanceKeepsEdgeIn(plan, s, y, x, q);
      } else if x == y {
        AdvanceKeepsEdgeOut(plan, s, y, z, q);
      } else {
        AdvanceKeepsOtherEdge(plan, s, y, x, z, q);
      }
    }
  }

  lemma AdvanceKeepsWorkers(plan: Plan, s: System, y: nat)
    requires Advances(plan, s, y)
    ensures forall id: nat | id < plan.Size() :: WorkerInv(plan, AdvancedSystem(s, y), id) && CountInv(plan, AdvancedSystem(s, y), id)
    ensures OutstandingSet(plan, AdvancedSystem(s, y)) == OutstandingSet(plan, s)
  {
    var s' := AdvancedSystem(s, y);
    forall id: nat | id < plan.Size()
      ensures WorkerInv(plan, s', id) && CountInv(plan, s', id)
      ensures Outstanding(plan, s', id) == Outstanding(plan, s, id)
    {
      assert WorkerInv(plan, s, id);
      AdvanceKeepsCounts(plan, s, y, id);
    }
  }

  lemma AdvanceKeepsPackets(plan: Plan, s: System, y: nat)
    requires Advances(plan, s, y) == true
    ensures forall m | m in AdvancedSystem(s, y).net :: PacketInv(plan, AdvancedSystem(s, y), m)
  {
    forall m | m in AdvancedSystem(s, y).net
      ensures PacketInv(plan, AdvancedSystem(s, y), m)
    {
      AdvanceKeepsPacket(plan, s, y, m);
    }
  }

  lemma AdvancePossible(plan: Plan, s: System, y: nat)
    requires CanAdvance(plan, s, y)
    ensures Advances(plan, s, y) == true
  {
    AdvanceComputes(plan, s, y);
  }

  lemma AdvanceKeepsManager(plan: Plan, s: System, y: nat)
    requires Advances(plan, s, y)
    requires OutstandingSet(plan, AdvancedSystem(s, y)) == OutstandingSet(plan, s)
    ensures ManagerInv(plan, AdvancedSystem(s, y)) == true
  {
    var s' := AdvancedSystem(s, y);
    forall id: nat | id < plan.Size() ensures Outstanding(plan, s', id) == Outstanding(plan, s, id) {
      assert id in OutstandingSet(plan, s') <==> id in OutstandingSet(plan, s);
    }
  }

  lemma CoreOfParts(plan: Plan, s: System)
    requires plan.Valid() && |s.workers| == plan.Size()
    requires forall id: nat | id < plan.Size() :: WorkerInv(plan, s, id) && CountInv(plan, s, id)
    requires forall x: nat, y: nat, q: nat | x < plan.Size() && y in plan.nbrs[x] && q <= plan.n :: EdgeInv(plan, s, x, y, q)
    requires forall m | m in s.net :: PacketInv(plan, s, m)
    requires ManagerInv(plan, s) == true
    ensures CoreInv(plan, s) == true
  {
  }

  /** A turn of the gather loop finds every block it needs and keeps the invariant. */
  lemma AdvanceKeepsInv(plan: Plan, s: System, y: nat)
    requires CanAdvance(plan, s, y)
    ensures s.workers[y].Valid() && s.workers[y].CanCompute()
    ensures CoreInv(plan, AdvancedSystem(s, y)) == true
  {
    AdvancePossible(plan, s, y);
    AdvanceKeepsWorkers(plan, s, y);
    AdvanceKeepsEdges(plan, s, y);
    AdvanceKeepsPackets(plan, s, y);
    AdvanceKeepsManager(plan, s, y);
    CoreOfParts(plan, AdvancedSystem(s, y));
  }

  /** The system after actor `y` has reacted. */
  function Reacted(s: System, y: nat, r: Reaction): System
    requires y < |s.workers| && r.Handled?
  {
    s.(workers := s.workers[y := r.worker], net := s.net + multiset(r.sent))
  }

  lemma ReactedAfterAdvance(s: System, y: nat, r: Reaction)
    requires y < |s.workers| && s.workers[y].Valid() && !s.workers[y].done && s.workers[y].CanCompute()
    requires r.Handled?
    ensures Reacted(AdvancedSystem(s, y), y, r)
         == Reacted(s, y, Handled(r.worker, s.workers[y].Advanced().Announcements() + r.sent))
  {
    var s1 := AdvancedSystem(s, y);
    assert s1.workers[y := r.worker] == s.workers[y := r.worker];
  }

  ghost predicate OthersWait(plan: Plan, s: System, y: nat)
    requires plan.HasShape() && |s.workers| == plan.Size()
  {
    forall id: nat | id < plan.Size() && id != y :: Waits(plan, s, id)
  }

  /** The loop runs to its end without a panic; then every started actor waits again. */
  lemma {:induction false} LoopKeepsInv(plan: Plan, s: System, y: nat)
    requires CoreInv(plan, s) && y < plan.Size() && s.workers[y].Valid()
    requires s.workers[y].ready && !s.workers[y].done && plan.nbrs[y] != []
    requires OthersWait(plan, s, y)
    requires s.workers[y].neighbours == plan.nbrs[y]
    ensures GatherLoop(s.workers[y]).Handled?
    ensures Inv(plan, Reacted(s, y, GatherLoop(s.workers[y])))
    decreases |s.workers[y].neighbourData| + |s.workers[y].nextNeighbourData|
  {
    var w := s.workers[y];
    if !w.IsFull() {
      BufferBelow(plan, s, y);
      assert Waits(plan, s, y);
      assert Reacted(s, y, Handled(w, [])) == s;
    } else {
      AdvanceKeepsInv(plan, s, y);
      var s1 := AdvancedSystem(s, y);
      var w1 := s1.workers[y];
      OthersStillWait(plan, s, s1, y);
      if w1.done {
        assert Waits(plan, s1, y);
        assert Reacted(s, y, Handled(w1, w1.Announcements())) == s1;
      } else {
        assert WorkerInv(plan, s1, y);
        LoopKeepsInv(plan, s1, y);
        ReactedAfterAdvance(s, y, GatherLoop(w1));
      }
    }
  }

  lemma OthersStillWait(plan: Plan, s: System, s': System, y: nat)
    requires plan.HasShape() && |s.workers| == plan.Size() && |s'.workers| == plan.Size()
    requires forall id: nat | id < plan.Size() && id != y :: s'.workers[id] == s.workers[id]
    requires OthersWait(plan, s, y)
    ensures OthersWait(plan, s', y)
  {
    forall id: nat | id < plan.Size() && id != y ensures Waits(plan, s', id) {
      assert Waits(plan, s, id);
    }
  }

  /** The gather buffer never holds more than one block per neighbour. */
  lemma BufferBelow(plan: Plan, s: System, y: nat)
    requires CoreInv(plan, s) && y < plan.Size()
    ensures |s.workers[y].neighbourData| <= |plan.nbrs[y]|
  {
    var w := s.workers[y];
    assert WorkerInv(plan, s, y);
    var all := set x | x in plan.nbrs[y];
    DistinctSize(plan.nbrs[y]);
    SubsetSize(w.neighbourData.Keys, all);
  }

  // One `PhaseResult` taken out of the network.

  ghost predicate Arrives(plan: Plan, s: System, y: nat, k: Phase, data: Block) {
    && CoreInv(plan, s) && y < plan.Size() && ToBlock(y, PhaseResult(k, data)) in s.net
    && s.workers[y].ready
  }

  function Taken(s: System, y: nat, w: Worker, m: Packet): System
    requires y < |s.workers|
  {
    s.(workers := s.workers[y := w], net := s.net - multiset{m})
  }

  /** The receiver `y` handles message `m` without touching its phase or its block. */
  ghost predicate OnlyBuffers(plan: Plan, s: System, y: nat, k: Phase, data: Block, w: Worker) {
    && Arrives(plan, s, y, k, data)
    && w.k == s.workers[y].k && w.ready && w.done == s.workers[y].done && w.currentData == s.workers[y].currentData
  }

  lemma TakeKeepsId(plan: Plan, s: System, y: nat, k: Phase, data: Block, w: Worker, id: nat)
    requires OnlyBuffers(plan, s, y, k, data, w) && id < plan.Size()
    ensures var s' := Taken(s, y, w, ToBlock(y, PhaseResult(k, data)));
      && (id != y ==> WorkerInv(plan, s', id)) && CountInv(plan, s', id)
      && Outstanding(plan, s', id) == Outstanding(plan, s, id)
  {
    assert WorkerInv(plan, s, id) && CountInv(plan, s, id);
  }

  lemma TakeKeepsEdge(plan: Plan, s: System, y: nat, k: Phase, data: Block, w: Worker, x: nat, z: nat, q: nat)
    requires OnlyBuffers(plan, s, y, k, data, w)
    requires x < plan.Size() && z in plan.nbrs[x] && q <= plan.n && z != y
    ensures EdgeInv(plan, Taken(s, y, w, ToBlock(y, PhaseResult(k, data))), x, z, q)
  {
    assert EdgeInv(plan, s, x, z, q);
  }

  lemma TakeKeepsPacket(plan: Plan, s: System, y: nat, k: Phase, data: Block, w: Worker, other: Packet)
    requires OnlyBuffers(plan, s, y, k, data, w)
    requires other in Taken(s, y, w, ToBlock(y, PhaseResult(k, data))).net
    ensures PacketInv(plan, Taken(s, y, w, ToBlock(y, PhaseResult(k, data))), other)
  {
    assert PacketInv(plan, s, other);
  }

  /** Only the message's own edge and its receiver's buffers change. */
  lemma TakeKeepsRest(plan: Plan, s: System, y: nat, k: Phase, data: Block, w: Worker)
    requires OnlyBuffers(plan, s, y, k, data, w)
    requires var s' := Taken(s, y, w, ToBlock(y, PhaseResult(k, data))); WorkerInv(plan, s', y)
    requires var s' := Taken(s, y, w, ToBlock(y, PhaseResult(k, data)));
      forall x: nat, q: nat | x < plan.Size() && y in plan.nbrs[x] && q <= plan.n :: EdgeInv(plan, s', x, y, q)
    ensures CoreInv(plan, Taken(s, y, w, ToBlock(y, PhaseResult(k, data))))
  {
    var s' := Taken(s, y, w, ToBlock(y, PhaseResult(k, data)));
    forall id: nat | id < plan.Size()
      ensures WorkerInv(plan, s', id) && CountInv(plan, s', id)
      ensures Outstanding(plan, s', id) == Outstanding(plan, s, id)
    {
      TakeKeepsId(plan, s, y, k, data, w, id);
    }
    forall x: nat, z: nat, q: nat | x < plan.Size() && z in plan.nbrs[x] && q <= plan.n
      ensures EdgeInv(plan, s', x, z, q)
    {
      if z != y {
        TakeKeepsEdge(plan, s, y, k, data, w, x, z, q);
      }
    }
    forall other | other in s'.net
      ensures PacketInv(plan, s', other)
    {
      TakeKeepsPacket(plan, s, y, k, data, w, other);
    }
    assert OutstandingSet(plan, s') == OutstandingSet(plan, s);
  }

  /** The only edge a message belongs to. */
  lemma MessageEdge(plan: Plan, s: System, y: nat, k: Phase, data: Block)
    requires Arrives(plan, s, y, k, data)
    ensures data.blockId < plan.Size() && data.blockId in plan.nbrs[y] && y in plan.nbrs[data.blockId]
    ensures k.Count() <= plan.n && k == PhaseAfter(k.Count()) && data == plan.blocks[k.Count()][data.blockId]
    ensures EdgeInv(plan, s, data.blockId, y, k.Count()) && Announced(s, data.blockId, k.Count())
    ensures s.net[ToBlock(y, PhaseResult(k, data))] <= 1
    ensures forall x: nat, q: nat | x < plan.Size() && q <= plan.n ::
      ResultMsg(plan, x, q, y) == ToBlock(y, PhaseResult(k, data)) <==> x == data.blockId && q == k.Count()
  {
    assert PacketInv(plan, s, ToBlock(y, PhaseResult(k, data)));
    forall x: nat, q: nat | x < plan.Size() && q <= plan.n
      ensures ResultMsg(plan, x, q, y) == ToBlock(y, PhaseResult(k, data)) ==> x == data.blockId
    {
      assert plan.IdOk(q, x);
    }
    assert EdgeInv(plan, s, data.blockId, y, k.Count());
  }

  /** The receiver is in the message's phase or one behind it. */
  lemma SkewBounded(plan: Plan, s: System, y: nat, k: Phase, data: Block)
    requires Arrives(plan, s, y, k, data) && !s.workers[y].done
    ensures k == s.workers[y].k || k == s.workers[y].k.Incremented()
  {
    MessageEdge(plan, s, y, k, data);
    assert WorkerInv(plan, s, y);
  }

  lemma GatherKeepsEdge(plan: Plan, s: System, y: nat, k: Phase, data: Block, x: nat, q: nat)
    requires Arrives(plan, s, y, k, data) && !s.workers[y].done && k == s.workers[y].k
    requires x < plan.Size() && y in plan.nbrs[x] && q <= plan.n
    ensures EdgeInv(plan, Taken(s, y, Gathering(s.workers[y], data), ToBlock(y, PhaseResult(k, data))), x, y, q)
  {
    MessageEdge(plan, s, y, k, data);
    assert WorkerInv(plan, s, y);
    assert EdgeInv(plan, s, x, y, q);
  }

  lemma GatherKeepsCore(plan: Plan, s: System, y: nat, k: Phase, data: Block)
    requires Arrives(plan, s, y, k, data) && !s.workers[y].done && k == s.workers[y].k
    ensures CoreInv(plan, Taken(s, y, Gathering(s.workers[y], data), ToBlock(y, PhaseResult(k, data))))
  {
    var m := ToBlock(y, PhaseResult(k, data));
    var s' := Taken(s, y, Gathering(s.workers[y], data), m);
    MessageEdge(plan, s, y, k, data);
    assert WorkerInv(plan, s, y);
    forall x: nat, q: nat | x < plan.Size() && y in plan.nbrs[x] && q <= plan.n
      ensures EdgeInv(plan, s', x, y, q)
    {
      GatherKeepsEdge(plan, s, y, k, data, x, q);
    }
    TakeKeepsRest(plan, s, y, k, data, s'.workers[y]);
  }

  lemma BufferKeepsCore(plan: Plan, s: System, y: nat, k: Phase, data: Block)
    requires Arrives(plan, s, y, k, data) && !s.workers[y].done && k == s.workers[y].k.Incremented()
    ensures CoreInv(plan, Taken(s, y, Buffering(s.workers[y], data), ToBlock(y, PhaseResult(k, data))))
  {
    var m := ToBlock(y, PhaseResult(k, data));
    var s' := Taken(s, y, Buffering(s.workers[y], data), m);
    MessageEdge(plan, s, y, k, data);
    assert WorkerInv(plan, s, y);
    forall x: nat, q: nat | x < plan.Size() && y in plan.nbrs[x] && q <= plan.n
      ensures EdgeInv(plan, s', x, y, q)
    {
      assert EdgeInv(plan, s, x, y, q);
    }
    TakeKeepsRest(plan, s, y, k, data, s'.workers[y]);
  }

  lemma DropKeepsCore(plan: Plan, s: System, y: nat, k: Phase, data: Block)
    requires Arrives(plan, s, y, k, data) && s.workers[y].done
    ensures CoreInv(plan, Taken(s, y, s.workers[y], ToBlock(y, PhaseResult(k, data))))
  {
    var m := ToBlock(y, PhaseResult(k, data));
    var s' := Taken(s, y, s.workers[y], m);
    MessageEdge(plan, s, y, k, data);
    assert WorkerInv(plan, s, y);
    forall x: nat, q: nat | x < plan.Size() && y in plan.nbrs[x] && q <= plan.n
      ensures EdgeInv(plan, s', x, y, q)
    {
      assert EdgeInv(plan, s, x, y, q);
    }
    TakeKeepsRest(plan, s, y, k, data, s.workers[y]);
  }

  // An actor learns its neighbours and starts.

  function IntroducedSystem(plan: Plan, s: System, y: nat): System
    requires y < |s.workers| && y < |plan.nbrs|
  {
    var w := WithNeighbours(s.workers[y], plan.nbrs[y]);
    s.(workers := s.workers[y := w],
       net := s.net - multiset{ToBlock(y, Neighbours(plan.nbrs[y]))} + multiset(w.Notifications()))
  }

  ghost predicate Starts(plan: Plan, s: System, y: nat) {
    && CoreInv(plan, s) && y < plan.Size() && ToBlock(y, Neighbours(plan.nbrs[y])) in s.net
  }

  lemma IntroductionCount(plan: Plan, s: System, y: nat, m: Packet)
    requires Starts(plan, s, y)
    ensures !s.workers[y].ready && s.workers[y].k == Initial
    ensures IntroducedSystem(plan, s, y).net[m] == s.net[m]
        + (if m.ToBlock? && m.to in plan.nbrs[y] && m == ResultMsg(plan, y, 0, m.to) then 1 else 0)
        - (if m == ToBlock(y, Neighbours(plan.nbrs[y])) then 1 else 0)
  {
    assert PacketInv(plan, s, ToBlock(y, Neighbours(plan.nbrs[y])));
    assert WorkerInv(plan, s, y);
    NotificationCount(plan, WithNeighbours(s.workers[y], plan.nbrs[y]), y, 0, m);
  }

  lemma IntroduceKeepsId(plan: Plan, s: System, y: nat, id: nat)
    requires Starts(plan, s, y) && id < plan.Size()
    ensures var s' := IntroducedSystem(plan, s, y);
      && WorkerInv(plan, s', id) && CountInv(plan, s', id)
      && Outstanding(plan, s', id) == Outstanding(plan, s, id)
  {
    assert WorkerInv(plan, s, id) && CountInv(plan, s, id);
    IntroductionCount(plan, s, y, ToManager(plan.blocks[plan.n][id]));
    IntroductionCount(plan, s, y, ToBlock(id, Neighbours(plan.nbrs[id])));
  }

  lemma IntroduceKeepsEdge(plan: Plan, s: System, y: nat, from: nat, to: nat, q: nat)
    requires Starts(plan, s, y) && from < plan.Size() && to in plan.nbrs[from] && q <= plan.n
    ensures EdgeInv(plan, IntroducedSystem(plan, s, y), from, to, q)
  {
    assert EdgeInv(plan, s, from, to, q);
    IntroductionCount(plan, s, y, ResultMsg(plan, from, q, to));
    assert plan.IdOk(q, from) && plan.IdOk(0, y);
    assert WorkerInv(plan, s, y) && WorkerInv(plan, s, to);
  }

  lemma IntroduceKeepsPacket(plan: Plan, s: System, y: nat, m: Packet)
    requires Starts(plan, s, y) && m in IntroducedSystem(plan, s, y).net
    ensures PacketInv(plan, IntroducedSystem(plan, s, y), m)
  {
    IntroductionCount(plan, s, y, m);
    assert CountInv(plan, s, y) && plan.IdOk(0, y);
    if m in s.net {
      assert PacketInv(plan, s, m);
    }
  }

  lemma IntroduceKeepsInv(plan: Plan, s: System, y: nat)
    requires Starts(plan, s, y) && OthersWait(plan, s, y)
    ensures Inv(plan, IntroducedSystem(plan, s, y))
  {
    var s' := IntroducedSystem(plan, s, y);
    forall id: nat | id < plan.Size()
      ensures WorkerInv(plan, s', id) && CountInv(plan, s', id)
      ensures Outstanding(plan, s', id) == Outstanding(plan, s, id)
    {
      IntroduceKeepsId(plan, s, y, id);
    }
    forall x: nat, z: nat, q: nat | x < plan.Size() && z in plan.nbrs[x] && q <= plan.n
      ensures EdgeInv(plan, s', x, z, q)
    {
      IntroduceKeepsEdge(plan, s, y, x, z, q);
    }
    forall m | m in s'.net
      ensures PacketInv(plan, s', m)
    {
      IntroduceKeepsPacket(plan, s, y, m);
    }
    assert OutstandingSet(plan, s') == OutstandingSet(plan, s);
    OthersStillWait(plan, s, s', y);
    IntroductionCount(plan, s, y, ToBlock(y, Neighbours(plan.nbrs[y])));
    assert WorkerInv(plan, s, y) && Waits(plan, s', y);
  }

  // The manager receives a block.

  ghost predicate Reports(plan: Plan, s: System, block: Block) {
    Inv(plan, s) && ToManager(block) in s.net
  }

  lemma ReportHandled(plan: Plan, s: System, block: Block)
    requires Reports(plan, s, block)
    ensures ReceiveBlockResult(s.manager, block).ManagerHandled?
    ensures ManagerInv(plan, s.(net := s.net - multiset{ToManager(block)},
                                manager := ReceiveBlockResult(s.manager, block).manager))
  {
    var id := block.blockId;
    var m := s.manager;
    assert PacketInv(plan, s, ToManager(block));
    assert CountInv(plan, s, id) && Outstanding(plan, s, id);
    assert id in OutstandingSet(plan, s);
    assert plan.IdOk(plan.n, id);
    var s1 := s.(net := s.net - multiset{ToManager(block)});
    OutstandingShrinks(plan, s, s1, id);
    PlacedBlocks(plan, s, s1, id);
    var grid := Placed(m.assembly.value, block);
    if m.missingBlocks.value == 1 {
      assert plan.IsFinal(grid) by {
        forall x | 0 <= x < plan.Size() ensures !Outstanding(plan, s1, x) {
          assert x !in OutstandingSet(plan, s1);
        }
      }
      assert CanAssemble(grid);
    }
    var s' := s1.(manager := ReceiveBlockResult(m, block).manager);
    assert OutstandingSet(plan, s') == OutstandingSet(plan, s1);
  }

  lemma OutstandingShrinks(plan: Plan, s: System, s1: System, id: nat)
    requires CoreInv(plan, s) && id < plan.Size() && ToManager(plan.blocks[plan.n][id]) in s.net
    requires s1 == s.(net := s.net - multiset{ToManager(plan.blocks[plan.n][id])})
    ensures OutstandingSet(plan, s1) == OutstandingSet(plan, s) - {id}
    ensures id in OutstandingSet(plan, s) && |OutstandingSet(plan, s1)| == |OutstandingSet(plan, s)| - 1
    ensures forall x: nat | x < plan.Size() :: Outstanding(plan, s1, x) <==> x != id && Outstanding(plan, s, x)
  {
    assert PacketInv(plan, s, ToManager(plan.blocks[plan.n][id]));
    forall x: nat | x < plan.Size()
      ensures Outstanding(plan, s1, x) <==> x != id && Outstanding(plan, s, x)
    {
      assert CountInv(plan, s, x) && plan.IdOk(plan.n, x) && plan.IdOk(plan.n, id);
    }
    assert id in OutstandingSet(plan, s);
    assert OutstandingSet(plan, s1) == OutstandingSet(plan, s) - {id};
  }

  /** Placing the final block `id` in the grid leaves every other place as it was. */
  lemma PlacedBlocks(plan: Plan, s: System, s1: System, id: nat)
    requires CoreInv(plan, s) && id < plan.Size() && s.manager.missingBlocks.Some?
    requires |s1.workers| == plan.Size()
    requires forall x: nat | x < plan.Size() :: Outstanding(plan, s1, x) <==> x != id && Outstanding(plan, s, x)
    ensures HasPosition(s.manager.assembly.value, plan.blocks[plan.n][id])
    ensures var grid := Placed(s.manager.assembly.value, plan.blocks[plan.n][id]);
      && plan.GridShape(grid)
      && forall x: nat | x < plan.Size() ::
           grid[plan.pos[x].0][plan.pos[x].1] == plan.blocks[if Outstanding(plan, s1, x) then 0 else plan.n][x]
  {
    assert plan.PlaceOk(plan.n, id);
    forall x: nat | x < plan.Size() && x != id ensures plan.pos[x] != plan.pos[id] {
      assert if x < id then plan.pos[x] != plan.pos[id] else plan.pos[id] != plan.pos[x];
    }
  }

  /** The manager takes one report and becomes `manager`. */
  function Reported(s: System, block: Block, manager: Manager): System {
    s.(net := s.net - multiset{ToManager(block)}, manager := manager)
  }

  lemma ReportKeepsId(plan: Plan, s: System, block: Block, manager: Manager, id: nat)
    requires Reports(plan, s, block) && id < plan.Size()
    ensures var s' := Reported(s, block, manager);
      WorkerInv(plan, s', id) && CountInv(plan, s', id) && Waits(plan, s', id)
  {
    assert WorkerInv(plan, s, id) && CountInv(plan, s, id) && Waits(plan, s, id);
  }

  lemma ReportKeepsPacket(plan: Plan, s: System, block: Block, manager: Manager, m: Packet)
    requires Reports(plan, s, block) && m in Reported(s, block, manager).net
    ensures PacketInv(plan, Reported(s, block, manager), m)
  {
    assert PacketInv(plan, s, m);
  }

  lemma ReportKeepsEdge(plan: Plan, s: System, block: Block, manager: Manager, x: nat, z: nat, q: nat)
    requires Reports(plan, s, block) && x < plan.Size() && z in plan.nbrs[x] && q <= plan.n
    ensures EdgeInv(plan, Reported(s, block, manager), x, z, q)
  {
    assert EdgeInv(plan, s, x, z, q);
  }

  lemma ReportKeepsRest(plan: Plan, s: System, block: Block, manager: Manager)
    requires Reports(plan, s, block) && ManagerInv(plan, Reported(s, block, manager))
    ensures Inv(plan, Reported(s, block, manager))
  {
    var s' := Reported(s, block, manager);
    forall id: nat | id < plan.Size()
      ensures WorkerInv(plan, s', id) && CountInv(plan, s', id) && Waits(plan, s', id)
    {
      ReportKeepsId(plan, s, block, manager, id);
    }
    forall x: nat, z: nat, q: nat | x < plan.Size() && z in plan.nbrs[x] && q <= plan.n
      ensures EdgeInv(plan, s', x, z, q)
    {
      ReportKeepsEdge(plan, s, block, manager, x, z, q);
    }
    forall m | m in s'.net
      ensures PacketInv(plan, s', m)
    {
      ReportKeepsPacket(plan, s, block, manager, m);
    }
  }

  lemma ReportKeepsInv(plan: Plan, s: System, block: Block)
    requires Reports(plan, s, block)
    ensures ReceiveBlockResult(s.manager, block).ManagerHandled?
    ensures Inv(plan, Reported(s, block, ReceiveBlockResult(s.manager, block).manager))
  {
    ReportHandled(plan, s, block);
    ReportKeepsRest(plan, s, block, ReceiveBlockResult(s.manager, block).manager);
  }

  // All deliveries.

  lemma RequeueChangesNothing(s: System, y: nat, k: Phase, data: Block)
    requires s.Valid() && y < |s.workers| && ToBlock(y, PhaseResult(k, data)) in s.net
    requires !s.workers[y].ready && s.workers[y].currentData.blockId == y
    ensures Deliver(s, ToBlock(y, PhaseResult(k, data))) == Some(s)
  {
    var m := ToBlock(y, PhaseResult(k, data));
    assert s.net - multiset{m} + multiset([m]) == s.net;
    assert s.workers[y := s.workers[y]] == s.workers;
  }

  lemma DropKeepsInv(plan: Plan, s: System, y: nat, k: Phase, data: Block)
    requires Inv(plan, s) && s.Valid() && Arrives(plan, s, y, k, data) && s.workers[y].done
    ensures Deliver(s, ToBlock(y, PhaseResult(k, data))).Some?
    ensures Inv(plan, Deliver(s, ToBlock(y, PhaseResult(k, data))).value)
  {
    DropKeepsCore(plan, s, y, k, data);
    var s' := Taken(s, y, s.workers[y], ToBlock(y, PhaseResult(k, data)));
    OthersStillWait(plan, s, s', y);
    assert Waits(plan, s', y) && Deliver(s, ToBlock(y, PhaseResult(k, data))).value == s';
  }

  lemma GatherKeepsInv(plan: Plan, s: System, y: nat, k: Phase, data: Block)
    requires Inv(plan, s) && s.Valid() && Arrives(plan, s, y, k, data)
    requires !s.workers[y].done && k == s.workers[y].k
    ensures Deliver(s, ToBlock(y, PhaseResult(k, data))).Some?
    ensures Inv(plan, Deliver(s, ToBlock(y, PhaseResult(k, data))).value)
  {
    MessageEdge(plan, s, y, k, data);
    GatherKeepsCore(plan, s, y, k, data);
    var s' := Taken(s, y, Gathering(s.workers[y], data), ToBlock(y, PhaseResult(k, data)));
    OthersStillWait(plan, s, s', y);
    assert WorkerInv(plan, s', y);
    LoopKeepsInv(plan, s', y);
    assert s'.workers[y := GatherLoop(s'.workers[y]).worker] == s.workers[y := GatherLoop(s'.workers[y]).worker];
    assert Deliver(s, ToBlock(y, PhaseResult(k, data))).value == Reacted(s', y, GatherLoop(s'.workers[y]));
  }

  lemma BufferKeepsInv(plan: Plan, s: System, y: nat, k: Phase, data: Block)
    requires Inv(plan, s) && s.Valid() && Arrives(plan, s, y, k, data)
    requires !s.workers[y].done && k == s.workers[y].k.Incremented()
    ensures Deliver(s, ToBlock(y, PhaseResult(k, data))).Some?
    ensures Inv(plan, Deliver(s, ToBlock(y, PhaseResult(k, data))).value)
  {
    BufferKeepsCore(plan, s, y, k, data);
    var s' := Taken(s, y, Buffering(s.workers[y], data), ToBlock(y, PhaseResult(k, data)));
    OthersStillWait(plan, s, s', y);
    assert Waits(plan, s, y);
    assert Waits(plan, s', y) && Deliver(s, ToBlock(y, PhaseResult(k, data))).value == s';
  }

  lemma ResultKeepsInv(plan: Plan, s: System, y: nat, k: Phase, data: Block)
    requires Inv(plan, s) && ToBlock(y, PhaseResult(k, data)) in s.net && s.Valid()
    ensures Deliver(s, ToBlock(y, PhaseResult(k, data))).Some?
    ensures Inv(plan, Deliver(s, ToBlock(y, PhaseResult(k, data))).value)
  {
    assert PacketInv(plan, s, ToBlock(y, PhaseResult(k, data)));
    assert WorkerInv(plan, s, y) && plan.IdOk(s.workers[y].k.Count(), y);
    if !s.workers[y].ready {
      RequeueChangesNothing(s, y, k, data);
    } else if s.workers[y].done {
      DropKeepsInv(plan, s, y, k, data);
    } else {
      SkewBounded(plan, s, y, k, data);
      if k == s.workers[y].k {
        GatherKeepsInv(plan, s, y, k, data);
      } else {
        BufferKeepsInv(plan, s, y, k, data);
      }
    }
  }

  /** Delivering any message in flight succeeds and keeps the invariant. */
  lemma DeliverKeepsInv(plan: Plan, s: System, m: Packet)
    requires Inv(plan, s) && s.Valid() && m in s.net
    ensures Deliver(s, m).Some? && Inv(plan, Deliver(s, m).value)
  {
    assert PacketInv(plan, s, m);
    match m {
      case ToBlock(y, Neighbours(nodes)) =>
        IntroduceKeepsInv(plan, s, y);
        assert Deliver(s, m).value == IntroducedSystem(plan, s, y);
      case ToBlock(y, PhaseResult(k, data)) =>
        ResultKeepsInv(plan, s, y, k, data);
      case ToManager(block) =>
        ReportKeepsInv(plan, s, block);
    }
  }

  lemma InvIsValid(plan: Plan, s: System)
    requires Inv(plan, s)
    ensures s.Valid()
  {
    forall id | 0 <= id < |s.workers| ensures s.workers[id].Valid() {
      WorkerValid(plan, s, id);
    }
  }
}
