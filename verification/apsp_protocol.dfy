/**
 * The whole computation as a state machine: block actors, the manager and a bag of
 * messages in flight, delivered in any order, each exactly once.
 */
module ApspProtocol {
  import opened Collections
  import opened Weights
  import opened FloydWarshall
  import opened Blocks
  import opened ApspActors
  import opened ApspManager

  datatype System = System(workers: seq<Worker>, net: multiset<Packet>, manager: Manager) {
    predicate Valid() {
      forall id | 0 <= id < |workers| :: workers[id].Valid()
    }
  }

  /** Delivers one message; `None` when its receiver panics or does not exist. */
  function Deliver(s: System, p: Packet): (r: Option<System>)
    requires s.Valid() && p in s.net
    ensures r.Some? ==> r.value.Valid()
  {
    match p
    case ToBlock(to, msg) =>
      if to >= |s.workers| then None else
        (match Receive(s.workers[to], msg)
         case Panicked => None
         case Handled(w, sent) =>
           Some(s.(workers := s.workers[to := w], net := s.net - multiset{p} + multiset(sent))))
    case ToManager(block) =>
      (match ReceiveBlockResult(s.manager, block)
       case ManagerPanicked => None
       case ManagerHandled(manager) =>
         Some(s.(net := s.net - multiset{p}, manager := manager)))
  }

  ghost predicate Next(s: System, s': System) {
    s.Valid() && exists p :: p in s.net && Deliver(s, p) == Some(s')
  }

  // What every block must hold, independently of how the values come about.

  /**
   * `blocks[p][id]` is block `id` after `p` phases; `nbrs[id]` are its neighbours; `pos[id]`
   * is its place in the grid of `side` by `side` blocks; `result` is the assembled matrix.
   */
  datatype Plan = Plan(
    n: nat,
    nbrs: seq<seq<nat>>,
    blocks: seq<seq<Block>>,
    pos: seq<(nat, nat)>,
    side: nat,
    result: Matrix
  ) {
    function Size(): nat {
      |nbrs|
    }

    predicate HasShape() {
      && n > 0
      && |blocks| == n + 1 && |pos| == |nbrs|
      && (forall p | 0 <= p <= n :: |blocks[p]| == |nbrs|)
      && (forall id | 0 <= id < |nbrs| :: Distinct(nbrs[id]))
      && (forall id, x | 0 <= id < |nbrs| && x in nbrs[id] :: x < |nbrs| && x != id)
    }

    ghost predicate IsSymmetric()
      requires HasShape()
    {
      forall x: nat, y: nat {:trigger y in nbrs[x]} | x < |nbrs| && y < |nbrs| :: y in nbrs[x] ==> x in nbrs[y]
    }

    predicate IdOk(p: nat, id: nat)
      requires HasShape() && p <= n && id < |nbrs|
    {
      blocks[p][id].blockId == id
    }

    predicate PlaceOk(p: nat, id: nat)
      requires HasShape() && p <= n && id < |nbrs|
    {
      var block := blocks[p][id];
      && block.WellPlaced() && block.Position() == pos[id]
      && n == block.numBlocksPerDim * block.BlockSize()
    }

    function Gathered(p: nat, id: nat): map<nat, Block>
      requires HasShape() && p <= n && id < |nbrs|
    {
      map x: nat | x in nbrs[id] :: blocks[p][x]
    }

    /** Phase `p` of block `id`, from its neighbours' blocks after `p` phases, gives the block after `p + 1`. */
    ghost predicate PhaseOk(p: nat, id: nat)
      requires HasShape() && p < n && id < |nbrs|
    {
      && LookupsDefined(blocks[p][id], Gathered(p, id), p)
      && blocks[p][id].(data := RelaxBlock(blocks[p][id], Gathered(p, id), p)) == blocks[p + 1][id]
    }

    ghost predicate PositionsOk()
      requires HasShape()
    {
      && (forall id | 0 <= id < |nbrs| :: pos[id].0 < side && pos[id].1 < side)
      && (forall x, y | 0 <= x < y < |nbrs| :: pos[x] != pos[y])
    }

    predicate GridShape(grid: seq<seq<Block>>) {
      |grid| == side && forall r | 0 <= r < side :: |grid[r]| == side
    }

    ghost predicate IsFinal(grid: seq<seq<Block>>)
      requires HasShape() && PositionsOk() && GridShape(grid)
    {
      forall id | 0 <= id < |nbrs| :: grid[pos[id].0][pos[id].1] == blocks[n][id]
    }

    ghost predicate AssemblyOk()
      requires HasShape() && PositionsOk()
    {
      forall grid: seq<seq<Block>> | GridShape(grid) && IsFinal(grid) ::
        CanAssemble(grid) && Assemble(grid, grid[0][0].BlockSize()) == result
    }

    ghost predicate Valid() {
      && HasShape() && IsSymmetric()
      && (forall p: nat, id: nat | p <= n && id < |nbrs| :: IdOk(p, id))
      && (forall p: nat, id: nat | p <= n && id < |nbrs| :: PlaceOk(p, id))
      && (forall p: nat, id: nat | p < n && id < |nbrs| :: PhaseOk(p, id))
      && PositionsOk() && AssemblyOk()
    }
  }

  function PhaseAfter(count: nat): (k: Phase)
    ensures k.Count() == count
  {
    if count == 0 then Initial else Normal(count - 1)
  }

  /** The message that carries block `x` after `q` phases to actor `y`. */
  function ResultMsg(plan: Plan, x: nat, q: nat, y: nat): Packet
    requires plan.HasShape() && q <= plan.n && x < plan.Size()
  {
    ToBlock(y, PhaseResult(PhaseAfter(q), plan.blocks[q][x]))
  }

  // The invariant.

  ghost predicate WorkerInv(plan: Plan, s: System, id: nat)
    requires plan.HasShape() && |s.workers| == plan.Size() && id < plan.Size()
  {
    var w := s.workers[id];
    var p := w.k.Count();
    && w.numNodes == plan.n && p <= plan.n
    && w.currentData == plan.blocks[p][id]
    && w.k == PhaseAfter(p)
    && (w.ready ==> w.neighbours == plan.nbrs[id])
    && (!w.ready ==> p == 0 && w.neighbourData == map[] && w.nextNeighbourData == map[])
    && (w.done <==> p == plan.n)
    && (forall x | x in w.neighbourData :: x in plan.nbrs[id] && w.neighbourData[x] == plan.blocks[p][x])
    && (forall x | x in w.nextNeighbourData ::
          x in plan.nbrs[id] && p < plan.n && w.nextNeighbourData[x] == plan.blocks[p + 1][x])
  }

  lemma WorkerValid(plan: Plan, s: System, id: nat)
    requires plan.Valid() && |s.workers| == plan.Size() && id < plan.Size() && WorkerInv(plan, s, id)
    ensures s.workers[id].Valid()
  {
    assert plan.PlaceOk(s.workers[id].k.Count(), id);
  }

  /** Actor `x` has announced its block after `q` phases. */
  predicate Announced(s: System, x: nat, q: nat)
    requires x < |s.workers|
  {
    s.workers[x].ready && q <= s.workers[x].k.Count()
  }

  /** Where the announcement of phase `q` from `x` to its neighbour `y` is. */
  ghost predicate EdgeInv(plan: Plan, s: System, x: nat, y: nat, q: nat)
    requires plan.HasShape() && |s.workers| == plan.Size() && x < plan.Size() && y < plan.Size() && q <= plan.n
  {
    var w := s.workers[y];
    var p := w.k.Count();
    var inFlight := s.net[ResultMsg(plan, x, q, y)];
    if !Announced(s, x, q) then
      && inFlight == 0 && p <= q
      && (q == p ==> x !in w.neighbourData) && (q == p + 1 ==> x !in w.nextNeighbourData)
    else if w.done then
      inFlight <= 1
    else
      && q <= p + 1
      && inFlight == (if q < p || (q == p && x in w.neighbourData) || (q == p + 1 && x in w.nextNeighbourData)
                      then 0 else 1)
  }

  ghost predicate PacketInv(plan: Plan, s: System, m: Packet)
    requires plan.HasShape() && |s.workers| == plan.Size()
  {
    match m
    case ToBlock(to, Neighbours(nodes)) =>
      to < plan.Size() && nodes == plan.nbrs[to] && !s.workers[to].ready
    case ToBlock(to, PhaseResult(k, data)) =>
      && to < plan.Size() && data.blockId < plan.Size() && data.blockId in plan.nbrs[to] && k.Count() <= plan.n
      && Announced(s, data.blockId, k.Count())
      && m == ResultMsg(plan, data.blockId, k.Count(), to)
    case ToManager(block) =>
      && block.blockId < plan.Size() && s.workers[block.blockId].done
      && block == plan.blocks[plan.n][block.blockId]
  }

  ghost predicate CountInv(plan: Plan, s: System, id: nat)
    requires plan.HasShape() && |s.workers| == plan.Size() && id < plan.Size()
  {
    && s.net[ToBlock(id, Neighbours(plan.nbrs[id]))] == (if s.workers[id].ready then 0 else 1)
    && s.net[ToManager(plan.blocks[plan.n][id])] <= 1
  }

  /** The manager has not yet received the final block `id`. */
  ghost predicate Outstanding(plan: Plan, s: System, id: nat)
    requires plan.HasShape() && |s.workers| == plan.Size() && id < plan.Size()
  {
    !s.workers[id].done || ToManager(plan.blocks[plan.n][id]) in s.net
  }

  ghost function OutstandingSet(plan: Plan, s: System): set<nat>
    requires plan.HasShape() && |s.workers| == plan.Size()
  {
    set id: nat | id in Below(plan.Size()) && Outstanding(plan, s, id)
  }

  ghost predicate ManagerInv(plan: Plan, s: System)
    requires plan.HasShape() && plan.PositionsOk() && |s.workers| == plan.Size()
  {
    var m := s.manager;
    match m.missingBlocks
    case Some(missing) =>
      && missing > 0 && missing == |OutstandingSet(plan, s)|
      && m.latchHeld && m.decrements == 0 && m.result == None
      && m.assembly.Some? && plan.GridShape(m.assembly.value)
      && (forall id: nat | id < plan.Size() ::
            m.assembly.value[plan.pos[id].0][plan.pos[id].1]
              == plan.blocks[if Outstanding(plan, s, id) then 0 else plan.n][id])
    case None =>
      OutstandingSet(plan, s) == {} && !m.latchHeld && m.decrements == 1 && m.result == Some(plan.result)
  }

  /** Everything except that the gather loops have run as far as they can. */
  ghost predicate CoreInv(plan: Plan, s: System) {
    && plan.Valid() && |s.workers| == plan.Size()
    && (forall id: nat | id < plan.Size() :: WorkerInv(plan, s, id))
    && (forall x: nat, y: nat, q: nat | x < plan.Size() && y in plan.nbrs[x] && q <= plan.n :: EdgeInv(plan, s, x, y, q))
    && (forall m | m in s.net :: PacketInv(plan, s, m))
    && (forall id: nat | id < plan.Size() :: CountInv(plan, s, id))
    && ManagerInv(plan, s)
  }

  /** A started, unfinished actor is waiting for some neighbour. */
  ghost predicate Waits(plan: Plan, s: System, id: nat)
    requires plan.HasShape() && |s.workers| == plan.Size() && id < plan.Size()
  {
    var w := s.workers[id];
    w.ready && !w.done && plan.nbrs[id] != [] ==> |w.neighbourData| < |plan.nbrs[id]|
  }

  ghost predicate Inv(plan: Plan, s: System) {
    CoreInv(plan, s) && forall id: nat | id < plan.Size() :: Waits(plan, s, id)
  }
}
