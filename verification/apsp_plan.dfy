/** The plan that sequential Floyd-Warshall lays down for the blocks of a matrix, and the initial state. */
module ApspPlan {
  import opened Collections
  import opened Weights
  import opened FloydWarshall
  import opened Arithmetic
  import opened Blocks
  import opened ApspActors
  import opened ApspManager
  import opened ApspProtocol

  function BlocksAfter(m: Matrix, bs: nat, b: nat, p: nat): seq<Block>
    requires Splits(m, bs, b) && p <= |m|
  {
    seq(b * b, id requires 0 <= id < b * b => BlockOf(After(m, p), bs, b, id))
  }

  function NeighboursOf(b: nat, id: nat): seq<nat>
    requires b > 0
  {
    NeighbourIds(id / b, id % b, b)
  }

  function AllNeighbours(b: nat): seq<seq<nat>>
    requires b > 0
  {
    seq(b * b, id requires 0 <= id < b * b => NeighboursOf(b, id))
  }

  function Positions(b: nat): seq<(nat, nat)>
    requires b > 0
  {
    seq(b * b, id requires 0 <= id < b * b => (id / b, id % b))
  }

  function History(m: Matrix, bs: nat, b: nat): seq<seq<Block>>
    requires Splits(m, bs, b)
  {
    seq(|m| + 1, p requires 0 <= p <= |m| => BlocksAfter(m, bs, b, p))
  }

  function PlanOf(m: Matrix, bs: nat, b: nat): Plan
    requires Splits(m, bs, b)
  {
    Plan(|m|, AllNeighbours(b), History(m, bs, b), Positions(b), b, After(m, |m|))
  }

  /** The state after the manager has distributed the matrix. */
  function Start(m: Matrix, bs: nat, b: nat): System
    requires Splits(m, bs, b)
  {
    System(InitialWorkers(m, bs, b), multiset(Introductions(b)),
           Manager(Some(b * b), Some(Break(m, bs, b)), true, 0, None))
  }

  lemma NeighboursAre(b: nat, id: nat)
    requires id < b * b
    ensures Distinct(NeighboursOf(b, id)) && |NeighboursOf(b, id)| == 2 * b - 2
    ensures forall x: nat :: x in NeighboursOf(b, id) <==> x < b * b && SameRowOrColumn(id, x, b)
  {
    QuotientBelow(id, b, b);
    NeighbourContents(id / b, id % b, b);
  }

  lemma PlanShape(m: Matrix, bs: nat, b: nat)
    requires Splits(m, bs, b)
    ensures PlanOf(m, bs, b).HasShape() && PlanOf(m, bs, b).IsSymmetric()
  {
    var plan := PlanOf(m, bs, b);
    PositiveMultiple(b, bs);
    forall id: nat | id < b * b
      ensures Distinct(plan.nbrs[id])
      ensures forall x: nat :: x in plan.nbrs[id] <==> x < b * b && SameRowOrColumn(id, x, b)
    {
      NeighboursAre(b, id);
    }
  }

  lemma PlanBlocks(m: Matrix, bs: nat, b: nat, p: nat, id: nat)
    requires Splits(m, bs, b) && p <= |m| && id < b * b
    ensures PlanOf(m, bs, b).HasShape()
    ensures PlanOf(m, bs, b).blocks[p][id] == BlockOf(After(m, p), bs, b, id)
    ensures PlanOf(m, bs, b).IdOk(p, id) && PlanOf(m, bs, b).PlaceOk(p, id)
  {
    PlanShape(m, bs, b);
    assert PlanOf(m, bs, b).blocks[p] == BlocksAfter(m, bs, b, p);
    BlockOfEntry(After(m, p), bs, b, id, 0, 0);
  }

  /** A phase of the plan is a phase of the sequential algorithm. */
  lemma PlanPhases(m: Matrix, bs: nat, b: nat, p: nat, id: nat)
    requires Splits(m, bs, b) && p < |m| && id < b * b
    ensures PlanOf(m, bs, b).HasShape() && PlanOf(m, bs, b).PhaseOk(p, id)
  {
    var plan := PlanOf(m, bs, b);
    PlanBlocks(m, bs, b, p, id);
    PlanBlocks(m, bs, b, p + 1, id);
    NeighboursAre(b, id);
    var gathered := plan.Gathered(p, id);
    assert plan.nbrs[id] == NeighboursOf(b, id);
    forall x | x in gathered
      ensures x < b * b && gathered[x] == BlockOf(After(m, p), bs, b, x)
    {
      PlanBlocks(m, bs, b, p, x);
    }
    LookupsAreNeighbours(plan.blocks[p][id], gathered, p);
    OnePhase(After(m, p), bs, b, id, gathered, p);
  }

  lemma PlanPositions(m: Matrix, bs: nat, b: nat)
    requires Splits(m, bs, b)
    ensures PlanOf(m, bs, b).HasShape() && PlanOf(m, bs, b).PositionsOk()
  {
    var plan := PlanOf(m, bs, b);
    PlanShape(m, bs, b);
    forall id: nat | id < b * b
      ensures plan.pos[id] == (id / b, id % b) && id / b < b && id % b < b && id == IdAt(id / b, id % b, b)
    {
      QuotientBelow(id, b, b);
    }
  }

  /** Entry (r, c) of the grid `last` is what the plan ends with at that place. */
  ghost predicate EndsWith(plan: Plan, last: seq<seq<Block>>, r: nat, c: nat)
    requires plan.HasShape() && plan.GridShape(last) && r < plan.side && c < plan.side
  {
    && IdAt(r, c, plan.side) < plan.Size()
    && plan.pos[IdAt(r, c, plan.side)] == (r, c)
    && plan.blocks[plan.n][IdAt(r, c, plan.side)] == last[r][c]
  }

  lemma PlanEndsWith(m: Matrix, bs: nat, b: nat, r: nat, c: nat)
    requires Splits(m, bs, b) && r < b && c < b
    ensures PlanOf(m, bs, b).HasShape() && EndsWith(PlanOf(m, bs, b), Break(After(m, |m|), bs, b), r, c)
  {
    BlockPositions(After(m, |m|), bs, b, r, c);
    IdInverts(r, c, b);
    PlanBlocks(m, bs, b, |m|, IdAt(r, c, b));
  }

  lemma FinalGrid(plan: Plan, last: seq<seq<Block>>, grid: seq<seq<Block>>)
    requires plan.HasShape() && plan.PositionsOk() && plan.GridShape(last)
    requires forall r: nat, c: nat | r < plan.side && c < plan.side :: EndsWith(plan, last, r, c)
    requires plan.GridShape(grid) && plan.IsFinal(grid)
    ensures grid == last
  {
    forall r: nat | r < plan.side
      ensures grid[r] == last[r]
    {
      forall c: nat | c < plan.side ensures grid[r][c] == last[r][c] {
        assert EndsWith(plan, last, r, c);
      }
    }
  }

  lemma BreakAssembles(m: Matrix, bs: nat, b: nat)
    requires Splits(m, bs, b)
    ensures var grid := Break(m, bs, b); CanAssemble(grid) && Assemble(grid, grid[0][0].BlockSize()) == m
  {
    AssembleInvertsBreak(m, bs, b);
  }

  /** Sequential Floyd-Warshall is a valid plan for its blocks. */
  lemma PlanIsValid(m: Matrix, bs: nat, b: nat)
    requires Splits(m, bs, b)
    ensures PlanOf(m, bs, b).Valid()
  {
    var plan := PlanOf(m, bs, b);
    PlanShape(m, bs, b);
    PlanPositions(m, bs, b);
    forall p: nat, id: nat | p <= plan.n && id < plan.Size() ensures plan.IdOk(p, id) && plan.PlaceOk(p, id) {
      PlanBlocks(m, bs, b, p, id);
    }
    forall p: nat, id: nat | p < plan.n && id < plan.Size() ensures plan.PhaseOk(p, id) {
      PlanPhases(m, bs, b, p, id);
    }
    var last := Break(After(m, |m|), bs, b);
    forall r: nat, c: nat | r < b && c < b ensures EndsWith(plan, last, r, c) {
      PlanEndsWith(m, bs, b, r, c);
    }
    forall grid: seq<seq<Block>> | plan.GridShape(grid) && plan.IsFinal(grid)
      ensures CanAssemble(grid) && Assemble(grid, grid[0][0].BlockSize()) == plan.result
    {
      FinalGrid(plan, last, grid);
      BreakAssembles(After(m, |m|), bs, b);
    }
  }

  // The initial state satisfies the invariant.

  lemma IntroductionsInFlight(m: Matrix, bs: nat, b: nat, p: Packet)
    requires Splits(m, bs, b)
    ensures Start(m, bs, b).net[p] == if exists id: nat :: id < b * b && p == Introduction(id, b) then 1 else 0
  {
    var sent := Introductions(b);
    assert Distinct(sent) by {
      forall i, j | 0 <= i < j < |sent| ensures sent[i] != sent[j] {
        assert sent[i].to == i && sent[j].to == j;
      }
    }
    CountInDistinct(sent, p);
    if id: nat :| id < b * b && p == Introduction(id, b) {
      assert sent[id] == p;
    }
  }

  lemma StartWorkers(m: Matrix, bs: nat, b: nat, id: nat)
    requires Splits(m, bs, b) && id < b * b
    ensures var plan, s := PlanOf(m, bs, b), Start(m, bs, b);
      plan.HasShape() && WorkerInv(plan, s, id) && CountInv(plan, s, id) && Waits(plan, s, id) && Outstanding(plan, s, id)
  {
    var plan, s := PlanOf(m, bs, b), Start(m, bs, b);
    PlanShape(m, bs, b);
    PlanBlocks(m, bs, b, 0, id);
    assert s.workers[id] == NewWorker(BlockOf(m, bs, b, id), |m|);
    IntroductionsInFlight(m, bs, b, ToBlock(id, Neighbours(plan.nbrs[id])));
    assert ToBlock(id, Neighbours(plan.nbrs[id])) == Introduction(id, b);
    IntroductionsInFlight(m, bs, b, ToManager(plan.blocks[plan.n][id]));
  }

  lemma StartManager(m: Matrix, bs: nat, b: nat)
    requires Splits(m, bs, b)
    ensures var plan, s := PlanOf(m, bs, b), Start(m, bs, b);
      plan.HasShape() && plan.PositionsOk() && ManagerInv(plan, s)
  {
    var plan, s := PlanOf(m, bs, b), Start(m, bs, b);
    PlanPositions(m, bs, b);
    forall id: nat | id < b * b
      ensures Outstanding(plan, s, id)
      ensures s.manager.assembly.value[plan.pos[id].0][plan.pos[id].1] == plan.blocks[0][id]
    {
      StartWorkers(m, bs, b, id);
      PlanBlocks(m, bs, b, 0, id);
      QuotientBelow(id, b, b);
      BlockPositions(m, bs, b, id / b, id % b);
    }
    assert OutstandingSet(plan, s) == Below(b * b);
    BelowSize(b * b);
    PositiveMultiple(b, b);
  }

  lemma StartHasInv(m: Matrix, bs: nat, b: nat)
    requires Splits(m, bs, b)
    ensures Inv(PlanOf(m, bs, b), Start(m, bs, b))
  {
    var plan, s := PlanOf(m, bs, b), Start(m, bs, b);
    PlanIsValid(m, bs, b);
    StartManager(m, bs, b);
    forall id: nat | id < plan.Size()
      ensures WorkerInv(plan, s, id) && CountInv(plan, s, id) && Waits(plan, s, id)
    {
      StartWorkers(m, bs, b, id);
    }
    forall x: nat, y: nat, q: nat | x < plan.Size() && y in plan.nbrs[x] && q <= plan.n
      ensures EdgeInv(plan, s, x, y, q)
    {
      StartWorkers(m, bs, b, x);
      StartWorkers(m, bs, b, y);
      IntroductionsInFlight(m, bs, b, ResultMsg(plan, x, q, y));
    }
    forall p | p in s.net
      ensures PacketInv(plan, s, p)
    {
      IntroductionsInFlight(m, bs, b, p);
      var id: nat :| id < b * b && p == Introduction(id, b);
      StartWorkers(m, bs, b, id);
    }
  }
}
