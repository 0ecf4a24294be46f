/** The manager: it hands out the blocks and puts the results together (all_pairs_shortest_path.rs). */
module ApspManager {
  import opened Collections
  import opened Weights
  import opened FloydWarshall
  import opened Arithmetic
  import opened Blocks
  import opened Graphs
  import opened ApspActors

  // The neighbours of a block actor.

  function OthersInColumn(bi: nat, bj: nat, b: nat, upTo: nat): seq<nat>
  {
    if upTo == 0 then []
    else OthersInColumn(bi, bj, b, upTo - 1) + if upTo - 1 != bi then [IdAt(upTo - 1, bj, b)] else []
  }

  function OthersInRow(bi: nat, bj: nat, b: nat, upTo: nat): seq<nat>
  {
    if upTo == 0 then []
    else OthersInRow(bi, bj, b, upTo - 1) + if upTo - 1 != bj then [IdAt(bi, upTo - 1, b)] else []
  }

  function NeighbourIds(bi: nat, bj: nat, b: nat): seq<nat> {
    OthersInColumn(bi, bj, b, b) + OthersInRow(bi, bj, b, b)
  }

  lemma IdAtIs(r: nat, c: nat, b: nat, x: nat)
    requires r < b && c < b
    ensures x == IdAt(r, c, b) <==> x < b * b && x / b == r && x % b == c
  {
    IdInverts(r, c, b);
    if x < b * b {
      QuotientBelow(x, b, b);
    }
  }

  lemma {:induction false} ColumnContents(bi: nat, bj: nat, b: nat, upTo: nat)
    requires bi < b && bj < b && upTo <= b
    ensures var s := OthersInColumn(bi, bj, b, upTo);
      && Distinct(s) && |s| == (if bi < upTo then upTo - 1 else upTo)
      && forall x: nat :: x in s <==> x < b * b && x % b == bj && x / b < upTo && x / b != bi
  {
    if upTo > 0 {
      ColumnContents(bi, bj, b, upTo - 1);
      forall x: nat ensures x == IdAt(upTo - 1, bj, b) <==> x < b * b && x / b == upTo - 1 && x % b == bj {
        IdAtIs(upTo - 1, bj, b, x);
      }
      if upTo - 1 != bi {
        DistinctConcat(OthersInColumn(bi, bj, b, upTo - 1), [IdAt(upTo - 1, bj, b)]);
      }
    }
  }

  lemma {:induction false} RowContents(bi: nat, bj: nat, b: nat, upTo: nat)
    requires bi < b && bj < b && upTo <= b
    ensures var s := OthersInRow(bi, bj, b, upTo);
      && Distinct(s) && |s| == (if bj < upTo then upTo - 1 else upTo)
      && forall x: nat :: x in s <==> x < b * b && x / b == bi && x % b < upTo && x % b != bj
  {
    if upTo > 0 {
      RowContents(bi, bj, b, upTo - 1);
      forall x: nat ensures x == IdAt(bi, upTo - 1, b) <==> x < b * b && x / b == bi && x % b == upTo - 1 {
        IdAtIs(bi, upTo - 1, b, x);
      }
      if upTo - 1 != bj {
        DistinctConcat(OthersInRow(bi, bj, b, upTo - 1), [IdAt(bi, upTo - 1, b)]);
      }
    }
  }

  /** The neighbour list holds, once each, exactly the other blocks of the same block row or column. */
  lemma NeighbourContents(bi: nat, bj: nat, b: nat)
    requires bi < b && bj < b
    ensures Distinct(NeighbourIds(bi, bj, b)) && |NeighbourIds(bi, bj, b)| == 2 * b - 2
    ensures forall x: nat ::
      x in NeighbourIds(bi, bj, b) <==> x < b * b && SameRowOrColumn(IdAt(bi, bj, b), x, b)
  {
    ColumnContents(bi, bj, b, b);
    RowContents(bi, bj, b, b);
    IdInverts(bi, bj, b);
    DistinctConcat(OthersInColumn(bi, bj, b, b), OthersInRow(bi, bj, b, b));
    forall x: nat | x < b * b
      ensures x in NeighbourIds(bi, bj, b) <==> SameRowOrColumn(IdAt(bi, bj, b), x, b)
    {
      QuotientBelow(x, b, b);
    }
  }

  // The manager as a function of its state.

  datatype Manager = Manager(
    missingBlocks: Option<nat>,
    assembly: Option<seq<seq<Block>>>,
    latchHeld: bool,
    decrements: nat,
    result: Option<Matrix>
  )

  datatype ManagerReaction = ManagerHandled(manager: Manager) | ManagerPanicked

  predicate HasPosition(grid: seq<seq<Block>>, block: Block) {
    && block.numBlocksPerDim > 0
    && block.Position().0 < |grid| && block.Position().1 < |grid[block.Position().0]|
  }

  function Placed(grid: seq<seq<Block>>, block: Block): seq<seq<Block>>
    requires HasPosition(grid, block)
  {
    var (i, j) := block.Position();
    grid[i := grid[i][j := block]]
  }

  predicate CanAssemble(grid: seq<seq<Block>>) {
    |grid| > 0 && |grid[0]| > 0 && IsGrid(grid, grid[0][0].BlockSize())
  }

  /** One `BlockResult` at the manager; the last one assembles the result and opens the latch. */
  function ReceiveBlockResult(m: Manager, block: Block): ManagerReaction {
    if m.missingBlocks.None? || m.assembly.None? then ManagerPanicked
    else if !HasPosition(m.assembly.value, block) || m.missingBlocks.value == 0 then ManagerPanicked
    else
      var grid := Placed(m.assembly.value, block);
      var missing := m.missingBlocks.value - 1;
      if missing > 0 then ManagerHandled(m.(missingBlocks := Some(missing), assembly := Some(grid)))
      else if !CanAssemble(grid) || !m.latchHeld then ManagerPanicked
      else ManagerHandled(Manager(None, None, false, m.decrements + 1, Some(Assemble(grid, grid[0][0].BlockSize()))))
  }

  // What distributing a graph sets up.

  function NewWorker(block: Block, numNodes: nat): Worker {
    Worker(numNodes, false, [], Initial, map[], map[], block, false)
  }

  function InitialWorkers(m: Matrix, bs: nat, b: nat): seq<Worker>
    requires Splits(m, bs, b)
  {
    seq(b * b, id requires 0 <= id < b * b => NewWorker(BlockOf(m, bs, b, id), |m|))
  }

  function Introduction(id: nat, b: nat): Packet
    requires b > 0
  {
    ToBlock(id, Neighbours(NeighbourIds(id / b, id % b, b)))
  }

  function Introductions(b: nat): (sent: seq<Packet>)
    requires b > 0
  {
    seq(b * b, id requires 0 <= id < b * b => Introduction(id, b))
  }

  /** The actors of the blocks before position (bi, bj), row by row. */
  ghost predicate CreatedBefore(blocks: seq<seq<Block>>, numNodes: nat, workers: seq<Worker>, bi: nat, bj: nat)
    requires forall row | row in blocks :: |row| == |blocks|
  {
    forall r: nat, c: nat | r < |blocks| && c < |blocks| && (r < bi || (r == bi && c < bj)) ::
      IdAt(r, c, |blocks|) < |workers| && workers[IdAt(r, c, |blocks|)] == NewWorker(blocks[r][c], numNodes)
  }

  lemma OneActorMore(blocks: seq<seq<Block>>, numNodes: nat, workers: seq<Worker>, bi: nat, bj: nat)
    requires forall row | row in blocks :: |row| == |blocks|
    requires bi < |blocks| && bj < |blocks| && |workers| == IdAt(bi, bj, |blocks|)
    requires CreatedBefore(blocks, numNodes, workers, bi, bj)
    ensures CreatedBefore(blocks, numNodes, workers + [NewWorker(blocks[bi][bj], numNodes)], bi, bj + 1) == true
    ensures |workers| + 1 == IdAt(bi, bj + 1, |blocks|)
  {
  }

  lemma OneRowMore(blocks: seq<seq<Block>>, numNodes: nat, workers: seq<Worker>, bi: nat)
    requires forall row | row in blocks :: |row| == |blocks|
    requires CreatedBefore(blocks, numNodes, workers, bi, |blocks|)
    ensures CreatedBefore(blocks, numNodes, workers, bi + 1, 0) == true
    ensures IdAt(bi, |blocks|, |blocks|) == IdAt(bi + 1, 0, |blocks|)
  {
  }

  lemma InitialWorker(m: Matrix, bs: nat, b: nat, id: nat)
    requires Splits(m, bs, b) && id < b * b
    ensures id / b < b && IdAt(id / b, id % b, b) == id
    ensures InitialWorkers(m, bs, b)[id] == NewWorker(Break(m, bs, b)[id / b][id % b], |m|)
  {
    QuotientBelow(id, b, b);
    BlockPositions(m, bs, b, id / b, id % b);
  }

  lemma ActorsAreInitial(m: Matrix, bs: nat, b: nat, workers: seq<Worker>)
    requires Splits(m, bs, b) && |workers| == b * b
    requires forall bi: nat, bj: nat | bi < b && bj < b ::
      IdAt(bi, bj, b) < |workers| && workers[IdAt(bi, bj, b)] == NewWorker(Break(m, bs, b)[bi][bj], |m|)
    ensures workers == InitialWorkers(m, bs, b)
  {
    forall id: nat | id < b * b ensures workers[id] == InitialWorkers(m, bs, b)[id] {
      InitialWorker(m, bs, b, id);
    }
  }

  class ManagerActor {
    const blockSize: nat
    var missingBlocks: Option<nat>
    var assembly: Option<seq<seq<Block>>>
    var latchHeld: bool
    var decrements: nat
    var result: Option<Matrix>

    function State(): Manager
      reads this
    {
      Manager(missingBlocks, assembly, latchHeld, decrements, result)
    }

    constructor With(blockSize: nat)
      ensures this.blockSize == blockSize && State() == Manager(None, None, false, 0, None)
    {
      this.blockSize := blockSize;
      missingBlocks, assembly, result := None, None, None;
      latchHeld, decrements := false, 0;
    }

    /** The neighbour list of the actor at (bi, bj), in the order the loops push it. */
    static method CollectNeighbours(bi: nat, bj: nat, b: nat) returns (nodes: seq<nat>)
      ensures nodes == NeighbourIds(bi, bj, b)
    {
      nodes := [];
      for r := 0 to b
        invariant nodes == OthersInColumn(bi, bj, b, r)
      {
        if r != bi {
          nodes := nodes + [IdAt(r, bj, b)];
        }
      }
      ghost var column := nodes;
      for c := 0 to b
        invariant nodes == column + OthersInRow(bi, bj, b, c)
      {
        if c != bj {
          nodes := nodes + [IdAt(bi, c, b)];
        }
      }
    }

    /** One new actor for every block, row by row. */
    static method CreateActors(blocks: seq<seq<Block>>, numNodes: nat) returns (workers: seq<Worker>)
      requires forall row | row in blocks :: |row| == |blocks|
      ensures |workers| == |blocks| * |blocks|
      ensures forall bi: nat, bj: nat | bi < |blocks| && bj < |blocks| ::
        IdAt(bi, bj, |blocks|) < |workers| && workers[IdAt(bi, bj, |blocks|)] == NewWorker(blocks[bi][bj], numNodes)
    {
      var b := |blocks|;
      workers := [];
      for bi := 0 to b
        invariant |workers| == IdAt(bi, 0, b)
        invariant CreatedBefore(blocks, numNodes, workers, bi, 0) == true
      {
        for bj := 0 to b
          invariant |workers| == IdAt(bi, bj, b)
          invariant CreatedBefore(blocks, numNodes, workers, bi, bj) == true
        {
          OneActorMore(blocks, numNodes, workers, bi, bj);
          workers := workers + [NewWorker(blocks[bi][bj], numNodes)];
        }
        OneRowMore(blocks, numNodes, workers, bi);
      }
      forall bi: nat, bj: nat | bi < b && bj < b
        ensures IdAt(bi, bj, b) < |workers| && workers[IdAt(bi, bj, b)] == NewWorker(blocks[bi][bj], numNodes)
      {
        IdInverts(bi, bj, b);
      }
    }

    /** One `Neighbours` message for every actor, row by row. */
    static method IntroduceNeighbours(b: nat) returns (sent: seq<Packet>)
      requires b > 0
      ensures sent == Introductions(b)
    {
      sent := [];
      for bi := 0 to b
        invariant |sent| == IdAt(bi, 0, b)
        invariant sent <= Introductions(b)
      {
        for bj := 0 to b
          invariant |sent| == IdAt(bi, bj, b)
          invariant sent <= Introductions(b)
        {
          IdInverts(bi, bj, b);
          var nodes := CollectNeighbours(bi, bj, b);
          sent := sent + [ToBlock(IdAt(bi, bj, b), Neighbours(nodes))];
        }
      }
    }

    /** Breaks the graph up, creates one actor per block and introduces each to its neighbours. */
    method ComputeFW(graph: Graph) returns (workers: seq<Worker>, sent: seq<Packet>)
      requires blockSize > 0 && |graph.data| > 0 && |graph.data| % blockSize == 0
      modifies this
      ensures Splits(graph.data, blockSize, |graph.data| / blockSize)
      ensures workers == InitialWorkers(graph.data, blockSize, |graph.data| / blockSize)
      ensures sent == Introductions(|graph.data| / blockSize)
      ensures State() == Manager(
        Some((|graph.data| / blockSize) * (|graph.data| / blockSize)),
        Some(Break(graph.data, blockSize, |graph.data| / blockSize)),
        true, old(decrements), old(result))
    {
      var blocks := graph.BreakIntoBlocks(blockSize);
      workers := CreateActors(blocks, graph.NumNodes());
      ActorsAreInitial(graph.data, blockSize, |blocks|, workers);
      sent := IntroduceNeighbours(|blocks|);
      missingBlocks := Some(|workers|);
      assembly := Some(blocks);
      latchHeld := true;
    }

    /** The handler does what `ReceiveBlockResult` says, panics included. */
    method ReceiveLocal(block: Block) returns (panicked: bool)
      modifies this
      ensures panicked <==> ReceiveBlockResult(old(State()), block).ManagerPanicked?
      ensures !panicked ==> ReceiveBlockResult(old(State()), block) == ManagerHandled(State())
    {
      panicked := true;
      if missingBlocks.Some? && assembly.Some? && HasPosition(assembly.value, block) && missingBlocks.value > 0 {
        assembly := Some(Placed(assembly.value, block));
        missingBlocks := Some(missingBlocks.value - 1);
        if missingBlocks.value == 0 {
          var grid := assembly.value;
          assembly := None;
          if CanAssemble(grid) && latchHeld {
            var assembled := Graph.AssembleFromBlocks(grid);
            latchHeld, decrements := false, decrements + 1;
            missingBlocks, result := None, Some(assembled.data);
            panicked := false;
          }
        } else {
          panicked := false;
        }
      }
    }
  }
}
