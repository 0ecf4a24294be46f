/** The graph and block objects of graphs.rs and their loops, proved against the phase functions. */
module Graphs {
  import opened Weights
  import opened FloydWarshall
  import opened Arithmetic
  import opened Blocks

  /** An adjacency matrix updated in place. */
  class Graph {
    var data: Matrix

    constructor With(data: Matrix)
      requires |data| > 0
      ensures this.data == data
    {
      this.data := data;
    }

    function NumNodes(): nat
      reads this
    {
      |data|
    }

    function Get(i: nat, j: nat): Weight
      requires i < |data| && j < |data|
      reads this
    {
      data[i][j]
    }

    method Set(i: nat, j: nat, v: Weight) returns (previous: Weight)
      requires i < |data| && j < |data|
      modifies this
      ensures previous == old(data[i][j])
      ensures data == Put(old(data), i, j, v)
    {
      previous := data[i][j];
      data := Put(data, i, j, v);
    }

    /** The in-place triple loop leaves the matrix of shortest distances. */
    method ComputeFloydWarshall()
      modifies this
      ensures data == After(old(data), |old(data)|)
      ensures HoldsShortestDistances(data, old(data))
    {
      var n := |data|;
      for k := 0 to n
        invariant |data| == n && data == After(old(data), k)
      {
        ghost var before := data;
        NothingRelaxed(before, Relax(before, k));
        for i := 0 to n
          invariant |data| == n && Relaxed(data, before, Relax(before, k), i, 0) == true
        {
          for j := 0 to n
            invariant |data| == n && Relaxed(data, before, Relax(before, k), i, j) == true
          {
            RelaxedStep(data, before, k, i, j);
            var newValue := Get(i, k).Plus(Get(k, j));
            if Get(i, j).Exceeds(newValue) {
              var _ := Set(i, j, newValue);
            }
          }
          RelaxedRow(data, before, Relax(before, k), i);
        }
        FullyRelaxed(data, before, Relax(before, k));
      }
      ShortestDistances(old(data));
    }

    /** The loops of `get_block`. */
    method CopyWindow(top: nat, left: nat, size: nat) returns (rows: Matrix)
      requires top + size <= |data| && left + size <= |data|
      ensures rows == Window(data, top, left, size)
    {
      var copied: seq<seq<Weight>> := [];
      for i := 0 to size
        invariant |copied| == i && forall a | 0 <= a < i :: copied[a] == data[top + a][left..left + size]
      {
        var row: seq<Weight> := [];
        for j := 0 to size
          invariant row == data[top + i][left..left + j]
        {
          row := row + [Get(top + i, left + j)];
        }
        copied := copied + [row];
      }
      rows := copied;
    }

    /** Any block size that fits: what does not fill a whole block at the end is in no block. */
    method GetBlock(blockId: nat, blockSize: nat) returns (block: Block)
      requires IsBlockId(data, blockSize, blockId)
      ensures block == BlockById(data, blockSize, blockId)
    {
      var b := |data| / blockSize;
      var r, c := blockId / b, blockId % b;
      BlockIdFits(data, blockSize, b, blockId, r, c);
      var rows := CopyWindow(r * blockSize, c * blockSize, blockSize);
      block := Block(blockId, b, r * blockSize, c * blockSize, rows);
    }

    method BreakIntoBlocks(blockSize: nat) returns (grid: seq<seq<Block>>)
      requires blockSize > 0 && |data| > 0 && |data| % blockSize == 0
      ensures Splits(data, blockSize, |data| / blockSize)
      ensures grid == Break(data, blockSize, |data| / blockSize)
    {
      var b := |data| / blockSize;
      ghost var target := Break(data, blockSize, b);
      grid := [];
      for i := 0 to b
        invariant |grid| == i && forall a | 0 <= a < i :: grid[a] == target[a]
      {
        var row: seq<Block> := [];
        for j := 0 to b
          invariant |row| == j && forall a | 0 <= a < j :: row[a] == target[i][a]
        {
          BlockPositions(data, blockSize, b, i, j);
          BlockIdOfPosition(data, blockSize, b, i, j);
          var block := GetBlock(IdAt(i, j, b), blockSize);
          row := row + [block];
        }
        assert row == target[i];
        grid := grid + [row];
      }
      assert grid == target;
    }

    static method AssembleFromBlocks(grid: seq<seq<Block>>) returns (graph: Graph)
      requires |grid| > 0 && |grid[0]| > 0 && IsGrid(grid, grid[0][0].BlockSize())
      ensures fresh(graph) && graph.data == Assemble(grid, grid[0][0].BlockSize())
    {
      var blockSize := grid[0][0].BlockSize();
      var total := |grid| * blockSize;
      var rows: seq<seq<Weight>> := [];
      for i := 0 to total
        invariant |rows| == i && forall a | 0 <= a < i :: rows[a] == Assemble(grid, blockSize)[a]
      {
        var row: seq<Weight> := [];
        for j := 0 to total
          invariant |row| == j && forall a | 0 <= a < j :: row[a] == Assemble(grid, blockSize)[i][a]
        {
          row := row + [AssembledEntry(grid, blockSize, i, j)];
        }
        assert row == Assemble(grid, blockSize)[i];
        rows := rows + [row];
      }
      assert rows == Assemble(grid, blockSize);
      PositiveMultiple(|grid|, blockSize);
      graph := new Graph.With(rows);
    }
  }

  /** A block owned by one actor and updated in place; other actors hold snapshots. */
  class OwnedBlock {
    const blockId: nat
    const numBlocksPerDim: nat
    const rowOffset: nat
    const colOffset: nat
    var data: Matrix

    constructor (from: Block)
      ensures Snapshot() == from
    {
      blockId, numBlocksPerDim := from.blockId, from.numBlocksPerDim;
      rowOffset, colOffset := from.rowOffset, from.colOffset;
      data := from.data;
    }

    function Snapshot(): Block
      reads this
    {
      Block(blockId, numBlocksPerDim, rowOffset, colOffset, data)
    }

    /** What entry (i, j) is compared with, as the loops read it. */
    method NewValue(neighbours: map<nat, Block>, k: nat, i: nat, j: nat) returns (v: Weight)
      requires CanRelax(Snapshot(), neighbours, k, i) == true && CanRelax(Snapshot(), neighbours, k, j) == true
      ensures v == Through(Snapshot(), neighbours, k, i, j)
    {
      v := ElementAt(Snapshot(), neighbours, rowOffset + i, k).Plus(ElementAt(Snapshot(), neighbours, k, colOffset + j));
    }

    /**
     * The in-place double loop. Reading pivot entries that the same loop may already have
     * visited makes no difference: the result relaxes every entry from the values before the call.
     */
    method ComputeFloydWarshallInner(neighbours: map<nat, Block>, k: nat)
      requires Snapshot().WellPlaced() && k / Snapshot().BlockSize() < numBlocksPerDim
      requires LookupsDefined(Snapshot(), neighbours, k)
      modifies this
      ensures data == RelaxBlock(old(Snapshot()), neighbours, k)
    {
      var n := |data|;
      ghost var before := Snapshot();
      for i := 0 to n
        invariant |data| == n && Snapshot() == before.(data := data)
        invariant BlockRelaxed(data, before, neighbours, k, i, 0) == true
      {
        for j := 0 to n
          invariant |data| == n && Snapshot() == before.(data := data)
          invariant BlockRelaxed(data, before, neighbours, k, i, j) == true
        {
          BlockRelaxedStep(data, before, neighbours, k, i, j);
          var newValue := NewValue(neighbours, k, i, j);
          if data[i][j].Exceeds(newValue) {
            data := Put(data, i, j, newValue);
          }
        }
        NextRow(data, before, neighbours, k, i);
      }
      FullyRelaxed(data, before.data, RelaxBlock(before, neighbours, k));
    }
  }
}
