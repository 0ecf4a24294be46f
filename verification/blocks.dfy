/** Splitting a matrix into square blocks, and one phase on one block (graphs.rs). */
module Blocks {
  import opened Arithmetic
  import opened Weights
  import opened FloydWarshall

  /** A snapshot of a block: its id, its place in the matrix and its entries. */
  datatype Block = Block(blockId: nat, numBlocksPerDim: nat, rowOffset: nat, colOffset: nat, data: Matrix) {

    function BlockSize(): nat {
      |data|
    }

    function Position(): (p: (nat, nat))
      requires numBlocksPerDim > 0
    {
      (blockId / numBlocksPerDim, blockId % numBlocksPerDim)
    }

    /** The offsets are the ones `get_block` derives from the id. */
    predicate WellPlaced() {
      && BlockSize() > 0 && numBlocksPerDim > 0
      && rowOffset == (blockId / numBlocksPerDim) * BlockSize()
      && colOffset == (blockId % numBlocksPerDim) * BlockSize()
    }
  }

  // Index arithmetic.

  /** Row `i` of block row `r` lies inside a matrix of `b` block rows of size `bs`. */
  lemma InsideBlocks(r: nat, b: nat, bs: nat, i: nat)
    requires r < b && i < bs
    ensures r * bs + i < b * bs && r * bs + bs <= b * bs
  {
    MultipleGap(b, r, bs);
  }

  function IdAt(r: nat, c: nat, b: nat): nat {
    r * b + c
  }

  lemma IdInverts(r: nat, c: nat, b: nat)
    requires r < b && c < b
    ensures IdAt(r, c, b) / b == r && IdAt(r, c, b) % b == c
    ensures IdAt(r, c, b) < b * b
  {
    DivModOf(r, b, c);
    InsideBlocks(r, b, b, c);
  }

  /** A matrix that splits evenly into `b` by `b` blocks of size `bs`. */
  predicate Splits(m: Matrix, bs: nat, b: nat) {
    bs > 0 && b > 0 && |m| == b * bs
  }

  /** The square part of a matrix whose top left entry is (top, left). */
  function Window(m: Matrix, top: nat, left: nat, size: nat): (r: Matrix)
    requires top + size <= |m| && left + size <= |m|
    ensures |r| == size
  {
    seq(size, i requires 0 <= i < size => m[top + i][left..left + size])
  }

  /** The block at block row `r` and block column `c`, cut out of the matrix. */
  function BlockAt(m: Matrix, bs: nat, b: nat, r: nat, c: nat): (block: Block)
    requires Splits(m, bs, b) && r < b && c < b
    ensures block.BlockSize() == bs
  {
    InsideBlocks(r, b, bs, 0);
    InsideBlocks(c, b, bs, 0);
    Block(IdAt(r, c, b), b, r * bs, c * bs, Window(m, r * bs, c * bs, bs))
  }

  lemma BlockAtEntry(m: Matrix, bs: nat, b: nat, r: nat, c: nat, i: nat, j: nat)
    requires Splits(m, bs, b) && r < b && c < b && i < bs && j < bs
    ensures r * bs + i < |m| && c * bs + j < |m|
    ensures BlockAt(m, bs, b, r, c).data[i][j] == m[r * bs + i][c * bs + j]
    ensures BlockAt(m, bs, b, r, c).WellPlaced()
  {
    InsideBlocks(r, b, bs, i);
    InsideBlocks(c, b, bs, j);
    IdInverts(r, c, b);
  }

  /** The block with a given id. */
  function BlockOf(m: Matrix, bs: nat, b: nat, id: nat): (block: Block)
    requires Splits(m, bs, b) && id < b * b
    ensures block.BlockSize() == bs && block.blockId == id && block.numBlocksPerDim == b
  {
    QuotientBelow(id, b, b);
    BlockAt(m, bs, b, id / b, id % b)
  }

  // Blocks of any size that fits; what does not fill a whole block at the end is in no block.

  predicate IsBlockId(m: Matrix, bs: nat, id: nat) {
    0 < bs <= |m| && |m| / bs > 0 && id < (|m| / bs) * (|m| / bs)
  }

  lemma BlockIdFits(m: Matrix, bs: nat, b: nat, id: nat, r: nat, c: nat)
    requires IsBlockId(m, bs, id) && b == |m| / bs && r == id / b && c == id % b
    ensures r * bs + bs <= |m| && c * bs + bs <= |m|
  {
    QuotientBelow(id, b, b);
    InsideBlocks(r, b, bs, 0);
    InsideBlocks(c, b, bs, 0);
  }

  /** The window at the position of `id`, whether or not the blocks cover the matrix. */
  function BlockById(m: Matrix, bs: nat, id: nat): Block
    requires IsBlockId(m, bs, id)
  {
    var b := |m| / bs;
    BlockIdFits(m, bs, b, id, id / b, id % b);
    Block(id, b, (id / b) * bs, (id % b) * bs, Window(m, (id / b) * bs, (id % b) * bs, bs))
  }

  /** When they do, it is the block of the splitting. */
  lemma BlockIdOfPosition(m: Matrix, bs: nat, b: nat, r: nat, c: nat)
    requires Splits(m, bs, b) && r < b && c < b && b == |m| / bs
    ensures IsBlockId(m, bs, IdAt(r, c, b)) && BlockById(m, bs, IdAt(r, c, b)) == BlockAt(m, bs, b, r, c)
  {
    IdInverts(r, c, b);
    PositiveMultiple(b, bs);
    MultipleGap(b, 0, bs);
  }

  lemma BlockOfEntry(m: Matrix, bs: nat, b: nat, id: nat, i: nat, j: nat)
    requires Splits(m, bs, b) && id < b * b && i < bs && j < bs
    ensures var block := BlockOf(m, bs, b, id);
      && block.WellPlaced()
      && block.rowOffset + i < |m| && block.colOffset + j < |m|
      && block.data[i][j] == m[block.rowOffset + i][block.colOffset + j]
  {
    QuotientBelow(id, b, b);
    BlockAtEntry(m, bs, b, id / b, id % b, i, j);
  }

  lemma BlockOfIs(m: Matrix, bs: nat, b: nat, r: nat, c: nat)
    requires Splits(m, bs, b) && r < b && c < b
    ensures IdAt(r, c, b) < b * b
    ensures BlockOf(m, bs, b, IdAt(r, c, b)) == BlockAt(m, bs, b, r, c)
  {
    IdInverts(r, c, b);
  }

  /** Entry (row, col) of the matrix is found in exactly one place of one block. */
  lemma EntryInBlock(m: Matrix, bs: nat, b: nat, row: nat, col: nat)
    requires Splits(m, bs, b) && row < |m| && col < |m|
    ensures row / bs < b && col / bs < b
    ensures BlockAt(m, bs, b, row / bs, col / bs).data[row % bs][col % bs] == m[row][col]
  {
    QuotientBelow(row, bs, b);
    QuotientBelow(col, bs, b);
    EntryAtOffset(m, bs, b, row / bs, col / bs, row % bs, col % bs, row, col);
  }

  lemma EntryAtOffset(m: Matrix, bs: nat, b: nat, r: nat, c: nat, i: nat, j: nat, row: nat, col: nat)
    requires Splits(m, bs, b) && r < b && c < b && i < bs && j < bs
    requires row == r * bs + i && col == c * bs + j && row < |m| && col < |m|
    ensures BlockAt(m, bs, b, r, c).data[i][j] == m[row][col]
  {
    BlockAtEntry(m, bs, b, r, c, i, j);
  }

  // Reading the whole matrix from inside one block.

  /** The block that holds matrix entry (row, col). */
  function HolderOf(block: Block, row: nat, col: nat): nat
    requires block.BlockSize() > 0
  {
    IdAt(row / block.BlockSize(), col / block.BlockSize(), block.numBlocksPerDim)
  }

  /** The neighbour lookup succeeds for entry (row, col). */
  predicate CanRead(block: Block, neighbours: map<nat, Block>, row: nat, col: nat) {
    && block.BlockSize() > 0
    && var holder := HolderOf(block, row, col);
       holder != block.blockId ==> holder in neighbours && neighbours[holder].BlockSize() == block.BlockSize()
  }

  function ElementAt(block: Block, neighbours: map<nat, Block>, row: nat, col: nat): Weight
    requires CanRead(block, neighbours, row, col)
  {
    var holder := HolderOf(block, row, col);
    var source := if holder == block.blockId then block else neighbours[holder];
    source.data[row % block.BlockSize()][col % block.BlockSize()]
  }

  /** The two entries that relax local row and column `i` in phase `k` can be looked up. */
  predicate CanRelax(block: Block, neighbours: map<nat, Block>, k: nat, i: nat) {
    CanRead(block, neighbours, block.rowOffset + i, k) && CanRead(block, neighbours, k, block.colOffset + i)
  }

  /** Every lookup of phase `k` succeeds. */
  predicate LookupsDefined(block: Block, neighbours: map<nat, Block>, k: nat) {
    forall i: nat | i < block.BlockSize() :: CanRelax(block, neighbours, k, i)
  }

  /** What local entry (i, j) is compared with in phase `k`. */
  function Through(block: Block, neighbours: map<nat, Block>, k: nat, i: nat, j: nat): Weight
    requires CanRelax(block, neighbours, k, i) && CanRelax(block, neighbours, k, j)
  {
    ElementAt(block, neighbours, block.rowOffset + i, k).Plus(ElementAt(block, neighbours, k, block.colOffset + j))
  }

  /** The block after phase `k`, every entry relaxed from the values before the phase. */
  function RelaxBlock(block: Block, neighbours: map<nat, Block>, k: nat): (r: Matrix)
    requires LookupsDefined(block, neighbours, k)
    ensures |r| == block.BlockSize()
  {
    var bs := block.BlockSize();
    seq(bs, i requires 0 <= i < bs =>
      seq(bs, j requires 0 <= j < bs => Min(block.data[i][j], Through(block, neighbours, k, i, j))))
  }

  lemma LocalIndex(block: Block, i: nat)
    requires block.WellPlaced() && i < block.BlockSize()
    ensures (block.rowOffset + i) / block.BlockSize() == block.blockId / block.numBlocksPerDim
    ensures (block.rowOffset + i) % block.BlockSize() == i
    ensures (block.colOffset + i) / block.BlockSize() == block.blockId % block.numBlocksPerDim
    ensures (block.colOffset + i) % block.BlockSize() == i
  {
    DivModOf(block.blockId / block.numBlocksPerDim, block.BlockSize(), i);
    DivModOf(block.blockId % block.numBlocksPerDim, block.BlockSize(), i);
  }

  /** When the pivot column runs through this block, its own entry of column `k` is what is read. */
  lemma OwnPivotColumn(block: Block, neighbours: map<nat, Block>, k: nat, i: nat)
    requires block.WellPlaced() && i < block.BlockSize() && k / block.BlockSize() < block.numBlocksPerDim
    requires CanRead(block, neighbours, block.rowOffset + i, k)
    requires HolderOf(block, block.rowOffset + i, k) == block.blockId
    ensures block.colOffset + k % block.BlockSize() == k
    ensures ElementAt(block, neighbours, block.rowOffset + i, k) == block.data[i][k % block.BlockSize()]
  {
    LocalIndex(block, i);
    DivModOf(block.blockId / block.numBlocksPerDim, block.numBlocksPerDim, k / block.BlockSize());
  }

  lemma OwnPivotRow(block: Block, neighbours: map<nat, Block>, k: nat, j: nat)
    requires block.WellPlaced() && j < block.BlockSize() && k / block.BlockSize() < block.numBlocksPerDim
    requires CanRead(block, neighbours, k, block.colOffset + j)
    requires HolderOf(block, k, block.colOffset + j) == block.blockId
    ensures block.rowOffset + k % block.BlockSize() == k
    ensures ElementAt(block, neighbours, k, block.colOffset + j) == block.data[k % block.BlockSize()][j]
  {
    LocalIndex(block, j);
    DivModOf(k / block.BlockSize(), block.numBlocksPerDim, block.blockId % block.numBlocksPerDim);
  }

  ghost predicate BlockRelaxed(data: Matrix, block: Block, neighbours: map<nat, Block>, k: nat, i: int, j: int)
    requires LookupsDefined(block, neighbours, k)
  {
    Relaxed(data, block.data, RelaxBlock(block, neighbours, k), i, j)
  }

  /** An entry of the pivot column inside this block is never lowered in its own phase. */
  lemma PivotColumnStable(block: Block, neighbours: map<nat, Block>, k: nat, i: nat)
    requires block.WellPlaced() && i < block.BlockSize() && k / block.BlockSize() < block.numBlocksPerDim
    requires LookupsDefined(block, neighbours, k)
    requires HolderOf(block, block.rowOffset + i, k) == block.blockId
    ensures RelaxBlock(block, neighbours, k)[i][k % block.BlockSize()] == block.data[i][k % block.BlockSize()]
  {
    assert CanRelax(block, neighbours, k, i);
    assert CanRelax(block, neighbours, k, k % block.BlockSize());
    OwnPivotColumn(block, neighbours, k, i);
  }

  lemma PivotRowStable(block: Block, neighbours: map<nat, Block>, k: nat, j: nat)
    requires block.WellPlaced() && j < block.BlockSize() && k / block.BlockSize() < block.numBlocksPerDim
    requires LookupsDefined(block, neighbours, k)
    requires HolderOf(block, k, block.colOffset + j) == block.blockId
    ensures RelaxBlock(block, neighbours, k)[k % block.BlockSize()][j] == block.data[k % block.BlockSize()][j]
  {
    assert CanRelax(block, neighbours, k, j);
    assert CanRelax(block, neighbours, k, k % block.BlockSize());
    OwnPivotRow(block, neighbours, k, j);
  }

  /** Halfway through the loops the pivot entries read are still those from before the phase. */
  lemma ThroughUnchanged(data: Matrix, block: Block, neighbours: map<nat, Block>, k: nat, i: nat, j: nat)
    requires block.WellPlaced() && k / block.BlockSize() < block.numBlocksPerDim
    requires LookupsDefined(block, neighbours, k)
    requires i < block.BlockSize() && j < block.BlockSize()
    requires BlockRelaxed(data, block, neighbours, k, i, j)
    ensures var now := block.(data := data);
      && CanRelax(now, neighbours, k, i) && CanRelax(now, neighbours, k, j)
      && Through(now, neighbours, k, i, j) == Through(block, neighbours, k, i, j)
  {
    var now := block.(data := data);
    assert CanRelax(block, neighbours, k, i) && CanRelax(block, neighbours, k, j);
    if HolderOf(block, block.rowOffset + i, k) == block.blockId {
      OwnPivotColumn(block, neighbours, k, i);
      OwnPivotColumn(now, neighbours, k, i);
      PivotColumnStable(block, neighbours, k, i);
    }
    if HolderOf(block, k, block.colOffset + j) == block.blockId {
      OwnPivotRow(block, neighbours, k, j);
      OwnPivotRow(now, neighbours, k, j);
      PivotRowStable(block, neighbours, k, j);
    }
  }

  /** One in-place update, with what the loop reads at that moment, moves the boundary by one entry. */
  lemma BlockRelaxedStep(data: Matrix, block: Block, neighbours: map<nat, Block>, k: nat, i: nat, j: nat)
    requires block.WellPlaced() && k / block.BlockSize() < block.numBlocksPerDim
    requires LookupsDefined(block, neighbours, k)
    requires i < block.BlockSize() && j < block.BlockSize()
    requires BlockRelaxed(data, block, neighbours, k, i, j)
    ensures var now := block.(data := data);
      && |data| == block.BlockSize() && CanRelax(now, neighbours, k, i) == true && CanRelax(now, neighbours, k, j) == true
      && var v := Through(now, neighbours, k, i, j);
         BlockRelaxed(if data[i][j].Exceeds(v) then Put(data, i, j, v) else data, block, neighbours, k, i, j + 1) == true
  {
    ThroughUnchanged(data, block, neighbours, k, i, j);
    var v := Through(block, neighbours, k, i, j);
    MovedBoundary(data, block.data, RelaxBlock(block, neighbours, k), i, j, v);
  }

  lemma MovedBoundary(data: Matrix, before: Matrix, after: Matrix, i: nat, j: nat, v: Weight)
    requires Relaxed(data, before, after, i, j) && i < |data| && j < |data|
    requires after[i][j] == Min(before[i][j], v)
    ensures Relaxed(if data[i][j].Exceeds(v) then Put(data, i, j, v) else data, before, after, i, j + 1) == true
  {
  }

  lemma NextRow(data: Matrix, block: Block, neighbours: map<nat, Block>, k: nat, i: nat)
    requires LookupsDefined(block, neighbours, k) && BlockRelaxed(data, block, neighbours, k, i, |data|)
    ensures BlockRelaxed(data, block, neighbours, k, i + 1, 0) == true
  {
  }

  /** One phase on one block, with the other blocks as they were before it, is one phase of the whole matrix. */
  lemma OnePhase(m: Matrix, bs: nat, b: nat, id: nat, neighbours: map<nat, Block>, k: nat)
    requires Splits(m, bs, b) && id < b * b && k < |m|
    requires LookupsDefined(BlockOf(m, bs, b, id), neighbours, k)
    requires forall x | x in neighbours :: x < b * b && neighbours[x] == BlockOf(m, bs, b, x)
    ensures BlockOf(m, bs, b, id).(data := RelaxBlock(BlockOf(m, bs, b, id), neighbours, k))
         == BlockOf(Relax(m, k), bs, b, id)
  {
    var block, after := BlockOf(m, bs, b, id), BlockOf(Relax(m, k), bs, b, id);
    var r := RelaxBlock(block, neighbours, k);
    forall i: nat | i < bs
      ensures r[i] == after.data[i]
    {
      forall j: nat | j < bs
        ensures r[i][j] == after.data[i][j]
      {
        RelaxedEntry(m, bs, b, id, neighbours, k, i, j);
      }
      assert |r[i]| == |after.data[i]|;
    }
    assert r == after.data;
  }

  /** The own block or the neighbour with the id of position (r, c) is the block there. */
  lemma SourceBlock(m: Matrix, bs: nat, b: nat, id: nat, neighbours: map<nat, Block>, r: nat, c: nat)
    requires Splits(m, bs, b) && id < b * b && r < b && c < b
    requires IdAt(r, c, b) != id ==> IdAt(r, c, b) in neighbours
    requires forall x | x in neighbours :: x < b * b && neighbours[x] == BlockOf(m, bs, b, x)
    ensures (if IdAt(r, c, b) == id then BlockOf(m, bs, b, id) else neighbours[IdAt(r, c, b)]) == BlockAt(m, bs, b, r, c)
  {
    BlockOfIs(m, bs, b, r, c);
  }

  /** That block holds the matrix entry at the local position. */
  lemma SourceEntry(m: Matrix, bs: nat, b: nat, id: nat, own: Block, neighbours: map<nat, Block>, row: nat, col: nat, r: nat, c: nat)
    requires Splits(m, bs, b) && id < b * b && row < |m| && col < |m| && r == row / bs && c == col / bs
    requires r < b && c < b && own == BlockOf(m, bs, b, id)
    requires IdAt(r, c, b) != id ==> IdAt(r, c, b) in neighbours
    requires forall x | x in neighbours :: x < b * b && neighbours[x] == BlockOf(m, bs, b, x)
    ensures var source := if IdAt(r, c, b) == id then own else neighbours[IdAt(r, c, b)];
            source.BlockSize() == bs && source.data[row % bs][col % bs] == m[row][col]
  {
    EntryInBlock(m, bs, b, row, col);
    SourceBlock(m, bs, b, id, neighbours, r, c);
  }

  /** An entry is read from the block that holds it, at the local position. */
  lemma ReadsSource(own: Block, neighbours: map<nat, Block>, row: nat, col: nat, source: Block)
    requires CanRead(own, neighbours, row, col)
    requires source == if HolderOf(own, row, col) == own.blockId then own else neighbours[HolderOf(own, row, col)]
    ensures source.BlockSize() == own.BlockSize()
    ensures ElementAt(own, neighbours, row, col) == source.data[row % own.BlockSize()][col % own.BlockSize()]
  {
  }

  lemma HolderInNeighbours(own: Block, neighbours: map<nat, Block>, row: nat, col: nat, bs: nat, b: nat)
    requires CanRead(own, neighbours, row, col) && own.BlockSize() == bs && own.numBlocksPerDim == b
    ensures bs > 0 && HolderOf(own, row, col) == IdAt(row / bs, col / bs, b)
    ensures IdAt(row / bs, col / bs, b) != own.blockId ==> IdAt(row / bs, col / bs, b) in neighbours
  {
  }

  lemma PositionInside(m: Matrix, bs: nat, b: nat, row: nat, col: nat)
    requires Splits(m, bs, b) && row < |m| && col < |m|
    ensures row / bs < b && col / bs < b
  {
    QuotientBelow(row, bs, b);
    QuotientBelow(col, bs, b);
  }

  lemma ReadsMatrix(m: Matrix, bs: nat, b: nat, id: nat, neighbours: map<nat, Block>, row: nat, col: nat)
    requires Splits(m, bs, b) && id < b * b && row < |m| && col < |m|
    requires CanRead(BlockOf(m, bs, b, id), neighbours, row, col)
    requires forall x | x in neighbours :: x < b * b && neighbours[x] == BlockOf(m, bs, b, x)
    ensures ElementAt(BlockOf(m, bs, b, id), neighbours, row, col) == m[row][col]
  {
    var own := BlockOf(m, bs, b, id);
    PositionInside(m, bs, b, row, col);
    HolderInNeighbours(own, neighbours, row, col, bs, b);
    SourceEntry(m, bs, b, id, own, neighbours, row, col, row / bs, col / bs);
    var source := if IdAt(row / bs, col / bs, b) == id then own else neighbours[IdAt(row / bs, col / bs, b)];
    ReadsSource(own, neighbours, row, col, source);
  }

  lemma RelaxedEntry(m: Matrix, bs: nat, b: nat, id: nat, neighbours: map<nat, Block>, k: nat, i: nat, j: nat)
    requires Splits(m, bs, b) && id < b * b && k < |m| && i < bs && j < bs
    requires LookupsDefined(BlockOf(m, bs, b, id), neighbours, k)
    requires forall x | x in neighbours :: x < b * b && neighbours[x] == BlockOf(m, bs, b, x)
    ensures RelaxBlock(BlockOf(m, bs, b, id), neighbours, k)[i][j] == BlockOf(Relax(m, k), bs, b, id).data[i][j]
  {
    var block, after := BlockOf(m, bs, b, id), BlockOf(Relax(m, k), bs, b, id);
    BlockOfEntry(m, bs, b, id, i, j);
    BlockOfEntry(Relax(m, k), bs, b, id, i, j);
    assert after.rowOffset == block.rowOffset && after.colOffset == block.colOffset;
    var row, col := block.rowOffset + i, block.colOffset + j;
    assert CanRelax(block, neighbours, k, i) && CanRelax(block, neighbours, k, j);
    ReadsMatrix(m, bs, b, id, neighbours, row, k);
    ReadsMatrix(m, bs, b, id, neighbours, k, col);
    assert Through(block, neighbours, k, i, j) == m[row][k].Plus(m[k][col]);
    RelaxKeepsPivot(m, k, row, col);
  }

  // Which blocks phase k reads, and which blocks are neighbours.

  predicate SameRowOrColumn(x: nat, y: nat, b: nat)
    requires b > 0
  {
    x != y && (x / b == y / b || x % b == y % b)
  }

  /** Phase `k` of a block reads only blocks in its own block row or block column. */
  lemma LookupsAreNeighbours(block: Block, neighbours: map<nat, Block>, k: nat)
    requires block.WellPlaced() && block.blockId < block.numBlocksPerDim * block.numBlocksPerDim
    requires k < block.numBlocksPerDim * block.BlockSize()
    requires forall x: nat | x < block.numBlocksPerDim * block.numBlocksPerDim
                          && SameRowOrColumn(block.blockId, x, block.numBlocksPerDim) ::
               x in neighbours && neighbours[x].BlockSize() == block.BlockSize()
    ensures LookupsDefined(block, neighbours, k)
  {
    var b, bs := block.numBlocksPerDim, block.BlockSize();
    var row, col, pivot := block.blockId / b, block.blockId % b, k / bs;
    QuotientBelow(block.blockId, b, b);
    QuotientBelow(k, bs, b);
    IdInverts(row, pivot, b);
    IdInverts(pivot, col, b);
    assert IdAt(row, pivot, b) == block.blockId || SameRowOrColumn(block.blockId, IdAt(row, pivot, b), b);
    assert IdAt(pivot, col, b) == block.blockId || SameRowOrColumn(block.blockId, IdAt(pivot, col, b), b);
    forall i: nat | i < bs
      ensures CanRelax(block, neighbours, k, i)
    {
      LocalIndex(block, i);
    }
  }

  // Taking a matrix apart and putting it together.

  /** The grid of blocks `break_into_blocks` returns. */
  function Break(m: Matrix, bs: nat, b: nat): (grid: seq<seq<Block>>)
    requires Splits(m, bs, b)
    ensures |grid| == b && forall r | 0 <= r < b :: |grid[r]| == b
  {
    seq(b, r requires 0 <= r < b => seq(b, c requires 0 <= c < b => BlockAt(m, bs, b, r, c)))
  }

  /** A square grid of blocks of one size. */
  predicate IsGrid(grid: seq<seq<Block>>, bs: nat) {
    && |grid| > 0 && bs > 0
    && forall r | 0 <= r < |grid| ::
         |grid[r]| == |grid| && forall c | 0 <= c < |grid| :: grid[r][c].BlockSize() == bs
  }

  /** Which block holds index `i`, in a row of `b` blocks of size `bs`. */
  function BlockIndex(i: nat, bs: nat, b: nat): (q: nat)
    requires bs > 0 && i < b * bs
    ensures q < b
  {
    QuotientBelow(i, bs, b);
    i / bs
  }

  function AssembledEntry(grid: seq<seq<Block>>, bs: nat, i: nat, j: nat): Weight
    requires IsGrid(grid, bs) && i < |grid| * bs && j < |grid| * bs
  {
    var row, col := BlockIndex(i, bs, |grid|), BlockIndex(j, bs, |grid|);
    grid[row][col].data[i % bs][j % bs]
  }

  /** What `assemble_from_blocks` returns. */
  function Assemble(grid: seq<seq<Block>>, bs: nat): (m: Matrix)
    requires IsGrid(grid, bs)
    ensures |m| == |grid| * bs
  {
    var n := |grid| * bs;
    seq(n, i requires 0 <= i < n => seq(n, j requires 0 <= j < n => AssembledEntry(grid, bs, i, j)))
  }

  lemma BreakHasBlocks(m: Matrix, bs: nat, b: nat, r: nat, c: nat)
    requires Splits(m, bs, b) && r < b && c < b
    ensures IsGrid(Break(m, bs, b), bs) && Break(m, bs, b)[r][c] == BlockAt(m, bs, b, r, c)
  {
  }

  lemma BrokenEntry(m: Matrix, bs: nat, b: nat, i: nat, j: nat)
    requires Splits(m, bs, b) && i < |m| && j < |m|
    ensures IsGrid(Break(m, bs, b), bs) && AssembledEntry(Break(m, bs, b), bs, i, j) == m[i][j]
  {
    EntryInBlock(m, bs, b, i, j);
    BreakHasBlocks(m, bs, b, i / bs, j / bs);
  }

  lemma SameMatrix(a: Matrix, b: Matrix)
    requires |a| == |b| && forall i: nat, j: nat | i < |a| && j < |a| :: a[i][j] == b[i][j]
    ensures a == b
  {
    forall i: nat | i < |a| ensures a[i] == b[i] {
      assert |a[i]| == |b[i]|;
    }
  }

  /** Breaking a matrix and assembling the blocks gives the matrix back. */
  lemma AssembleInvertsBreak(m: Matrix, bs: nat, b: nat)
    requires Splits(m, bs, b)
    ensures IsGrid(Break(m, bs, b), bs) && Assemble(Break(m, bs, b), bs) == m
  {
    forall i: nat, j: nat | i < |m| && j < |m|
      ensures Assemble(Break(m, bs, b), bs)[i][j] == m[i][j]
    {
      BrokenEntry(m, bs, b, i, j);
    }
    SameMatrix(Assemble(Break(m, bs, b), bs), m);
  }

  /** Block ids invert to positions in the grid. */
  lemma BlockPositions(m: Matrix, bs: nat, b: nat, r: nat, c: nat)
    requires Splits(m, bs, b) && r < b && c < b
    ensures Break(m, bs, b)[r][c].Position() == (r, c)
    ensures IdAt(r, c, b) < b * b && Break(m, bs, b)[r][c] == BlockOf(m, bs, b, IdAt(r, c, b))
  {
    IdInverts(r, c, b);
    assert Break(m, bs, b)[r][c] == BlockAt(m, bs, b, r, c);
  }
}
