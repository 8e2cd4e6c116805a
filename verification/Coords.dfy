// Cell, chunk and region coordinates (crates/fallingsand_core/src/coords.rs).
// Coordinates are unbounded integers; the shifts and masks of the source are the
// floor division and remainder of Dafny's integers.
module Coords {
  import opened Rows

  const CHUNK_AREA: nat := 4096
  const REGION_AREA_CHUNKS: nat := 64

  type Local = n: int | 0 <= n < 64

  datatype CellOffset = CellOffset(x: Local, y: Local) {
    function Index(): (i: nat)
      ensures i < CHUNK_AREA
    {
      y * 64 + x
    }
  }

  datatype CellPos = CellPos(x: int, y: int) {
    function RowKey(): Row {
      Row(0, y, x)
    }

    function Translated(dx: int, dy: int): CellPos {
      CellPos(x + dx, y + dy)
    }

    function Chunk(): ChunkPos {
      ChunkPos(x / 64, y / 64)
    }

    function Offset(): CellOffset {
      CellOffset(x % 64, y % 64)
    }
  }

  datatype ChunkPos = ChunkPos(x: int, y: int) {
    function Translated(dx: int, dy: int): ChunkPos {
      ChunkPos(x + dx, y + dy)
    }

    function BaseCell(): CellPos {
      CellPos(x * 64, y * 64)
    }

    function Cell(offset: CellOffset): (p: CellPos)
      ensures p.Chunk() == this && p.Offset() == offset
    {
      CellPos(x * 64 + offset.x, y * 64 + offset.y)
    }
  }

  // A region of chunks with 32-bit coordinates: a chunk coordinate shifted by 3.
  type RegionCoord = n: int | -0x1000_0000 <= n < 0x1000_0000

  datatype RegionPos = RegionPos(x: RegionCoord, y: RegionCoord) {
    function RowKey(): Row {
      Row(0, y, x)
    }

    // The chunk with index `index` of this region, in the order of chunk_positions.
    function ChunkAt(index: nat): ChunkPos
      requires index < REGION_AREA_CHUNKS
    {
      ChunkPos(x * 8 + index % 8, y * 8 + index / 8)
    }

    function Chunks(): set<ChunkPos> {
      set i | 0 <= i < REGION_AREA_CHUNKS :: ChunkAt(i)
    }
  }

  lemma CellDecomposition(p: CellPos)
    ensures p.Chunk().Cell(p.Offset()) == p
  {
  }

  lemma OffsetIndexInjective(a: CellOffset, b: CellOffset)
    requires a.Index() == b.Index()
    ensures a == b
  {
  }

  function OffsetAt(index: nat): (o: CellOffset)
    requires index < CHUNK_AREA
    ensures o.Index() == index
  {
    CellOffset(index % 64, index / 64)
  }

  // Different (region, index) pairs name different chunks.
  lemma ChunkAtInjective(a: RegionPos, i: nat, b: RegionPos, j: nat)
    requires i < REGION_AREA_CHUNKS && j < REGION_AREA_CHUNKS
    requires a.ChunkAt(i) == b.ChunkAt(j)
    ensures a == b && i == j
  {
    assert a.x == (a.x * 8 + i % 8) / 8 && b.x == (b.x * 8 + j % 8) / 8;
    assert a.y == (a.y * 8 + i / 8) / 8 && b.y == (b.y * 8 + j / 8) / 8;
  }

  // Neighbour k of pos, in row order; the fourth is pos itself.
  function Neighbour(pos: CellPos, k: nat): CellPos
    requires k < 9
  {
    pos.Translated(k % 3 - 1, k / 3 - 1)
  }

  lemma NeighbourAt(pos: CellPos, dx: int, dy: int)
    requires -1 <= dx <= 1 && -1 <= dy <= 1
    ensures Neighbour(pos, (dy + 1) * 3 + dx + 1) == pos.Translated(dx, dy)
  {
  }

  predicate Near(center: CellPos, p: CellPos, reach: int) {
    -reach <= p.x - center.x <= reach && -reach <= p.y - center.y <= reach
  }

  lemma NearNeighbours(center: CellPos, pos: CellPos, reach: nat)
    requires Near(center, pos, reach)
    ensures forall k | 0 <= k < 9 :: Near(center, Neighbour(pos, k), reach + 1)
  {
  }
}
