// The client's copy of the world (crates/fallingsand_client/src/game/world.rs) and the
// chunk operations it is sent (crates/fallingsand_protocol/src/messages.rs).
module ClientView {
  import opened Wrappers
  import opened Materials
  import opened Cells
  import opened Coords
  import opened Chunks
  import opened CellCodec

  datatype ChunkOp =
    | Load(pos: ChunkPos, cells: Bytes, fog: FogMask)
    | Unload(pos: ChunkPos)
    | Delta(pos: ChunkPos, rect: DirtyRect, cells: Bytes)
    | Fog(pos: ChunkPos, fog: FogMask)

  datatype ViewChunk = ViewChunk(cells: CellGrid, fog: FogMask)
  type ViewMap = map<ChunkPos, ViewChunk>

  datatype ChunkChange =
    | Loaded(pos: ChunkPos)
    | Changed(pos: ChunkPos, rect: DirtyRect)
    | Revealed(pos: ChunkPos)
    | Unloaded(pos: ChunkPos)

  // Place of the cell (x, y) in the cells of a rectangle, row by row.
  function RectIndex(rect: DirtyRect, x: int, y: int): int {
    (y - rect.minY) * rect.Width() + (x - rect.minX)
  }

  lemma {:induction false} RowsAscend(width: nat, a: nat, b: nat)
    requires a < b
    ensures a * width + width <= b * width
    decreases b
  {
    assert b * width == (b - 1) * width + width;
    if b > a + 1 {
      RowsAscend(width, a, b - 1);
    }
  }

  lemma RectIndexInRow(rect: DirtyRect, o: CellOffset, row: nat)
    requires rect.Covers(o) && o.y - rect.minY <= row
    ensures 0 <= (o.y - rect.minY) * rect.Width() <= RectIndex(rect, o.x, o.y) < (o.y - rect.minY) * rect.Width() + rect.Width()
    ensures o.y - rect.minY < row ==> RectIndex(rect, o.x, o.y) < row * rect.Width()
  {
    if o.y - rect.minY < row {
      RowsAscend(rect.Width(), o.y - rect.minY, row);
    }
  }

  lemma RectIndexBounds(rect: DirtyRect, o: CellOffset)
    requires rect.Covers(o)
    ensures 0 <= RectIndex(rect, o.x, o.y) < rect.Width() * rect.Height()
  {
    RectIndexInRow(rect, o, rect.Height());
    assert rect.Height() * rect.Width() == rect.Width() * rect.Height();
  }

  function PatchCell(rect: DirtyRect, patch: seq<Cell>, o: CellOffset): Cell
    requires rect.Covers(o) && |patch| == rect.Width() * rect.Height()
  {
    RectIndexBounds(rect, o);
    patch[RectIndex(rect, o.x, o.y)]
  }

  // The grid with the cells of the rectangle replaced.
  function Patched(cells: CellGrid, rect: DirtyRect, patch: seq<Cell>): CellGrid
    requires |patch| == rect.Width() * rect.Height()
  {
    seq(CHUNK_AREA, i requires 0 <= i < CHUNK_AREA =>
      if rect.Covers(OffsetAt(i)) then PatchCell(rect, patch, OffsetAt(i)) else cells[i])
  }

  predicate InChunk(rect: DirtyRect) {
    !rect.IsEmpty() && rect.maxX < 64 && rect.maxY < 64
  }

  // One operation. A payload that does not decode, a rectangle that does not fit, or a
  // chunk that is not there leaves the view as it is.
  function ApplyOp(view: ViewMap, op: ChunkOp): ViewMap {
    match op
    case Load(pos, bytes, fog) =>
      (match Decode(bytes, CHUNK_AREA)
       case Ok(cells) => if |cells| == CHUNK_AREA then view[pos := ViewChunk(cells, fog)] else view
       case Err(_) => view)
    case Fog(pos, fog) => if pos in view then view[pos := view[pos].(fog := fog)] else view
    case Unload(pos) => view - {pos}
    case Delta(pos, rect, bytes) =>
      if !InChunk(rect) || pos !in view then view
      else
        match Decode(bytes, rect.Width() * rect.Height())
        case Ok(cells) =>
          if |cells| == rect.Width() * rect.Height()
          then view[pos := view[pos].(cells := Patched(view[pos].cells, rect, cells))]
          else view
        case Err(_) => view
  }

  function ApplyOps(view: ViewMap, ops: seq<ChunkOp>): ViewMap
    decreases |ops|
  {
    if ops == [] then view else ApplyOp(ApplyOps(view, ops[..|ops| - 1]), ops[|ops| - 1])
  }

  // Copies the cells of a rectangle into the buffer, row by row.
  method ApplyRect(cells: CellGrid, rect: DirtyRect, patch: seq<Cell>) returns (patched: CellGrid)
    requires InChunk(rect) && |patch| == rect.Width() * rect.Height()
    ensures patched == Patched(cells, rect, patch)
  {
    patched := cells;
    var width := rect.Width();
    for row := 0 to rect.Height()
      invariant RowsPatched(cells, rect, patch, patched, row)
    {
      RowsAscend(width, row, rect.Height());
      var src := patch[row * width..row * width + width];
      var base := CellOffset(rect.minX, rect.minY + row).Index();
      ghost var before := patched;
      patched := patched[..base] + src + patched[base + width..];
      NextRowPatched(cells, rect, patch, before, patched, row);
    }
    AllRowsPatched(cells, rect, patch, patched);
  }

  // The first rows of the rectangle are patched, the other cells as they were.
  ghost predicate RowsPatched(cells: CellGrid, rect: DirtyRect, patch: seq<Cell>, patched: seq<Cell>, rows: nat)
    requires |patch| == rect.Width() * rect.Height()
  {
    |patched| == CHUNK_AREA && forall i | 0 <= i < CHUNK_AREA ::
      patched[i] == if rect.Covers(OffsetAt(i)) && OffsetAt(i).y < rect.minY + rows
        then Patched(cells, rect, patch)[i] else cells[i]
  }

  lemma AllRowsPatched(cells: CellGrid, rect: DirtyRect, patch: seq<Cell>, patched: seq<Cell>)
    requires InChunk(rect) && |patch| == rect.Width() * rect.Height() && RowsPatched(cells, rect, patch, patched, rect.Height())
    ensures patched == Patched(cells, rect, patch)
  {
  }

  lemma NextRowPatched(cells: CellGrid, rect: DirtyRect, patch: seq<Cell>, before: CellGrid, after: CellGrid, row: nat)
    requires InChunk(rect) && |patch| == rect.Width() * rect.Height() && row < rect.Height()
    requires RowsPatched(cells, rect, patch, before, row)
    requires 0 <= row * rect.Width() && row * rect.Width() + rect.Width() <= |patch|
    requires var base := CellOffset(rect.minX, rect.minY + row).Index();
      after == before[..base] + patch[row * rect.Width()..row * rect.Width() + rect.Width()] + before[base + rect.Width()..]
    ensures RowsPatched(cells, rect, patch, after, row + 1)
  {
    forall i | 0 <= i < CHUNK_AREA
      ensures after[i] == if rect.Covers(OffsetAt(i)) && OffsetAt(i).y < rect.minY + row + 1
        then Patched(cells, rect, patch)[i] else cells[i]
    {
      RowCopied(cells, rect, patch, before, after, row, i);
    }
  }

  lemma RowCopied(cells: CellGrid, rect: DirtyRect, patch: seq<Cell>, before: CellGrid, after: CellGrid, row: nat, i: nat)
    requires InChunk(rect) && |patch| == rect.Width() * rect.Height() && row < rect.Height() && i < CHUNK_AREA
    requires before[i] == if rect.Covers(OffsetAt(i)) && OffsetAt(i).y < rect.minY + row
      then Patched(cells, rect, patch)[i] else cells[i]
    requires 0 <= row * rect.Width() && row * rect.Width() + rect.Width() <= |patch|
    requires var base := CellOffset(rect.minX, rect.minY + row).Index();
      after == before[..base] + patch[row * rect.Width()..row * rect.Width() + rect.Width()] + before[base + rect.Width()..]
    ensures after[i] == if rect.Covers(OffsetAt(i)) && OffsetAt(i).y < rect.minY + row + 1
      then Patched(cells, rect, patch)[i] else cells[i]
  {
    var base := CellOffset(rect.minX, rect.minY + row).Index();
    var o := OffsetAt(i);
    if base <= i < base + rect.Width() {
      assert o.y == rect.minY + row && o.x == i - base + rect.minX;
      RectIndexBounds(rect, o);
      assert RectIndex(rect, o.x, o.y) == row * rect.Width() + (i - base);
    } else {
      assert after[i] == before[i];
    }
  }

  class WorldView {
    var chunks: ViewMap
    var serverTick: nat
    var changes: seq<ChunkChange>

    constructor ()
      ensures chunks == map[] && serverTick == 0 && changes == []
    {
      chunks, serverTick, changes := map[], 0, [];
    }

    method ApplyOne(op: ChunkOp)
      modifies this`chunks, this`changes
      ensures chunks == ApplyOp(old(chunks), op)
      ensures chunks != old(chunks) ==> |changes| == |old(changes)| + 1 && changes[|old(changes)|].pos == op.pos
      ensures old(changes) <= changes
    {
      match op {
        case Load(pos, bytes, fog) =>
          DecodedLength(bytes, CHUNK_AREA);
          var decoded := CellsFromWire(bytes, CHUNK_AREA);
          if decoded.Ok? {
            chunks := chunks[pos := ViewChunk(decoded.value, fog)];
            changes := changes + [Loaded(pos)];
          }
        case Fog(pos, fog) =>
          if pos in chunks {
            chunks := chunks[pos := chunks[pos].(fog := fog)];
            changes := changes + [Revealed(pos)];
          }
        case Unload(pos) =>
          if pos in chunks {
            chunks := chunks - {pos};
            changes := changes + [Unloaded(pos)];
          } else {
            assert chunks - {pos} == chunks;
          }
        case Delta(pos, rect, bytes) =>
          if rect.IsEmpty() || rect.maxX >= 64 || rect.maxY >= 64 {
            return;
          }
          var count := rect.Width() * rect.Height();
          DecodedLength(bytes, count);
          var decoded := CellsFromWire(bytes, count);
          if decoded.Err? || pos !in chunks {
            return;
          }
          var patched := ApplyRect(chunks[pos].cells, rect, decoded.value);
          chunks := chunks[pos := chunks[pos].(cells := patched)];
          changes := changes + [Changed(pos, rect)];
      }
    }

    // One frame: its operations in order.
    method Apply(tick: nat, ops: seq<ChunkOp>)
      modifies this
      ensures chunks == ApplyOps(old(chunks), ops)
      ensures serverTick == if old(serverTick) < tick then tick else old(serverTick)
    {
      serverTick := if serverTick < tick then tick else serverTick;
      for i := 0 to |ops|
        invariant chunks == ApplyOps(old(chunks), ops[..i])
        invariant serverTick == if old(serverTick) < tick then tick else old(serverTick)
      {
        assert ops[..i + 1][..i] == ops[..i];
        ApplyOne(ops[i]);
      }
      assert ops[..|ops|] == ops;
    }
  }
}
