// The chunk as the object the source updates in place (Chunk of crates/fallingsand_core/src/chunk.rs)
// and the refresh of its sight mask (crates/fallingsand_server/src/fog.rs).
module ChunkObject {
  import opened Cells
  import opened Coords
  import opened Chunks

  // The cells in row order, those of the rectangle cleared in the rows above y, and in row y
  // left of x.
  ghost predicate ClearedTo(before: CellGrid, after: seq<Cell>, rect: DirtyRect, y: int, x: int) {
    && |after| == CHUNK_AREA
    && forall i | 0 <= i < CHUNK_AREA ::
      after[i] == if rect.Covers(OffsetAt(i)) && (i / 64 < y || (i / 64 == y && i % 64 < x)) then before[i].ClearMoved() else before[i]
  }

  lemma ClearsNext(before: CellGrid, after: seq<Cell>, rect: DirtyRect, y: int, x: int)
    requires ClearedTo(before, after, rect, y, x) && rect.minX <= x <= rect.maxX < 64 && rect.minY <= y <= rect.maxY < 64
    ensures ClearedTo(before, after[y * 64 + x := after[y * 64 + x].ClearMoved()], rect, y, x + 1)
  {
  }

  lemma RowCleared(before: CellGrid, after: seq<Cell>, rect: DirtyRect, y: int)
    requires ClearedTo(before, after, rect, y, rect.maxX + 1)
    ensures ClearedTo(before, after, rect, y + 1, rect.minX)
  {
  }

  lemma AllCleared(before: CellGrid, after: seq<Cell>, rect: DirtyRect)
    requires ClearedTo(before, after, rect, rect.maxY + 1, rect.minX)
    ensures after == ClearedIn(before, rect)
  {
  }

  class Chunk {
    const cells: array<Cell>
    var change: DirtyRect
    var prevChange: DirtyRect
    var sim: DirtyRect
    var prevSim: DirtyRect
    var fog: FogMask
    var sight: FogMask
    var sightDirty: DirtyRect
    var sightRev: nat

    constructor ()
      ensures Valid() && View() == NewChunk()
    {
      cells := new Cell[CHUNK_AREA](_ => AIR);
      change, prevChange, sim, prevSim := EMPTY, EMPTY, EMPTY, EMPTY;
      fog, sight := seq(FOG_TEXELS, _ => false), seq(FOG_TEXELS, _ => false);
      sightDirty, sightRev := FULL, 0;
      new;
      assert cells[..] == seq(CHUNK_AREA, _ => AIR);
    }

    ghost predicate Shape()
      reads this
    {
      cells.Length == CHUNK_AREA && sightRev < 0x1_0000_0000
    }

    ghost function View(): ChunkData
      requires Shape()
      reads this, cells
    {
      ChunkData(cells[..], change, prevChange, sim, prevSim, fog, sight, sightDirty, sightRev)
    }

    // Both caches are sound.
    ghost predicate Valid()
      reads this, cells
    {
      Shape() && Sound(View())
    }

    method Get(o: CellOffset) returns (cell: Cell)
      requires Shape()
      ensures cell == View().Get(o)
    {
      cell := cells[o.Index()];
    }

    method Set(o: CellOffset, cell: Cell)
      requires Valid()
      modifies this, cells
      ensures Valid() && View() == old(View()).Set(o, cell)
    {
      ghost var c := View();
      cells[o.Index()] := cell;
      change := change.Mark(o);
      sim := sim.MarkNeighbourhood(o);
      sightDirty := sightDirty.Mark(o);
      assert cells[..] == c.cells[o.Index() := cell];
      assert View() == c.Set(o, cell);
      SetKeepsSound(c, o, cell);
    }

    method MarkSim(o: CellOffset)
      requires Valid()
      modifies this`sim
      ensures Valid() && View() == old(View()).MarkSim(o)
    {
      MarkSimKeepsSound(View(), o);
      sim := sim.Mark(o);
    }

    // Clears the moved flags inside the simulation rectangle, row by row.
    method ClearMoved(rect: DirtyRect)
      requires Shape() && rect.Proper()
      modifies cells
      ensures cells[..] == ClearedIn(old(cells[..]), rect)
    {
      ghost var before := cells[..];
      if rect.IsEmpty() {
        assert cells[..] == ClearedIn(before, rect);
        return;
      }
      var y := rect.minY as int;
      assert ClearedTo(before, cells[..], rect, y, rect.minX);
      while y <= rect.maxY
        invariant rect.minY <= y <= rect.maxY + 1
        invariant ClearedTo(before, cells[..], rect, y, rect.minX)
      {
        var row, x := y * 64, rect.minX as int;
        while x <= rect.maxX
          invariant rect.minX <= x <= rect.maxX + 1
          invariant ClearedTo(before, cells[..], rect, y, x)
        {
          ClearsNext(before, cells[..], rect, y, x);
          cells[row + x] := cells[row + x].ClearMoved();
          x := x + 1;
        }
        RowCleared(before, cells[..], rect, y);
        y := y + 1;
      }
      AllCleared(before, cells[..], rect);
    }

    // A new tick: no cell has moved, and when rolled the rectangles age by a generation.
    method BeginTick(roll: bool)
      requires Valid()
      modifies this, cells
      ensures Valid() && View() == old(View()).BeginTick(roll)
      ensures forall i | 0 <= i < CHUNK_AREA :: cells[i] == old(cells[i]).ClearMoved()
    {
      BeginTickClearsEveryCell(View(), roll);
      assert View().SimRect().Proper();
      ClearMoved(sim.Union(prevSim));
      if roll {
        prevChange, change := change, EMPTY;
        prevSim, sim := sim, EMPTY;
      }
      assert cells[..] == old(View()).BeginTick(roll).cells;
    }

    method Reveal(revealed: FogMask)
      requires Valid()
      modifies this`fog
      ensures Valid() && View() == old(View()).Reveal(revealed)
    {
      fog := UnionMask(fog, revealed);
    }

    method TakeSightDirty() returns (rect: DirtyRect)
      requires Shape()
      modifies this`sightDirty
      ensures rect == old(sightDirty) && View() == old(View()).(sightDirty := EMPTY)
    {
      rect := sightDirty;
      sightDirty := EMPTY;
    }

    method StoreSight(seen: FogMask)
      requires Shape()
      modifies this`sight, this`sightRev
      ensures Shape() && View() == old(View()).(sight := seen,
        sightRev := if seen == old(sight) then old(sightRev) else (old(sightRev) + 1) % 0x1_0000_0000)
    {
      if sight != seen {
        sight := seen;
        sightRev := (sightRev + 1) % 0x1_0000_0000;
      }
    }
  }

  lemma CellOfTexel(tx: nat, ty: nat, cx: nat, cy: nat)
    requires tx < FOG_SIDE && ty < FOG_SIDE && cx < 4 && cy < 4
    ensures TexelCell(ty * FOG_SIDE + tx, cy * 4 + cx) == CellOffset(tx * 4 + cx, ty * 4 + cy)
  {
    assert (ty * FOG_SIDE + tx) % 16 == tx && (ty * FOG_SIDE + tx) / 16 == ty;
    assert (cy * 4 + cx) % 4 == cx && (cy * 4 + cx) / 4 == cy;
  }

  lemma CountsNext(cells: CellGrid, tx: nat, ty: nat, cx: nat, cy: nat)
    requires tx < FOG_SIDE && ty < FOG_SIDE && cx < 4 && cy < 4
    ensures OpaqueCount(cells, ty * FOG_SIDE + tx, cy * 4 + cx + 1)
      == OpaqueCount(cells, ty * FOG_SIDE + tx, cy * 4 + cx)
         + if OpaqueCell(cells[CellOffset(tx * 4 + cx, ty * 4 + cy).Index()]) then 1 else 0
  {
    CellOfTexel(tx, ty, cx, cy);
  }

  // Counts on through one row of a texel.
  method CountRow(chunk: Chunk, tx: nat, ty: nat, cy: nat, before: nat) returns (count: nat)
    requires chunk.Shape() && tx < FOG_SIDE && ty < FOG_SIDE && cy < 4
    requires before == OpaqueCount(chunk.View().cells, ty * FOG_SIDE + tx, cy * 4)
    ensures count == OpaqueCount(chunk.View().cells, ty * FOG_SIDE + tx, cy * 4 + 4)
  {
    count := before;
    ghost var cells := chunk.View().cells;
    for cx := 0 to 4
      invariant count == OpaqueCount(cells, ty * FOG_SIDE + tx, cy * 4 + cx)
    {
      CountsNext(cells, tx, ty, cx, cy);
      var cell := chunk.Get(CellOffset(tx * 4 + cx, ty * 4 + cy));
      if OpaqueCell(cell) {
        count := count + 1;
      }
    }
  }

  // Whether enough of a texel's cells block the view.
  method CountOpaque(chunk: Chunk, tx: nat, ty: nat) returns (blocks: bool)
    requires chunk.Shape() && tx < FOG_SIDE && ty < FOG_SIDE
    ensures blocks == OpaqueTexel(chunk.View().cells, ty * FOG_SIDE + tx)
  {
    var count: nat := 0;
    for cy := 0 to 4
      invariant count == OpaqueCount(chunk.View().cells, ty * FOG_SIDE + tx, cy * 4)
    {
      count := CountRow(chunk, tx, ty, cy, count);
    }
    blocks := count >= SIGHT_OPAQUE_CELLS;
  }

  // The mask with the touched texels of the rows above ty, and of row ty left of tx, looked at.
  ghost predicate SeenTo(c: ChunkData, rect: DirtyRect, seen: FogMask, ty: int, tx: int) {
    forall t | 0 <= t < FOG_TEXELS ::
      seen[t] == if TouchesTexel(rect, t) && (t / 16 < ty || (t / 16 == ty && t % 16 < tx)) then OpaqueTexel(c.cells, t) else c.sight[t]
  }

  lemma SeesNext(c: ChunkData, rect: DirtyRect, seen: FogMask, ty: nat, tx: nat)
    requires SeenTo(c, rect, seen, ty, tx) && ty < FOG_SIDE && tx < FOG_SIDE
    requires rect.minX / 4 <= tx <= rect.maxX / 4 && rect.minY / 4 <= ty <= rect.maxY / 4
    ensures SeenTo(c, rect, seen[ty * FOG_SIDE + tx := OpaqueTexel(c.cells, ty * FOG_SIDE + tx)], ty, tx + 1)
  {
  }

  lemma AllSeen(c: ChunkData, seen: FogMask)
    requires !c.sightDirty.IsEmpty()
    requires SeenTo(c, c.sightDirty, seen, c.sightDirty.maxY / 4 + 1, c.sightDirty.minX / 4)
    ensures seen == c.RefreshSight().sight
  {
  }

  // Recomputes the texels that have changed since the last time, and no others.
  method RefreshSight(chunk: Chunk)
    requires chunk.Valid()
    modifies chunk
    ensures chunk.Valid() && chunk.View() == old(chunk.View()).RefreshSight()
    ensures forall t | 0 <= t < FOG_TEXELS :: chunk.sight[t] == OpaqueTexel(chunk.View().cells, t)
  {
    ghost var start := chunk.View();
    RefreshSightIsRecomputation(start);
    var rect := chunk.TakeSightDirty();
    if rect.IsEmpty() {
      return;
    }
    var seen := chunk.sight;
    var ty := rect.minY / 4;
    while ty <= rect.maxY / 4
      invariant rect.minY / 4 <= ty <= rect.maxY / 4 + 1
      invariant chunk.Shape() && chunk.View() == start.(sightDirty := EMPTY)
      invariant SeenTo(start, rect, seen, ty, rect.minX / 4)
    {
      var tx := rect.minX / 4;
      while tx <= rect.maxX / 4
        invariant rect.minX / 4 <= tx <= rect.maxX / 4 + 1
        invariant chunk.Shape() && chunk.View() == start.(sightDirty := EMPTY)
        invariant SeenTo(start, rect, seen, ty, tx)
      {
        SeesNext(start, rect, seen, ty, tx);
        var index := ty * FOG_SIDE + tx;
        var blocked := CountOpaque(chunk, tx, ty);
        seen := seen[index := blocked];
        tx := tx + 1;
      }
      ty := ty + 1;
    }
    AllSeen(start, seen);
    chunk.StoreSight(seen);
  }
}
