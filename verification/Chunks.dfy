// A chunk of 64 by 64 cells with its two-generation dirty rectangles and sight
// mask (crates/fallingsand_core/src/chunk.rs, and refresh_sight and opaque_texel
// of crates/fallingsand_server/src/fog.rs).
module Chunks {
  import opened Materials
  import opened Cells
  import opened Coords

  datatype DirtyRect = DirtyRect(minX: U8, minY: U8, maxX: U8, maxY: U8) {
    predicate IsEmpty() {
      minX > maxX || minY > maxY
    }

    predicate Covers(o: CellOffset) {
      minX <= o.x <= maxX && minY <= o.y <= maxY
    }

    function Mark(o: CellOffset): DirtyRect {
      DirtyRect(Min(minX, o.x), Min(minY, o.y), Max(maxX, o.x), Max(maxY, o.y))
    }

    function MarkNeighbourhood(o: CellOffset): DirtyRect {
      DirtyRect(
        Min(minX, if o.x == 0 then 0 else o.x - 1),
        Min(minY, if o.y == 0 then 0 else o.y - 1),
        Max(maxX, Min(o.x + 1, 63)),
        Max(maxY, Min(o.y + 1, 63)))
    }

    function Union(other: DirtyRect): DirtyRect {
      if IsEmpty() then other
      else if other.IsEmpty() then this
      else DirtyRect(Min(minX, other.minX), Min(minY, other.minY), Max(maxX, other.maxX), Max(maxY, other.maxY))
    }

    function Width(): nat {
      if IsEmpty() then 0 else maxX - minX + 1
    }

    function Height(): nat {
      if IsEmpty() then 0 else maxY - minY + 1
    }

    // What marking keeps: untouched, or inside the chunk.
    predicate Proper() {
      this == EMPTY || (!IsEmpty() && maxX < 64 && maxY < 64)
    }
  }

  const EMPTY: DirtyRect := DirtyRect(255, 255, 0, 0)
  const FULL: DirtyRect := DirtyRect(0, 0, 63, 63)

  function Min(a: U8, b: U8): U8 {
    if a < b then a else b
  }

  function Max(a: U8, b: U8): U8 {
    if a < b then b else a
  }

  type CellGrid = s: seq<Cell> | |s| == CHUNK_AREA witness seq(CHUNK_AREA, _ => AIR)

  // 16 by 16 texels of 4 by 4 cells.
  const FOG_SIDE: nat := 16
  const FOG_TEXELS: nat := 256
  const SIGHT_OPAQUE_CELLS: nat := 8

  type FogMask = m: seq<bool> | |m| == FOG_TEXELS witness seq(FOG_TEXELS, _ => false)

  function UnionMask(a: FogMask, b: FogMask): FogMask {
    seq(FOG_TEXELS, i requires 0 <= i < FOG_TEXELS => a[i] || b[i])
  }

  datatype ChunkData = ChunkData(
    cells: CellGrid,
    change: DirtyRect, prevChange: DirtyRect,
    sim: DirtyRect, prevSim: DirtyRect,
    fog: FogMask,
    sight: FogMask, sightDirty: DirtyRect, sightRev: nat)
  {
    function Get(o: CellOffset): Cell {
      cells[o.Index()]
    }

    function ChangeRect(): DirtyRect {
      change.Union(prevChange)
    }

    function SimRect(): DirtyRect {
      sim.Union(prevSim)
    }

    function Set(o: CellOffset, cell: Cell): ChunkData {
      this.(
        cells := cells[o.Index() := cell],
        change := change.Mark(o),
        sim := sim.MarkNeighbourhood(o),
        sightDirty := sightDirty.Mark(o))
    }

    function MarkSim(o: CellOffset): ChunkData {
      this.(sim := sim.Mark(o))
    }

    function BeginTick(roll: bool): ChunkData {
      var cleared := this.(cells := ClearedIn(cells, SimRect()));
      if roll then
        cleared.(prevChange := change, change := EMPTY, prevSim := sim, sim := EMPTY)
      else
        cleared
    }

    function Reveal(revealed: FogMask): ChunkData {
      this.(fog := UnionMask(fog, revealed))
    }

    function RefreshSight(): ChunkData {
      if sightDirty.IsEmpty() then this.(sightDirty := EMPTY)
      else
        var seen: FogMask := seq(FOG_TEXELS, i requires 0 <= i < FOG_TEXELS =>
          if TouchesTexel(sightDirty, i) then OpaqueTexel(cells, i) else sight[i]);
        this.(sightDirty := EMPTY, sight := seen,
              sightRev := if seen == sight then sightRev else (sightRev + 1) % 0x1_0000_0000)
    }
  }

  type ChunkMap = map<ChunkPos, ChunkData>

  function NewChunk(): ChunkData {
    ChunkData(
      seq(CHUNK_AREA, _ => AIR), EMPTY, EMPTY, EMPTY, EMPTY,
      seq(FOG_TEXELS, _ => false), seq(FOG_TEXELS, _ => false), FULL, 0)
  }

  function ClearedIn(cells: CellGrid, rect: DirtyRect): CellGrid {
    seq(CHUNK_AREA, i requires 0 <= i < CHUNK_AREA =>
      if rect.Covers(OffsetAt(i)) then cells[i].ClearMoved() else cells[i])
  }

  predicate OpaqueCell(cell: Cell) {
    cell.motion.Velocity? && CONTENT.opaque_(cell.material)
  }

  // The cell at place k, in row order, of texel t.
  function TexelCell(t: nat, k: nat): CellOffset
    requires t < FOG_TEXELS && k < 16
  {
    CellOffset(t % 16 * 4 + k % 4, t / 16 * 4 + k / 4)
  }

  function OpaqueCount(cells: CellGrid, t: nat, k: nat): nat
    requires t < FOG_TEXELS && k <= 16
  {
    if k == 0 then 0
    else OpaqueCount(cells, t, k - 1) + if OpaqueCell(cells[TexelCell(t, k - 1).Index()]) then 1 else 0
  }

  predicate OpaqueTexel(cells: CellGrid, t: nat)
    requires t < FOG_TEXELS
  {
    OpaqueCount(cells, t, 16) >= SIGHT_OPAQUE_CELLS
  }

  predicate TouchesTexel(rect: DirtyRect, t: nat)
    requires t < FOG_TEXELS
  {
    rect.minX / 4 <= t % 16 <= rect.maxX / 4 && rect.minY / 4 <= t / 16 <= rect.maxY / 4
  }

  ghost predicate ProperRects(c: ChunkData) {
    c.change.Proper() && c.prevChange.Proper() && c.sim.Proper() && c.prevSim.Proper() && c.sightDirty.Proper()
  }

  ghost predicate MovedCellsCovered(c: ChunkData) {
    forall i | 0 <= i < CHUNK_AREA :: c.cells[i].moved ==> c.SimRect().Covers(OffsetAt(i))
  }

  ghost predicate CleanTexelsRight(c: ChunkData) {
    forall t | 0 <= t < FOG_TEXELS :: !TouchesTexel(c.sightDirty, t) ==> c.sight[t] == OpaqueTexel(c.cells, t)
  }

  // The two caches are sound: the simulation rectangle covers every moved cell,
  // and the sight mask is right wherever no dirty cell can have changed it.
  ghost predicate Sound(c: ChunkData) {
    ProperRects(c) && MovedCellsCovered(c) && CleanTexelsRight(c)
  }

  lemma NewChunkIsSound()
    ensures Sound(NewChunk())
  {
  }

  lemma {:induction false} CountIgnoresOtherCells(before: CellGrid, after: CellGrid, t: nat, k: nat)
    requires t < FOG_TEXELS && k <= 16
    requires forall j | 0 <= j < k :: OpaqueCell(before[TexelCell(t, j).Index()]) == OpaqueCell(after[TexelCell(t, j).Index()])
    ensures OpaqueCount(before, t, k) == OpaqueCount(after, t, k)
  {
    if k > 0 {
      CountIgnoresOtherCells(before, after, t, k - 1);
    }
  }

  // `bigger` is not empty and reaches at least as far as `r` on every side.
  predicate Grows(r: DirtyRect, bigger: DirtyRect) {
    && !bigger.IsEmpty()
    && bigger.minX <= r.minX && bigger.minY <= r.minY && r.maxX <= bigger.maxX && r.maxY <= bigger.maxY
  }

  lemma MarkingGrows(r: DirtyRect, o: CellOffset)
    requires r.Proper()
    ensures Grows(r, r.Mark(o)) && r.Mark(o).Covers(o)
    ensures Grows(r, r.MarkNeighbourhood(o)) && r.MarkNeighbourhood(o).Covers(o)
  {
  }

  // Marking is no wider than it must be: whatever reaches as far as the rectangle and covers the
  // cell, or the cell's neighbours in the chunk, reaches as far as the marked rectangle.
  lemma MarkingIsLeast(r: DirtyRect, o: CellOffset, wide: DirtyRect)
    requires r.Proper() && Grows(r, wide)
    ensures wide.Covers(o) ==> Grows(r.Mark(o), wide)
    ensures (forall p: CellOffset | NextTo(p, o) :: wide.Covers(p)) ==> Grows(r.MarkNeighbourhood(o), wide)
  {
    if forall p: CellOffset | NextTo(p, o) :: wide.Covers(p) {
      var low := CellOffset(if o.x == 0 then 0 else o.x - 1, if o.y == 0 then 0 else o.y - 1);
      var high := CellOffset(if o.x == 63 then 63 else o.x + 1, if o.y == 63 then 63 else o.y + 1);
      assert NextTo(low, o) && NextTo(high, o);
    }
  }

  predicate NextTo(p: CellOffset, o: CellOffset) {
    -1 <= p.x - o.x <= 1 && -1 <= p.y - o.y <= 1
  }

  // What is awake while a tick runs: the marks of the tick before, and those of this one. A rolled
  // tick keeps exactly what was marked since the last, and the next one lets go of it.
  lemma RolledTickAges(c: ChunkData, o: CellOffset)
    requires ProperRects(c)
    ensures c.BeginTick(true).SimRect().Covers(o) <==> c.sim.Covers(o)
    ensures c.BeginTick(true).ChangeRect().Covers(o) <==> c.change.Covers(o)
    ensures c.BeginTick(true).BeginTick(true).SimRect().IsEmpty() && c.BeginTick(true).BeginTick(true).ChangeRect().IsEmpty()
    ensures c.BeginTick(false).SimRect() == c.SimRect() && c.BeginTick(false).ChangeRect() == c.ChangeRect()
  {
  }

  // The two generations together reach no further than both.
  lemma UnionIsLeast(r: DirtyRect, other: DirtyRect, wide: DirtyRect)
    requires r.Proper() && other.Proper()
    ensures !r.Union(other).IsEmpty() && (r.IsEmpty() || Grows(r, wide)) && (other.IsEmpty() || Grows(other, wide)) ==>
      Grows(r.Union(other), wide)
    ensures r.Union(other).IsEmpty() <==> r.IsEmpty() && other.IsEmpty()
  {
  }

  lemma GrowingGrowsUnion(r: DirtyRect, bigger: DirtyRect, other: DirtyRect, p: CellOffset)
    requires r.Proper() && Grows(r, bigger)
    requires bigger.Covers(p) || r.Union(other).Covers(p)
    ensures bigger.Union(other).Covers(p)
  {
  }

  lemma SetKeepsMovedCovered(c: ChunkData, o: CellOffset, cell: Cell)
    requires ProperRects(c) && MovedCellsCovered(c)
    ensures MovedCellsCovered(c.Set(o, cell))
  {
    var d := c.Set(o, cell);
    forall i | 0 <= i < CHUNK_AREA && d.cells[i].moved
      ensures d.SimRect().Covers(OffsetAt(i))
    {
      if i == o.Index() {
        OffsetIndexInjective(OffsetAt(i), o);
      }
      MarkingGrows(c.sim, o);
      GrowingGrowsUnion(c.sim, d.sim, c.prevSim, OffsetAt(i));
    }
  }

  lemma MarkTouches(r: DirtyRect, o: CellOffset, t: nat)
    requires r.Proper() && t < FOG_TEXELS
    ensures TouchesTexel(r, t) ==> TouchesTexel(r.Mark(o), t)
    ensures forall k | 0 <= k < 16 :: TexelCell(t, k) == o ==> TouchesTexel(r.Mark(o), t)
  {
  }

  lemma SetKeepsCleanTexelsRight(c: ChunkData, o: CellOffset, cell: Cell)
    requires ProperRects(c) && CleanTexelsRight(c)
    ensures CleanTexelsRight(c.Set(o, cell))
  {
    var d := c.Set(o, cell);
    forall t | 0 <= t < FOG_TEXELS && !TouchesTexel(d.sightDirty, t)
      ensures d.sight[t] == OpaqueTexel(d.cells, t)
    {
      MarkTouches(c.sightDirty, o, t);
      forall j | 0 <= j < 16
        ensures TexelCell(t, j).Index() != o.Index()
      {
        if TexelCell(t, j).Index() == o.Index() {
          OffsetIndexInjective(TexelCell(t, j), o);
        }
      }
      CountIgnoresOtherCells(c.cells, d.cells, t, 16);
    }
  }

  lemma SetKeepsSound(c: ChunkData, o: CellOffset, cell: Cell)
    requires Sound(c)
    ensures Sound(c.Set(o, cell))
  {
    SetKeepsMovedCovered(c, o, cell);
    SetKeepsCleanTexelsRight(c, o, cell);
  }

  lemma MarkSimKeepsSound(c: ChunkData, o: CellOffset)
    requires Sound(c)
    ensures Sound(c.MarkSim(o))
  {
    forall i | 0 <= i < CHUNK_AREA && c.cells[i].moved
      ensures c.MarkSim(o).SimRect().Covers(OffsetAt(i))
    {
      MarkingGrows(c.sim, o);
      GrowingGrowsUnion(c.sim, c.sim.Mark(o), c.prevSim, OffsetAt(i));
    }
  }

  // Clearing inside the rectangle is clearing everywhere.
  lemma BeginTickClearsEveryCell(c: ChunkData, roll: bool)
    requires Sound(c)
    ensures forall i | 0 <= i < CHUNK_AREA :: c.BeginTick(roll).cells[i] == c.cells[i].ClearMoved()
    ensures Sound(c.BeginTick(roll))
  {
    var d := c.BeginTick(roll);
    forall t | 0 <= t < FOG_TEXELS && !TouchesTexel(d.sightDirty, t)
      ensures d.sight[t] == OpaqueTexel(d.cells, t)
    {
      CountIgnoresOtherCells(c.cells, d.cells, t, 16);
    }
  }

  // The incremental sight mask is the mask recomputed from scratch.
  lemma RefreshSightIsRecomputation(c: ChunkData)
    requires Sound(c)
    ensures forall t | 0 <= t < FOG_TEXELS :: c.RefreshSight().sight[t] == OpaqueTexel(c.cells, t)
    ensures c.RefreshSight().sight == c.sight <==> c.RefreshSight().sightRev == c.sightRev
    ensures Sound(c.RefreshSight())
  {
  }

  // Every way the server changes a chunk it holds.
  datatype ChunkStep =
    | SetCell(o: CellOffset, cell: Cell)
    | MarkSim(o: CellOffset)
    | BeginTick(roll: bool)
    | Reveal(revealed: FogMask)
    | RefreshSight

  function Step(c: ChunkData, step: ChunkStep): ChunkData {
    match step
    case SetCell(o, cell) => c.Set(o, cell)
    case MarkSim(o) => c.MarkSim(o)
    case BeginTick(roll) => c.BeginTick(roll)
    case Reveal(revealed) => c.Reveal(revealed)
    case RefreshSight => c.RefreshSight()
  }

  function Run(c: ChunkData, steps: seq<ChunkStep>): ChunkData
    decreases |steps|
  {
    if steps == [] then c else Run(Step(c, steps[0]), steps[1..])
  }

  // Both caches stay sound in every run.
  lemma {:induction false} EveryRunKeepsSound(c: ChunkData, steps: seq<ChunkStep>)
    requires Sound(c)
    ensures Sound(Run(c, steps))
    decreases |steps|
  {
    if steps != [] {
      match steps[0] {
        case SetCell(o, cell) => SetKeepsSound(c, o, cell);
        case MarkSim(o) => MarkSimKeepsSound(c, o);
        case BeginTick(roll) => BeginTickClearsEveryCell(c, roll);
        case Reveal(_) =>
        case RefreshSight => RefreshSightIsRecomputation(c);
      }
      EveryRunKeepsSound(Step(c, steps[0]), steps[1..]);
    }
  }

  // How many of the cells look like m.
  function Is(cell: Cell, m: Matter): nat {
    if cell.Visible() == m then 1 else 0
  }

  function CellTally(cells: seq<Cell>, m: Matter): nat {
    if cells == [] then 0 else CellTally(cells[..|cells| - 1], m) + Is(cells[|cells| - 1], m)
  }

  lemma {:induction false} CellTallySet(cells: seq<Cell>, i: nat, cell: Cell, m: Matter)
    requires i < |cells|
    ensures CellTally(cells[i := cell], m) + Is(cells[i], m) == CellTally(cells, m) + Is(cell, m)
  {
    var last := |cells| - 1;
    if i == last {
      assert cells[i := cell][..last] == cells[..last];
    } else {
      assert cells[i := cell][..last] == cells[..last][i := cell];
      CellTallySet(cells[..last], i, cell, m);
    }
  }
}
