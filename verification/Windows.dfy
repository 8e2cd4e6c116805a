// The 4 by 4 chunk window a simulation kernel works on
// (crates/fallingsand_sim/src/window.rs). Window is its state as a value with the
// meaning of every access; SimWindow is the object the kernels change. An access
// outside the window breaks the source's debug assertion, so it is a precondition.
module Windows {
  import opened Wrappers
  import opened Materials
  import opened Cells
  import opened Coords
  import opened Chunks

  const WINDOW_CHUNKS: nat := 4
  const WINDOW_SLOTS: nat := 16
  const SPEED_OF_LIGHT: nat := 64

  type Slots = s: seq<Option<ChunkData>> | |s| == WINDOW_SLOTS witness seq(WINDOW_SLOTS, _ => None)

  datatype BodyImpulse =
    | Strike(id: BodyId, bodyCell: CellPos, grain: CellPos, mass: int)
    | Load(id: BodyId, bodyCell: CellPos, jy: int)

  datatype Window = Window(origin: ChunkPos, slots: Slots, impulses: seq<BodyImpulse>, unseated: seq<CellPos>) {
    predicate Inside(pos: CellPos) {
      0 <= pos.Chunk().x - origin.x < WINDOW_CHUNKS && 0 <= pos.Chunk().y - origin.y < WINDOW_CHUNKS
    }

    function Slot(pos: CellPos): (k: nat)
      requires Inside(pos)
      ensures k < WINDOW_SLOTS
    {
      (pos.Chunk().y - origin.y) * WINDOW_CHUNKS + (pos.Chunk().x - origin.x)
    }

    function ChunkAt(sx: int, sy: int): Option<ChunkData> {
      if 0 <= sx < WINDOW_CHUNKS && 0 <= sy < WINDOW_CHUNKS then slots[sy * WINDOW_CHUNKS + sx] else None
    }

    // The cell at pos, if the window holds one.
    function At(pos: CellPos): Option<Cell> {
      if Inside(pos) && slots[Slot(pos)].Some? then Some(slots[Slot(pos)].value.Get(pos.Offset())) else None
    }

    predicate Tagged(pos: CellPos) {
      At(pos).Some? && At(pos).value.motion.Body?
    }

    // Every position within `reach` of center is in the window and loaded.
    ghost predicate Holds(center: CellPos, reach: nat) {
      forall p: CellPos :: Near(center, p, reach) ==> At(p).Some?
    }

    // Only the chunk's own update.
    function Put(pos: CellPos, cell: Cell): Window
      requires At(pos).Some?
    {
      this.(slots := slots[Slot(pos) := Some(slots[Slot(pos)].value.Set(pos.Offset(), cell))])
    }

    function Mark(pos: CellPos): Window
      requires Inside(pos)
    {
      if slots[Slot(pos)].None? then this
      else this.(slots := slots[Slot(pos) := Some(slots[Slot(pos)].value.MarkSim(pos.Offset()))])
    }

    // Neighbour k of pos in row order, and the first k neighbours marked where they lie in
    // another chunk than pos.
    function WakeBorder(pos: CellPos, k: nat): (w: Window)
      requires k <= 9 && forall j | 0 <= j < k :: Inside(Neighbour(pos, j))
      ensures w.origin == origin
    {
      if k == 0 then this
      else
        var n := Neighbour(pos, k - 1);
        var w := WakeBorder(pos, k - 1);
        assert Inside(n);
        if n.Chunk() == pos.Chunk() then w else w.Mark(n)
    }

    ghost predicate Surrounded(pos: CellPos) {
      At(pos).Some? && forall j | 0 <= j < 9 :: Inside(Neighbour(pos, j))
    }

    function Unseat(pos: CellPos, change: bool): Window {
      if change then this.(unseated := unseated + [pos]) else this
    }

    function Set(pos: CellPos, cell: Cell): Window
      requires At(pos).Some? && forall j | 0 <= j < 9 :: Inside(Neighbour(pos, j))
    {
      var put := Put(pos, cell).Unseat(pos, Obstructs(At(pos).value.material) && !Obstructs(cell.material));
      assert forall p: CellPos :: put.Inside(p) == Inside(p);
      put.WakeBorder(pos, 9)
    }

    function Swap(mover: CellPos, target: CellPos): Window
      requires Surrounded(mover) && Surrounded(target)
    {
      SetGives(this, mover, At(target).value.Swapped());
      Set(mover, At(target).value.Swapped()).Set(target, At(mover).value.Swapped())
    }
  }

  // ---------------------------------------------------------- what Set does

  // A cell in the same chunk is at another index, a cell in another chunk in another slot.
  lemma OtherIndex(p: CellPos, q: CellPos)
    requires p.Chunk() == q.Chunk() && p.Offset().Index() == q.Offset().Index()
    ensures p == q
  {
    OffsetIndexInjective(p.Offset(), q.Offset());
    CellDecomposition(p);
    CellDecomposition(q);
  }

  lemma PutLeaves(w: Window, pos: CellPos, cell: Cell, p: CellPos)
    requires w.At(pos).Some? && w.Inside(p)
    ensures p == pos || w.Put(pos, cell).At(p) == w.At(p)
  {
    if p != pos {
      if w.Slot(p) == w.Slot(pos) {
        PutLeavesSlot(w, pos, cell, p);
      } else {
        assert w.Put(pos, cell).slots[w.Slot(p)] == w.slots[w.Slot(p)];
      }
    }
  }

  lemma PutLeavesSlot(w: Window, pos: CellPos, cell: Cell, p: CellPos)
    requires w.At(pos).Some? && w.Inside(p) && w.Slot(p) == w.Slot(pos) && p != pos
    ensures w.Put(pos, cell).At(p) == w.At(p)
  {
    var before := w.slots[w.Slot(pos)].value;
    SameSlotSameChunk(w, p, pos);
    OtherIndices(p, pos);
    GetAfterSet(before, pos.Offset(), cell, p.Offset());
    assert w.Put(pos, cell).slots[w.Slot(pos)] == Some(before.Set(pos.Offset(), cell));
  }

  lemma OtherIndices(p: CellPos, q: CellPos)
    requires p.Chunk() == q.Chunk() && p != q
    ensures p.Offset().Index() != q.Offset().Index()
  {
    if p.Offset().Index() == q.Offset().Index() {
      OtherIndex(p, q);
    }
  }

  lemma GetAfterSet(chunk: ChunkData, at: CellOffset, cell: Cell, o: CellOffset)
    requires o.Index() != at.Index()
    ensures chunk.Set(at, cell).Get(o) == chunk.Get(o)
  {
  }

  lemma PutGives(w: Window, pos: CellPos, cell: Cell)
    requires w.At(pos).Some?
    ensures w.Put(pos, cell).At(pos) == Some(cell)
    ensures forall p: CellPos | p != pos :: w.Put(pos, cell).At(p) == w.At(p)
  {
    forall p: CellPos | p != pos
      ensures w.Put(pos, cell).At(p) == w.At(p)
    {
      if w.Inside(p) {
        PutLeaves(w, pos, cell, p);
      } else {
        assert !w.Put(pos, cell).Inside(p);
      }
    }
  }

  lemma SameSlotSameChunk(w: Window, p: CellPos, q: CellPos)
    requires w.Inside(p) && w.Inside(q) && w.Slot(p) == w.Slot(q)
    ensures p.Chunk() == q.Chunk()
  {
  }

  // What marking leaves alone: everything but the simulation rectangles.
  ghost predicate SameCells(w: Window, v: Window) {
    && v.origin == w.origin && v.impulses == w.impulses && v.unseated == w.unseated
    && forall k | 0 <= k < WINDOW_SLOTS ::
         v.slots[k].Some? == w.slots[k].Some?
         && (w.slots[k].Some? ==> v.slots[k].value == w.slots[k].value.(sim := v.slots[k].value.sim))
  }

  lemma SameCellsSameAt(w: Window, v: Window)
    requires SameCells(w, v)
    ensures forall p: CellPos :: v.At(p) == w.At(p)
  {
  }

  lemma MarkKeepsCells(w: Window, pos: CellPos)
    requires w.Inside(pos)
    ensures SameCells(w, w.Mark(pos))
  {
  }

  lemma {:induction false} WakeKeepsCells(w: Window, pos: CellPos, k: nat)
    requires k <= 9 && forall j | 0 <= j < k :: w.Inside(Neighbour(pos, j))
    ensures SameCells(w, w.WakeBorder(pos, k))
  {
    if k > 0 {
      WakeKeepsCells(w, pos, k - 1);
      MarkKeepsCells(w.WakeBorder(pos, k - 1), Neighbour(pos, k - 1));
    }
  }

  lemma UnseatKeepsAt(w: Window, pos: CellPos, change: bool)
    ensures w.Unseat(pos, change).slots == w.slots && w.Unseat(pos, change).origin == w.origin
    ensures forall p: CellPos :: w.Unseat(pos, change).At(p) == w.At(p)
  {
  }

  lemma SetGives(w: Window, pos: CellPos, cell: Cell)
    requires w.Surrounded(pos)
    ensures w.Set(pos, cell).origin == w.origin
    ensures w.Set(pos, cell).At(pos) == Some(cell)
    ensures forall p: CellPos | p != pos :: w.Set(pos, cell).At(p) == w.At(p)
  {
    var change := Obstructs(w.At(pos).value.material) && !Obstructs(cell.material);
    var put := w.Put(pos, cell).Unseat(pos, change);
    PutGives(w, pos, cell);
    UnseatKeepsAt(w.Put(pos, cell), pos, change);
    WakeKeepsCells(put, pos, 9);
    SameCellsSameAt(put, put.WakeBorder(pos, 9));
  }

  predicate Awake(w: Window, p: CellPos)
  {
    w.Inside(p) && w.slots[w.Slot(p)].Some? && w.slots[w.Slot(p)].value.sim.Covers(p.Offset())
  }

  ghost predicate ProperSims(w: Window) {
    forall k | 0 <= k < WINDOW_SLOTS :: w.slots[k].Some? ==> ProperRects(w.slots[k].value)
  }

  lemma MarkWakes(w: Window, pos: CellPos, p: CellPos)
    requires w.Inside(pos) && ProperSims(w)
    ensures ProperSims(w.Mark(pos))
    ensures w.At(pos).Some? ==> Awake(w.Mark(pos), pos)
    ensures Awake(w, p) ==> Awake(w.Mark(pos), p)
  {
  }

  lemma WakeNext(w: Window, pos: CellPos, k: nat)
    requires k < 9 && forall j | 0 <= j < 9 :: w.Inside(Neighbour(pos, j))
    ensures w.WakeBorder(pos, k).Inside(Neighbour(pos, k))
    ensures w.WakeBorder(pos, k + 1) == if Neighbour(pos, k).Chunk() == pos.Chunk() then w.WakeBorder(pos, k)
      else w.WakeBorder(pos, k).Mark(Neighbour(pos, k))
  {
  }

  lemma {:induction false} WakeKeepsAwake(w: Window, pos: CellPos, k: nat, p: CellPos)
    requires k <= 9 && (forall j | 0 <= j < 9 :: w.Inside(Neighbour(pos, j))) && ProperSims(w)
    ensures ProperSims(w.WakeBorder(pos, k))
    ensures Awake(w, p) ==> Awake(w.WakeBorder(pos, k), p)
  {
    if k > 0 {
      WakeKeepsAwake(w, pos, k - 1, p);
      WakeNext(w, pos, k - 1);
      MarkWakes(w.WakeBorder(pos, k - 1), Neighbour(pos, k - 1), p);
    }
  }

  lemma {:induction false} WakeReaches(w: Window, pos: CellPos, k: nat, j: nat)
    requires j < k <= 9 && (forall i | 0 <= i < 9 :: w.Inside(Neighbour(pos, i))) && ProperSims(w)
    requires w.At(Neighbour(pos, j)).Some? && Neighbour(pos, j).Chunk() != pos.Chunk()
    ensures Awake(w.WakeBorder(pos, k), Neighbour(pos, j))
  {
    var before := w.WakeBorder(pos, k - 1);
    WakeNext(w, pos, k - 1);
    WakeKeepsAwake(w, pos, k - 1, Neighbour(pos, j));
    MarkWakes(before, Neighbour(pos, k - 1), Neighbour(pos, j));
    if j == k - 1 {
      WakeKeepsCells(w, pos, k - 1);
      SameCellsSameAt(w, before);
    } else {
      WakeReaches(w, pos, k - 1, j);
    }
  }

  lemma NextInChunk(pos: CellPos, j: nat)
    requires j < 9 && Neighbour(pos, j).Chunk() == pos.Chunk()
    ensures var o, n := pos.Offset(), Neighbour(pos, j).Offset();
      n.x == o.x + (j % 3 - 1) && n.y == o.y + (j / 3 - 1)
  {
  }

  lemma NeighbourhoodCovers(sim: DirtyRect, o: CellOffset, n: CellOffset)
    requires sim.Proper() && -1 <= n.x - o.x <= 1 && -1 <= n.y - o.y <= 1
    ensures sim.MarkNeighbourhood(o).Covers(n)
  {
  }

  lemma PutKeepsProper(w: Window, pos: CellPos, cell: Cell)
    requires w.At(pos).Some? && ProperSims(w)
    ensures ProperSims(w.Put(pos, cell))
  {
    var c := w.slots[w.Slot(pos)].value;
    MarkingGrows(c.sim, pos.Offset());
    assert ProperRects(c.Set(pos.Offset(), cell));
  }

  lemma PutWakesOwnChunk(w: Window, pos: CellPos, cell: Cell, j: nat)
    requires w.At(pos).Some? && ProperSims(w) && j < 9 && Neighbour(pos, j).Chunk() == pos.Chunk()
    ensures ProperSims(w.Put(pos, cell)) && Awake(w.Put(pos, cell), Neighbour(pos, j))
  {
    var sim := w.slots[w.Slot(pos)].value.sim;
    PutKeepsProper(w, pos, cell);
    NextInChunk(pos, j);
    NeighbourhoodCovers(sim, pos.Offset(), Neighbour(pos, j).Offset());
    assert w.Put(pos, cell).Slot(Neighbour(pos, j)) == w.Slot(pos);
  }

  // Writing a cell wakes all of its loaded neighbours, across chunk borders too.
  lemma SetWakesNeighbourhood(w: Window, pos: CellPos, cell: Cell, j: nat)
    requires w.Surrounded(pos) && ProperSims(w)
    requires j < 9 && w.At(Neighbour(pos, j)).Some?
    ensures Awake(w.Set(pos, cell), Neighbour(pos, j))
  {
    if Neighbour(pos, j).Chunk() == pos.Chunk() {
      SetWakesOwnChunk(w, pos, cell, j);
    } else {
      SetWakesOtherChunk(w, pos, cell, j);
    }
  }

  lemma SetWakesOwnChunk(w: Window, pos: CellPos, cell: Cell, j: nat)
    requires w.Surrounded(pos) && ProperSims(w)
    requires j < 9 && Neighbour(pos, j).Chunk() == pos.Chunk()
    ensures Awake(w.Set(pos, cell), Neighbour(pos, j))
  {
    PutWakesOwnChunk(w, pos, cell, j);
    SetKeepsAwake(w, pos, cell, Neighbour(pos, j));
  }

  lemma SetKeepsAwake(w: Window, pos: CellPos, cell: Cell, p: CellPos)
    requires w.Surrounded(pos) && ProperSims(w.Put(pos, cell)) && Awake(w.Put(pos, cell), p)
    ensures Awake(w.Set(pos, cell), p)
  {
    var change := Obstructs(w.At(pos).value.material) && !Obstructs(cell.material);
    UnseatKeepsAwake(w.Put(pos, cell), pos, change, p);
    WakeKeepsAwake(w.Put(pos, cell).Unseat(pos, change), pos, 9, p);
  }

  lemma UnseatKeepsAwake(w: Window, pos: CellPos, change: bool, p: CellPos)
    requires ProperSims(w) && Awake(w, p)
    ensures ProperSims(w.Unseat(pos, change)) && Awake(w.Unseat(pos, change), p)
    ensures forall q: CellPos :: w.Unseat(pos, change).Inside(q) == w.Inside(q)
  {
  }

  lemma SetWakesOtherChunk(w: Window, pos: CellPos, cell: Cell, j: nat)
    requires w.Surrounded(pos) && ProperSims(w)
    requires j < 9 && w.At(Neighbour(pos, j)).Some? && Neighbour(pos, j).Chunk() != pos.Chunk()
    ensures Awake(w.Set(pos, cell), Neighbour(pos, j))
  {
    var change := Obstructs(w.At(pos).value.material) && !Obstructs(cell.material);
    UnseatKeepsAt(w.Put(pos, cell), pos, change);
    PutKeepsProper(w, pos, cell);
    PutGives(w, pos, cell);
    WakeReaches(w.Put(pos, cell).Unseat(pos, change), pos, 9, j);
  }

  // A cell that is not on the edge of its chunk has no neighbour in another.
  lemma InnerCellsWakeNobody(w: Window, pos: CellPos)
    requires 0 < pos.Offset().x < 63 && 0 < pos.Offset().y < 63 && w.Inside(pos)
    ensures forall j | 0 <= j < 9 :: Neighbour(pos, j).Chunk() == pos.Chunk() && w.Inside(Neighbour(pos, j))
    ensures w.WakeBorder(pos, 9) == w
  {
    assert forall j | 0 <= j < 9 :: Neighbour(pos, j).Chunk() == pos.Chunk();
    InnerWake(w, pos, 9);
  }

  lemma {:induction false} InnerWake(w: Window, pos: CellPos, k: nat)
    requires k <= 9 && forall j | 0 <= j < 9 :: Neighbour(pos, j).Chunk() == pos.Chunk() && w.Inside(Neighbour(pos, j))
    ensures w.WakeBorder(pos, k) == w
  {
    if k > 0 {
      InnerWake(w, pos, k - 1);
    }
  }

  // --------------------------------------------------------- counting matter

  function SlotTally(slots: seq<Option<ChunkData>>, m: Matter): nat {
    if slots == [] then 0
    else SlotTally(slots[..|slots| - 1], m) + ChunkTally(slots[|slots| - 1], m)
  }

  function ChunkTally(slot: Option<ChunkData>, m: Matter): nat {
    if slot.None? then 0 else CellTally(slot.value.cells, m)
  }

  // How many cells of the window look like m.
  function Tally(w: Window, m: Matter): nat {
    SlotTally(w.slots, m)
  }

  lemma {:induction false} SlotTallySet(slots: seq<Option<ChunkData>>, k: nat, slot: Option<ChunkData>, m: Matter)
    requires k < |slots|
    ensures SlotTally(slots[k := slot], m) + ChunkTally(slots[k], m) == SlotTally(slots, m) + ChunkTally(slot, m)
  {
    var last := |slots| - 1;
    if k == last {
      assert slots[k := slot][..last] == slots[..last];
    } else {
      assert slots[k := slot][..last] == slots[..last][k := slot];
      SlotTallySet(slots[..last], k, slot, m);
    }
  }

  lemma {:induction false} SlotTallySame(a: seq<Option<ChunkData>>, b: seq<Option<ChunkData>>, m: Matter)
    requires |a| == |b| && forall k | 0 <= k < |a| :: ChunkTally(a[k], m) == ChunkTally(b[k], m)
    ensures SlotTally(a, m) == SlotTally(b, m)
  {
    if a != [] {
      SlotTallySame(a[..|a| - 1], b[..|b| - 1], m);
    }
  }

  lemma SetTally(w: Window, pos: CellPos, cell: Cell, m: Matter)
    requires w.Surrounded(pos)
    ensures Tally(w.Set(pos, cell), m) + Is(w.At(pos).value, m) == Tally(w, m) + Is(cell, m)
  {
    var chunk := w.slots[w.Slot(pos)].value;
    var put := w.Put(pos, cell).Unseat(pos, Obstructs(w.At(pos).value.material) && !Obstructs(cell.material));
    CellTallySet(chunk.cells, pos.Offset().Index(), cell, m);
    SlotTallySet(w.slots, w.Slot(pos), Some(chunk.Set(pos.Offset(), cell)), m);
    WakeKeepsCells(put, pos, 9);
    SlotTallySame(put.slots, w.Set(pos, cell).slots, m);
  }

  // ----------------------------------------------- what movement may do to a window

  ghost predicate AllSound(w: Window) {
    forall k | 0 <= k < WINDOW_SLOTS :: w.slots[k].Some? ==> Sound(w.slots[k].value)
  }

  // Every position that stopped obstructing is among the newly unseated.
  ghost predicate Reported(w: Window, v: Window) {
    && w.unseated <= v.unseated
    && forall p: CellPos :: w.At(p).Some? && v.At(p).Some?
         && Obstructs(w.At(p).value.material) && !Obstructs(v.At(p).value.material)
         ==> p in v.unseated[|w.unseated|..]
  }

  ghost predicate SameShape(w: Window, v: Window) {
    v.origin == w.origin && forall p: CellPos :: v.At(p).Some? == w.At(p).Some?
  }

  // No cell tagged by a body, before or after, and no cell out of reach is touched.
  ghost predicate Confined(w: Window, v: Window, center: CellPos, reach: nat) {
    forall p: CellPos :: w.Tagged(p) || v.Tagged(p) || !Near(center, p, reach) ==> v.At(p) == w.At(p)
  }

  ghost predicate SameMatter(w: Window, v: Window) {
    forall m: Matter :: Tally(v, m) == Tally(w, m)
  }

  // An impulse of the movement pass is a strike at a cell of the body it names.
  predicate Names(w: Window, i: BodyImpulse) {
    i.Strike? && i.mass > 0 && w.At(i.bodyCell).Some? && w.At(i.bodyCell).value.motion == Motion.Body(i.id)
  }

  ghost predicate Impelled(w: Window, v: Window) {
    w.impulses <= v.impulses && forall i | i in v.impulses[|w.impulses|..] :: Names(w, i)
  }

  lemma ImpelledTransitive(a: Window, b: Window, c: Window)
    requires forall p: CellPos | b.Tagged(p) :: b.At(p) == a.At(p)
    requires Impelled(a, b) && Impelled(b, c)
    ensures Impelled(a, c)
  {
    forall i | i in c.impulses[|a.impulses|..]
      ensures Names(a, i)
    {
      var k :| |a.impulses| <= k < |c.impulses| && c.impulses[k] == i;
      if k < |b.impulses| {
        assert b.impulses[k] == c.impulses[k] && i in b.impulses[|a.impulses|..];
      } else {
        assert i in c.impulses[|b.impulses|..];
        assert Names(b, i) && b.Tagged(i.bodyCell);
      }
    }
  }

  lemma {:induction false} WakeKeepsImpulses(w: Window, pos: CellPos, k: nat)
    requires k <= 9 && forall j | 0 <= j < k :: w.Inside(Neighbour(pos, j))
    ensures w.WakeBorder(pos, k).impulses == w.impulses
  {
    if k > 0 {
      WakeKeepsImpulses(w, pos, k - 1);
    }
  }

  lemma SetKeepsImpulses(w: Window, pos: CellPos, cell: Cell)
    requires w.Surrounded(pos)
    ensures w.Set(pos, cell).impulses == w.impulses && Impelled(w, w.Set(pos, cell))
  {
    var put := w.Put(pos, cell).Unseat(pos, Obstructs(w.At(pos).value.material) && !Obstructs(cell.material));
    assert forall p: CellPos :: put.Inside(p) == w.Inside(p);
    WakeKeepsImpulses(put, pos, 9);
  }

  // The law of the movement pass: matter is conserved, body cells and far cells stay as
  // they are, the chunks' caches stay sound, openings are reported, and only bodies are struck.
  ghost predicate Moves(w: Window, v: Window, center: CellPos, reach: nat) {
    && SameShape(w, v) && Confined(w, v, center, reach) && SameMatter(w, v)
    && (AllSound(w) ==> AllSound(v)) && Reported(w, v) && Impelled(w, v)
  }

  lemma MovesReflexive(w: Window, center: CellPos, reach: nat)
    ensures Moves(w, w, center, reach)
  {
  }

  lemma ReportedTransitive(a: Window, b: Window, c: Window)
    requires SameShape(a, b) && SameShape(b, c) && Reported(a, b) && Reported(b, c)
    ensures Reported(a, c)
  {
    assert a.unseated <= c.unseated;
    forall p: CellPos | a.At(p).Some? && c.At(p).Some?
      && Obstructs(a.At(p).value.material) && !Obstructs(c.At(p).value.material)
      ensures p in c.unseated[|a.unseated|..]
    {
      if Obstructs(b.At(p).value.material) {
        assert p in c.unseated[|b.unseated|..];
      } else {
        var i :| |a.unseated| <= i < |b.unseated| && b.unseated[i] == p;
        assert c.unseated[i] == p;
      }
    }
  }

  lemma MovesTransitive(a: Window, b: Window, c: Window, center: CellPos, reach: nat)
    requires Moves(a, b, center, reach) && Moves(b, c, center, reach)
    ensures Moves(a, c, center, reach)
  {
    ReportedTransitive(a, b, c);
    ImpelledTransitive(a, b, c);
  }

  lemma MovesKeepsHolds(a: Window, b: Window, center: CellPos, reach: nat)
    requires SameShape(a, b)
    ensures a.Holds(center, reach) == b.Holds(center, reach)
  {
  }

  lemma MarkMoves(w: Window, pos: CellPos, center: CellPos, reach: nat)
    requires w.Inside(pos)
    ensures Moves(w, w.Mark(pos), center, reach)
  {
    MarkKeepsCells(w, pos);
    SameCellsSameAt(w, w.Mark(pos));
    forall m: Matter
      ensures Tally(w.Mark(pos), m) == Tally(w, m)
    {
      SlotTallySame(w.slots, w.Mark(pos).slots, m);
    }
    if AllSound(w) && w.slots[w.Slot(pos)].Some? {
      MarkSimKeepsSound(w.slots[w.Slot(pos)].value, pos.Offset());
    }
  }

  lemma {:induction false} WakeKeepsSound(w: Window, pos: CellPos, k: nat)
    requires k <= 9 && (forall j | 0 <= j < k :: w.Inside(Neighbour(pos, j))) && AllSound(w)
    ensures AllSound(w.WakeBorder(pos, k))
  {
    if k > 0 {
      WakeKeepsSound(w, pos, k - 1);
      MarkMoves(w.WakeBorder(pos, k - 1), Neighbour(pos, k - 1), pos, 0);
    }
  }

  lemma ReplacingKeepsSound(w: Window, v: Window, k: nat, chunk: ChunkData)
    requires AllSound(w) && Sound(chunk) && k < WINDOW_SLOTS && v.slots == w.slots[k := Some(chunk)]
    ensures AllSound(v)
  {
  }

  lemma PutKeepsAllSound(w: Window, pos: CellPos, cell: Cell, change: bool)
    requires w.At(pos).Some? && AllSound(w)
    ensures AllSound(w.Put(pos, cell).Unseat(pos, change))
  {
    var chunk := w.slots[w.Slot(pos)].value;
    Chunks.SetKeepsSound(chunk, pos.Offset(), cell);
    ReplacingKeepsSound(w, w.Put(pos, cell).Unseat(pos, change), w.Slot(pos), chunk.Set(pos.Offset(), cell));
  }

  lemma SetKeepsAllSound(w: Window, pos: CellPos, cell: Cell)
    requires w.Surrounded(pos) && AllSound(w)
    ensures AllSound(w.Set(pos, cell))
  {
    var change := Obstructs(w.At(pos).value.material) && !Obstructs(cell.material);
    PutKeepsAllSound(w, pos, cell, change);
    WakeKeepsSound(w.Put(pos, cell).Unseat(pos, change), pos, 9);
  }

  lemma SetReports(w: Window, pos: CellPos, cell: Cell)
    requires w.Surrounded(pos)
    ensures Reported(w, w.Set(pos, cell))
  {
    SetGives(w, pos, cell);
    var change := Obstructs(w.At(pos).value.material) && !Obstructs(cell.material);
    var put := w.Put(pos, cell).Unseat(pos, change);
    WakeKeepsCells(put, pos, 9);
    assert w.Set(pos, cell).unseated == if change then w.unseated + [pos] else w.unseated;
  }

  // Writing back a cell with the same matter is a move.
  lemma RewriteMoves(w: Window, pos: CellPos, cell: Cell, center: CellPos, reach: nat)
    requires w.Surrounded(pos) && Near(center, pos, reach)
    requires !w.Tagged(pos) && cell.motion.Velocity? && cell.Visible() == w.At(pos).value.Visible()
    ensures Moves(w, w.Set(pos, cell), center, reach)
  {
    SetGives(w, pos, cell);
    forall m: Matter
      ensures Tally(w.Set(pos, cell), m) == Tally(w, m)
    {
      SetTally(w, pos, cell, m);
    }
    if AllSound(w) {
      SetKeepsAllSound(w, pos, cell);
    }
    SetReports(w, pos, cell);
    SetKeepsImpulses(w, pos, cell);
  }

  lemma SwapGives(w: Window, mover: CellPos, target: CellPos)
    requires w.Surrounded(mover) && w.Surrounded(target) && mover != target
    ensures w.Swap(mover, target).At(mover) == Some(w.At(target).value.Swapped())
    ensures w.Swap(mover, target).At(target) == Some(w.At(mover).value.Swapped())
    ensures w.Swap(mover, target).origin == w.origin
    ensures forall p: CellPos | p != mover && p != target :: w.Swap(mover, target).At(p) == w.At(p)
  {
    SetGives(w, mover, w.At(target).value.Swapped());
    SetGives(w.Set(mover, w.At(target).value.Swapped()), target, w.At(mover).value.Swapped());
  }

  lemma SwapKeepsMatter(w: Window, mover: CellPos, target: CellPos)
    requires w.Surrounded(mover) && w.Surrounded(target) && mover != target
    ensures SameMatter(w, w.Swap(mover, target))
  {
    var moving, displaced := w.At(mover).value.Swapped(), w.At(target).value.Swapped();
    var half := w.Set(mover, displaced);
    SetGives(w, mover, displaced);
    forall m: Matter
      ensures Tally(w.Swap(mover, target), m) == Tally(w, m)
    {
      SetTally(w, mover, displaced, m);
      SetTally(half, target, moving, m);
    }
  }

  lemma SwapStaysWithin(w: Window, mover: CellPos, target: CellPos, center: CellPos, reach: nat)
    requires w.Surrounded(mover) && w.Surrounded(target) && mover != target
    requires Near(center, mover, reach) && Near(center, target, reach)
    requires !w.Tagged(mover) && !w.Tagged(target)
    ensures var v := w.Swap(mover, target); SameShape(w, v) && Confined(w, v, center, reach)
  {
    SwapGives(w, mover, target);
  }

  lemma SwapKeepsSound(w: Window, mover: CellPos, target: CellPos)
    requires w.Surrounded(mover) && w.Surrounded(target) && mover != target && AllSound(w)
    ensures AllSound(w.Swap(mover, target))
  {
    var displaced := w.At(target).value.Swapped();
    SetGives(w, mover, displaced);
    SetKeepsAllSound(w, mover, displaced);
    SetKeepsAllSound(w.Set(mover, displaced), target, w.At(mover).value.Swapped());
  }

  lemma SetKeepsShape(w: Window, pos: CellPos, cell: Cell)
    requires w.Surrounded(pos)
    ensures SameShape(w, w.Set(pos, cell))
  {
    SetGives(w, pos, cell);
  }

  lemma SwapReports(w: Window, mover: CellPos, target: CellPos)
    requires w.Surrounded(mover) && w.Surrounded(target) && mover != target
    ensures Reported(w, w.Swap(mover, target))
  {
    var half := w.Set(mover, w.At(target).value.Swapped());
    SetKeepsShape(w, mover, w.At(target).value.Swapped());
    SetReports(w, mover, w.At(target).value.Swapped());
    SetKeepsShape(half, target, w.At(mover).value.Swapped());
    SetReports(half, target, w.At(mover).value.Swapped());
    ReportedTransitive(w, half, w.Swap(mover, target));
  }

  // So is an exchange of two cells of which neither is a body's.
  lemma SwapMoves(w: Window, mover: CellPos, target: CellPos, center: CellPos, reach: nat)
    requires w.Surrounded(mover) && w.Surrounded(target) && mover != target
    requires Near(center, mover, reach) && Near(center, target, reach)
    requires !w.Tagged(mover) && !w.Tagged(target)
    ensures Moves(w, w.Swap(mover, target), center, reach)
  {
    SwapStaysWithin(w, mover, target, center, reach);
    SwapKeepsMatter(w, mover, target);
    if AllSound(w) {
      SwapKeepsSound(w, mover, target);
    }
    SwapReports(w, mover, target);
    SwapKeepsImpulses(w, mover, target);
  }

  lemma SwapKeepsImpulses(w: Window, mover: CellPos, target: CellPos)
    requires w.Surrounded(mover) && w.Surrounded(target) && mover != target
    ensures w.Swap(mover, target).impulses == w.impulses
  {
    SetGives(w, mover, w.At(target).value.Swapped());
    SetKeepsImpulses(w, mover, w.At(target).value.Swapped());
    SetKeepsImpulses(w.Set(mover, w.At(target).value.Swapped()), target, w.At(mover).value.Swapped());
  }

  // ------------------------------------------------------------------ the object

  class SimWindow {
    const origin: ChunkPos
    var slots: Slots
    var impulses: seq<BodyImpulse>
    var unseated: seq<CellPos>

    constructor (origin: ChunkPos, slots: Slots)
      ensures View() == Window(origin, slots, [], [])
    {
      this.origin := origin;
      this.slots := slots;
      impulses, unseated := [], [];
    }

    ghost function View(): Window
      reads this
    {
      Window(origin, slots, impulses, unseated)
    }

    method ChunkAt(sx: int, sy: int) returns (chunk: Option<ChunkData>)
      ensures chunk == View().ChunkAt(sx, sy)
    {
      chunk := if 0 <= sx < WINDOW_CHUNKS && 0 <= sy < WINDOW_CHUNKS then slots[sy * WINDOW_CHUNKS + sx] else None;
    }

    method SlotOf(pos: CellPos) returns (slot: nat)
      requires View().Inside(pos)
      ensures slot == View().Slot(pos)
    {
      var sx, sy := pos.Chunk().x - origin.x, pos.Chunk().y - origin.y;
      slot := sy * WINDOW_CHUNKS + sx;
    }

    method Get(pos: CellPos) returns (cell: Option<Cell>)
      requires View().Inside(pos)
      ensures cell == View().At(pos)
    {
      var slot := SlotOf(pos);
      cell := if slots[slot].None? then None else Some(slots[slot].value.Get(pos.Offset()));
    }

    method Mark(pos: CellPos)
      requires View().Inside(pos)
      modifies this`slots
      ensures View() == old(View()).Mark(pos)
    {
      var slot := SlotOf(pos);
      if slots[slot].Some? {
        slots := slots[slot := Some(slots[slot].value.MarkSim(pos.Offset()))];
      }
    }

    method MarkAcross(pos: CellPos, dx: int, dy: int, ghost began: Window)
      requires -1 <= dx <= 1 && -1 <= dy <= 1
      requires forall j | 0 <= j < 9 :: began.Inside(Neighbour(pos, j))
      requires View() == began.WakeBorder(pos, (dy + 1) * 3 + dx + 1)
      modifies this`slots
      ensures View() == began.WakeBorder(pos, (dy + 1) * 3 + dx + 2)
    {
      var n := pos.Translated(dx, dy);
      NeighbourAt(pos, dx, dy);
      WakeNext(began, pos, (dy + 1) * 3 + dx + 1);
      if n.Chunk() != pos.Chunk() {
        Mark(n);
      }
    }

    method MarkRow(pos: CellPos, dy: int, ghost began: Window)
      requires forall j | 0 <= j < 9 :: began.Inside(Neighbour(pos, j))
      requires -1 <= dy <= 1 && View() == began.WakeBorder(pos, (dy + 1) * 3)
      modifies this`slots
      ensures View() == began.WakeBorder(pos, (dy + 2) * 3)
    {
      for dx := -1 to 2
        invariant View() == began.WakeBorder(pos, (dy + 1) * 3 + dx + 1)
      {
        MarkAcross(pos, dx, dy, began);
      }
    }

    // Chunks next to a border cell are woken cell by cell; inner cells need nothing.
    method MarkSimBorder(pos: CellPos)
      requires View().Inside(pos) && forall j | 0 <= j < 9 :: View().Inside(Neighbour(pos, j))
      modifies this`slots
      ensures View() == old(View()).WakeBorder(pos, 9)
    {
      var off := pos.Offset();
      if off.x != 0 && off.x != 63 && off.y != 0 && off.y != 63 {
        InnerCellsWakeNobody(View(), pos);
        return;
      }
      for dy := -1 to 2
        invariant View() == old(View()).WakeBorder(pos, (dy + 1) * 3)
      {
        MarkRow(pos, dy, old(View()));
      }
    }

    method Set(pos: CellPos, cell: Cell)
      requires View().Surrounded(pos)
      modifies this`slots, this`unseated
      ensures View() == old(View()).Set(pos, cell)
    {
      var slot := SlotOf(pos);
      var chunk := slots[slot].value;
      var was := chunk.Get(pos.Offset());
      slots := slots[slot := Some(chunk.Set(pos.Offset(), cell))];
      if Obstructs(was.material) && !Obstructs(cell.material) {
        unseated := unseated + [pos];
      }
      MarkSimBorder(pos);
    }

    // Writes a material without touching whose cell it is.
    method Transform(pos: CellPos, cell: Cell)
      requires View().Surrounded(pos)
      modifies this`slots, this`unseated
      ensures View().origin == old(View()).origin && impulses == old(impulses)
      ensures var was := old(View()).At(pos).value;
        var written := if was.motion.Body? then cell.(motion := was.motion) else cell.WithoutBody();
        View().slots == old(View()).Put(pos, written).WakeBorder(pos, 9).slots
      ensures forall p: CellPos | p != pos :: View().At(p) == old(View()).At(p)
      ensures View().At(pos).Some? && View().At(pos).value.Visible() == cell.Visible()
      ensures var was, now := old(View()).At(pos).value, View().At(pos).value;
        && (was.motion.Body? ==> now.motion == was.motion)
        && (was.motion.Velocity? ==> now.motion == cell.WithoutBody().motion)
      ensures var was := old(View()).At(pos).value;
        unseated == old(unseated)
          + if was.material != cell.material
              && (Obstructs(was.material) != Obstructs(cell.material) || Bondable(was.material) || Bondable(cell.material))
            then [pos] else []
    {
      var slot := SlotOf(pos);
      var chunk := slots[slot].value;
      var was := chunk.Get(pos.Offset());
      var written := match was.motion
        case Body(id) => cell.WithBody(id)
        case Velocity(_, _) => cell.WithoutBody();
      slots := slots[slot := Some(chunk.Set(pos.Offset(), written))];
      ghost var put := View();
      assert put == old(View()).Put(pos, written);
      PutGives(old(View()), pos, written);
      MarkSimBorder(pos);
      WakeKeepsCells(put, pos, 9);
      SameCellsSameAt(put, View());
      ghost var woken := View();
      var change := was.material != cell.material
        && (Obstructs(was.material) != Obstructs(cell.material) || Bondable(was.material) || Bondable(cell.material));
      if change {
        unseated := unseated + [pos];
      }
      assert View() == woken.Unseat(pos, change);
      UnseatKeepsAt(woken, pos, change);
    }

    method Swap(mover: CellPos, target: CellPos)
      requires View().Surrounded(mover) && View().Surrounded(target)
      modifies this`slots, this`unseated
      ensures View() == old(View()).Swap(mover, target)
    {
      var moving := Get(mover);
      var displaced := Get(target);
      SetGives(View(), mover, displaced.value.Swapped());
      Set(mover, displaced.value.Swapped());
      Set(target, moving.value.Swapped());
    }

    // A body's cell that is run into takes the impulse, and the mover keeps its velocity.
    method StruckBody(mover: Cell, grain: CellPos, bodyCell: CellPos) returns (struck: bool)
      requires View().Inside(bodyCell)
      modifies this`impulses
      ensures struck == View().Tagged(bodyCell) && Impelled(old(View()), View())
      ensures !struck ==> View() == old(View())
      ensures struck ==> View() == old(View()).(impulses := old(impulses)
        + [Strike(old(View()).At(bodyCell).value.motion.id, bodyCell, grain, Heaviness(mover.material))])
    {
      var hit := Get(bodyCell);
      if hit.None? || hit.value.motion.Velocity? {
        return false;
      }
      impulses := impulses + [Strike(hit.value.motion.id, bodyCell, grain, Heaviness(mover.material))];
      struck := true;
    }
  }
}
