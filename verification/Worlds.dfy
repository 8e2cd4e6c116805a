// The loaded world (crates/fallingsand_sim/src/world.rs). World is its state as a value,
// with the meaning of reads and writes; CellWorld is the object the server changes.
module Worlds {
  import opened Wrappers
  import opened Materials
  import opened Cells
  import opened Coords
  import opened Chunks


  datatype World = World(chunks: ChunkMap, unseated: seq<CellPos>) {
    predicate Loaded(pos: CellPos) {
      pos.Chunk() in chunks
    }

    function At(pos: CellPos): Option<Cell> {
      if pos.Chunk() in chunks then Some(chunks[pos.Chunk()].Get(pos.Offset())) else None
    }

    predicate Tagged(pos: CellPos) {
      At(pos).Some? && At(pos).value.motion.Body?
    }

    function Put(pos: CellPos, cell: Cell): World
      requires Loaded(pos)
    {
      this.(chunks := chunks[pos.Chunk() := chunks[pos.Chunk()].Set(pos.Offset(), cell)])
    }

    function Mark(pos: CellPos): World {
      if pos.Chunk() !in chunks then this
      else this.(chunks := chunks[pos.Chunk() := chunks[pos.Chunk()].MarkSim(pos.Offset())])
    }

    // The first k neighbours marked where they lie in another chunk than pos.
    function WakeBorder(pos: CellPos, k: nat): World
      requires k <= 9
    {
      if k == 0 then this
      else
        var n := Neighbour(pos, k - 1);
        var w := WakeBorder(pos, k - 1);
        if n.Chunk() == pos.Chunk() then w else w.Mark(n)
    }

    function Unseat(pos: CellPos, change: bool): World {
      if change then this.(unseated := unseated + [pos]) else this
    }

    // Clears the moved flag; a write where no chunk is loaded is dropped.
    function Set(pos: CellPos, cell: Cell): World {
      if !Loaded(pos) then this
      else
        Put(pos, cell.ClearMoved())
          .Unseat(pos, Obstructs(At(pos).value.material) && !Obstructs(cell.material))
          .WakeBorder(pos, 9)
    }
  }

  // ---------------------------------------------------------- what Set does

  lemma PutGives(w: World, pos: CellPos, cell: Cell)
    requires w.Loaded(pos)
    ensures w.Put(pos, cell).At(pos) == Some(cell)
    ensures forall p: CellPos | p != pos :: w.Put(pos, cell).At(p) == w.At(p)
  {
    forall p: CellPos | p != pos
      ensures w.Put(pos, cell).At(p) == w.At(p)
    {
      if p.Chunk() == pos.Chunk() && p.Offset().Index() == pos.Offset().Index() {
        OffsetIndexInjective(p.Offset(), pos.Offset());
        CellDecomposition(p);
        CellDecomposition(pos);
      }
    }
  }

  // What marking leaves alone: everything but the simulation rectangles.
  ghost predicate SameCells(w: World, v: World) {
    && v.chunks.Keys == w.chunks.Keys && v.unseated == w.unseated
    && forall c | c in w.chunks :: v.chunks[c] == w.chunks[c].(sim := v.chunks[c].sim)
  }

  lemma SameCellsSameAt(w: World, v: World)
    requires SameCells(w, v)
    ensures forall p: CellPos :: v.At(p) == w.At(p)
  {
  }

  lemma {:induction false} WakeKeepsCells(w: World, pos: CellPos, k: nat)
    requires k <= 9
    ensures SameCells(w, w.WakeBorder(pos, k))
  {
    if k > 0 {
      WakeKeepsCells(w, pos, k - 1);
    }
  }

  lemma SetGives(w: World, pos: CellPos, cell: Cell)
    ensures w.Loaded(pos) ==> w.Set(pos, cell).At(pos) == Some(cell.ClearMoved())
    ensures !w.Loaded(pos) ==> w.Set(pos, cell) == w
    ensures forall p: CellPos | p != pos :: w.Set(pos, cell).At(p) == w.At(p)
    ensures w.Set(pos, cell).chunks.Keys == w.chunks.Keys
    ensures w.Loaded(pos) ==>
      w.Set(pos, cell).unseated
        == w.Unseat(pos, Obstructs(w.At(pos).value.material) && !Obstructs(cell.material)).unseated
  {
    if w.Loaded(pos) {
      var change := Obstructs(w.At(pos).value.material) && !Obstructs(cell.material);
      var put := w.Put(pos, cell.ClearMoved()).Unseat(pos, change);
      PutGives(w, pos, cell.ClearMoved());
      assert forall p: CellPos :: put.At(p) == w.Put(pos, cell.ClearMoved()).At(p);
      WakeKeepsCells(put, pos, 9);
      SameCellsSameAt(put, w.Set(pos, cell));
    }
  }

  lemma WakeNext(w: World, pos: CellPos, k: nat)
    requires k < 9
    ensures w.WakeBorder(pos, k + 1) == if Neighbour(pos, k).Chunk() == pos.Chunk() then w.WakeBorder(pos, k)
      else w.WakeBorder(pos, k).Mark(Neighbour(pos, k))
  {
  }

  lemma {:induction false} InnerWake(w: World, pos: CellPos, k: nat)
    requires k <= 9 && 0 < pos.Offset().x < 63 && 0 < pos.Offset().y < 63
    ensures w.WakeBorder(pos, k) == w
  {
    if k > 0 {
      InnerWake(w, pos, k - 1);
      assert Neighbour(pos, k - 1).Chunk() == pos.Chunk();
    }
  }

  ghost predicate AllSound(w: World) {
    forall c | c in w.chunks :: Sound(w.chunks[c])
  }

  lemma ReplacingKeepsSound(w: World, v: World, c: ChunkPos, chunk: ChunkData)
    requires AllSound(w) && Sound(chunk) && v.chunks == w.chunks[c := chunk]
    ensures AllSound(v)
  {
  }

  lemma {:induction false} WakeKeepsSound(w: World, pos: CellPos, k: nat)
    requires k <= 9 && AllSound(w)
    ensures AllSound(w.WakeBorder(pos, k))
  {
    if k > 0 {
      WakeKeepsSound(w, pos, k - 1);
      WakeNext(w, pos, k - 1);
      var before, n := w.WakeBorder(pos, k - 1), Neighbour(pos, k - 1);
      if n.Chunk() in before.chunks {
        MarkSimKeepsSound(before.chunks[n.Chunk()], n.Offset());
        ReplacingKeepsSound(before, before.Mark(n), n.Chunk(), before.chunks[n.Chunk()].MarkSim(n.Offset()));
      }
    }
  }

  lemma PutKeepsSound(w: World, pos: CellPos, cell: Cell, change: bool)
    requires w.Loaded(pos) && AllSound(w)
    ensures AllSound(w.Put(pos, cell).Unseat(pos, change))
  {
    var chunk := w.chunks[pos.Chunk()];
    Chunks.SetKeepsSound(chunk, pos.Offset(), cell);
    ReplacingKeepsSound(w, w.Put(pos, cell).Unseat(pos, change), pos.Chunk(), chunk.Set(pos.Offset(), cell));
  }

  lemma SetKeepsAllSound(w: World, pos: CellPos, cell: Cell)
    requires AllSound(w)
    ensures AllSound(w.Set(pos, cell))
  {
    if w.Loaded(pos) {
      var change := Obstructs(w.At(pos).value.material) && !Obstructs(cell.material);
      PutKeepsSound(w, pos, cell.ClearMoved(), change);
      WakeKeepsSound(w.Put(pos, cell.ClearMoved()).Unseat(pos, change), pos, 9);
    }
  }

  // --------------------------------------------------------- counting matter

  ghost function SumOver<T(!new)>(keys: set<T>, f: T -> nat): nat {
    if keys == {} then 0
    else
      var c :| c in keys;
      f(c) + SumOver(keys - {c}, f)
  }

  lemma {:induction false} SumSplits<T(!new)>(keys: set<T>, f: T -> nat, c: T)
    requires c in keys
    ensures SumOver(keys, f) == f(c) + SumOver(keys - {c}, f)
    decreases keys
  {
    var d :| d in keys && SumOver(keys, f) == f(d) + SumOver(keys - {d}, f);
    if d != c {
      SumSplits(keys - {d}, f, c);
      SumSplits(keys - {c}, f, d);
      assert keys - {d} - {c} == keys - {c} - {d};
    }
  }

  lemma {:induction false} SumAgrees<T(!new)>(keys: set<T>, f: T -> nat, g: T -> nat)
    requires forall c | c in keys :: f(c) == g(c)
    ensures SumOver(keys, f) == SumOver(keys, g)
    decreases keys
  {
    if keys != {} {
      var c :| c in keys;
      SumSplits(keys, f, c);
      SumSplits(keys, g, c);
      SumAgrees(keys - {c}, f, g);
    }
  }

  lemma {:induction false} SumUnion<T(!new)>(a: set<T>, b: set<T>, f: T -> nat)
    requires a !! b
    ensures SumOver(a + b, f) == SumOver(a, f) + SumOver(b, f)
    decreases a
  {
    if a == {} {
      assert a + b == b;
    } else {
      var c :| c in a;
      SumSplits(a, f, c);
      SumSplits(a + b, f, c);
      assert a + b - {c} == (a - {c}) + b;
      SumUnion(a - {c}, b, f);
    }
  }

  function ChunkCount(chunks: ChunkMap, m: Matter): ChunkPos -> nat {
    c => if c in chunks then CellTally(chunks[c].cells, m) else 0
  }

  // How many cells of the world look like m.
  ghost function Tally(chunks: ChunkMap, m: Matter): nat {
    SumOver(chunks.Keys, ChunkCount(chunks, m))
  }

  lemma ReplacedTally(a: ChunkMap, b: ChunkMap, c: ChunkPos, m: Matter)
    requires a.Keys == b.Keys && c in a && forall d | d in a && d != c :: CellTally(b[d].cells, m) == CellTally(a[d].cells, m)
    ensures Tally(b, m) + CellTally(a[c].cells, m) == Tally(a, m) + CellTally(b[c].cells, m)
  {
    SumSplits(a.Keys, ChunkCount(a, m), c);
    SumSplits(b.Keys, ChunkCount(b, m), c);
    SumAgrees(a.Keys - {c}, ChunkCount(a, m), ChunkCount(b, m));
  }

  lemma SetTally(w: World, pos: CellPos, cell: Cell, m: Matter)
    requires w.Loaded(pos)
    ensures Tally(w.Set(pos, cell).chunks, m) + Is(w.At(pos).value, m) == Tally(w.chunks, m) + Is(cell, m)
  {
    var c := pos.Chunk();
    var change := Obstructs(w.At(pos).value.material) && !Obstructs(cell.material);
    var put := w.Put(pos, cell.ClearMoved()).Unseat(pos, change);
    WakeKeepsCells(put, pos, 9);
    CellTallySet(w.chunks[c].cells, pos.Offset().Index(), cell.ClearMoved(), m);
    ReplacedTally(w.chunks, w.Set(pos, cell).chunks, c, m);
  }

  // ------------------------------------------------------------------ the object

  class CellWorld {
    var chunks: ChunkMap
    var tick: nat
    var unseated: seq<CellPos>

    constructor ()
      ensures chunks == map[] && tick == 0 && unseated == []
    {
      chunks, tick, unseated := map[], 0, [];
    }

    ghost function View(): World
      reads this
    {
      World(chunks, unseated)
    }

    method GetCell(pos: CellPos) returns (cell: Option<Cell>)
      ensures cell == View().At(pos)
    {
      cell := if pos.Chunk() in chunks then Some(chunks[pos.Chunk()].Get(pos.Offset())) else None;
    }

    method Set(pos: CellPos, cell: Cell)
      modifies this`chunks, this`unseated
      ensures View() == old(View()).Set(pos, cell)
    {
      var c := pos.Chunk();
      if c !in chunks {
        return;
      }
      var was := chunks[c].Get(pos.Offset());
      chunks := chunks[c := chunks[c].Set(pos.Offset(), cell.ClearMoved())];
      if Obstructs(was.material) && !Obstructs(cell.material) {
        unseated := unseated + [pos];
      }
      MarkSimBorder(pos);
    }

    method MarkAcross(pos: CellPos, dx: int, dy: int, ghost began: World)
      requires -1 <= dx <= 1 && -1 <= dy <= 1
      requires View() == began.WakeBorder(pos, (dy + 1) * 3 + dx + 1)
      modifies this`chunks
      ensures View() == began.WakeBorder(pos, (dy + 1) * 3 + dx + 2)
    {
      var n := pos.Translated(dx, dy);
      NeighbourAt(pos, dx, dy);
      WakeNext(began, pos, (dy + 1) * 3 + dx + 1);
      if n.Chunk() != pos.Chunk() && n.Chunk() in chunks {
        chunks := chunks[n.Chunk() := chunks[n.Chunk()].MarkSim(n.Offset())];
      }
    }

    method MarkRow(pos: CellPos, dy: int, ghost began: World)
      requires -1 <= dy <= 1 && View() == began.WakeBorder(pos, (dy + 1) * 3)
      modifies this`chunks
      ensures View() == began.WakeBorder(pos, (dy + 2) * 3)
    {
      for dx := -1 to 2
        invariant View() == began.WakeBorder(pos, (dy + 1) * 3 + dx + 1)
      {
        MarkAcross(pos, dx, dy, began);
      }
    }

    method MarkSimBorder(pos: CellPos)
      modifies this`chunks
      ensures View() == old(View()).WakeBorder(pos, 9)
    {
      var off := pos.Offset();
      if off.x != 0 && off.x != 63 && off.y != 0 && off.y != 63 {
        InnerWake(View(), pos, 9);
        return;
      }
      for dy := -1 to 2
        invariant View() == old(View()).WakeBorder(pos, (dy + 1) * 3)
      {
        MarkRow(pos, dy, old(View()));
      }
    }

    // Fills air, or clears to air; anything else is refused.
    method Place(pos: CellPos, material: MaterialId, shade: U8) returns (placed: bool)
      modifies this`chunks, this`unseated
      ensures placed <==> old(View()).Loaded(pos) && (material == AIR_ID || old(View()).At(pos).value.IsAir())
      ensures !placed ==> View() == old(View())
      ensures placed ==> View().At(pos) == Some(if material == AIR_ID then AIR else NewCell(material, shade))
      ensures forall p: CellPos | p != pos :: View().At(p) == old(View()).At(p)
      ensures placed ==>
        var was, cell := old(View()).At(pos).value, if material == AIR_ID then AIR else NewCell(material, shade);
        View() == old(View()).Unseat(pos, Bondable(was.material) || Bondable(material)).Set(pos, cell)
      ensures placed ==>
        var was := old(View()).At(pos).value.material;
        View().unseated == old(unseated)
          + (if Bondable(was) || Bondable(material) then [pos] else [])
          + (if Obstructs(was) && !Obstructs(material) then [pos] else [])
    {
      var was := GetCell(pos);
      if was.None? || (material != AIR_ID && !was.value.IsAir()) {
        return false;
      }
      if Bondable(was.value.material) || Bondable(material) {
        unseated := unseated + [pos];
      }
      var cell := if material == AIR_ID then AIR else NewCell(material, shade);
      ghost var noted := View();
      assert forall p: CellPos :: noted.At(p) == old(View()).At(p);
      SetGives(noted, pos, cell);
      Set(pos, cell);
      placed := true;
    }
  }
}
