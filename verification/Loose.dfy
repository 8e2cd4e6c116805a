// Counting the matter no body holds: the cells of the world that are neither air nor tagged.
module Loose {
  import opened Wrappers
  import opened Materials
  import opened Cells
  import opened Coords
  import opened Chunks
  import opened Worlds

  function LooseIs(cell: Cell, m: Matter): nat {
    if cell.motion.Velocity? && !cell.IsAir() && cell.Visible() == m then 1 else 0
  }

  function LooseCount(cells: seq<Cell>, m: Matter): nat {
    if cells == [] then 0 else LooseCount(cells[..|cells| - 1], m) + LooseIs(cells[|cells| - 1], m)
  }

  function LooseChunk(chunks: ChunkMap, m: Matter): ChunkPos -> nat {
    c => if c in chunks then LooseCount(chunks[c].cells, m) else 0
  }

  // How many loose cells of the world look like m.
  ghost function LooseTally(w: World, m: Matter): nat {
    SumOver(w.chunks.Keys, LooseChunk(w.chunks, m))
  }

  function LooseAt(w: World, m: Matter): CellPos -> nat {
    p => if w.At(p).Some? then LooseIs(w.At(p).value, m) else 0
  }

  lemma {:induction false} LooseCountSet(cells: seq<Cell>, i: nat, cell: Cell, m: Matter)
    requires i < |cells|
    ensures LooseCount(cells[i := cell], m) + LooseIs(cells[i], m) == LooseCount(cells, m) + LooseIs(cell, m)
  {
    var last := |cells| - 1;
    if i == last {
      assert cells[i := cell][..last] == cells[..last];
    } else {
      assert cells[i := cell][..last] == cells[..last][i := cell];
      LooseCountSet(cells[..last], i, cell, m);
    }
  }

  lemma PutLoose(w: World, p: CellPos, cell: Cell, m: Matter)
    requires w.Loaded(p)
    ensures LooseTally(w.Put(p, cell), m) + LooseAt(w, m)(p) == LooseTally(w, m) + LooseIs(cell, m)
  {
    var v := w.Put(p, cell);
    var c := p.Chunk();
    LooseCountSet(w.chunks[c].cells, p.Offset().Index(), cell, m);
    SumSplits(w.chunks.Keys, LooseChunk(w.chunks, m), c);
    SumSplits(v.chunks.Keys, LooseChunk(v.chunks, m), c);
    SumAgrees(w.chunks.Keys - {c}, LooseChunk(w.chunks, m), LooseChunk(v.chunks, m));
    assert v.chunks.Keys == w.chunks.Keys;
  }

  lemma SameCellsSameLoose(w: World, v: World, m: Matter)
    requires v.chunks.Keys == w.chunks.Keys && forall p: CellPos :: v.At(p) == w.At(p)
    ensures LooseTally(v, m) == LooseTally(w, m)
  {
    forall c | c in w.chunks
      ensures LooseChunk(v.chunks, m)(c) == LooseChunk(w.chunks, m)(c)
    {
      assert v.chunks[c].cells == w.chunks[c].cells by {
        forall i | 0 <= i < CHUNK_AREA
          ensures v.chunks[c].cells[i] == w.chunks[c].cells[i]
        {
          var p := c.Cell(OffsetAt(i));
          assert p.Chunk() == c && p.Offset() == OffsetAt(i);
          assert v.At(p) == w.At(p);
        }
      }
    }
    SumAgrees(w.chunks.Keys, LooseChunk(w.chunks, m), LooseChunk(v.chunks, m));
  }

  // Two worlds that differ on a set of places only differ in the matter of those places.
  lemma {:induction false} OverwritingCounts(w: World, v: World, places: set<CellPos>, m: Matter)
    requires v.chunks.Keys == w.chunks.Keys && forall p: CellPos | p !in places :: v.At(p) == w.At(p)
    ensures LooseTally(v, m) + SumOver(places, LooseAt(w, m)) == LooseTally(w, m) + SumOver(places, LooseAt(v, m))
    decreases places
  {
    if places == {} {
      SameCellsSameLoose(w, v, m);
    } else {
      var p :| p in places;
      SumSplits(places, LooseAt(w, m), p);
      SumSplits(places, LooseAt(v, m), p);
      if p.Chunk() in w.chunks {
        var next := w.Put(p, v.At(p).value);
        PutGives(w, p, v.At(p).value);
        PutLoose(w, p, v.At(p).value, m);
        OverwritingCounts(next, v, places - {p}, m);
        SumAgrees(places - {p}, LooseAt(w, m), LooseAt(next, m));
      } else {
        OverwritingCounts(w, v, places - {p}, m);
      }
    }
  }

  lemma {:induction false} NothingLoose(places: set<CellPos>, f: CellPos -> nat)
    requires forall p | p in places :: f(p) == 0
    ensures SumOver(places, f) == 0
    decreases places
  {
    if places != {} {
      var p :| p in places;
      SumSplits(places, f, p);
      NothingLoose(places - {p}, f);
    }
  }

  function Places(s: seq<CellPos>): set<CellPos> {
    set p | p in s
  }

  // Sums over two lists of distinct places agree when they agree place by place.
  lemma {:induction false} MatchedSums(a: seq<CellPos>, b: seq<CellPos>, f: CellPos -> nat, g: CellPos -> nat)
    requires |a| == |b| && forall i | 0 <= i < |a| :: f(a[i]) == g(b[i])
    requires forall i, j | 0 <= i < j < |a| :: a[i] != a[j] && b[i] != b[j]
    ensures SumOver(Places(a), f) == SumOver(Places(b), g)
  {
    if a == [] {
      assert Places(a) == {} && Places(b) == {};
    } else {
      var last := |a| - 1;
      MatchedSums(a[..last], b[..last], f, g);
      assert Places(a) - {a[last]} == Places(a[..last]) && Places(b) - {b[last]} == Places(b[..last]);
      SumSplits(Places(a), f, a[last]);
      SumSplits(Places(b), g, b[last]);
    }
  }
}
