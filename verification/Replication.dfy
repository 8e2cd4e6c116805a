// What the server sends a client each tick (build_tiles of
// crates/fallingsand_server/src/replication.rs), and why the client's copy follows the
// server's chunks.
module Replication {
  import opened Wrappers
  import opened Materials
  import opened Cells
  import opened Coords
  import opened Chunks
  import opened CellCodec
  import opened ClientView

  type FogMap = map<ChunkPos, FogMask>

  // ---------------------------------------------------------- what a frame is

  // The cells of a rectangle, row by row.
  ghost predicate Gathers(chunk: ChunkData, rect: DirtyRect, cells: seq<Cell>) {
    && |cells| == rect.Width() * rect.Height()
    && (forall k | 0 <= k < |cells| :: cells[k] in chunk.cells)
    && forall o: CellOffset | rect.Covers(o) ::
         0 <= RectIndex(rect, o.x, o.y) < |cells| && cells[RectIndex(rect, o.x, o.y)] == chunk.Get(o)
  }

  // A delta of the change rectangle, none when nothing changed.
  ghost predicate IsDelta(pos: ChunkPos, chunk: ChunkData, ops: seq<ChunkOp>) {
    var rect := chunk.ChangeRect();
    if rect.IsEmpty() then ops == []
    else
      && |ops| == 1 && ops[0].Delta? && ops[0].pos == pos && ops[0].rect == rect
      && exists cells :: Gathers(chunk, rect, cells) && Conveys(ops[0].cells, Looks(cells))
  }

  // The operations for one chunk of interest: all of it the first time, afterwards its fog
  // when that changed and its change rectangle.
  ghost predicate IsTile(pos: ChunkPos, chunk: ChunkData, sent: Option<FogMask>, ops: seq<ChunkOp>) {
    match sent
    case None =>
      |ops| == 1 && ops[0].Load? && ops[0].pos == pos && ops[0].fog == chunk.fog
      && Conveys(ops[0].cells, Looks(chunk.cells))
    case Some(fog) =>
      if fog == chunk.fog then IsDelta(pos, chunk, ops)
      else ops != [] && ops[0] == Fog(pos, chunk.fog) && IsDelta(pos, chunk, ops[1..])
  }

  function Sent(known: FogMap, pos: ChunkPos): Option<FogMask> {
    if pos in known then Some(known[pos]) else None
  }

  function Unloads(gone: seq<ChunkPos>): seq<ChunkOp> {
    seq(|gone|, i requires 0 <= i < |gone| => Unload(gone[i]))
  }

  function Flatten(tiles: seq<seq<ChunkOp>>): seq<ChunkOp> {
    if tiles == [] then [] else Flatten(tiles[..|tiles| - 1]) + tiles[|tiles| - 1]
  }

  // Each chunk of the set once.
  ghost predicate Enumerates(order: seq<ChunkPos>, all: set<ChunkPos>) {
    (forall p :: p in order <==> p in all) && forall i, j | 0 <= i < j < |order| :: order[i] != order[j]
  }

  ghost predicate AreTiles(chunks: ChunkMap, known: FogMap, order: seq<ChunkPos>, tiles: seq<seq<ChunkOp>>) {
    && |tiles| == |order|
    && forall i | 0 <= i < |order| :: order[i] in chunks && IsTile(order[i], chunks[order[i]], Sent(known, order[i]), tiles[i])
  }

  ghost predicate FrameOf(
    chunks: ChunkMap, known: FogMap, interest: set<ChunkPos>, ops: seq<ChunkOp>,
    gone: seq<ChunkPos>, order: seq<ChunkPos>, tiles: seq<seq<ChunkOp>>)
  {
    && Enumerates(gone, known.Keys - interest) && Enumerates(order, interest)
    && AreTiles(chunks, known, order, tiles) && ops == Unloads(gone) + Flatten(tiles)
  }

  // A frame: what left the interest is unloaded, then every chunk of interest has its tile.
  ghost predicate IsFrame(chunks: ChunkMap, known: FogMap, interest: set<ChunkPos>, ops: seq<ChunkOp>) {
    exists gone, order, tiles :: FrameOf(chunks, known, interest, ops, gone, order, tiles)
  }

  // ------------------------------------------------------------- build_tiles

  method GatherRow(chunk: ChunkData, rect: DirtyRect, y: Local) returns (row: seq<Cell>)
    requires InChunk(rect) && rect.minY <= y <= rect.maxY
    ensures |row| == rect.Width()
    ensures forall k | 0 <= k < |row| :: row[k] == chunk.Get(CellOffset(rect.minX + k, y))
  {
    row := [];
    for x := rect.minX to rect.maxX + 1
      invariant |row| == x - rect.minX && forall k | 0 <= k < |row| :: row[k] == chunk.Get(CellOffset(rect.minX + k, y))
    {
      row := row + [chunk.Get(CellOffset(x, y))];
    }
  }

  method GatherRect(chunk: ChunkData, rect: DirtyRect) returns (cells: seq<Cell>)
    requires InChunk(rect)
    ensures Gathers(chunk, rect, cells)
  {
    cells := [];
    for row := 0 to rect.Height()
      invariant |cells| == row * rect.Width() && forall k | 0 <= k < |cells| :: cells[k] in chunk.cells
      invariant forall o: CellOffset | rect.Covers(o) && o.y < rect.minY + row ::
        0 <= RectIndex(rect, o.x, o.y) < |cells| && cells[RectIndex(rect, o.x, o.y)] == chunk.Get(o)
    {
      var more := GatherRow(chunk, rect, rect.minY + row);
      RowGathered(chunk, rect, row, cells, more);
      cells := cells + more;
    }
    assert rect.Height() * rect.Width() == rect.Width() * rect.Height();
  }

  lemma RowGathered(chunk: ChunkData, rect: DirtyRect, row: nat, cells: seq<Cell>, more: seq<Cell>)
    requires InChunk(rect) && row < rect.Height() && |cells| == row * rect.Width() && |more| == rect.Width()
    requires forall k | 0 <= k < |more| :: more[k] == chunk.Get(CellOffset(rect.minX + k, rect.minY + row))
    requires forall o: CellOffset | rect.Covers(o) && o.y < rect.minY + row ::
      0 <= RectIndex(rect, o.x, o.y) < |cells| && cells[RectIndex(rect, o.x, o.y)] == chunk.Get(o)
    ensures |cells + more| == (row + 1) * rect.Width()
    ensures forall o: CellOffset | rect.Covers(o) && o.y < rect.minY + row + 1 ::
      0 <= RectIndex(rect, o.x, o.y) < |cells + more| && (cells + more)[RectIndex(rect, o.x, o.y)] == chunk.Get(o)
  {
    assert (row + 1) * rect.Width() == row * rect.Width() + rect.Width();
    forall o: CellOffset | rect.Covers(o) && o.y == rect.minY + row
      ensures 0 <= RectIndex(rect, o.x, o.y) < |cells + more| && (cells + more)[RectIndex(rect, o.x, o.y)] == chunk.Get(o)
    {
      RowGathers(chunk, rect, row, cells, more, o);
    }
  }

  lemma RowGathers(chunk: ChunkData, rect: DirtyRect, row: nat, cells: seq<Cell>, more: seq<Cell>, o: CellOffset)
    requires InChunk(rect) && row < rect.Height() && |cells| == row * rect.Width() && |more| == rect.Width()
    requires forall k | 0 <= k < |more| :: more[k] == chunk.Get(CellOffset(rect.minX + k, rect.minY + row))
    requires rect.Covers(o) && o.y == rect.minY + row
    ensures |cells| <= RectIndex(rect, o.x, o.y) < |cells + more| && (cells + more)[RectIndex(rect, o.x, o.y)] == chunk.Get(o)
  {
    var k := o.x - rect.minX;
    assert RectIndex(rect, o.x, o.y) == |cells| + k;
    assert more[k] == chunk.Get(CellOffset(rect.minX + k, rect.minY + row)) == chunk.Get(o);
  }

  method BuildTile(pos: ChunkPos, chunk: ChunkData, sent: Option<FogMask>) returns (ops: seq<ChunkOp>)
    requires chunk.ChangeRect().Proper()
    ensures IsTile(pos, chunk, sent, ops)
  {
    if sent.None? {
      var bytes := CellsToWire(chunk.cells);
      return [Load(pos, bytes, chunk.fog)];
    }
    ops := if sent.value != chunk.fog then [Fog(pos, chunk.fog)] else [];
    var rect := chunk.ChangeRect();
    if rect.IsEmpty() {
      return;
    }
    var cells := GatherRect(chunk, rect);
    var bytes := CellsToWire(cells);
    ghost var before := ops;
    ops := ops + [Delta(pos, rect, bytes)];
    assert IsDelta(pos, chunk, [Delta(pos, rect, bytes)]);
    assert ops[|before|..] == [Delta(pos, rect, bytes)];
  }

  lemma EnumeratesNext(order: seq<ChunkPos>, all: set<ChunkPos>, p: ChunkPos, more: set<ChunkPos>)
    requires Enumerates(order, all) && p !in all && more == all + {p}
    ensures Enumerates(order + [p], more)
  {
    assert p !in order;
  }

  method DropGone(known: FogMap, interest: set<ChunkPos>) returns (kept: FogMap, ops: seq<ChunkOp>, ghost gone: seq<ChunkPos>)
    ensures Enumerates(gone, known.Keys - interest) && ops == Unloads(gone)
    ensures kept == map p | p in known && p in interest :: known[p]
  {
    kept, ops, gone := known, [], [];
    var rest := known.Keys;
    while rest != {}
      invariant rest <= known.Keys && Enumerates(gone, known.Keys - rest - interest) && ops == Unloads(gone)
      invariant kept == map p | p in known && (p in interest || p in rest) :: known[p]
    {
      var p :| p in rest;
      ghost var done := known.Keys - rest - interest;
      rest := rest - {p};
      if p !in interest {
        assert known.Keys - rest - interest == done + {p};
        EnumeratesNext(gone, done, p, known.Keys - rest - interest);
        ops := ops + [Unload(p)];
        gone := gone + [p];
        kept := kept - {p};
      } else {
        assert known.Keys - rest - interest == done;
      }
    }
    assert known.Keys - {} - interest == known.Keys - interest;
  }

  // What is noted as known while the chunks of `rest` are still to be told of.
  function KnownNow(known: FogMap, chunks: ChunkMap, interest: set<ChunkPos>, rest: set<ChunkPos>): FogMap
    requires interest <= chunks.Keys
  {
    map p | p in interest && (p in rest ==> p in known) :: if p in rest then known[p] else chunks[p].fog
  }

  lemma KnownNext(known: FogMap, chunks: ChunkMap, interest: set<ChunkPos>, rest: set<ChunkPos>, pos: ChunkPos)
    requires interest <= chunks.Keys && pos in rest && rest <= interest
    ensures KnownNow(known, chunks, interest, rest)[pos := chunks[pos].fog] == KnownNow(known, chunks, interest, rest - {pos})
    ensures pos in KnownNow(known, chunks, interest, rest) <==> pos in known
    ensures pos in known ==> KnownNow(known, chunks, interest, rest)[pos] == known[pos]
  {
  }

  lemma TileAdded(
    chunks: ChunkMap, known: FogMap, order: seq<ChunkPos>, tiles: seq<seq<ChunkOp>>, pos: ChunkPos, tile: seq<ChunkOp>)
    requires AreTiles(chunks, known, order, tiles) && pos in chunks && IsTile(pos, chunks[pos], Sent(known, pos), tile)
    ensures AreTiles(chunks, known, order + [pos], tiles + [tile])
    ensures Flatten(tiles + [tile]) == Flatten(tiles) + tile
  {
    assert (tiles + [tile])[..|tiles|] == tiles;
  }

  lemma InOrder(a: seq<ChunkOp>, b: seq<ChunkOp>, c: seq<ChunkOp>)
    ensures a + (b + c) == a + b + c
  {
  }

  // The chunks not in `rest` have been told of, one tile each.
  ghost predicate Told(
    chunks: ChunkMap, known: FogMap, interest: set<ChunkPos>, rest: set<ChunkPos>, order: seq<ChunkPos>,
    tiles: seq<seq<ChunkOp>>)
  {
    rest <= interest && Enumerates(order, interest - rest) && AreTiles(chunks, known, order, tiles)
  }

  lemma TilesGoOn(
    chunks: ChunkMap, known: FogMap, interest: set<ChunkPos>, rest: set<ChunkPos>, order: seq<ChunkPos>,
    tiles: seq<seq<ChunkOp>>, unloads: seq<ChunkOp>, pos: ChunkPos, tile: seq<ChunkOp>)
    requires Told(chunks, known, interest, rest, order, tiles) && pos in rest && pos in chunks
    requires IsTile(pos, chunks[pos], Sent(known, pos), tile)
    ensures Told(chunks, known, interest, rest - {pos}, order + [pos], tiles + [tile])
    ensures unloads + Flatten(tiles + [tile]) == unloads + Flatten(tiles) + tile
  {
    TileAdded(chunks, known, order, tiles, pos, tile);
    EnumeratesNext(order, interest - rest, pos, interest - (rest - {pos}));
    InOrder(unloads, Flatten(tiles), tile);
  }

  // build_tiles: a frame, and what the client knows once it has it.
  method BuildTiles(known: FogMap, chunks: ChunkMap, interest: set<ChunkPos>)
    returns (ops: seq<ChunkOp>, known': FogMap)
    requires interest <= chunks.Keys && forall p | p in interest :: chunks[p].ChangeRect().Proper()
    ensures IsFrame(chunks, known, interest, ops)
    ensures known' == map p | p in interest :: chunks[p].fog
  {
    ghost var gone, order, tiles := [], [], [];
    known', ops, gone := DropGone(known, interest);
    ghost var unloads := ops;
    var rest := interest;
    while rest != {}
      invariant Told(chunks, known, interest, rest, order, tiles) && ops == unloads + Flatten(tiles)
      invariant known' == KnownNow(known, chunks, interest, rest)
    {
      var pos :| pos in rest;
      KnownNext(known, chunks, interest, rest, pos);
      var tile := BuildTile(pos, chunks[pos], if pos in known' then Some(known'[pos]) else None);
      TilesGoOn(chunks, known, interest, rest, order, tiles, unloads, pos, tile);
      known' := known'[pos := chunks[pos].fog];
      ops := ops + tile;
      order, tiles := order + [pos], tiles + [tile];
      rest := rest - {pos};
    }
    FrameBuilt(chunks, known, interest, ops, gone, order, tiles);
    KnownAll(known, chunks, interest);
  }

  // -------------------------------------------------------- nothing is sent in vain

  // The reason an operation is in a frame: a chunk that left the interest, one that came into it,
  // fog that changed, or cells that changed, and then no more than the rectangle of the changes.
  ghost predicate Called(chunks: ChunkMap, known: FogMap, interest: set<ChunkPos>, op: ChunkOp) {
    match op
    case Unload(p) => p in known && p !in interest
    case Load(p, _, _) => p in interest && p !in known
    case Fog(p, fog) => p in interest && p in chunks && p in known && known[p] != chunks[p].fog && fog == chunks[p].fog
    case Delta(p, rect, _) =>
      p in interest && p in chunks && p in known && rect == chunks[p].ChangeRect() && !rect.IsEmpty()
  }

  lemma TileIsCalled(chunks: ChunkMap, known: FogMap, interest: set<ChunkPos>, pos: ChunkPos, ops: seq<ChunkOp>)
    requires pos in interest && pos in chunks && IsTile(pos, chunks[pos], Sent(known, pos), ops)
    ensures forall op | op in ops :: Called(chunks, known, interest, op) && op.pos == pos
    ensures |ops| <= 2 && (forall i, j | 0 <= i < j < |ops| :: ops[i].Fog? && ops[j].Delta?)
  {
    if pos in known && known[pos] != chunks[pos].fog {
      assert ops == [ops[0]] + ops[1..];
      assert forall op | op in ops :: op == ops[0] || op in ops[1..];
    }
  }

  lemma {:induction false} TilesAreCalled(
    chunks: ChunkMap, known: FogMap, interest: set<ChunkPos>, order: seq<ChunkPos>, tiles: seq<seq<ChunkOp>>)
    requires AreTiles(chunks, known, order, tiles) && forall p | p in order :: p in interest
    ensures forall op | op in Flatten(tiles) :: Called(chunks, known, interest, op)
    decreases |tiles|
  {
    if tiles != [] {
      var last := |tiles| - 1;
      TilesAreCalled(chunks, known, interest, order[..last], tiles[..last]);
      assert order[last] in order;
      TileIsCalled(chunks, known, interest, order[last], tiles[last]);
    }
  }

  // Every operation of a frame is called for: a chunk the client knows, with the fog it was sent and
  // no changes, costs nothing.
  lemma FrameIsCalledFor(chunks: ChunkMap, known: FogMap, interest: set<ChunkPos>, ops: seq<ChunkOp>)
    requires IsFrame(chunks, known, interest, ops)
    ensures forall op | op in ops :: Called(chunks, known, interest, op)
    ensures forall p, op | p in interest && p in chunks && p in known && known[p] == chunks[p].fog
        && chunks[p].ChangeRect().IsEmpty() && op in ops :: op.pos != p
  {
    var gone, order, tiles :| FrameOf(chunks, known, interest, ops, gone, order, tiles);
    TilesAreCalled(chunks, known, interest, order, tiles);
    forall op | op in Unloads(gone)
      ensures Called(chunks, known, interest, op)
    {
      var i :| 0 <= i < |gone| && Unloads(gone)[i] == op;
      assert gone[i] in gone;
    }
  }

  lemma FrameBuilt(
    chunks: ChunkMap, known: FogMap, interest: set<ChunkPos>, ops: seq<ChunkOp>, gone: seq<ChunkPos>, order: seq<ChunkPos>,
    tiles: seq<seq<ChunkOp>>)
    requires Told(chunks, known, interest, {}, order, tiles) && Enumerates(gone, known.Keys - interest)
    requires ops == Unloads(gone) + Flatten(tiles)
    ensures IsFrame(chunks, known, interest, ops)
  {
    assert interest - {} == interest;
    assert FrameOf(chunks, known, interest, ops, gone, order, tiles);
  }

  lemma KnownAll(known: FogMap, chunks: ChunkMap, interest: set<ChunkPos>)
    requires interest <= chunks.Keys
    ensures KnownNow(known, chunks, interest, {}) == map p | p in interest :: chunks[p].fog
  {
  }

  // ---------------------------------------------------------------- the mirror

  // The client shows the chunk as it is: material and shade of every cell, and the fog.
  ghost predicate Shows(v: ViewChunk, c: ChunkData) {
    v.fog == c.fog && forall i | 0 <= i < CHUNK_AREA :: v.cells[i].Visible() == c.cells[i].Visible()
  }

  // Wherever the client is behind, the rectangle says so.
  ghost predicate Behind(v: ViewChunk, c: ChunkData, rect: DirtyRect) {
    forall i | 0 <= i < CHUNK_AREA :: v.cells[i].Visible() == c.cells[i].Visible() || rect.Covers(OffsetAt(i))
  }

  // Materials the client has in its table too.
  ghost predicate KnownMaterials(c: ChunkData) {
    forall i | 0 <= i < CHUNK_AREA :: c.cells[i].material < CONTENT.count
  }

  // The part of the chunk where the client may be behind: what changed since the last frame,
  // with the generation that begin_tick put aside once it has been called.
  function Pending(c: ChunkData, ticked: bool): DirtyRect {
    if ticked then c.ChangeRect() else c.change
  }

  // The server's chunks and one client of them; whether begin_tick was called, and whether chunks
  // were given back, since the last frame.
  datatype Session = Session(chunks: ChunkMap, known: FogMap, view: ViewMap, ticked: bool, leaving: bool)

  ghost predicate Healthy(chunks: ChunkMap) {
    forall p | p in chunks :: ProperRects(chunks[p]) && KnownMaterials(chunks[p])
  }

  ghost predicate Tracks(s: Session) {
    && s.view.Keys == s.known.Keys && Healthy(s.chunks)
    && (s.leaving || s.known.Keys <= s.chunks.Keys)
    && (forall p | p in s.known :: s.view[p].fog == s.known[p])
    && (forall p | p in s.known && p in s.chunks :: Behind(s.view[p], s.chunks[p], Pending(s.chunks[p], s.ticked)))
  }

  // Exactly the chunks of interest, each as it is.
  ghost predicate Mirrors(s: Session, interest: set<ChunkPos>) {
    s.view.Keys == interest && interest <= s.chunks.Keys && forall p | p in interest :: Shows(s.view[p], s.chunks[p])
  }

  datatype Event =
    | Touch(pos: ChunkPos, step: ChunkStep)             // a chunk is written, marked or looked at
    | Tick(rolled: set<ChunkPos>)                       // begin_tick on every chunk, rolled or not
    | Arrive(pos: ChunkPos, chunk: ChunkData)           // a region comes in
    | Leave(pos: ChunkPos)                              // a region goes
    | Frame(interest: set<ChunkPos>, ops: seq<ChunkOp>) // the session is sent a frame and applies it

  // One begin_tick between two frames. Chunks come and go in any order; only one that the client
  // still knows does not come back after chunks were given back. A server's tick takes regions in
  // before it gives any back and sends a frame after that, so it never meets this case.
  ghost predicate Enabled(s: Session, e: Event) {
    match e
    case Touch(pos, step) =>
      pos in s.chunks && !step.BeginTick? && (step.SetCell? ==> step.cell.material < CONTENT.count)
    case Tick(_) => !s.ticked
    case Arrive(pos, chunk) =>
      pos !in s.chunks && (s.leaving ==> pos !in s.known) && ProperRects(chunk) && KnownMaterials(chunk)
    case Leave(pos) => true
    case Frame(interest, ops) => interest <= s.chunks.Keys && IsFrame(s.chunks, s.known, interest, ops)
  }

  ghost function Happen(s: Session, e: Event): Session
    requires Enabled(s, e)
  {
    match e
    case Touch(pos, step) => s.(chunks := s.chunks[pos := Chunks.Step(s.chunks[pos], step)])
    case Tick(rolled) => s.(chunks := map p | p in s.chunks :: s.chunks[p].BeginTick(p in rolled), ticked := true)
    case Arrive(pos, chunk) => s.(chunks := s.chunks[pos := chunk])
    case Leave(pos) => s.(chunks := s.chunks - {pos}, leaving := true)
    case Frame(interest, ops) =>
      s.(known := map p | p in interest :: s.chunks[p].fog, view := ApplyOps(s.view, ops), ticked := false, leaving := false)
  }

  // ------------------------------------------------------- what a tile achieves

  lemma {:induction false} ApplyConcat(view: ViewMap, a: seq<ChunkOp>, b: seq<ChunkOp>)
    ensures ApplyOps(view, a + b) == ApplyOps(ApplyOps(view, a), b)
    decreases |b|
  {
    if b == [] {
      assert a + b == a;
    } else {
      assert (a + b)[..|a + b| - 1] == a + b[..|b| - 1];
      ApplyConcat(view, a, b[..|b| - 1]);
    }
  }

  lemma ApplySingle(view: ViewMap, op: ChunkOp)
    ensures ApplyOps(view, [op]) == ApplyOp(view, op)
  {
    assert [op][..0] == [];
    assert ApplyOps(view, []) == view;
  }

  lemma {:induction false} UnloadsRemove(view: ViewMap, gone: seq<ChunkPos>)
    ensures ApplyOps(view, Unloads(gone)) == view - set p | p in gone
  {
    if gone == [] {
      assert Unloads(gone) == [];
    } else {
      var last := |gone| - 1;
      UnloadsRemove(view, gone[..last]);
      assert Unloads(gone)[..last] == Unloads(gone[..last]);
      assert (set p | p in gone) == (set p | p in gone[..last]) + {gone[last]};
    }
  }

  lemma LooksOfGrid(c: ChunkData)
    requires KnownMaterials(c)
    ensures Known(Looks(c.cells)) && |Looks(c.cells)| == CHUNK_AREA
    ensures forall i | 0 <= i < CHUNK_AREA :: Shown(Looks(c.cells))[i].Visible() == c.cells[i].Visible()
  {
  }

  lemma LoadShows(view: ViewMap, pos: ChunkPos, c: ChunkData, op: ChunkOp)
    requires KnownMaterials(c) && op.Load? && op.pos == pos && op.fog == c.fog && Conveys(op.cells, Looks(c.cells))
    ensures pos in ApplyOp(view, op) && Shows(ApplyOp(view, op)[pos], c)
    ensures ApplyOp(view, op) == view[pos := ApplyOp(view, op)[pos]]
  {
    LooksOfGrid(c);
  }

  lemma GatheredAreKnown(c: ChunkData, rect: DirtyRect, cells: seq<Cell>)
    requires KnownMaterials(c) && InChunk(rect) && Gathers(c, rect, cells)
    ensures Known(Looks(cells))
  {
    forall k | 0 <= k < |cells|
      ensures Looks(cells)[k].material < CONTENT.count
    {
      assert cells[k] in c.cells;
    }
  }

  lemma DeltaShows(view: ViewMap, pos: ChunkPos, c: ChunkData, ops: seq<ChunkOp>)
    requires KnownMaterials(c) && c.ChangeRect().Proper() && IsDelta(pos, c, ops)
    requires pos in view && view[pos].fog == c.fog && Behind(view[pos], c, c.ChangeRect())
    ensures pos in ApplyOps(view, ops) && Shows(ApplyOps(view, ops)[pos], c)
    ensures ApplyOps(view, ops) == view[pos := ApplyOps(view, ops)[pos]]
  {
    var rect := c.ChangeRect();
    if rect.IsEmpty() {
      assert ApplyOps(view, ops) == view;
    } else {
      var cells :| Gathers(c, rect, cells) && Conveys(ops[0].cells, Looks(cells));
      assert ops == [ops[0]];
      ApplySingle(view, ops[0]);
      GatheredAreKnown(c, rect, cells);
      var patched := Patched(view[pos].cells, rect, Shown(Looks(cells)));
      forall i | 0 <= i < CHUNK_AREA
        ensures patched[i].Visible() == c.cells[i].Visible()
      {
        var o := OffsetAt(i);
        if rect.Covers(o) {
          RectIndexBounds(rect, o);
          assert cells[RectIndex(rect, o.x, o.y)] == c.Get(o);
        }
      }
    }
  }

  // The tile brings the chunk up to date and touches no other.
  lemma TileShows(view: ViewMap, pos: ChunkPos, c: ChunkData, sent: Option<FogMask>, ops: seq<ChunkOp>)
    requires KnownMaterials(c) && c.ChangeRect().Proper() && IsTile(pos, c, sent, ops)
    requires sent.Some? ==> pos in view && view[pos].fog == sent.value && Behind(view[pos], c, c.ChangeRect())
    ensures pos in ApplyOps(view, ops) && Shows(ApplyOps(view, ops)[pos], c)
    ensures ApplyOps(view, ops) == view[pos := ApplyOps(view, ops)[pos]]
  {
    match sent {
      case None =>
        assert ops == [ops[0]];
        ApplySingle(view, ops[0]);
        LoadShows(view, pos, c, ops[0]);
      case Some(fog) =>
        if fog == c.fog {
          DeltaShows(view, pos, c, ops);
        } else {
          assert ops == [ops[0]] + ops[1..];
          ApplyConcat(view, [ops[0]], ops[1..]);
          ApplySingle(view, ops[0]);
          DeltaShows(ApplyOp(view, ops[0]), pos, c, ops[1..]);
        }
    }
  }

  // The chunks of the list whose tiles build on what the client was sent before.
  ghost predicate Ready(s: Session, view: ViewMap, order: seq<ChunkPos>) {
    forall p | p in order :: ReadyAt(s, view, p)
  }

  ghost predicate ReadyAt(s: Session, view: ViewMap, p: ChunkPos) {
    p in s.known && p in s.chunks ==>
      p in view && view[p].fog == s.known[p] && Behind(view[p], s.chunks[p], s.chunks[p].ChangeRect())
  }

  ghost predicate Updated(s: Session, view: ViewMap, after: ViewMap, order: seq<ChunkPos>) {
    && (forall p :: p in after <==> p in view || p in order)
    && (forall p | p in order :: p in s.chunks && Shows(after[p], s.chunks[p]))
    && (forall p | p in view && p !in order :: after[p] == view[p])
  }

  lemma OneMoreUpdated(s: Session, view: ViewMap, before: ViewMap, order: seq<ChunkPos>, pos: ChunkPos, v: ViewChunk)
    requires Updated(s, view, before, order) && pos !in order && pos in s.chunks && Shows(v, s.chunks[pos])
    ensures Updated(s, view, before[pos := v], order + [pos])
  {
  }

  // The tiles one after the other.
  lemma {:induction false} TilesShow(s: Session, view: ViewMap, order: seq<ChunkPos>, tiles: seq<seq<ChunkOp>>)
    requires Healthy(s.chunks) && Ready(s, view, order)
    requires AreTiles(s.chunks, s.known, order, tiles) && forall i, j | 0 <= i < j < |order| :: order[i] != order[j]
    ensures Updated(s, view, ApplyOps(view, Flatten(tiles)), order)
    decreases |order|
  {
    if order == [] {
      assert ApplyOps(view, []) == view;
    } else {
      var last := |order| - 1;
      TilesShow(s, view, order[..last], tiles[..last]);
      LastTileShows(s, view, order, tiles);
    }
  }

  lemma LastIsNew(order: seq<ChunkPos>)
    requires order != [] && forall i, j | 0 <= i < j < |order| :: order[i] != order[j]
    ensures order == order[..|order| - 1] + [order[|order| - 1]]
    ensures order[|order| - 1] in order && order[|order| - 1] !in order[..|order| - 1]
  {
  }

  lemma LastTileShows(s: Session, view: ViewMap, order: seq<ChunkPos>, tiles: seq<seq<ChunkOp>>)
    requires Healthy(s.chunks) && Ready(s, view, order) && order != []
    requires AreTiles(s.chunks, s.known, order, tiles) && forall i, j | 0 <= i < j < |order| :: order[i] != order[j]
    requires Updated(s, view, ApplyOps(view, Flatten(tiles[..|order| - 1])), order[..|order| - 1])
    ensures Updated(s, view, ApplyOps(view, Flatten(tiles)), order)
  {
    var last := |order| - 1;
    var pos := order[last];
    var before := ApplyOps(view, Flatten(tiles[..last]));
    LastIsNew(order);
    assert ReadyAt(s, view, pos);
    assert pos in s.known ==> pos in view && before[pos] == view[pos];
    ApplyConcat(view, Flatten(tiles[..last]), tiles[last]);
    assert IsTile(pos, s.chunks[pos], Sent(s.known, pos), tiles[last]);
    TileUpdates(s, view, before, order[..last], pos, tiles[last]);
  }

  lemma TileUpdates(s: Session, view: ViewMap, before: ViewMap, order: seq<ChunkPos>, pos: ChunkPos, tile: seq<ChunkOp>)
    requires Healthy(s.chunks) && Updated(s, view, before, order) && pos !in order
    requires ReadyAt(s, view, pos)
    requires pos in s.known ==> pos in view && before[pos] == view[pos]
    requires pos in s.chunks && IsTile(pos, s.chunks[pos], Sent(s.known, pos), tile)
    ensures Updated(s, view, ApplyOps(before, tile), order + [pos])
  {
    TileShows(before, pos, s.chunks[pos], Sent(s.known, pos), tile);
    OneMoreUpdated(s, view, before, order, pos, ApplyOps(before, tile)[pos]);
  }

  // What the client keeps is ready for its tiles.
  lemma KeptIsReady(s: Session, gone: seq<ChunkPos>, order: seq<ChunkPos>, interest: set<ChunkPos>)
    requires Tracks(s) && Enumerates(gone, s.known.Keys - interest) && Enumerates(order, interest)
    requires interest <= s.chunks.Keys
    ensures Ready(s, s.view - (set p | p in gone), order)
    ensures forall p | p in s.view - (set p | p in gone) :: p in interest
  {
    forall p | p in order
      ensures ReadyAt(s, s.view - (set q | q in gone), p)
    {
      if p in s.known {
        assert p !in gone;
        PendingIsChanged(s.chunks[p], s.ticked, s.view[p]);
      }
    }
    forall p | p in s.view && p !in gone
      ensures p in interest
    {
      assert p in s.known.Keys;
      assert p in gone <==> p in s.known.Keys - interest;
    }
  }

  // After a frame the client's view is the server's.
  lemma FrameMirrors(s: Session, interest: set<ChunkPos>, ops: seq<ChunkOp>)
    requires Tracks(s) && Enabled(s, Frame(interest, ops))
    ensures Mirrors(Happen(s, Frame(interest, ops)), interest)
  {
    var gone, order, tiles :| FrameOf(s.chunks, s.known, interest, ops, gone, order, tiles);
    ApplyConcat(s.view, Unloads(gone), Flatten(tiles));
    UnloadsRemove(s.view, gone);
    KeptIsReady(s, gone, order, interest);
    TilesShow(s, s.view - (set p | p in gone), order, tiles);
  }

  lemma PendingIsChanged(c: ChunkData, ticked: bool, v: ViewChunk)
    requires ProperRects(c) && Behind(v, c, Pending(c, ticked))
    ensures Behind(v, c, c.ChangeRect())
  {
  }

  // ---------------------------------------------------------- runs of events

  lemma SetKeepsBehind(c: ChunkData, o: CellOffset, cell: Cell, v: ViewChunk, ticked: bool)
    requires ProperRects(c) && Behind(v, c, Pending(c, ticked))
    ensures Behind(v, c.Set(o, cell), Pending(c.Set(o, cell), ticked))
  {
    var d := c.Set(o, cell);
    forall i | 0 <= i < CHUNK_AREA && v.cells[i].Visible() != d.cells[i].Visible()
      ensures Pending(d, ticked).Covers(OffsetAt(i))
    {
      if i == o.Index() {
        OffsetIndexInjective(OffsetAt(i), o);
      }
      MarkingGrows(c.change, o);
      GrowingGrowsUnion(c.change, d.change, c.prevChange, OffsetAt(i));
    }
  }

  lemma SetKeepsHealth(c: ChunkData, o: CellOffset, cell: Cell)
    requires ProperRects(c) && KnownMaterials(c) && cell.material < CONTENT.count
    ensures ProperRects(c.Set(o, cell)) && KnownMaterials(c.Set(o, cell))
  {
    forall i | 0 <= i < CHUNK_AREA
      ensures c.Set(o, cell).cells[i].material < CONTENT.count
    {
      assert c.Set(o, cell).cells[i] == if i == o.Index() then cell else c.cells[i];
    }
  }

  lemma TickKeepsHealth(c: ChunkData, roll: bool)
    requires ProperRects(c) && KnownMaterials(c)
    ensures ProperRects(c.BeginTick(roll)) && KnownMaterials(c.BeginTick(roll))
  {
    forall i | 0 <= i < CHUNK_AREA
      ensures c.BeginTick(roll).cells[i].material < CONTENT.count
    {
      assert c.BeginTick(roll).cells[i].material == c.cells[i].material;
    }
  }

  lemma StepKeepsHealth(c: ChunkData, step: ChunkStep)
    requires ProperRects(c) && KnownMaterials(c) && (step.SetCell? ==> step.cell.material < CONTENT.count)
    ensures ProperRects(Chunks.Step(c, step)) && KnownMaterials(Chunks.Step(c, step))
  {
    match step {
      case SetCell(o, cell) => SetKeepsHealth(c, o, cell);
      case BeginTick(roll) => TickKeepsHealth(c, roll);
      case MarkSim(_) =>
      case Reveal(_) =>
      case RefreshSight =>
    }
  }

  lemma StepKeepsBehind(c: ChunkData, step: ChunkStep, v: ViewChunk, ticked: bool)
    requires ProperRects(c) && Behind(v, c, Pending(c, ticked)) && !step.BeginTick?
    ensures Behind(v, Chunks.Step(c, step), Pending(Chunks.Step(c, step), ticked))
  {
    match step {
      case SetCell(o, cell) => SetKeepsBehind(c, o, cell, v, ticked);
      case MarkSim(_) =>
      case Reveal(_) =>
      case RefreshSight =>
    }
  }

  // A chunk of the session replaced by one the client is no further behind on.
  lemma ReplacingKeepsTracks(s: Session, pos: ChunkPos, d: ChunkData)
    requires Tracks(s) && pos in s.chunks && ProperRects(d) && KnownMaterials(d)
    requires pos in s.known ==> Behind(s.view[pos], d, Pending(d, s.ticked))
    ensures Tracks(s.(chunks := s.chunks[pos := d]))
  {
  }

  lemma TouchKeepsTracks(s: Session, pos: ChunkPos, step: ChunkStep)
    requires Tracks(s) && Enabled(s, Touch(pos, step))
    ensures Tracks(Happen(s, Touch(pos, step)))
  {
    StepKeepsHealth(s.chunks[pos], step);
    if pos in s.known {
      StepKeepsBehind(s.chunks[pos], step, s.view[pos], s.ticked);
    }
    ReplacingKeepsTracks(s, pos, Chunks.Step(s.chunks[pos], step));
  }

  // begin_tick moves the pending changes aside, and clears nothing that is shown.
  lemma TickKeepsBehind(c: ChunkData, roll: bool, v: ViewChunk)
    requires ProperRects(c) && Behind(v, c, Pending(c, false))
    ensures Behind(v, c.BeginTick(roll), Pending(c.BeginTick(roll), true))
  {
    var d := c.BeginTick(roll);
    forall i | 0 <= i < CHUNK_AREA
      ensures d.cells[i].Visible() == c.cells[i].Visible()
    {
    }
  }

  lemma TickKeepsHealthy(chunks: map<ChunkPos, ChunkData>, rolled: set<ChunkPos>)
    requires Healthy(chunks)
    ensures Healthy(map p | p in chunks :: chunks[p].BeginTick(p in rolled))
  {
    var after := map p | p in chunks :: chunks[p].BeginTick(p in rolled);
    forall p | p in after
      ensures ProperRects(after[p]) && KnownMaterials(after[p])
    {
      assert after[p] == chunks[p].BeginTick(p in rolled);
    }
  }

  lemma TickKeepsTracks(s: Session, rolled: set<ChunkPos>)
    requires Tracks(s) && Enabled(s, Tick(rolled))
    ensures Tracks(Happen(s, Tick(rolled)))
  {
    var t := Happen(s, Tick(rolled));
    TickKeepsHealthy(s.chunks, rolled);
    forall p | p in t.known && p in t.chunks
      ensures Behind(t.view[p], t.chunks[p], Pending(t.chunks[p], true))
    {
      TickKeepsBehind(s.chunks[p], p in rolled, s.view[p]);
    }
  }

  lemma FrameKeepsTracks(s: Session, interest: set<ChunkPos>, ops: seq<ChunkOp>)
    requires Tracks(s) && Enabled(s, Frame(interest, ops))
    ensures Tracks(Happen(s, Frame(interest, ops)))
  {
    FrameMirrors(s, interest, ops);
    var t := Happen(s, Frame(interest, ops));
    forall p | p in t.known
      ensures t.view[p].fog == t.known[p] && Behind(t.view[p], t.chunks[p], Pending(t.chunks[p], false))
    {
      assert Shows(t.view[p], t.chunks[p]);
    }
  }

  lemma RegionEventKeepsTracks(s: Session, e: Event)
    requires Tracks(s) && Enabled(s, e) && (e.Arrive? || e.Leave?)
    ensures Tracks(Happen(s, e))
  {
  }

  lemma EventKeepsTracks(s: Session, e: Event)
    requires Tracks(s) && Enabled(s, e)
    ensures Tracks(Happen(s, e))
  {
    match e {
      case Touch(pos, step) => TouchKeepsTracks(s, pos, step);
      case Tick(rolled) => TickKeepsTracks(s, rolled);
      case Arrive(_, _) => RegionEventKeepsTracks(s, e);
      case Leave(_) => RegionEventKeepsTracks(s, e);
      case Frame(interest, ops) => FrameKeepsTracks(s, interest, ops);
    }
  }

  ghost predicate Runs(s: Session, events: seq<Event>)
    decreases |events|
  {
    events == [] || (Enabled(s, events[0]) && Runs(Happen(s, events[0]), events[1..]))
  }

  ghost function After(s: Session, events: seq<Event>): Session
    requires Runs(s, events)
    decreases |events|
  {
    if events == [] then s else After(Happen(s, events[0]), events[1..])
  }

  // A session that has just joined: it knows nothing and shows nothing.
  ghost predicate Fresh(s: Session) {
    s.known == map[] && s.view == map[] && Healthy(s.chunks)
  }

  lemma {:induction false} EveryRunTracks(s: Session, events: seq<Event>)
    requires Tracks(s) && Runs(s, events)
    ensures Tracks(After(s, events))
    decreases |events|
  {
    if events != [] {
      EventKeepsTracks(s, events[0]);
      EveryRunTracks(Happen(s, events[0]), events[1..]);
    }
  }

  // The client mirrors the server: in every run, each frame it applies leaves it with exactly
  // the chunks of interest, the same material and shade in every cell and the same fog.
  lemma ClientMirrorsServer(s: Session, events: seq<Event>, interest: set<ChunkPos>, ops: seq<ChunkOp>)
    requires Fresh(s) && Runs(s, events) && Enabled(After(s, events), Frame(interest, ops))
    ensures Mirrors(Happen(After(s, events), Frame(interest, ops)), interest)
  {
    EveryRunTracks(s, events);
    FrameMirrors(After(s, events), interest, ops);
  }

  // With two rolled ticks between frames a change falls out of both generations, and the
  // next frame would not carry it: one begin_tick per frame is needed.
  lemma TwoTicksLoseAChange(o: CellOffset, cell: Cell)
    requires cell.Visible() != AIR.Visible()
    ensures var c := NewChunk().Set(o, cell).BeginTick(true).BeginTick(true);
      c.ChangeRect().IsEmpty() && !Shows(ViewChunk(NewChunk().cells, NewChunk().fog), c)
  {
    var c := NewChunk().Set(o, cell).BeginTick(true).BeginTick(true);
    assert c.cells[o.Index()].Visible() == cell.Visible();
    assert NewChunk().cells[o.Index()] == AIR;
  }

  // A chunk that was changed, given back and taken in again between two frames comes back with an
  // empty change rectangle, and the next frame would not carry the change: hence the order of a tick.
  lemma ReturnLosesAChange(pos: ChunkPos, o: CellOffset, cell: Cell)
    requires cell.Visible() != AIR.Visible()
    ensures var before := NewChunk();
      var back := before.(cells := before.cells[o.Index() := cell]);
      && IsFrame(map[pos := back], map[pos := before.fog], {pos}, [])
      && !Shows(ViewChunk(before.cells, before.fog), back)
  {
    var before := NewChunk();
    var back := before.(cells := before.cells[o.Index() := cell]);
    assert IsTile(pos, back, Some(before.fog), []);
    var tiles: seq<seq<ChunkOp>> := [[]];
    assert tiles[..0] == [] && Flatten(tiles) == [] && Unloads([]) == [];
    assert FrameOf(map[pos := back], map[pos := before.fog], {pos}, [], [], [pos], tiles);
    assert before.cells[o.Index()] == AIR && back.cells[o.Index()] == cell;
  }
}
