// The schedule of the simulation kernel (crates/fallingsand_sim/src/kernel.rs): four
// phases of disjoint 4 by 4 windows, each simulating the 2 by 2 block in its middle.
module Kernel {
  import opened Wrappers
  import opened Materials
  import opened Cells
  import opened Coords
  import opened Chunks
  import opened Windows
  import opened Worlds
  import opened Motion
  import opened Courses
  import opened Travel
  import opened Fluids

  // ---------------------------------------------------------------- windows

  // The origin of the window that owns a chunk, and the phase that window runs in.
  function OriginOf(c: ChunkPos): ChunkPos {
    ChunkPos(c.x / 2 * 2 - 1, c.y / 2 * 2 - 1)
  }

  function PhaseOf(c: ChunkPos): nat {
    c.x / 2 % 2 + 2 * (c.y / 2 % 2)
  }

  predicate InBlock(origin: ChunkPos, c: ChunkPos) {
    0 <= c.x - origin.x < WINDOW_CHUNKS && 0 <= c.y - origin.y < WINDOW_CHUNKS
  }

  // The chunks a window simulates; the others are there to be reached.
  predicate Owns(origin: ChunkPos, c: ChunkPos) {
    1 <= c.x - origin.x <= 2 && 1 <= c.y - origin.y <= 2
  }

  function SlotPos(origin: ChunkPos, k: nat): ChunkPos {
    origin.Translated(k % 4, k / 4)
  }

  function SlotIndex(origin: ChunkPos, c: ChunkPos): (k: nat)
    requires InBlock(origin, c)
    ensures k < WINDOW_SLOTS && SlotPos(origin, k) == c
  {
    (c.y - origin.y) * 4 + (c.x - origin.x)
  }

  lemma SlotPosInBlock(origin: ChunkPos, k: nat)
    requires k < WINDOW_SLOTS
    ensures InBlock(origin, SlotPos(origin, k)) && SlotIndex(origin, SlotPos(origin, k)) == k
  {
  }

  // Along one axis: windows of one parity are four apart, and four wide.
  lemma AxisWindowsDisjoint(a: int, b: int, c: int)
    requires a / 2 % 2 == b / 2 % 2
    requires 0 <= c - (a / 2 * 2 - 1) < 4 && 0 <= c - (b / 2 * 2 - 1) < 4
    ensures a / 2 == b / 2
  {
    var i, j := a / 2, b / 2;
    assert i == i / 2 * 2 + i % 2 && j == j / 2 * 2 + j % 2;
    assert -4 < 2 * i - 2 * j < 4;
  }

  // Two windows of one phase share no chunk.
  lemma PhaseWindowsDisjoint(a: ChunkPos, b: ChunkPos, c: ChunkPos)
    requires PhaseOf(a) == PhaseOf(b)
    requires InBlock(OriginOf(a), c) && InBlock(OriginOf(b), c)
    ensures OriginOf(a) == OriginOf(b)
  {
    AxisWindowsDisjoint(a.x, b.x, c.x);
    AxisWindowsDisjoint(a.y, b.y, c.y);
  }

  // Over all four phases a chunk is owned by one window only, and in its own phase.
  lemma OwnerIsUnique(a: ChunkPos, c: ChunkPos)
    ensures Owns(OriginOf(a), c) <==> OriginOf(a) == OriginOf(c)
    ensures OriginOf(a) == OriginOf(c) ==> PhaseOf(a) == PhaseOf(c)
  {
  }

  function Extract(chunks: ChunkMap, origin: ChunkPos): Slots {
    seq(WINDOW_SLOTS, k requires 0 <= k < WINDOW_SLOTS =>
      if SlotPos(origin, k) in chunks then Some(chunks[SlotPos(origin, k)]) else None)
  }

  function PutBack(chunks: ChunkMap, origin: ChunkPos, slots: Slots): ChunkMap {
    map c | c in chunks ::
      if InBlock(origin, c) && slots[SlotIndex(origin, c)].Some? then slots[SlotIndex(origin, c)].value else chunks[c]
  }

  ghost predicate SamePresence(a: Slots, b: Slots) {
    forall k | 0 <= k < WINDOW_SLOTS :: a[k].Some? == b[k].Some?
  }

  lemma ExtractAfterPutBack(chunks: ChunkMap, origin: ChunkPos, slots: Slots)
    requires SamePresence(Extract(chunks, origin), slots)
    ensures Extract(PutBack(chunks, origin, slots), origin) == slots
  {
    forall k | 0 <= k < WINDOW_SLOTS
      ensures Extract(PutBack(chunks, origin, slots), origin)[k] == slots[k]
    {
      SlotPosInBlock(origin, k);
    }
  }

  ghost predicate Disjoint(a: ChunkPos, b: ChunkPos) {
    forall c: ChunkPos :: !(InBlock(a, c) && InBlock(b, c))
  }

  lemma PutBackLeavesOthers(chunks: ChunkMap, origin: ChunkPos, slots: Slots, other: ChunkPos)
    requires Disjoint(origin, other)
    ensures Extract(PutBack(chunks, origin, slots), other) == Extract(chunks, other)
  {
    forall k | 0 <= k < WINDOW_SLOTS
      ensures Extract(PutBack(chunks, origin, slots), other)[k] == Extract(chunks, other)[k]
    {
      SlotPosInBlock(other, k);
    }
  }

  // -------------------------------------------- any order gives the same world

  // What a kernel that may touch nothing but its window makes of the world's chunks.
  function RunWindow(chunks: ChunkMap, origin: ChunkPos, kernel: Window -> Window): ChunkMap {
    PutBack(chunks, origin, kernel(Window(origin, Extract(chunks, origin), [], [])).slots)
  }

  function RunWindows(chunks: ChunkMap, origins: seq<ChunkPos>, kernel: Window -> Window): ChunkMap
    decreases |origins|
  {
    if origins == [] then chunks else RunWindows(RunWindow(chunks, origins[0], kernel), origins[1..], kernel)
  }

  ghost predicate PairwiseDisjoint(origins: seq<ChunkPos>) {
    forall i, j | 0 <= i < j < |origins| :: Disjoint(origins[i], origins[j])
  }

  // Every window computed from the chunks as they were at the start of the phase.
  ghost predicate Simultaneous(before: ChunkMap, after: ChunkMap, origins: seq<ChunkPos>, kernel: Window -> Window) {
    && after.Keys == before.Keys
    && (forall i, c | 0 <= i < |origins| && c in before && InBlock(origins[i], c) ::
          after[c] == RunWindow(before, origins[i], kernel)[c])
    && (forall c | c in before && (forall i | 0 <= i < |origins| :: !InBlock(origins[i], c)) :: after[c] == before[c])
  }

  lemma RunWindowElsewhere(chunks: ChunkMap, origin: ChunkPos, other: ChunkPos, kernel: Window -> Window, c: ChunkPos)
    requires Disjoint(origin, other) && c in chunks && InBlock(other, c)
    ensures RunWindow(RunWindow(chunks, origin, kernel), other, kernel)[c] == RunWindow(chunks, other, kernel)[c]
  {
    PutBackLeavesOthers(chunks, origin, kernel(Window(origin, Extract(chunks, origin), [], [])).slots, other);
    assert !InBlock(origin, c);
  }

  // Running disjoint windows one after the other is running them at the same time.
  lemma {:induction false} RunWindowsIsSimultaneous(chunks: ChunkMap, origins: seq<ChunkPos>, kernel: Window -> Window)
    requires PairwiseDisjoint(origins)
    ensures Simultaneous(chunks, RunWindows(chunks, origins, kernel), origins, kernel)
    decreases |origins|
  {
    if origins != [] {
      var first, rest := RunWindow(chunks, origins[0], kernel), origins[1..];
      var after := RunWindows(chunks, origins, kernel);
      assert forall i | 0 <= i < |rest| :: rest[i] == origins[i + 1] && Disjoint(origins[0], rest[i]);
      RunWindowsIsSimultaneous(first, rest, kernel);
      forall i, c | 0 <= i < |origins| && c in chunks && InBlock(origins[i], c)
        ensures after[c] == RunWindow(chunks, origins[i], kernel)[c]
      {
        if i == 0 {
          assert forall j | 0 <= j < |rest| :: !InBlock(rest[j], c);
        } else {
          assert rest[i - 1] == origins[i];
          RunWindowElsewhere(chunks, origins[0], origins[i], kernel, c);
        }
      }
      forall c | c in chunks && (forall i | 0 <= i < |origins| :: !InBlock(origins[i], c))
        ensures after[c] == chunks[c]
      {
        assert !InBlock(origins[0], c);
        assert forall j | 0 <= j < |rest| :: !InBlock(rest[j], c);
      }
    }
  }

  // So the order of the windows, or running them in parallel, makes no difference.
  lemma OrderDoesNotMatter(chunks: ChunkMap, a: seq<ChunkPos>, b: seq<ChunkPos>, kernel: Window -> Window)
    requires PairwiseDisjoint(a) && PairwiseDisjoint(b)
    requires forall o :: o in a <==> o in b
    ensures RunWindows(chunks, a, kernel) == RunWindows(chunks, b, kernel)
  {
    var x, y := RunWindows(chunks, a, kernel), RunWindows(chunks, b, kernel);
    RunWindowsIsSimultaneous(chunks, a, kernel);
    RunWindowsIsSimultaneous(chunks, b, kernel);
    forall c | c in chunks
      ensures x[c] == y[c]
    {
      if i :| 0 <= i < |a| && InBlock(a[i], c) {
        assert a[i] in b;
        var j :| 0 <= j < |b| && b[j] == a[i];
      } else {
        forall j | 0 <= j < |b|
          ensures !InBlock(b[j], c)
        {
          assert b[j] in a;
        }
      }
    }
  }

  // --------------------------------------------------- the law for the whole world

  // The movement law of the windows, said of the world.
  ghost predicate WorldMoves(before: ChunkMap, after: ChunkMap) {
    && after.Keys == before.Keys
    && (forall m: Matter :: Worlds.Tally(after, m) == Worlds.Tally(before, m))
    && (forall p: CellPos :: World(before, []).Tagged(p) || World(after, []).Tagged(p) ==>
          World(after, []).At(p) == World(before, []).At(p))
    && ((forall c | c in before :: Sound(before[c])) ==> (forall c | c in after :: Sound(after[c])))
  }

  lemma WorldMovesTransitive(a: ChunkMap, b: ChunkMap, c: ChunkMap)
    requires WorldMoves(a, b) && WorldMoves(b, c)
    ensures WorldMoves(a, c)
  {
  }

  // What leaves the pass is enough for the bodies: every place where an obstacle went is among the
  // unseated, and every impulse is a strike at a cell of the body it names.
  ghost predicate Reports(before: ChunkMap, after: ChunkMap, impulses: seq<BodyImpulse>, unseated: seq<CellPos>) {
    && (forall p: CellPos :: ObstacleWent(before, after, p) ==> p in unseated)
    && forall i | i in impulses :: StrikesBody(before, i)
  }

  predicate ObstacleAt(chunks: ChunkMap, p: CellPos) {
    World(chunks, []).At(p).Some? && Obstructs(World(chunks, []).At(p).value.material)
  }

  predicate ObstacleWent(before: ChunkMap, after: ChunkMap, p: CellPos) {
    ObstacleAt(before, p) && World(after, []).At(p).Some? && !ObstacleAt(after, p)
  }

  predicate StrikesBody(chunks: ChunkMap, i: BodyImpulse) {
    && i.Strike? && i.mass > 0 && World(chunks, []).Tagged(i.bodyCell)
    && World(chunks, []).At(i.bodyCell).value.motion.id == i.id
  }

  lemma ReportsTransitive(
    a: ChunkMap, b: ChunkMap, c: ChunkMap, impulses: seq<BodyImpulse>, unseated: seq<CellPos>,
    more: seq<BodyImpulse>, freed: seq<CellPos>)
    requires WorldMoves(a, b) && WorldMoves(b, c) && Reports(a, b, impulses, unseated) && Reports(b, c, more, freed)
    ensures Reports(a, c, impulses + more, unseated + freed)
  {
    forall p: CellPos | ObstacleWent(a, c, p)
      ensures p in unseated + freed
    {
      assert World(b, []).At(p).Some?;
      if ObstacleAt(b, p) {
        assert ObstacleWent(b, c, p);
      } else {
        assert ObstacleWent(a, b, p);
      }
    }
    forall i | i in impulses + more
      ensures StrikesBody(a, i)
    {
      if i in more {
        assert StrikesBody(b, i) && World(b, []).Tagged(i.bodyCell);
      }
    }
  }

  // A window's own notes, put back, say it of the world.
  lemma WindowReports(chunks: ChunkMap, w: Window, v: Window, center: CellPos, reach: nat)
    requires w == Window(w.origin, Extract(chunks, w.origin), [], []) && Moves(w, v, center, reach)
    ensures Reports(chunks, PutBack(chunks, w.origin, v.slots), v.impulses, v.unseated)
  {
    var after := PutBack(chunks, w.origin, v.slots);
    ShapeIsPresence(w, v);
    forall p: CellPos | ObstacleWent(chunks, after, p)
      ensures p in v.unseated
    {
      ExtractShows(chunks, w.origin, p);
      PutBackShows(chunks, w.origin, v.slots, p);
      BareWindowShows(v, p);
      assert v.unseated[|w.unseated|..] == v.unseated;
    }
    forall i | i in v.impulses
      ensures StrikesBody(chunks, i)
    {
      assert v.impulses[|w.impulses|..] == v.impulses && Names(w, i);
      ExtractShows(chunks, w.origin, i.bodyCell);
    }
  }

  // The window shows what the world has.
  lemma ExtractShows(chunks: ChunkMap, origin: ChunkPos, p: CellPos)
    ensures var w := Window(origin, Extract(chunks, origin), [], []);
      w.At(p) == if InBlock(origin, p.Chunk()) then World(chunks, []).At(p) else None
  {
    if InBlock(origin, p.Chunk()) {
      var k := SlotIndex(origin, p.Chunk());
      assert SlotPos(origin, k) == p.Chunk();
    }
  }

  function FirstSlots(chunks: ChunkMap, origin: ChunkPos, n: nat): set<ChunkPos> {
    set k: nat | k < n && SlotPos(origin, k) in chunks :: SlotPos(origin, k)
  }

  // The window's tally is the world's over the chunks of its block.
  lemma {:induction false} SlotTallyIsSum(chunks: ChunkMap, origin: ChunkPos, n: nat, m: Matter)
    requires n <= WINDOW_SLOTS
    ensures SlotTally(Extract(chunks, origin)[..n], m) == SumOver(FirstSlots(chunks, origin, n), ChunkCount(chunks, m))
  {
    if n == 0 {
      assert FirstSlots(chunks, origin, 0) == {};
    } else {
      var c := SlotPos(origin, n - 1);
      SlotTallyIsSum(chunks, origin, n - 1, m);
      assert Extract(chunks, origin)[..n][..n - 1] == Extract(chunks, origin)[..n - 1];
      SlotPosInBlock(origin, n - 1);
      forall k: nat | k < n - 1
        ensures SlotPos(origin, k) != c
      {
        SlotPosInBlock(origin, k);
      }
      if c in chunks {
        assert c in FirstSlots(chunks, origin, n);
        assert FirstSlots(chunks, origin, n) - {c} == FirstSlots(chunks, origin, n - 1);
        SumSplits(FirstSlots(chunks, origin, n), ChunkCount(chunks, m), c);
      } else {
        assert FirstSlots(chunks, origin, n) == FirstSlots(chunks, origin, n - 1);
      }
    }
  }

  lemma TallySplits(chunks: ChunkMap, origin: ChunkPos, m: Matter)
    ensures Worlds.Tally(chunks, m) == SlotTally(Extract(chunks, origin), m)
      + SumOver(chunks.Keys - FirstSlots(chunks, origin, WINDOW_SLOTS), ChunkCount(chunks, m))
  {
    var block := FirstSlots(chunks, origin, WINDOW_SLOTS);
    SlotTallyIsSum(chunks, origin, WINDOW_SLOTS, m);
    assert Extract(chunks, origin)[..WINDOW_SLOTS] == Extract(chunks, origin);
    assert block + (chunks.Keys - block) == chunks.Keys;
    SumUnion(block, chunks.Keys - block, ChunkCount(chunks, m));
  }

  lemma PutBackTally(chunks: ChunkMap, origin: ChunkPos, slots: Slots, m: Matter)
    requires SamePresence(Extract(chunks, origin), slots)
    requires SlotTally(slots, m) == SlotTally(Extract(chunks, origin), m)
    ensures Worlds.Tally(PutBack(chunks, origin, slots), m) == Worlds.Tally(chunks, m)
  {
    var after := PutBack(chunks, origin, slots);
    var block := FirstSlots(chunks, origin, WINDOW_SLOTS);
    ExtractAfterPutBack(chunks, origin, slots);
    TallySplits(chunks, origin, m);
    TallySplits(after, origin, m);
    assert after.Keys == chunks.Keys && FirstSlots(after, origin, WINDOW_SLOTS) == block;
    forall c | c in chunks.Keys && InBlock(origin, c)
      ensures c in block
    {
      assert SlotPos(origin, SlotIndex(origin, c)) in block;
    }
    SumAgrees(chunks.Keys - block, ChunkCount(chunks, m), ChunkCount(after, m));
  }

  lemma ShapeIsPresence(w: Window, v: Window)
    requires SameShape(w, v)
    ensures SamePresence(w.slots, v.slots)
  {
    forall k | 0 <= k < WINDOW_SLOTS
      ensures w.slots[k].Some? == v.slots[k].Some?
    {
      SlotPosInBlock(w.origin, k);
      var p := SlotPos(w.origin, k).BaseCell();
      assert p.Chunk() == SlotPos(w.origin, k) && w.Slot(p) == k && v.Slot(p) == k;
      assert w.At(p).Some? == v.At(p).Some?;
    }
  }

  lemma PutBackShows(chunks: ChunkMap, origin: ChunkPos, slots: Slots, p: CellPos)
    requires SamePresence(Extract(chunks, origin), slots)
    ensures World(PutBack(chunks, origin, slots), []).At(p)
      == if InBlock(origin, p.Chunk()) then Window(origin, slots, [], []).At(p) else World(chunks, []).At(p)
  {
    ExtractAfterPutBack(chunks, origin, slots);
    ExtractShows(PutBack(chunks, origin, slots), origin, p);
  }

  lemma PutBackKeepsTagged(chunks: ChunkMap, w: Window, v: Window, center: CellPos, reach: nat, p: CellPos)
    requires w.slots == Extract(chunks, w.origin) && v.origin == w.origin && SamePresence(w.slots, v.slots)
    requires Confined(w, v, center, reach)
    requires World(chunks, []).Tagged(p) || World(PutBack(chunks, w.origin, v.slots), []).Tagged(p)
    ensures World(PutBack(chunks, w.origin, v.slots), []).At(p) == World(chunks, []).At(p)
  {
    PutBackShows(chunks, w.origin, v.slots, p);
    ExtractShows(chunks, w.origin, p);
    BareWindowShows(v, p);
    BareWindowShows(w, p);
    if InBlock(w.origin, p.Chunk()) {
      assert w.Tagged(p) || v.Tagged(p);
    }
  }

  lemma BareWindowShows(w: Window, p: CellPos)
    ensures Window(w.origin, w.slots, [], []).At(p) == w.At(p)
  {
  }

  // What a window does, put back, is a move of the world.
  lemma WindowMovesWorld(chunks: ChunkMap, w: Window, v: Window, center: CellPos, reach: nat)
    requires w.slots == Extract(chunks, w.origin) && Moves(w, v, center, reach)
    ensures WorldMoves(chunks, PutBack(chunks, w.origin, v.slots))
  {
    var after := PutBack(chunks, w.origin, v.slots);
    ShapeIsPresence(w, v);
    forall m: Matter
      ensures Worlds.Tally(after, m) == Worlds.Tally(chunks, m)
    {
      assert Windows.Tally(v, m) == Windows.Tally(w, m);
      PutBackTally(chunks, w.origin, v.slots, m);
    }
    forall p: CellPos | World(chunks, []).Tagged(p) || World(after, []).Tagged(p)
      ensures World(after, []).At(p) == World(chunks, []).At(p)
    {
      PutBackKeepsTagged(chunks, w, v, center, reach, p);
    }
    if forall c | c in chunks :: Sound(chunks[c]) {
      PutBackSound(chunks, w, v);
    }
  }

  lemma PutBackSound(chunks: ChunkMap, w: Window, v: Window)
    requires w.slots == Extract(chunks, w.origin) && SamePresence(w.slots, v.slots)
    requires Windows.AllSound(w) ==> Windows.AllSound(v)
    requires forall c | c in chunks :: Sound(chunks[c])
    ensures forall c | c in PutBack(chunks, w.origin, v.slots) :: Sound(PutBack(chunks, w.origin, v.slots)[c])
  {
    assert forall k | 0 <= k < WINDOW_SLOTS && w.slots[k].Some? :: w.slots[k].value == chunks[SlotPos(w.origin, k)];
  }

  // ------------------------------------------------------------- one block of cells

  // owned_chunks: the four middle chunks, where simulated and fully surrounded.
  predicate Owned(w: Window, simulate: set<ChunkPos>, ox: nat, oy: nat)
    requires ox < 2 && oy < 2
  {
    && w.origin.Translated(ox + 1, oy + 1) in simulate
    && forall sx, sy | ox <= sx <= ox + 2 && oy <= sy <= oy + 2 :: w.ChunkAt(sx, sy).Some?
  }

  // Everything within the speed of light of an owned chunk is in the window and loaded.
  lemma OwnedHasRoom(w: Window, simulate: set<ChunkPos>, ox: nat, oy: nat, pos: CellPos)
    requires ox < 2 && oy < 2 && Owned(w, simulate, ox, oy)
    requires pos.Chunk() == w.origin.Translated(ox + 1, oy + 1)
    ensures Room(w, pos)
  {
    forall p: CellPos | Near(pos, p, SPEED_OF_LIGHT)
      ensures w.At(p).Some?
    {
      var sx, sy := p.Chunk().x - w.origin.x, p.Chunk().y - w.origin.y;
      assert ox <= sx <= ox + 2 && oy <= sy <= oy + 2;
      assert w.ChunkAt(sx, sy).Some?;
    }
  }

  lemma OwnedStays(w: Window, v: Window, simulate: set<ChunkPos>, ox: nat, oy: nat)
    requires ox < 2 && oy < 2 && SameShape(w, v)
    ensures Owned(v, simulate, ox, oy) == Owned(w, simulate, ox, oy)
  {
    ShapeIsPresence(w, v);
    assert forall sx, sy :: v.ChunkAt(sx, sy).Some? == w.ChunkAt(sx, sy).Some?;
  }

  method OwnedAt(w: SimWindow, simulate: set<ChunkPos>, ox: nat, oy: nat) returns (owned: bool)
    requires ox < 2 && oy < 2
    ensures owned == Owned(w.View(), simulate, ox, oy)
  {
    if w.origin.Translated(ox + 1, oy + 1) !in simulate {
      return false;
    }
    for dy := -1 to 2
      invariant forall sx, sy | ox <= sx <= ox + 2 && oy <= sy <= oy + dy :: w.View().ChunkAt(sx, sy).Some?
    {
      for dx := -1 to 2
        invariant forall sx, sy | ox <= sx <= ox + dx && sy == oy + 1 + dy :: w.View().ChunkAt(sx, sy).Some?
      {
        var chunk := w.ChunkAt(ox + 1 + dx, oy + 1 + dy);
        if chunk.None? {
          return false;
        }
      }
    }
    owned := true;
  }

  // The rectangles a block is simulated in, by quarter: row-major, empty where not owned.
  type Rects = r: seq<DirtyRect> | |r| == 4 witness [EMPTY, EMPTY, EMPTY, EMPTY]

  function RectOf(w: Window, simulate: set<ChunkPos>, q: nat): DirtyRect
    requires q < 4
  {
    if Owned(w, simulate, q % 2, q / 2)
    then w.ChunkAt(q % 2 + 1, q / 2 + 1).value.SimRect()
    else EMPTY
  }

  ghost predicate RightRects(w: Window, simulate: set<ChunkPos>, rects: Rects) {
    forall q | 0 <= q < 4 :: rects[q] == RectOf(w, simulate, q)
  }

  // The cells of the block the pass is for, those of the awake rectangles.
  predicate Scheduled(origin: ChunkPos, rects: Rects, p: CellPos) {
    && 1 <= p.Chunk().x - origin.x <= 2 && 1 <= p.Chunk().y - origin.y <= 2
    && rects[(p.Chunk().y - origin.y - 1) * 2 + (p.Chunk().x - origin.x - 1)].Covers(p.Offset())
  }

  function BlockCell(origin: ChunkPos, gx: int, gy: int): CellPos {
    origin.Translated(1, 1).BaseCell().Translated(gx, gy)
  }

  lemma BlockCellPlace(origin: ChunkPos, ox: nat, lx: nat, gy: nat)
    requires ox < 2 && lx < 64 && gy < 128
    ensures var p := BlockCell(origin, ox * 64 + lx, gy);
      p.Chunk() == origin.Translated(ox + 1, gy / 64 + 1) && p.Offset() == CellOffset(lx, gy % 64)
  {
  }

  // A row of one quarter, in either direction: every cell of its rectangle in that row, each
  // exactly once.
  ghost predicate RowVisited(origin: ChunkPos, ox: nat, gy: nat, rect: DirtyRect, row: seq<CellPos>) {
    && (forall i, j | 0 <= i < j < |row| :: row[i] != row[j])
    && (forall p :: p in row <==> exists lx | 0 <= lx < 64 ::
          p == BlockCell(origin, ox * 64 + lx, gy) && rect.Covers(CellOffset(lx, gy % 64)))
  }

  // The row as it is taken: in one direction or the other, nothing outside the rectangle.
  function RowCells(origin: ChunkPos, ox: nat, gy: nat, rect: DirtyRect, reverse: bool): seq<CellPos> {
    if rect.IsEmpty() || gy % 64 < rect.minY || gy % 64 > rect.maxY then []
    else
      seq(rect.maxX - rect.minX + 1, i requires 0 <= i < rect.maxX - rect.minX + 1 =>
        RowCell(origin, ox, gy, rect, reverse, i))
  }

  function RowCell(origin: ChunkPos, ox: nat, gy: nat, rect: DirtyRect, reverse: bool, i: int): CellPos {
    BlockCell(origin, ox * 64 + (if reverse then rect.maxX - i else rect.minX + i), gy)
  }

  // The cells taken one after the other, each with its draws.
  ghost function AllMoved(w: Window, cells: seq<CellPos>, draws: seq<Draws>): Window
    requires |draws| == |cells|
    decreases |cells|
  {
    if cells == [] then w
    else
      var last := |cells| - 1;
      CellMoved(AllMoved(w, cells[..last], draws[..last]), cells[last], draws[last])
  }

  lemma AllMovedNext(w: Window, cells: seq<CellPos>, draws: seq<Draws>, pos: CellPos, d: Draws)
    requires |draws| == |cells|
    ensures AllMoved(w, cells + [pos], draws + [d]) == CellMoved(AllMoved(w, cells, draws), pos, d)
  {
    assert (cells + [pos])[..|cells|] == cells && (draws + [d])[..|draws|] == draws;
  }

  lemma {:induction false} AllMovedConcat(w: Window, a: seq<CellPos>, x: seq<Draws>, b: seq<CellPos>, y: seq<Draws>)
    requires |x| == |a| && |y| == |b|
    ensures AllMoved(w, a + b, x + y) == AllMoved(AllMoved(w, a, x), b, y)
    decreases |b|
  {
    if b == [] {
      assert a + b == a && x + y == x;
    } else {
      var last := |b| - 1;
      AllMovedConcat(w, a, x, b[..last], y[..last]);
      AllMovedNext(w, a + b[..last], x + y[..last], b[last], y[last]);
      assert a + b == a + b[..last] + [b[last]] && x + y == x + y[..last] + [y[last]];
    }
  }

  method SimulateRow(w: SimWindow, simulate: set<ChunkPos>, ox: nat, gy: nat, rect: DirtyRect, reverse: bool)
    returns (ghost draws: seq<Draws>)
    requires ox < 2 && gy < 128 && rect.Proper() && (!rect.IsEmpty() ==> Owned(w.View(), simulate, ox, gy / 64))
    modifies w
    ensures WindowMoves(old(w.View()), w.View())
    ensures |draws| == |RowCells(w.origin, ox, gy, rect, reverse)|
    ensures w.View() == AllMoved(old(w.View()), RowCells(w.origin, ox, gy, rect, reverse), draws)
  {
    ghost var w0, row := w.View(), RowCells(w.origin, ox, gy, rect, reverse);
    var ly := gy % 64;
    draws := [];
    WindowMovesReflexive(w0);
    if rect.IsEmpty() || ly < rect.minY || ly > rect.maxY {
      return;
    }
    draws := SimulateCells(w, simulate, ox, gy, rect, reverse, row);
  }

  method SimulateCells(
    w: SimWindow, simulate: set<ChunkPos>, ox: nat, gy: nat, rect: DirtyRect, reverse: bool, ghost row: seq<CellPos>)
    returns (ghost draws: seq<Draws>)
    requires ox < 2 && gy < 128 && rect.Proper() && !rect.IsEmpty() && Owned(w.View(), simulate, ox, gy / 64)
    requires |row| == rect.maxX - rect.minX + 1
    requires forall i | 0 <= i < |row| :: row[i] == RowCell(w.origin, ox, gy, rect, reverse, i)
    modifies w
    ensures WindowMoves(old(w.View()), w.View())
    ensures |draws| == |row| && w.View() == AllMoved(old(w.View()), row, draws)
  {
    ghost var w0 := w.View();
    var start: int, end: int := rect.minX, rect.maxX;
    draws := [];
    WindowMovesReflexive(w0);
    for i := 0 to end - start + 1
      invariant WindowMoves(w0, w.View())
      invariant |draws| == i && w.View() == AllMoved(w0, row[..i], draws)
    {
      var lx := if reverse then end - i else start + i;
      assert row[i] == RowCell(w.origin, ox, gy, rect, reverse, i);
      ghost var d := SimulateNext(w, simulate, ox, lx, gy, w0, row, i, draws);
      draws := draws + [d];
    }
    assert row[..|row|] == row;
  }

  method SimulateNext(
    w: SimWindow, simulate: set<ChunkPos>, ox: nat, lx: nat, gy: nat, ghost w0: Window, ghost row: seq<CellPos>, ghost i: nat,
    ghost draws: seq<Draws>)
    returns (ghost d: Draws)
    requires ox < 2 && lx < 64 && gy < 128 && Owned(w0, simulate, ox, gy / 64) && WindowMoves(w0, w.View())
    requires i < |row| && row[i] == BlockCell(w.origin, ox * 64 + lx, gy)
    requires |draws| == i && w.View() == AllMoved(w0, row[..i], draws)
    modifies w
    ensures WindowMoves(w0, w.View()) && w.View() == AllMoved(w0, row[..i + 1], draws + [d])
  {
    ghost var w1 := w.View();
    d := SimulateCell(w, simulate, ox, lx, gy, w0);
    RowGoesOn(w0, row, i, draws, d, w1, w.View());
  }

  lemma RowGoesOn(w0: Window, row: seq<CellPos>, i: nat, draws: seq<Draws>, d: Draws, before: Window, after: Window)
    requires i < |row| && |draws| == i && before == AllMoved(w0, row[..i], draws) && after == CellMoved(before, row[i], d)
    ensures after == AllMoved(w0, row[..i + 1], draws + [d])
  {
    AllMovedNext(w0, row[..i], draws, row[i], d);
    assert row[..i + 1] == row[..i] + [row[i]];
  }

  method SimulateCell(w: SimWindow, simulate: set<ChunkPos>, ox: nat, lx: nat, gy: nat, ghost w0: Window) returns (ghost d: Draws)
    requires ox < 2 && lx < 64 && gy < 128 && Owned(w0, simulate, ox, gy / 64) && WindowMoves(w0, w.View())
    modifies w
    ensures WindowMoves(w0, w.View())
    ensures w.View() == CellMoved(old(w.View()), BlockCell(w.origin, ox * 64 + lx, gy), d)
  {
    ghost var w1 := w.View();
    var pos := BlockCell(w.origin, ox * 64 + lx, gy);
    BlockCellPlace(w.origin, ox, lx, gy);
    OwnedStays(w0, w1, simulate, ox, gy / 64);
    OwnedHasRoom(w1, simulate, ox, gy / 64, pos);
    d := MoveCell(w, pos);
    MovesInWindow(w1, w.View(), pos);
    WindowMovesTransitive(w0, w1, w.View());
  }

  lemma RowIsWhole(origin: ChunkPos, ox: nat, gy: nat, rect: DirtyRect, reverse: bool)
    requires ox < 2 && gy < 128 && rect.Proper() && !rect.IsEmpty() && rect.minY <= gy % 64 <= rect.maxY
    ensures RowVisited(origin, ox, gy, rect, RowCells(origin, ox, gy, rect, reverse))
  {
    var row := RowCells(origin, ox, gy, rect, reverse);
    assert forall j | 0 <= j < |row| :: row[j] == RowCell(origin, ox, gy, rect, reverse, j);
    forall p
      ensures p in row <==> exists lx | 0 <= lx < 64 ::
        p == BlockCell(origin, ox * 64 + lx, gy) && rect.Covers(CellOffset(lx, gy % 64))
    {
      if p in row {
        var j :| 0 <= j < |row| && row[j] == p;
        var lx := if reverse then rect.maxX - j else rect.minX + j;
        assert rect.Covers(CellOffset(lx, gy % 64));
      }
      if lx :| 0 <= lx < 64 && p == BlockCell(origin, ox * 64 + lx, gy) && rect.Covers(CellOffset(lx, gy % 64)) {
        var j := if reverse then rect.maxX - lx else lx - rect.minX;
        assert row[j] == p;
      }
    }
  }

  // The movement law within one window, wherever in it the moves began.
  ghost predicate WindowMoves(w: Window, v: Window) {
    Moves(w, v, w.origin.BaseCell(), WINDOW_CHUNKS * 64)
  }

  lemma WindowMovesReflexive(w: Window)
    ensures WindowMoves(w, w)
  {
  }

  lemma WindowMovesTransitive(a: Window, b: Window, c: Window)
    requires WindowMoves(a, b) && WindowMoves(b, c)
    ensures WindowMoves(a, c)
  {
    MovesTransitive(a, b, c, a.origin.BaseCell(), WINDOW_CHUNKS * 64);
  }

  lemma MovesInWindow(w: Window, v: Window, center: CellPos)
    requires Moves(w, v, center, SPEED_OF_LIGHT - 1)
    ensures WindowMoves(w, v)
  {
    forall p: CellPos | !Near(w.origin.BaseCell(), p, WINDOW_CHUNKS * 64)
      ensures v.At(p) == w.At(p)
    {
      assert !w.Inside(p) && !v.Inside(p);
    }
  }

  // ------------------------------------------------------------------ the block

  method FindRects(w: SimWindow, simulate: set<ChunkPos>) returns (rects: Rects)
    ensures RightRects(w.View(), simulate, rects)
  {
    rects := [EMPTY, EMPTY, EMPTY, EMPTY];
    for q := 0 to 4
      invariant forall r | 0 <= r < q :: rects[r] == RectOf(w.View(), simulate, r)
      invariant forall r | q <= r < 4 :: rects[r] == EMPTY
    {
      var owned := OwnedAt(w, simulate, q % 2, q / 2);
      if owned {
        var chunk := w.ChunkAt(q % 2 + 1, q / 2 + 1);
        rects := rects[q := chunk.value.SimRect()];
      }
    }
  }

  lemma RectsAreProper(w: Window, simulate: set<ChunkPos>, rects: Rects)
    requires RightRects(w, simulate, rects) && Windows.AllSound(w)
    ensures AllProper(rects)
  {
    forall q | 0 <= q < 4
      ensures rects[q].Proper()
    {
      if Owned(w, simulate, q % 2, q / 2) {
        var k := (q / 2 + 1) * WINDOW_CHUNKS + q % 2 + 1;
        assert w.ChunkAt(q % 2 + 1, q / 2 + 1) == w.slots[k] && w.slots[k].Some?;
        assert ProperRects(w.slots[k].value);
      }
    }
  }

  // The cells of rows below `gy`, and of the first `done` quarters of row `gy`, in the order
  // the row takes them.
  ghost predicate Progress(origin: ChunkPos, rects: Rects, gy: nat, done: set<nat>, visited: seq<CellPos>) {
    && (forall i, j | 0 <= i < j < |visited| :: visited[i] != visited[j])
    && (forall p :: p in visited <==> Scheduled(origin, rects, p) && Reached(origin, gy, done, p))
  }

  predicate Reached(origin: ChunkPos, gy: nat, done: set<nat>, p: CellPos) {
    var y := p.y - origin.Translated(1, 1).BaseCell().y;
    y < gy || (y == gy && p.Chunk().x - origin.x - 1 in done)
  }

  predicate InQuarterRow(origin: ChunkPos, ox: nat, gy: nat, p: CellPos) {
    p.y - origin.Translated(1, 1).BaseCell().y == gy && p.Chunk().x - origin.x - 1 == ox
  }

  lemma RowAdds(origin: ChunkPos, rects: Rects, gy: nat, done: set<nat>, visited: seq<CellPos>, ox: nat, row: seq<CellPos>)
    requires gy < 128 && ox < 2 && ox !in done
    requires Progress(origin, rects, gy, done, visited)
    requires RowVisited(origin, ox, gy, rects[gy / 64 * 2 + ox], row)
    ensures Progress(origin, rects, gy, done + {ox}, visited + row)
  {
    var all := visited + row;
    forall p
      ensures p in row <==> Scheduled(origin, rects, p) && InQuarterRow(origin, ox, gy, p)
    {
      RowIsScheduled(origin, rects, gy, ox, row, p);
    }
    forall i, j | 0 <= i < j < |all|
      ensures all[i] != all[j]
    {
      if i < |visited| <= j {
        assert all[i] in visited && all[j] in row;
      }
    }
  }

  lemma RowIsScheduled(origin: ChunkPos, rects: Rects, gy: nat, ox: nat, row: seq<CellPos>, p: CellPos)
    requires gy < 128 && ox < 2 && RowVisited(origin, ox, gy, rects[gy / 64 * 2 + ox], row)
    ensures p in row <==> Scheduled(origin, rects, p) && InQuarterRow(origin, ox, gy, p)
  {
    var rect := rects[gy / 64 * 2 + ox];
    if p in row {
      var lx :| 0 <= lx < 64 && p == BlockCell(origin, ox * 64 + lx, gy) && rect.Covers(CellOffset(lx, gy % 64));
      BlockCellPlace(origin, ox, lx, gy);
    }
    if Scheduled(origin, rects, p) && InQuarterRow(origin, ox, gy, p) {
      var lx := p.Offset().x;
      assert p == BlockCell(origin, ox * 64 + lx, gy);
      BlockCellPlace(origin, ox, lx, gy);
      assert rect.Covers(CellOffset(lx, gy % 64));
    }
  }

  type Reverses = r: seq<bool> | |r| == 128 witness seq(128, _ => false)

  // The cells of the first n rows of a block in the order they are taken: row by row upwards,
  // each row in a drawn direction.
  function BlockCells(origin: ChunkPos, rects: Rects, reverses: Reverses, n: nat): seq<CellPos>
    requires n <= 128
  {
    if n == 0 then []
    else BlockCells(origin, rects, reverses, n - 1) + WholeRow(origin, rects, n - 1, reverses[n - 1])
  }

  // Both quarters of a row.
  function WholeRow(origin: ChunkPos, rects: Rects, gy: nat, reverse: bool): seq<CellPos>
    requires gy < 128
  {
    if reverse then QuarterRow(origin, rects, 1, gy, true) + QuarterRow(origin, rects, 0, gy, true)
    else QuarterRow(origin, rects, 0, gy, false) + QuarterRow(origin, rects, 1, gy, false)
  }

  ghost predicate AllProper(rects: Rects) {
    forall q | 0 <= q < 4 :: rects[q].Proper()
  }

  function QuarterRow(origin: ChunkPos, rects: Rects, ox: nat, gy: nat, reverse: bool): seq<CellPos>
    requires ox < 2 && gy < 128
  {
    RowCells(origin, ox, gy, rects[gy / 64 * 2 + ox], reverse)
  }

  lemma QuarterRowIsVisited(origin: ChunkPos, rects: Rects, ox: nat, gy: nat, reverse: bool)
    requires ox < 2 && gy < 128 && rects[gy / 64 * 2 + ox].Proper()
    ensures RowVisited(origin, ox, gy, rects[gy / 64 * 2 + ox], QuarterRow(origin, rects, ox, gy, reverse))
  {
    var rect := rects[gy / 64 * 2 + ox];
    if !rect.IsEmpty() && rect.minY <= gy % 64 <= rect.maxY {
      RowIsWhole(origin, ox, gy, rect, reverse);
    }
  }

  // Whatever the directions, every awake cell of an owned chunk is taken, once.
  lemma {:induction false} RowsProgress(origin: ChunkPos, rects: Rects, reverses: Reverses, n: nat)
    requires n <= 128 && AllProper(rects)
    ensures Progress(origin, rects, n, {}, BlockCells(origin, rects, reverses, n))
    decreases n
  {
    if n > 0 {
      RowsProgress(origin, rects, reverses, n - 1);
      RowProgress(origin, rects, BlockCells(origin, rects, reverses, n - 1), n - 1, reverses[n - 1]);
    }
  }

  lemma RowProgress(origin: ChunkPos, rects: Rects, visited: seq<CellPos>, gy: nat, reverse: bool)
    requires gy < 128 && AllProper(rects) && Progress(origin, rects, gy, {}, visited)
    ensures Progress(origin, rects, gy + 1, {}, visited + WholeRow(origin, rects, gy, reverse))
  {
    var first := if reverse then 1 else 0;
    var left, right := QuarterRow(origin, rects, first, gy, reverse), QuarterRow(origin, rects, 1 - first, gy, reverse);
    QuarterRowIsVisited(origin, rects, first, gy, reverse);
    QuarterRowIsVisited(origin, rects, 1 - first, gy, reverse);
    RowAdds(origin, rects, gy, {}, visited, first, left);
    RowAdds(origin, rects, gy, {} + {first}, visited + left, 1 - first, right);
    RowDone(origin, rects, gy, first, visited + left + right);
    PlacesGrouped(visited, left, right);
  }

  lemma PlacesGrouped(a: seq<CellPos>, b: seq<CellPos>, c: seq<CellPos>)
    ensures a + b + c == a + (b + c)
  {
  }

  lemma BlockTakesEachOnce(w: Window, simulate: set<ChunkPos>, reverses: Reverses)
    requires Windows.AllSound(w)
    ensures var cells := BlockCells(w.origin, RectsOf(w, simulate), reverses, 128);
      && (forall i, j | 0 <= i < j < |cells| :: cells[i] != cells[j])
      && (forall p :: p in cells <==> Scheduled(w.origin, RectsOf(w, simulate), p))
  {
    RectsAreProper(w, simulate, RectsOf(w, simulate));
    RowsProgress(w.origin, RectsOf(w, simulate), reverses, 128);
    BlockDone(w.origin, RectsOf(w, simulate), BlockCells(w.origin, RectsOf(w, simulate), reverses, 128));
  }

  function RectsOf(w: Window, simulate: set<ChunkPos>): Rects {
    [RectOf(w, simulate, 0), RectOf(w, simulate, 1), RectOf(w, simulate, 2), RectOf(w, simulate, 3)]
  }

  // A cell is taken exactly if its chunk is one of the four in the middle, is to be simulated and has all
  // of its neighbours loaded, and the cell is in the rectangle of what is awake there.
  lemma AwakeCellsAreTaken(w: Window, simulate: set<ChunkPos>, reverses: Reverses, p: CellPos)
    requires Windows.AllSound(w)
    ensures p in BlockCells(w.origin, RectsOf(w, simulate), reverses, 128) <==> ToBeMoved(w, simulate, p)
  {
    TakenIsScheduled(w, simulate, reverses, p);
    ScheduledIsToBeMoved(w, simulate, p);
  }

  ghost predicate ToBeMoved(w: Window, simulate: set<ChunkPos>, p: CellPos) {
    var (x, y) := (p.Chunk().x - w.origin.x, p.Chunk().y - w.origin.y);
    1 <= x <= 2 && 1 <= y <= 2 && p.Chunk() in simulate && Surrounds(w, x, y) && AwakeAt(w, x, y, p.Offset())
  }

  lemma ScheduledIsToBeMoved(w: Window, simulate: set<ChunkPos>, p: CellPos)
    ensures Scheduled(w.origin, RectsOf(w, simulate), p) <==> ToBeMoved(w, simulate, p)
  {
    var (x, y) := (p.Chunk().x - w.origin.x, p.Chunk().y - w.origin.y);
    if 1 <= x <= 2 && 1 <= y <= 2 {
      QuarterIsAwake(w, simulate, x, y, p.Offset());
      assert w.origin.Translated(x, y) == p.Chunk();
    }
  }

  lemma TakenIsScheduled(w: Window, simulate: set<ChunkPos>, reverses: Reverses, p: CellPos)
    requires Windows.AllSound(w)
    ensures p in BlockCells(w.origin, RectsOf(w, simulate), reverses, 128) <==>
      Scheduled(w.origin, RectsOf(w, simulate), p)
  {
    BlockTakesEachOnce(w, simulate, reverses);
  }

  ghost predicate Surrounds(w: Window, x: int, y: int) {
    forall sx, sy | x - 1 <= sx <= x + 1 && y - 1 <= sy <= y + 1 :: w.ChunkAt(sx, sy).Some?
  }

  predicate AwakeAt(w: Window, x: int, y: int, o: CellOffset) {
    w.ChunkAt(x, y).Some? && w.ChunkAt(x, y).value.SimRect().Covers(o)
  }

  lemma QuarterIsAwake(w: Window, simulate: set<ChunkPos>, x: nat, y: nat, o: CellOffset)
    requires 1 <= x <= 2 && 1 <= y <= 2
    ensures RectsOf(w, simulate)[(y - 1) * 2 + (x - 1)].Covers(o) <==>
      w.origin.Translated(x, y) in simulate && Surrounds(w, x, y) && AwakeAt(w, x, y, o)
  {
    var q := (y - 1) * 2 + (x - 1);
    assert q % 2 == x - 1 && q / 2 == y - 1;
    assert RectsOf(w, simulate)[q] == RectOf(w, simulate, q);
    assert Owned(w, simulate, x - 1, y - 1) <==> w.origin.Translated(x, y) in simulate && Surrounds(w, x, y);
  }

  lemma RightRectsAre(w: Window, simulate: set<ChunkPos>, rects: Rects)
    requires RightRects(w, simulate, rects)
    ensures rects == RectsOf(w, simulate)
  {
    assert forall q | 0 <= q < 4 :: rects[q] == RectsOf(w, simulate)[q];
  }

  // What is drawn for one block: the directions of its rows, and the draws of its cells in the
  // order they are taken.
  datatype BlockOracle = BlockOracle(reverses: Reverses, draws: seq<Draws>)

  ghost function BlockMoved(w: Window, simulate: set<ChunkPos>, o: BlockOracle): Window {
    var cells := BlockCells(w.origin, RectsOf(w, simulate), o.reverses, 128);
    if |o.draws| == |cells| then AllMoved(w, cells, o.draws) else w
  }

  // The movement pass over one block.
  method SimulateBlock(w: SimWindow, simulate: set<ChunkPos>) returns (ghost o: BlockOracle)
    requires Windows.AllSound(w.View())
    modifies w
    ensures WindowMoves(old(w.View()), w.View())
    ensures w.View() == BlockMoved(old(w.View()), simulate, o)
  {
    ghost var w0 := w.View();
    var rects := FindRects(w, simulate);
    RightRectsAre(w0, simulate, rects);
    RectsAreProper(w0, simulate, rects);
    ghost var draws, reverses: Reverses := [], seq(128, _ => false);
    WindowMovesReflexive(w0);
    for gy := 0 to 128
      invariant WindowMoves(w0, w.View()) && |draws| == |BlockCells(w.origin, rects, reverses, gy)|
      invariant w.View() == AllMoved(w0, BlockCells(w.origin, rects, reverses, gy), draws)
    {
      var reverse: bool := *;
      ghost var cells := BlockCells(w.origin, rects, reverses, gy);
      LaterRowsDoNotMatter(w.origin, rects, reverses, gy, reverse);
      reverses := reverses[gy := reverse];
      ghost var more := SimulateWholeRow(w, simulate, rects, gy, reverse, w0);
      AllMovedConcat(w0, cells, draws, WholeRow(w.origin, rects, gy, reverse), more);
      draws := draws + more;
    }
    o := BlockOracle(reverses, draws);
  }

  lemma {:induction false} EarlierRowsAgree(origin: ChunkPos, rects: Rects, a: Reverses, b: Reverses, n: nat)
    requires n <= 128 && forall i | 0 <= i < n :: a[i] == b[i]
    ensures BlockCells(origin, rects, a, n) == BlockCells(origin, rects, b, n)
    decreases n
  {
    if n > 0 {
      EarlierRowsAgree(origin, rects, a, b, n - 1);
      SameRowsAdd(origin, rects, a, b, n - 1);
    }
  }

  lemma SameRowsAdd(origin: ChunkPos, rects: Rects, a: Reverses, b: Reverses, n: nat)
    requires n < 128 && a[n] == b[n] && BlockCells(origin, rects, a, n) == BlockCells(origin, rects, b, n)
    ensures BlockCells(origin, rects, a, n + 1) == BlockCells(origin, rects, b, n + 1)
  {
  }

  lemma LaterRowsDoNotMatter(origin: ChunkPos, rects: Rects, reverses: Reverses, gy: nat, reverse: bool)
    requires gy < 128
    ensures BlockCells(origin, rects, reverses[gy := reverse], gy) == BlockCells(origin, rects, reverses, gy)
  {
    EarlierRowsAgree(origin, rects, reverses[gy := reverse], reverses, gy);
  }

  method SimulateWholeRow(w: SimWindow, simulate: set<ChunkPos>, rects: Rects, gy: nat, reverse: bool, ghost w0: Window)
    returns (ghost draws: seq<Draws>)
    requires gy < 128 && RightRects(w0, simulate, rects) && AllProper(rects) && WindowMoves(w0, w.View())
    modifies w
    ensures WindowMoves(w0, w.View())
    ensures |draws| == |WholeRow(w.origin, rects, gy, reverse)|
    ensures w.View() == AllMoved(old(w.View()), WholeRow(w.origin, rects, gy, reverse), draws)
  {
    var first := if reverse then 1 else 0;
    ghost var w1 := w.View();
    ghost var x := SimulateQuarterRow(w, simulate, rects, first, gy, reverse, w0);
    ghost var y := SimulateQuarterRow(w, simulate, rects, 1 - first, gy, reverse, w0);
    ghost var left, right := QuarterRow(w.origin, rects, first, gy, reverse), QuarterRow(w.origin, rects, 1 - first, gy, reverse);
    AllMovedConcat(w1, left, x, right, y);
    assert WholeRow(w.origin, rects, gy, reverse) == left + right;
    draws := x + y;
  }

  lemma RowDone(origin: ChunkPos, rects: Rects, gy: nat, first: nat, visited: seq<CellPos>)
    requires first < 2 && Progress(origin, rects, gy, {} + {first} + {1 - first}, visited)
    ensures Progress(origin, rects, gy + 1, {}, visited)
  {
  }

  lemma BlockDone(origin: ChunkPos, rects: Rects, visited: seq<CellPos>)
    requires Progress(origin, rects, 128, {}, visited)
    ensures forall p :: p in visited <==> Scheduled(origin, rects, p)
  {
  }

  method SimulateQuarterRow(
    w: SimWindow, simulate: set<ChunkPos>, rects: Rects, ox: nat, gy: nat, reverse: bool, ghost w0: Window)
    returns (ghost draws: seq<Draws>)
    requires ox < 2 && gy < 128 && RightRects(w0, simulate, rects) && AllProper(rects) && WindowMoves(w0, w.View())
    modifies w
    ensures WindowMoves(w0, w.View())
    ensures |draws| == |QuarterRow(w.origin, rects, ox, gy, reverse)|
    ensures w.View() == AllMoved(old(w.View()), QuarterRow(w.origin, rects, ox, gy, reverse), draws)
  {
    ghost var w1 := w.View();
    OwnedStays(w0, w1, simulate, ox, gy / 64);
    assert rects[gy / 64 * 2 + ox] == RectOf(w0, simulate, gy / 64 * 2 + ox);
    draws := SimulateRow(w, simulate, ox, gy, rects[gy / 64 * 2 + ox], reverse);
    WindowMovesTransitive(w0, w1, w.View());
  }

  // -------------------------------------------------------------------- one phase

  predicate Awake(chunks: ChunkMap, simulate: set<ChunkPos>, c: ChunkPos) {
    c in chunks && c in simulate && !chunks[c].SimRect().IsEmpty()
  }

  ghost predicate PhaseOrigins(chunks: ChunkMap, simulate: set<ChunkPos>, phase: nat, origins: seq<ChunkPos>) {
    && (forall i, j | 0 <= i < j < |origins| :: origins[i] != origins[j])
    && (forall o :: o in origins <==> exists c | c in chunks :: Awake(chunks, simulate, c) && PhaseOf(c) == phase && OriginOf(c) == o)
  }

  method FindOrigins(world: CellWorld, simulate: set<ChunkPos>, phase: nat) returns (origins: seq<ChunkPos>)
    ensures PhaseOrigins(world.chunks, simulate, phase, origins)
  {
    origins := [];
    var rest := world.chunks.Keys;
    while rest != {}
      invariant rest <= world.chunks.Keys
      invariant forall i, j | 0 <= i < j < |origins| :: origins[i] != origins[j]
      invariant forall o :: o in origins <==> exists c | c in world.chunks.Keys - rest ::
        Awake(world.chunks, simulate, c) && PhaseOf(c) == phase && OriginOf(c) == o
    {
      var c :| c in rest;
      rest := rest - {c};
      if c in simulate && !world.chunks[c].SimRect().IsEmpty() && PhaseOf(c) == phase && OriginOf(c) !in origins {
        origins := origins + [OriginOf(c)];
      }
    }
  }

  lemma PhaseOriginsDisjoint(chunks: ChunkMap, simulate: set<ChunkPos>, phase: nat, origins: seq<ChunkPos>)
    requires PhaseOrigins(chunks, simulate, phase, origins)
    ensures PairwiseDisjoint(origins)
  {
    forall i, j | 0 <= i < j < |origins|
      ensures Disjoint(origins[i], origins[j])
    {
      assert origins[i] in origins && origins[j] in origins;
      var a :| a in chunks && PhaseOf(a) == phase && OriginOf(a) == origins[i];
      var b :| b in chunks && PhaseOf(b) == phase && OriginOf(b) == origins[j];
      forall c: ChunkPos
        ensures !(InBlock(origins[i], c) && InBlock(origins[j], c))
      {
        if InBlock(origins[i], c) && InBlock(origins[j], c) {
          PhaseWindowsDisjoint(a, b, c);
        }
      }
    }
  }

  datatype Seat = Seat(index: nat, sx: nat, sy: nat)

  // Which window, and which slot of it, each chunk goes to. No chunk has two seats: the
  // later insertion of the source would take it from the first window.
  ghost predicate Seats(origins: seq<ChunkPos>, members: map<ChunkPos, Seat>) {
    && (forall i, c | 0 <= i < |origins| && InBlock(origins[i], c) ::
          c in members && members[c] == Seat(i, c.x - origins[i].x, c.y - origins[i].y))
    && (forall c | c in members :: members[c].index < |origins| && InBlock(origins[members[c].index], c))
  }

  method FindMembers(origins: seq<ChunkPos>) returns (members: map<ChunkPos, Seat>)
    requires PairwiseDisjoint(origins)
    ensures Seats(origins, members)
  {
    members := map[];
    for i := 0 to |origins|
      invariant Seats(origins[..i], members)
    {
      members := SeatWindow(origins, i, members);
    }
    assert origins[..|origins|] == origins;
  }

  // The chunks of a window's rows below sy, and of row sy left of sx, have their seats.
  ghost predicate Seating(
    o: ChunkPos, i: nat, members: map<ChunkPos, Seat>, seated: map<ChunkPos, Seat>, sy: int, sx: int)
  {
    && (forall c | c in seated && !InBlock(o, c) :: c in members && seated[c] == members[c])
    && (forall c | c in members && !InBlock(o, c) :: c in seated && seated[c] == members[c])
    && (forall c | InBlock(o, c) && (c.y - o.y < sy || (c.y - o.y == sy && c.x - o.x < sx)) ::
          c in seated && seated[c] == Seat(i, c.x - o.x, c.y - o.y))
  }

  lemma SeatNext(o: ChunkPos, i: nat, members: map<ChunkPos, Seat>, seated: map<ChunkPos, Seat>, sy: nat, sx: nat)
    requires Seating(o, i, members, seated, sy, sx) && sy < WINDOW_CHUNKS && sx < WINDOW_CHUNKS
    ensures Seating(o, i, members, seated[o.Translated(sx, sy) := Seat(i, sx, sy)], sy, sx + 1)
  {
  }

  lemma SeatRowDone(o: ChunkPos, i: nat, members: map<ChunkPos, Seat>, seated: map<ChunkPos, Seat>, sy: nat)
    requires Seating(o, i, members, seated, sy, WINDOW_CHUNKS)
    ensures Seating(o, i, members, seated, sy + 1, 0)
  {
  }

  method SeatWindow(origins: seq<ChunkPos>, i: nat, members: map<ChunkPos, Seat>) returns (seated: map<ChunkPos, Seat>)
    requires PairwiseDisjoint(origins) && i < |origins| && Seats(origins[..i], members)
    ensures Seats(origins[..i + 1], seated)
  {
    var o := origins[i];
    seated := members;
    for sy := 0 to WINDOW_CHUNKS
      invariant Seating(o, i, members, seated, sy, 0)
    {
      for sx := 0 to WINDOW_CHUNKS
        invariant Seating(o, i, members, seated, sy, sx)
      {
        SeatNext(o, i, members, seated, sy, sx);
        seated := seated[o.Translated(sx, sy) := Seat(i, sx, sy)];
      }
      SeatRowDone(o, i, members, seated, sy);
    }
    SeatsGrow(origins, i, members, seated);
  }

  lemma SeatsGrow(origins: seq<ChunkPos>, i: nat, members: map<ChunkPos, Seat>, seated: map<ChunkPos, Seat>)
    requires PairwiseDisjoint(origins) && i < |origins| && Seats(origins[..i], members)
    requires forall c | c in seated && !InBlock(origins[i], c) :: c in members && seated[c] == members[c]
    requires forall c | c in members && !InBlock(origins[i], c) :: c in seated && seated[c] == members[c]
    requires forall c | InBlock(origins[i], c) :: c in seated && seated[c] == Seat(i, c.x - origins[i].x, c.y - origins[i].y)
    ensures Seats(origins[..i + 1], seated)
  {
    var grown := origins[..i + 1];
    forall j, c | 0 <= j < |grown| && InBlock(grown[j], c)
      ensures c in seated && seated[c] == Seat(j, c.x - grown[j].x, c.y - grown[j].y)
    {
      EarlierSeats(origins, i, members, j, c);
    }
    SeatedInBlocks(origins, i, members, seated);
  }

  lemma SeatedInBlocks(origins: seq<ChunkPos>, i: nat, members: map<ChunkPos, Seat>, seated: map<ChunkPos, Seat>)
    requires i < |origins| && Seats(origins[..i], members)
    requires forall c | c in seated && !InBlock(origins[i], c) :: c in members && seated[c] == members[c]
    requires forall c | InBlock(origins[i], c) :: c in seated && seated[c].index == i
    ensures forall c | c in seated :: seated[c].index < i + 1 && InBlock(origins[..i + 1][seated[c].index], c)
  {
    forall c | c in seated
      ensures seated[c].index < i + 1 && InBlock(origins[..i + 1][seated[c].index], c)
    {
      SeatedBefore(origins, i, members, c);
    }
  }

  lemma EarlierSeats(origins: seq<ChunkPos>, i: nat, members: map<ChunkPos, Seat>, j: nat, c: ChunkPos)
    requires PairwiseDisjoint(origins) && j <= i < |origins| && Seats(origins[..i], members) && InBlock(origins[j], c)
    ensures j < i ==> !InBlock(origins[i], c) && c in members && members[c] == Seat(j, c.x - origins[j].x, c.y - origins[j].y)
  {
    if j < i {
      assert Disjoint(origins[j], origins[i]);
      assert origins[..i][j] == origins[j];
    }
  }

  lemma SeatedBefore(origins: seq<ChunkPos>, i: nat, members: map<ChunkPos, Seat>, c: ChunkPos)
    requires i < |origins| && Seats(origins[..i], members)
    ensures c in members ==> members[c].index < i && InBlock(origins[members[c].index], c)
  {
    if c in members {
      assert origins[..i][members[c].index] == origins[members[c].index];
    }
  }

  // Every chunk of the world goes to its seat.
  method FillSlots(world: CellWorld, origins: seq<ChunkPos>, members: map<ChunkPos, Seat>) returns (slots: seq<Slots>)
    requires Seats(origins, members)
    ensures |slots| == |origins| && forall i | 0 <= i < |origins| :: slots[i] == Extract(world.chunks, origins[i])
  {
    var empty: Slots := seq(WINDOW_SLOTS, _ => None);
    slots := seq(|origins|, _ => empty);
    var rest := world.chunks.Keys;
    while rest != {}
      invariant rest <= world.chunks.Keys && Filled(world.chunks, origins, world.chunks.Keys - rest, slots)
    {
      var c :| c in rest;
      ghost var before := slots;
      if c in members {
        var seat := members[c];
        slots := Placed(slots, seat, world.chunks[c]);
      }
      FilledNext(world.chunks, origins, members, world.chunks.Keys - rest, before, slots, c);
      assert world.chunks.Keys - (rest - {c}) == world.chunks.Keys - rest + {c};
      rest := rest - {c};
    }
    AllFilled(world.chunks, origins, slots);
  }

  // The slots with the chunks done so far in their places.
  ghost predicate Filled(chunks: ChunkMap, origins: seq<ChunkPos>, done: set<ChunkPos>, slots: seq<Slots>) {
    && |slots| == |origins| && done <= chunks.Keys
    && forall i, k | 0 <= i < |origins| && 0 <= k < WINDOW_SLOTS ::
      slots[i][k] == if SlotPos(origins[i], k) in done then Some(chunks[SlotPos(origins[i], k)]) else None
  }

  function Placed(slots: seq<Slots>, seat: Seat, chunk: ChunkData): seq<Slots>
    requires seat.index < |slots| && seat.sx < WINDOW_CHUNKS && seat.sy < WINDOW_CHUNKS
  {
    slots[seat.index := slots[seat.index][seat.sy * WINDOW_CHUNKS + seat.sx := Some(chunk)]]
  }

  lemma FilledNext(
    chunks: ChunkMap, origins: seq<ChunkPos>, members: map<ChunkPos, Seat>, done: set<ChunkPos>,
    before: seq<Slots>, after: seq<Slots>, c: ChunkPos)
    requires Seats(origins, members) && Filled(chunks, origins, done, before) && c in chunks
    requires after == if c in members then Placed(before, members[c], chunks[c]) else before
    ensures Filled(chunks, origins, done + {c}, after)
  {
    forall i, k | 0 <= i < |origins| && 0 <= k < WINDOW_SLOTS
      ensures after[i][k] == if SlotPos(origins[i], k) == c then Some(chunks[c]) else before[i][k]
    {
      PlacedAt(chunks, origins, members, before, after, c, i, k);
    }
  }

  lemma PlacedAt(
    chunks: ChunkMap, origins: seq<ChunkPos>, members: map<ChunkPos, Seat>,
    before: seq<Slots>, after: seq<Slots>, c: ChunkPos, i: nat, k: nat)
    requires Seats(origins, members) && |before| == |origins| && c in chunks && i < |origins| && k < WINDOW_SLOTS
    requires after == if c in members then Placed(before, members[c], chunks[c]) else before
    ensures |after| == |origins|
    ensures after[i][k] == if SlotPos(origins[i], k) == c then Some(chunks[c]) else before[i][k]
  {
    SlotPosInBlock(origins[i], k);
  }

  lemma AllFilled(chunks: ChunkMap, origins: seq<ChunkPos>, slots: seq<Slots>)
    requires Filled(chunks, origins, chunks.Keys, slots)
    ensures forall i | 0 <= i < |origins| :: slots[i] == Extract(chunks, origins[i])
  {
  }

  // The kernel of a phase: what each of its windows becomes, by what is drawn for it.
  ghost function PhaseKernel(simulate: set<ChunkPos>, oracle: map<ChunkPos, BlockOracle>): Window -> Window {
    (w: Window) => if w.origin in oracle then BlockMoved(w, simulate, oracle[w.origin]) else w
  }

  // The effects of the windows, in order, each window as it was when the phase began.
  function Effects(chunks: ChunkMap, origins: seq<ChunkPos>, kernel: Window -> Window): (seq<BodyImpulse>, seq<CellPos>) {
    if origins == [] then ([], [])
    else
      var last := |origins| - 1;
      var before := Effects(chunks, origins[..last], kernel);
      var w := kernel(Window(origins[last], Extract(chunks, origins[last]), [], []));
      (before.0 + w.impulses, before.1 + w.unseated)
  }

  lemma {:induction false} RunWindowsAppend(chunks: ChunkMap, origins: seq<ChunkPos>, o: ChunkPos, kernel: Window -> Window)
    ensures RunWindows(chunks, origins + [o], kernel) == RunWindow(RunWindows(chunks, origins, kernel), o, kernel)
    decreases |origins|
  {
    if origins == [] {
      assert (origins + [o])[1..] == [];
    } else {
      assert (origins + [o])[0] == origins[0] && (origins + [o])[1..] == origins[1..] + [o];
      RunWindowsAppend(RunWindow(chunks, origins[0], kernel), origins[1..], o, kernel);
    }
  }

  // Only what is drawn for the windows that run counts.
  lemma {:induction false} KernelsAgree(
    chunks: ChunkMap, start: ChunkMap, origins: seq<ChunkPos>, simulate: set<ChunkPos>, oracle: map<ChunkPos, BlockOracle>,
    o: ChunkPos, more: BlockOracle)
    requires o !in origins
    ensures RunWindows(chunks, origins, PhaseKernel(simulate, oracle[o := more])) == RunWindows(chunks, origins, PhaseKernel(simulate, oracle))
    ensures Effects(start, origins, PhaseKernel(simulate, oracle[o := more])) == Effects(start, origins, PhaseKernel(simulate, oracle))
    decreases |origins|
  {
    var a, b := PhaseKernel(simulate, oracle), PhaseKernel(simulate, oracle[o := more]);
    if origins != [] {
      var last := |origins| - 1;
      KernelsAgree(chunks, start, origins[..last], simulate, oracle, o, more);
      assert origins == origins[..last] + [origins[last]] && origins[last] != o;
      RunWindowsAppend(chunks, origins[..last], origins[last], a);
      RunWindowsAppend(chunks, origins[..last], origins[last], b);
    }
  }

  // One phase of the movement pass: the windows run one after the other, which is the same as
  // running them in any other order, or in parallel (PhaseOrderIsFree).
  method RunPhase(world: CellWorld, simulate: set<ChunkPos>, phase: nat)
    returns (impulses: seq<BodyImpulse>, unseated: seq<CellPos>, ghost run: PhaseRun)
    requires Worlds.AllSound(world.View())
    modifies world`chunks
    ensures WorldMoves(old(world.chunks), world.chunks)
    ensures PhaseOrigins(old(world.chunks), simulate, phase, run.origins)
    ensures world.chunks == RunWindows(old(world.chunks), run.origins, PhaseKernel(simulate, run.oracle))
    ensures (impulses, unseated) == Effects(old(world.chunks), run.origins, PhaseKernel(simulate, run.oracle))
    ensures Reports(old(world.chunks), world.chunks, impulses, unseated)
  {
    ghost var began := world.chunks;
    var origins := FindOrigins(world, simulate, phase);
    PhaseOriginsDisjoint(began, simulate, phase, origins);
    var members := FindMembers(origins);
    var slots := FillSlots(world, origins, members);
    impulses, unseated := [], [];
    ghost var oracle: map<ChunkPos, BlockOracle> := map[];
    for i := 0 to |origins|
      invariant WorldMoves(began, world.chunks) && Reports(began, world.chunks, impulses, unseated)
      invariant forall j | i <= j < |origins| :: Extract(world.chunks, origins[j]) == slots[j]
      invariant world.chunks == RunWindows(began, origins[..i], PhaseKernel(simulate, oracle))
      invariant (impulses, unseated) == Effects(began, origins[..i], PhaseKernel(simulate, oracle))
    {
      ghost var before := world.chunks;
      var more: seq<BodyImpulse>, freed: seq<CellPos>;
      ghost var o: BlockOracle;
      more, freed, o := RunOne(world, simulate, origins[i], slots[i]);
      WorldMovesTransitive(began, before, world.chunks);
      ReportsTransitive(began, before, world.chunks, impulses, unseated, more, freed);
      forall j | i + 1 <= j < |origins|
        ensures Extract(world.chunks, origins[j]) == slots[j]
      {
        PutBackLeavesOthers(before, origins[i], BlockMoved(Window(origins[i], slots[i], [], []), simulate, o).slots, origins[j]);
      }
      PhaseGoesOn(began, before, origins, i, simulate, oracle, o);
      oracle := oracle[origins[i] := o];
      impulses := impulses + more;
      unseated := unseated + freed;
    }
    assert origins[..|origins|] == origins;
    run := PhaseRun(origins, oracle);
  }

  lemma PhaseGoesOn(
    began: ChunkMap, before: ChunkMap, origins: seq<ChunkPos>, i: nat, simulate: set<ChunkPos>,
    oracle: map<ChunkPos, BlockOracle>, o: BlockOracle)
    requires i < |origins| && forall j, k | 0 <= j < k < |origins| :: origins[j] != origins[k]
    requires before == RunWindows(began, origins[..i], PhaseKernel(simulate, oracle))
    ensures var kernel, w := PhaseKernel(simulate, oracle[origins[i] := o]), Window(origins[i], Extract(before, origins[i]), [], []);
      RunWindows(began, origins[..i + 1], kernel) == PutBack(before, origins[i], BlockMoved(w, simulate, o).slots)
    ensures var kernel, w := PhaseKernel(simulate, oracle[origins[i] := o]), Window(origins[i], Extract(began, origins[i]), [], []);
      var effects := Effects(began, origins[..i], PhaseKernel(simulate, oracle));
      Effects(began, origins[..i + 1], kernel)
        == (effects.0 + BlockMoved(w, simulate, o).impulses, effects.1 + BlockMoved(w, simulate, o).unseated)
  {
    var kernel := PhaseKernel(simulate, oracle[origins[i] := o]);
    KernelsAgree(began, began, origins[..i], simulate, oracle, origins[i], o);
    RunWindowsAppend(began, origins[..i], origins[i], kernel);
    assert origins[..i + 1] == origins[..i] + [origins[i]] && origins[..i + 1][..i] == origins[..i];
  }

  // One window: taken out, simulated, put back.
  method RunOne(world: CellWorld, simulate: set<ChunkPos>, origin: ChunkPos, slots: Slots)
    returns (impulses: seq<BodyImpulse>, unseated: seq<CellPos>, ghost o: BlockOracle)
    requires Worlds.AllSound(world.View()) && slots == Extract(world.chunks, origin)
    modifies world`chunks
    ensures WorldMoves(old(world.chunks), world.chunks)
    ensures var v := BlockMoved(Window(origin, slots, [], []), simulate, o);
      world.chunks == PutBack(old(world.chunks), origin, v.slots) && (impulses, unseated) == (v.impulses, v.unseated)
    ensures Reports(old(world.chunks), world.chunks, impulses, unseated)
  {
    var w := new SimWindow(origin, slots);
    ghost var w0 := w.View();
    assert Windows.AllSound(w0);
    o := SimulateBlock(w, simulate);
    WindowMovesWorld(world.chunks, w0, w.View(), origin.BaseCell(), WINDOW_CHUNKS * 64);
    WindowReports(world.chunks, w0, w.View(), origin.BaseCell(), WINDOW_CHUNKS * 64);
    world.chunks := PutBack(world.chunks, origin, w.slots);
    impulses, unseated := w.impulses, w.unseated;
  }

  // What a phase did: the windows it ran, and what was drawn for each of them.
  datatype PhaseRun = PhaseRun(origins: seq<ChunkPos>, oracle: map<ChunkPos, BlockOracle>)

  // The windows of a phase in any order, with the same draws for each, make the same world.
  lemma PhaseOrderIsFree(
    chunks: ChunkMap, simulate: set<ChunkPos>, phase: nat, a: seq<ChunkPos>, b: seq<ChunkPos>, oracle: map<ChunkPos, BlockOracle>)
    requires PhaseOrigins(chunks, simulate, phase, a) && PhaseOrigins(chunks, simulate, phase, b)
    ensures RunWindows(chunks, a, PhaseKernel(simulate, oracle)) == RunWindows(chunks, b, PhaseKernel(simulate, oracle))
  {
    PhaseOriginsDisjoint(chunks, simulate, phase, a);
    PhaseOriginsDisjoint(chunks, simulate, phase, b);
    OrderDoesNotMatter(chunks, a, b, PhaseKernel(simulate, oracle));
  }

  // The chunks after the phases of a pass, each by its run.
  ghost function AfterPhases(chunks: ChunkMap, simulate: set<ChunkPos>, runs: seq<PhaseRun>): ChunkMap {
    if runs == [] then chunks
    else
      var last := |runs| - 1;
      RunWindows(AfterPhases(chunks, simulate, runs[..last]), runs[last].origins, PhaseKernel(simulate, runs[last].oracle))
  }

  // The effects of the phases of a pass, one after the other, each on the chunks as it began.
  ghost function PassEffects(chunks: ChunkMap, simulate: set<ChunkPos>, runs: seq<PhaseRun>): (seq<BodyImpulse>, seq<CellPos>) {
    if runs == [] then ([], [])
    else
      var last := |runs| - 1;
      var before := PassEffects(chunks, simulate, runs[..last]);
      var more := Effects(
        AfterPhases(chunks, simulate, runs[..last]), runs[last].origins, PhaseKernel(simulate, runs[last].oracle));
      (before.0 + more.0, before.1 + more.1)
  }

  // Each run is of the windows that are awake when its phase begins.
  ghost predicate RightRuns(chunks: ChunkMap, simulate: set<ChunkPos>, order: seq<nat>, runs: seq<PhaseRun>)
    requires |runs| <= |order|
  {
    forall i | 0 <= i < |runs| ::
      PhaseOrigins(AfterPhases(chunks, simulate, runs[..i]), simulate, order[i], runs[i].origins)
  }

  lemma RunsGoOn(chunks: ChunkMap, simulate: set<ChunkPos>, order: seq<nat>, runs: seq<PhaseRun>, run: PhaseRun)
    requires |runs| < |order| && RightRuns(chunks, simulate, order, runs)
    requires PhaseOrigins(AfterPhases(chunks, simulate, runs), simulate, order[|runs|], run.origins)
    ensures RightRuns(chunks, simulate, order, runs + [run])
    ensures AfterPhases(chunks, simulate, runs + [run])
      == RunWindows(AfterPhases(chunks, simulate, runs), run.origins, PhaseKernel(simulate, run.oracle))
    ensures var before, more := PassEffects(chunks, simulate, runs),
        Effects(AfterPhases(chunks, simulate, runs), run.origins, PhaseKernel(simulate, run.oracle));
      PassEffects(chunks, simulate, runs + [run]) == (before.0 + more.0, before.1 + more.1)
  {
    var all := runs + [run];
    assert all[..|runs|] == runs;
    forall i | 0 <= i < |all|
      ensures PhaseOrigins(AfterPhases(chunks, simulate, all[..i]), simulate, order[i], all[i].origins)
    {
      if i < |runs| {
        assert all[..i] == runs[..i];
      }
    }
  }

  // The movement pass: four phases in a drawn order. Matter is conserved and body cells are left
  // alone, whatever is drawn; the effects of all phases come out, and they name every place where an
  // obstacle went and no impulse but at a body.
  method MovementPass(world: CellWorld, simulate: set<ChunkPos>, order: seq<nat>)
    returns (impulses: seq<BodyImpulse>, unseated: seq<CellPos>, ghost runs: seq<PhaseRun>)
    requires Worlds.AllSound(world.View()) && multiset(order) == multiset{0, 1, 2, 3}
    modifies world`chunks
    ensures WorldMoves(old(world.chunks), world.chunks)
    ensures |runs| == |order| && RightRuns(old(world.chunks), simulate, order, runs)
    ensures world.chunks == AfterPhases(old(world.chunks), simulate, runs)
    ensures (impulses, unseated) == PassEffects(old(world.chunks), simulate, runs)
    ensures Reports(old(world.chunks), world.chunks, impulses, unseated)
  {
    impulses, unseated, runs := [], [], [];
    for i := 0 to |order|
      invariant WorldMoves(old(world.chunks), world.chunks)
      invariant (impulses, unseated) == PassEffects(old(world.chunks), simulate, runs)
      invariant Reports(old(world.chunks), world.chunks, impulses, unseated)
      invariant |runs| == i && RightRuns(old(world.chunks), simulate, order, runs)
      invariant world.chunks == AfterPhases(old(world.chunks), simulate, runs)
    {
      ghost var before := world.chunks;
      assert Worlds.AllSound(world.View());
      var more: seq<BodyImpulse>, freed: seq<CellPos>;
      ghost var run: PhaseRun;
      more, freed, run := RunPhase(world, simulate, order[i]);
      WorldMovesTransitive(old(world.chunks), before, world.chunks);
      ReportsTransitive(old(world.chunks), before, world.chunks, impulses, unseated, more, freed);
      RunsGoOn(old(world.chunks), simulate, order, runs, run);
      runs := runs + [run];
      impulses := impulses + more;
      unseated := unseated + freed;
    }
  }
}
