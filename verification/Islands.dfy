// Finding terrain that has lost its support (crates/fallingsand_sim/src/body/island.rs).
module Islands {
  import opened Wrappers
  import opened Rows
  import opened Materials
  import opened Cells
  import opened Coords
  import opened Worlds
  import opened Components

  const MAX_BODY_EXTENT: int := 48
  const MAX_ISLAND_CELLS: nat := 2048

  // CARDINAL_NEIGHBORS
  const CARDINALS: seq<(int, int)> := [(0, -1), (-1, 0), (1, 0), (0, 1)]

  function Beside(pos: CellPos, k: nat): CellPos
    requires k < 4
  {
    pos.Translated(CARDINALS[k].0, CARDINALS[k].1)
  }

  predicate Adjacent(p: CellPos, q: CellPos) {
    (p.x == q.x && (q.y == p.y - 1 || q.y == p.y + 1)) || (p.y == q.y && (q.x == p.x - 1 || q.x == p.x + 1))
  }

  lemma AdjacentAreBeside(p: CellPos, q: CellPos)
    ensures Adjacent(p, q) <==> exists k | 0 <= k < 4 :: Beside(p, k) == q
  {
    assert Beside(p, 0) == CellPos(p.x, p.y - 1) && Beside(p, 1) == CellPos(p.x - 1, p.y);
    assert Beside(p, 2) == CellPos(p.x + 1, p.y) && Beside(p, 3) == CellPos(p.x, p.y + 1);
  }

  // Terrain that could come loose: solid, bondable and no body's.
  predicate Rigid(w: World, pos: CellPos) {
    && w.At(pos).Some? && w.At(pos).value.motion.Velocity?
    && w.At(pos).value.Phase() == Solid && Bondable(w.At(pos).value.material)
  }

  predicate Linked(w: World, p: CellPos, q: CellPos) {
    Adjacent(p, q) && Rigid(w, p) && Rigid(w, q) && Bonds(w.At(p).value.material, w.At(q).value.material)
  }

  function Links(w: World): (CellPos, CellPos) -> bool {
    (p, q) => Linked(w, p, q)
  }

  // A neighbour that carries the cell: hard enough terrain it is not bonded to, or powder
  // below it.
  predicate Carries(w: World, pos: CellPos, material: MaterialId, k: nat)
    requires k < 4
  {
    var near := Beside(pos, k);
    && !(Rigid(w, near) && Bonds(material, w.At(near).value.material))
    && w.At(near).Some? && w.At(near).value.motion.Velocity?
    && ((w.At(near).value.Phase() == Solid && CONTENT.supportive(w.At(near).value.material))
        || (w.At(near).value.Phase() == Powder && CARDINALS[k].1 < 0))
  }

  ghost predicate Supported(w: World, pos: CellPos) {
    Rigid(w, pos) && exists k | 0 <= k < 4 :: Carries(w, pos, w.At(pos).value.material, k)
  }

  ghost predicate InComponent(w: World, seed: CellPos, p: CellPos) {
    Connected(Links(w), seed, p)
  }

  // The whole bonded component of the seed hangs free and is small enough to be a body.
  ghost predicate Detached(w: World, seed: CellPos, island: set<CellPos>) {
    && (forall p :: p in island <==> InComponent(w, seed, p))
    && (forall p | p in island :: !Supported(w, p))
    && (forall p, q | p in island && q in island :: q.x - p.x < MAX_BODY_EXTENT && q.y - p.y < MAX_BODY_EXTENT)
    && |island| <= MAX_ISLAND_CELLS
  }

  method RigidTerrain(world: CellWorld, pos: CellPos) returns (cell: Option<Cell>)
    ensures cell == if Rigid(world.View(), pos) then world.View().At(pos) else None
  {
    cell := world.GetCell(pos);
    if cell.Some? {
      if cell.value.motion.Body? || cell.value.Phase() != Solid || !Bondable(cell.value.material) {
        cell := None;
      }
    }
  }

  method IsSupported(world: CellWorld, pos: CellPos, material: MaterialId) returns (supported: bool)
    requires Rigid(world.View(), pos) && material == world.View().At(pos).value.material
    ensures supported <==> Supported(world.View(), pos)
  {
    for k := 0 to 4
      invariant forall j | 0 <= j < k :: !Carries(world.View(), pos, material, j)
    {
      var near := Beside(pos, k);
      var terrain := RigidTerrain(world, near);
      if terrain.Some? && Bonds(material, terrain.value.material) {
        continue;
      }
      var cell := world.GetCell(near);
      if cell.None? || cell.value.motion.Body? {
        continue;
      }
      if cell.value.Phase() == Solid && CONTENT.supportive(cell.value.material) {
        assert Carries(world.View(), pos, material, k);
        return true;
      }
      if cell.value.Phase() == Powder && CARDINALS[k].1 < 0 {
        assert Carries(world.View(), pos, material, k);
        return true;
      }
    }
    supported := false;
  }

  // The bounding box of the cells seen, with cells that reach its sides.
  datatype Extent = Extent(minX: int, maxX: int, minY: int, maxY: int) {
    function With(p: CellPos): Extent {
      Extent(
        if p.x < minX then p.x else minX, if p.x > maxX then p.x else maxX,
        if p.y < minY then p.y else minY, if p.y > maxY then p.y else maxY)
    }

    predicate TooWide() {
      maxX - minX >= MAX_BODY_EXTENT || maxY - minY >= MAX_BODY_EXTENT
    }

    ghost predicate Bounds(cells: set<CellPos>) {
      && (forall p | p in cells :: minX <= p.x <= maxX && minY <= p.y <= maxY)
      && (exists p :: p in cells && p.x == minX) && (exists p :: p in cells && p.x == maxX)
      && (exists p :: p in cells && p.y == minY) && (exists p :: p in cells && p.y == maxY)
    }
  }

  lemma ExtentGrows(e: Extent, cells: set<CellPos>, p: CellPos)
    requires e.Bounds(cells)
    ensures e.With(p).Bounds(cells + {p})
  {
    var west :| west in cells && west.x == e.minX;
    var east :| east in cells && east.x == e.maxX;
    var south :| south in cells && south.y == e.minY;
    var north :| north in cells && north.y == e.maxY;
    var all := cells + {p};
    assert p in all && west in all && east in all && south in all && north in all;
  }

  lemma TooWideHasFarCells(e: Extent, cells: set<CellPos>)
    requires e.Bounds(cells) && e.TooWide()
    ensures exists p, q | p in cells && q in cells :: q.x - p.x >= MAX_BODY_EXTENT || q.y - p.y >= MAX_BODY_EXTENT
  {
    var west :| west in cells && west.x == e.minX;
    var east :| east in cells && east.x == e.maxX;
    var south :| south in cells && south.y == e.minY;
    var north :| north in cells && north.y == e.maxY;
    if e.maxX - e.minX >= MAX_BODY_EXTENT {
      assert west in cells && east in cells && east.x - west.x >= MAX_BODY_EXTENT;
    } else {
      assert south in cells && north in cells && north.y - south.y >= MAX_BODY_EXTENT;
    }
  }

  datatype Entry = Entry(pos: CellPos, material: MaterialId)

  // The state of the flood fill.
  ghost predicate Filling(w: World, seed: CellPos, visited: set<CellPos>, queue: seq<Entry>, extent: Extent) {
    && seed in visited && |visited| <= MAX_ISLAND_CELLS
    && (forall p | p in visited :: Rigid(w, p) && InComponent(w, seed, p))
    && (forall i | 0 <= i < |queue| :: queue[i].pos in visited && queue[i].material == w.At(queue[i].pos).value.material)
    && extent.Bounds(visited) && !extent.TooWide()
  }

  // Cells taken off the queue are unsupported, and all they link to has been visited.
  ghost predicate Expanded(w: World, visited: set<CellPos>, queue: seq<Entry>, p: CellPos) {
    (exists i | 0 <= i < |queue| :: queue[i].pos == p) || (!Supported(w, p) && forall q | Linked(w, p, q) :: q in visited)
  }

  lemma FullyVisited(w: World, seed: CellPos, visited: set<CellPos>, extent: Extent)
    requires Filling(w, seed, visited, [], extent) && forall p | p in visited :: Expanded(w, visited, [], p)
    ensures Detached(w, seed, visited)
  {
    forall p
      ensures p in visited <==> InComponent(w, seed, p)
    {
      if InComponent(w, seed, p) {
        ClosedHoldsConnected(Links(w), (iset q | q in visited), seed, p);
      }
    }
  }

  // What the walk finds when it gives up is a reason that no set of cells is the island.
  ghost predicate Refuted(w: World, seed: CellPos) {
    forall island: set<CellPos> :: !Detached(w, seed, island)
  }

  lemma SupportRefutes(w: World, seed: CellPos, p: CellPos)
    requires InComponent(w, seed, p) && Supported(w, p)
    ensures Refuted(w, seed)
  {
  }

  lemma WidthRefutes(w: World, seed: CellPos, cells: set<CellPos>, extent: Extent)
    requires (forall p | p in cells :: InComponent(w, seed, p)) && extent.Bounds(cells) && extent.TooWide()
    ensures Refuted(w, seed)
  {
    TooWideHasFarCells(extent, cells);
  }

  lemma CountRefutes(w: World, seed: CellPos, cells: set<CellPos>)
    requires (forall p | p in cells :: InComponent(w, seed, p)) && |cells| > MAX_ISLAND_CELLS
    ensures Refuted(w, seed)
  {
    forall island: set<CellPos>
      ensures !Detached(w, seed, island)
    {
      if Detached(w, seed, island) {
        assert cells <= island;
        SubsetSize(cells, island);
      }
    }
  }

  lemma SubsetSize(a: set<CellPos>, b: set<CellPos>)
    requires a <= b
    ensures |a| <= |b|
  {
    assert b == a + (b - a);
  }

  // A cell linked to a visited one is of the component, and can be taken in unless it
  // breaks a limit.
  lemma FoundCell(w: World, seed: CellPos, visited: set<CellPos>, queue: seq<Entry>, extent: Extent, p: CellPos, next: CellPos)
    requires Filling(w, seed, visited, queue, extent) && p in visited && next !in visited && Linked(w, p, next)
    ensures forall q | q in visited + {next} :: InComponent(w, seed, q)
    ensures extent.With(next).Bounds(visited + {next})
    ensures !extent.With(next).TooWide() && |visited| < MAX_ISLAND_CELLS ==>
      Filling(w, seed, visited + {next}, queue + [Entry(next, w.At(next).value.material)], extent.With(next))
  {
    ConnectedStep(Links(w), seed, p, next);
    ExtentGrows(extent, visited, next);
  }

  // One neighbour of the cell being expanded. Returns false when the fill must give up.
  method Look(
    world: CellWorld, seed: CellPos, current: Entry, next: CellPos, visited: set<CellPos>, queue: seq<Entry>, extent: Extent)
    returns (goOn: bool, visited': set<CellPos>, queue': seq<Entry>, extent': Extent)
    requires Filling(world.View(), seed, visited, queue, extent)
    requires current.pos in visited && current.material == world.View().At(current.pos).value.material
    requires Adjacent(current.pos, next)
    ensures !goOn ==> Refuted(world.View(), seed) && visited' == visited
    ensures goOn ==> Filling(world.View(), seed, visited', queue', extent')
    ensures goOn ==> visited <= visited' && queue <= queue'
    ensures goOn ==> Queued(visited', visited, queue')
    ensures goOn ==> (Linked(world.View(), current.pos, next) ==> next in visited')
    ensures goOn && visited' == visited ==> queue' == queue
  {
    goOn, visited', queue', extent' := true, visited, queue, extent;
    if next in visited {
      return;
    }
    var cell := RigidTerrain(world, next);
    if cell.None? || !Bonds(current.material, cell.value.material) {
      return;
    }
    extent' := extent.With(next);
    FoundCell(world.View(), seed, visited, queue, extent, current.pos, next);
    if extent'.TooWide() || |visited| >= MAX_ISLAND_CELLS {
      if extent'.TooWide() {
        WidthRefutes(world.View(), seed, visited + {next}, extent');
      } else {
        CountRefutes(world.View(), seed, visited + {next});
      }
      goOn := false;
      return;
    }
    visited' := visited + {next};
    queue' := queue + [Entry(next, cell.value.material)];
    assert queue'[|queue|].pos == next;
  }

  // Every found cell waits in the queue.
  ghost predicate Queued(found: set<CellPos>, before: set<CellPos>, queue: seq<Entry>) {
    forall p | p in found && p !in before :: exists i | 0 <= i < |queue| :: queue[i].pos == p
  }

  lemma QueuedGrows(found: set<CellPos>, before: set<CellPos>, queue: seq<Entry>, more: set<CellPos>, longer: seq<Entry>)
    requires Queued(found, before, queue) && Queued(more, found, longer) && queue <= longer
    ensures Queued(more, before, longer)
  {
    forall p | p in more && p !in before
      ensures exists i | 0 <= i < |longer| :: longer[i].pos == p
    {
      if p in found {
        var i :| 0 <= i < |queue| && queue[i].pos == p;
        assert longer[i].pos == p;
      }
    }
  }

  // The first k neighbours have been taken in where they are linked.
  ghost predicate LinksTaken(w: World, pos: CellPos, k: nat, visited: set<CellPos>)
    requires k <= 4
  {
    forall j | 0 <= j < k :: Linked(w, pos, Beside(pos, j)) ==> Beside(pos, j) in visited
  }

  lemma LinksTakenNext(w: World, pos: CellPos, k: nat, visited: set<CellPos>, more: set<CellPos>)
    requires k < 4 && LinksTaken(w, pos, k, visited) && visited <= more
    requires Linked(w, pos, Beside(pos, k)) ==> Beside(pos, k) in more
    ensures LinksTaken(w, pos, k + 1, more)
  {
  }

  lemma AllLinksTaken(w: World, pos: CellPos, visited: set<CellPos>)
    requires LinksTaken(w, pos, 4, visited)
    ensures forall q | Linked(w, pos, q) :: q in visited
  {
    forall q | Linked(w, pos, q)
      ensures q in visited
    {
      AdjacentAreBeside(pos, q);
    }
  }

  // All four neighbours of the cell taken off the queue.
  method Expand(world: CellWorld, seed: CellPos, current: Entry, visited: set<CellPos>, queue: seq<Entry>, extent: Extent)
    returns (goOn: bool, visited': set<CellPos>, queue': seq<Entry>, extent': Extent)
    requires Filling(world.View(), seed, visited, queue, extent)
    requires current.pos in visited && current.material == world.View().At(current.pos).value.material
    ensures visited <= visited' && forall p | p in visited' :: InComponent(world.View(), seed, p)
    ensures !goOn ==> Refuted(world.View(), seed)
    ensures goOn ==> Filling(world.View(), seed, visited', queue', extent')
    ensures goOn ==> queue <= queue' && Queued(visited', visited, queue')
    ensures goOn ==> forall q | Linked(world.View(), current.pos, q) :: q in visited'
    ensures goOn && visited' == visited ==> queue' == queue
  {
    ghost var w := world.View();
    goOn, visited', queue', extent' := true, visited, queue, extent;
    for k := 0 to 4
      invariant Filling(w, seed, visited', queue', extent')
      invariant visited <= visited' && queue <= queue' && Queued(visited', visited, queue')
      invariant LinksTaken(w, current.pos, k, visited')
      invariant visited' == visited ==> queue' == queue
    {
      AdjacentAreBeside(current.pos, Beside(current.pos, k));
      ghost var found, waiting := visited', queue';
      goOn, visited', queue', extent' := Look(world, seed, current, Beside(current.pos, k), visited', queue', extent');
      if !goOn {
        return;
      }
      QueuedGrows(found, visited, waiting, visited', queue');
      LinksTakenNext(w, current.pos, k, found, visited');
    }
    AllLinksTaken(w, current.pos, visited');
  }

  // The flood fill: done is true when the whole component was walked without finding a
  // support or leaving the limits.
  method Walk(world: CellWorld, seed: CellPos, material: MaterialId)
    returns (done: bool, visited: set<CellPos>)
    requires Rigid(world.View(), seed) && material == world.View().At(seed).value.material
    ensures done ==> Detached(world.View(), seed, visited)
    ensures !done ==> Refuted(world.View(), seed)
    ensures forall p | p in visited :: InComponent(world.View(), seed, p)
  {
    ghost var w := world.View();
    ConnectedSelf(Links(w), seed);
    visited := {seed};
    var queue := [Entry(seed, material)];
    var extent := Extent(seed.x, seed.x, seed.y, seed.y);
    assert seed in visited && queue[0].pos == seed;
    while queue != []
      invariant Filling(w, seed, visited, queue, extent)
      invariant forall p | p in visited :: Expanded(w, visited, queue, p)
      decreases MAX_ISLAND_CELLS - |visited|, |queue|
    {
      var current := queue[0];
      ghost var waiting, before := queue, visited;
      queue := queue[1..];
      var supported := IsSupported(world, current.pos, current.material);
      if supported {
        SupportRefutes(w, seed, current.pos);
        return false, visited;
      }
      var goOn;
      goOn, visited, queue, extent := Expand(world, seed, current, visited, queue, extent);
      if !goOn {
        return false, visited;
      }
      Taken(w, before, visited, waiting, queue);
      if visited != before {
        ProperSubsetSize(before, visited);
      }
    }
    FullyVisited(w, seed, visited, extent);
    done := true;
  }

  // The head of the queue has been expanded, and what was found queues behind the rest.
  lemma Taken(w: World, before: set<CellPos>, visited: set<CellPos>, waiting: seq<Entry>, queue: seq<Entry>)
    requires waiting != [] && before <= visited && waiting[1..] <= queue
    requires forall p | p in before :: Expanded(w, before, waiting, p)
    requires !Supported(w, waiting[0].pos)
    requires forall q | Linked(w, waiting[0].pos, q) :: q in visited
    requires Queued(visited, before, queue)
    ensures forall p | p in visited :: Expanded(w, visited, queue, p)
  {
    forall p | p in visited && p in before && p != waiting[0].pos
      ensures Expanded(w, visited, queue, p)
    {
      if i :| 0 <= i < |waiting| && waiting[i].pos == p {
        assert queue[i - 1] == waiting[1..][i - 1];
      }
    }
  }

  lemma ProperSubsetSize(a: set<CellPos>, b: set<CellPos>)
    requires a < b
    ensures |a| < |b|
  {
    var c :| c in b && c !in a;
    SubsetSize(a, b - {c});
  }

  // Exact: an island comes back if and only if the seed's whole bonded component hangs free
  // within the limits, and it is that component in row order. The answer does not depend on
  // the order of the search.
  method DetectDetachedIsland(world: CellWorld, seed: CellPos, scanned: set<CellPos>)
    returns (island: Option<seq<CellPos>>, scanned': set<CellPos>)
    ensures island.Some? <==> Rigid(world.View(), seed) && exists cells: set<CellPos> :: Detached(world.View(), seed, cells)
    ensures island.Some? ==> InRowOrder(island.value, CellRow) && Detached(world.View(), seed, set p | p in island.value)
    ensures island.Some? ==> forall i, j | 0 <= i < j < |island.value| :: island.value[i] != island.value[j]
    ensures island.Some? ==> scanned' == scanned + set p | p in island.value
    ensures scanned <= scanned' && forall p | p in scanned' && p !in scanned :: InComponent(world.View(), seed, p)
  {
    scanned' := scanned;
    var terrain := RigidTerrain(world, seed);
    if terrain.None? {
      return None, scanned;
    }
    var done, visited := Walk(world, seed, terrain.value.material);
    scanned' := scanned + visited;
    if !done {
      return None, scanned';
    }
    var sorted := RowOrder(visited, CellRow);
    assert visited == set p | p in sorted;
    island := Some(sorted);
  }

  function CellRow(p: CellPos): Row {
    p.RowKey()
  }
}
