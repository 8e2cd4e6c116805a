// Rigid bodies on the lattice: their data and how they take hold of the world's cells
// (crates/fallingsand_sim/src/body/state.rs, and the plain operations of body/mod.rs).
module BodyState {
  import opened Wrappers
  import opened Materials
  import opened Cells
  import opened Coords
  import opened Worlds
  import opened Numbers
  import Rotation

  datatype Slot = Slot(local: (int, int), material: MaterialId)

  datatype Inertia = Inertia(
    mass: int, localCom: (int, int), moment: int, radius: int, restitution: nat, friction: nat)

  datatype Body = Body(
    id: BodyId, slots: seq<Slot>, raster: seq<CellPos>, anchor: CellPos, step: Rotation.Step,
    vx: int, vy: int, spin: int, carried: (int, int, int), accX: int, accY: int, accTurn: int,
    inertia: Inertia, weight: int, turns: bool, settles: bool, assists: bool, parked: bool)

  const CELL: int := 1024
  const FRICTION_NONE: nat := 0xFFFF_FFFF

  // ---------------------------------------------------------------- inertia

  function MassOf(slots: seq<Slot>): (mass: int)
    ensures mass >= |slots|
  {
    if slots == [] then 0 else MassOf(slots[..|slots| - 1]) + Heaviness(slots[|slots| - 1].material)
  }

  function WeightedX(slots: seq<Slot>): int {
    if slots == [] then 0
    else WeightedX(slots[..|slots| - 1]) + Heaviness(slots[|slots| - 1].material) * slots[|slots| - 1].local.0
  }

  function WeightedY(slots: seq<Slot>): int {
    if slots == [] then 0
    else WeightedY(slots[..|slots| - 1]) + Heaviness(slots[|slots| - 1].material) * slots[|slots| - 1].local.1
  }

  function Bounciest(slots: seq<Slot>): nat {
    if slots == [] then 0
    else
      var before, last := Bounciest(slots[..|slots| - 1]), CONTENT.restitution(slots[|slots| - 1].material);
      if last > before then last else before
  }

  function Slickest(slots: seq<Slot>): nat {
    if slots == [] then FRICTION_NONE
    else
      var before, last := Slickest(slots[..|slots| - 1]), CONTENT.friction(slots[|slots| - 1].material);
      if before < last then before else last
  }

  function Arm(slot: Slot, com: (int, int)): int {
    var dx, dy := slot.local.0 * CELL - com.0, slot.local.1 * CELL - com.1;
    dx * dx + dy * dy
  }

  // A cell's own moment is at least that of a unit square.
  function MomentOf(slots: seq<Slot>, com: (int, int)): int {
    if slots == [] then 0
    else
      var last := slots[|slots| - 1];
      var arm := Arm(last, com);
      MomentOf(slots[..|slots| - 1], com) + Heaviness(last.material) * (if arm > CELL * CELL / 6 then arm else CELL * CELL / 6)
  }

  function ReachOf(slots: seq<Slot>, com: (int, int)): (reach: int)
    ensures reach >= 0
  {
    if slots == [] then 0
    else
      var before, arm := ReachOf(slots[..|slots| - 1], com), Arm(slots[|slots| - 1], com);
      if arm > before then arm else before
  }

  function InertiaOf(slots: seq<Slot>): (i: Inertia)
    requires slots != []
    ensures i.mass == MassOf(slots) > 0
  {
    var mass := MassOf(slots);
    var com := (RoundDiv(WeightedX(slots) * CELL, mass), RoundDiv(WeightedY(slots) * CELL, mass));
    Inertia(mass, com, MomentOf(slots, com), Isqrt(ReachOf(slots, com)) / CELL + 1, Bounciest(slots), Slickest(slots))
  }

  method ComputeInertia(slots: seq<Slot>) returns (inertia: Inertia)
    requires slots != []
    ensures inertia == InertiaOf(slots)
  {
    var mass, x, y := 0, 0, 0;
    var restitution, friction: nat := 0, FRICTION_NONE;
    for i := 0 to |slots|
      invariant mass == MassOf(slots[..i]) && x == WeightedX(slots[..i]) && y == WeightedY(slots[..i])
      invariant restitution == Bounciest(slots[..i]) && friction == Slickest(slots[..i])
    {
      assert slots[..i + 1][..i] == slots[..i];
      var cell := Heaviness(slots[i].material);
      mass, x, y := mass + cell, x + cell * slots[i].local.0, y + cell * slots[i].local.1;
      if CONTENT.restitution(slots[i].material) > restitution {
        restitution := CONTENT.restitution(slots[i].material);
      }
      friction := if friction < CONTENT.friction(slots[i].material) then friction else CONTENT.friction(slots[i].material);
    }
    assert slots[..|slots|] == slots;
    var com := (RoundDiv(x * CELL, mass), RoundDiv(y * CELL, mass));
    var moment, reach := 0, 0;
    for i := 0 to |slots|
      invariant moment == MomentOf(slots[..i], com) && reach == ReachOf(slots[..i], com)
    {
      assert slots[..i + 1][..i] == slots[..i];
      var arm := Arm(slots[i], com);
      moment := moment + Heaviness(slots[i].material) * (if arm > CELL * CELL / 6 then arm else CELL * CELL / 6);
      reach := if arm > reach then arm else reach;
    }
    inertia := Inertia(mass, com, moment, Isqrt(reach) / CELL + 1, restitution, friction);
  }

  // --------------------------------------------------------------- the pose

  // Where the slots are with respect to the rounded centre of mass of the raster.
  function SlotsAt(slots: seq<Slot>, raster: seq<CellPos>, anchor: CellPos): (posed: seq<Slot>)
    requires |slots| == |raster|
    ensures |posed| == |slots|
  {
    seq(|slots|, i requires 0 <= i < |slots| => Slot((raster[i].x - anchor.x, raster[i].y - anchor.y), slots[i].material))
  }

  function AnchorOf(slots: seq<Slot>, raster: seq<CellPos>): CellPos
    requires |slots| == |raster| && slots != []
  {
    var absolute := SlotsAt(slots, raster, CellPos(0, 0));
    CellPos(
      RoundDiv(WeightedX(absolute), MassOf(absolute)), RoundDiv(WeightedY(absolute), MassOf(absolute)))
  }

  function RefreshInertia(body: Body): Body
    requires body.slots != []
  {
    var still := if body.turns && |body.slots| > 1 then body else body.(spin := 0, accTurn := 0);
    still.(inertia := InertiaOf(body.slots))
  }

  function RebasedPose(body: Body): (rebased: Body)
    requires |body.slots| == |body.raster| && body.slots != []
    ensures |rebased.slots| == |body.slots| && rebased.raster == body.raster && rebased.id == body.id
    ensures forall i | 0 <= i < |body.slots| :: rebased.slots[i].material == body.slots[i].material
  {
    var anchor := AnchorOf(body.slots, body.raster);
    RefreshInertia(body.(anchor := anchor, slots := SlotsAt(body.slots, body.raster, anchor), step := 0))
  }

  lemma {:induction false} PosingKeepsMass(a: seq<Slot>, b: seq<Slot>)
    requires |a| == |b| && forall i | 0 <= i < |a| :: a[i].material == b[i].material
    ensures MassOf(a) == MassOf(b)
  {
    if a != [] {
      PosingKeepsMass(a[..|a| - 1], b[..|b| - 1]);
    }
  }

  // At the reference pose every cell of the raster is where its slot says.
  lemma RebasedSlotsMatchRaster(body: Body, i: nat)
    requires |body.slots| == |body.raster| && i < |body.slots|
    ensures var b := RebasedPose(body);
      b.anchor.Translated(b.slots[i].local.0, b.slots[i].local.1) == b.raster[i]
  {
  }

  // ------------------------------------------------ the centre and the anchor

  // The source sums over the raster to place the anchor, and over the slots to place the centre.
  lemma {:induction false} PosedSums(slots: seq<Slot>, raster: seq<CellPos>, anchor: CellPos)
    requires |slots| == |raster|
    ensures var absolute, posed := SlotsAt(slots, raster, CellPos(0, 0)), SlotsAt(slots, raster, anchor);
      && MassOf(posed) == MassOf(absolute)
      && WeightedX(posed) == WeightedX(absolute) - MassOf(absolute) * anchor.x
      && WeightedY(posed) == WeightedY(absolute) - MassOf(absolute) * anchor.y
  {
    if slots != [] {
      var n := |slots| - 1;
      PosedSums(slots[..n], raster[..n], anchor);
      PosedInit(slots, raster, CellPos(0, 0));
      PosedInit(slots, raster, anchor);
      var absolute := SlotsAt(slots, raster, CellPos(0, 0));
      var h, before := Heaviness(slots[n].material), MassOf(absolute[..n]);
      Shifted(h, before, raster[n].x, anchor.x);
      Shifted(h, before, raster[n].y, anchor.y);
    }
  }

  lemma PosedInit(slots: seq<Slot>, raster: seq<CellPos>, anchor: CellPos)
    requires |slots| == |raster| > 0
    ensures SlotsAt(slots, raster, anchor)[..|slots| - 1] == SlotsAt(slots[..|slots| - 1], raster[..|slots| - 1], anchor)
  {
  }

  lemma Shifted(h: int, before: int, at: int, anchor: int)
    ensures h * (at - anchor) - before * anchor == h * at - (before + h) * anchor
  {
  }

  // Rounding the mean leaves at most half of what it rounds to.
  lemma RoundedMean(sum: int, mass: int)
    requires mass > 0
    ensures -mass <= 2 * (sum - mass * RoundDiv(sum, mass)) <= mass
  {
    var half := mass / 2;
    if sum >= 0 {
      var q := (sum + half) / mass;
      assert sum + half == mass * q + (sum + half) % mass;
    } else {
      var q := (-sum + half) / mass;
      assert -sum + half == mass * q + (-sum + half) % mass;
      assert mass * -q == -(mass * q);
    }
  }

  lemma MeanIsNear(rest: int, mass: int)
    requires mass > 0 && -mass <= 2 * rest <= mass
    ensures -Rotation.HALF_CELL <= RoundDiv(rest * CELL, mass) <= Rotation.HALF_CELL
  {
    AtMostHalfACell(rest * CELL, mass);
  }

  lemma AtMostHalfACell(n: int, mass: int)
    requires mass > 0 && -(512 * mass) <= n <= 512 * mass
    ensures -512 <= RoundDiv(n, mass) <= 512
  {
    var half := mass / 2;
    var m := if n >= 0 then n else -n;
    var q := (m + half) / mass;
    assert m + half == mass * q + (m + half) % mass;
    MultipleIsLarge(mass, q - 513);
    assert mass * (q - 513) == mass * q - 513 * mass;
  }

  // At the reference pose no body's centre is further than half a cell from its anchor.
  lemma CentreIsNearAnchor(body: Body)
    requires |body.slots| == |body.raster| && body.slots != []
    ensures Rotation.NearAnchor(AsPoint(RebasedPose(body).inertia.localCom))
  {
    var b := RebasedPose(body);
    var absolute := SlotsAt(body.slots, body.raster, CellPos(0, 0));
    PosedSums(body.slots, body.raster, b.anchor);
    RoundedMean(WeightedX(absolute), MassOf(absolute));
    RoundedMean(WeightedY(absolute), MassOf(absolute));
    MeanIsNear(WeightedX(b.slots), MassOf(b.slots));
    MeanIsNear(WeightedY(b.slots), MassOf(b.slots));
  }

  // Body::rasterize: where each slot's cell goes when the body has turned by `step`.
  function RasterAt(body: Body, step: Rotation.Step): (raster: seq<CellPos>)
    ensures |raster| == |body.slots|
  {
    seq(|body.slots|, i requires 0 <= i < |body.slots| =>
      var p := Rotation.RotatedBy(Rotation.SHEARS, step, AsPoint(body.inertia.localCom), AsPoint(body.slots[i].local));
      body.anchor.Translated(p.x, p.y))
  }

  function AsPoint(p: (int, int)): Rotation.Point {
    Rotation.Point(p.0, p.1)
  }

  // However the body turns, no two of its cells land on one.
  lemma RasterIsDistinct(body: Body, step: Rotation.Step)
    requires forall i, j | 0 <= i < j < |body.slots| :: body.slots[i].local != body.slots[j].local
    ensures var raster := RasterAt(body, step);
      forall i, j | 0 <= i < j < |raster| :: raster[i] != raster[j]
  {
    var com := AsPoint(body.inertia.localCom);
    forall i, j | 0 <= i < j < |body.slots|
      ensures RasterAt(body, step)[i] != RasterAt(body, step)[j]
    {
      var p, q := AsPoint(body.slots[i].local), AsPoint(body.slots[j].local);
      Rotation.RotationKeepsCellsApart(Rotation.SHEARS, step, com, p, q);
    }
  }

  // A body at its reference pose: not turned, its cells where its slots say, the anchor next to
  // the centre of mass, and its inertia that of its own slots.
  ghost predicate AtReference(b: Body) {
    && |b.slots| == |b.raster| && b.slots != [] && b.step == 0
    && (forall i | 0 <= i < |b.slots| :: SlotOnRaster(b, i))
    && b.inertia == InertiaOf(b.slots) && Rotation.NearAnchor(AsPoint(b.inertia.localCom))
  }

  predicate SlotOnRaster(b: Body, i: nat)
    requires |b.slots| == |b.raster| && i < |b.slots|
  {
    b.anchor.Translated(b.slots[i].local.0, b.slots[i].local.1) == b.raster[i]
  }

  lemma RebasedIsAtReference(body: Body)
    requires |body.slots| == |body.raster| && body.slots != []
    ensures AtReference(RebasedPose(body))
  {
    CentreIsNearAnchor(body);
    forall i | 0 <= i < |body.slots|
      ensures SlotOnRaster(RebasedPose(body), i)
    {
      RebasedSlotsMatchRaster(body, i);
    }
  }

  // There the raster is the one that the slots give.
  lemma ReferenceRaster(b: Body)
    requires AtReference(b)
    ensures RasterAt(b, b.step) == b.raster
  {
    forall i | 0 <= i < |b.raster|
      ensures RasterAt(b, 0)[i] == b.raster[i]
    {
      Rotation.StepZeroStays(AsPoint(b.inertia.localCom), AsPoint(b.slots[i].local));
      assert SlotOnRaster(b, i);
    }
  }

  // ------------------------------------------------------------- ownership

  ghost predicate WellFormed(b: Body) {
    && |b.slots| == |b.raster| && b.slots != []
    && (forall i, j | 0 <= i < j < |b.raster| :: b.raster[i] != b.raster[j])
    && (forall i, j | 0 <= i < j < |b.slots| :: b.slots[i].local != b.slots[j].local)
  }

  lemma RebasedIsWellFormed(body: Body)
    requires |body.slots| == |body.raster| && body.slots != []
    requires forall i, j | 0 <= i < j < |body.raster| :: body.raster[i] != body.raster[j]
    ensures WellFormed(RebasedPose(body))
  {
    var b := RebasedPose(body);
    forall i, j | 0 <= i < j < |b.slots|
      ensures b.slots[i].local != b.slots[j].local
    {
      assert body.raster[i] != body.raster[j];
    }
  }

  predicate TaggedBy(w: World, pos: CellPos, id: BodyId) {
    w.At(pos).Some? && w.At(pos).value.motion == Motion.Body(id)
  }

  // The cell is the body's, and what the body's slot says.
  predicate Holds(w: World, b: Body, i: nat)
    requires i < |b.raster| && |b.slots| == |b.raster|
  {
    && TaggedBy(w, b.raster[i], b.id)
    && Bondable(w.At(b.raster[i]).value.material)
    && w.At(b.raster[i]).value.material == b.slots[i].material
  }

  ghost predicate Owned(w: World, b: Body)
    requires |b.slots| == |b.raster|
  {
    forall i | 0 <= i < |b.raster| :: Holds(w, b, i)
  }

  ghost predicate FullyLoaded(w: World, b: Body) {
    forall i | 0 <= i < |b.raster| :: w.At(b.raster[i]).Some?
  }

  // Bodies that own their cells never overlap.
  lemma OwnersAreDisjoint(w: World, a: Body, b: Body, i: nat, j: nat)
    requires |a.slots| == |a.raster| && |b.slots| == |b.raster| && a.id != b.id
    requires Owned(w, a) && Owned(w, b) && i < |a.raster| && j < |b.raster|
    ensures a.raster[i] != b.raster[j]
  {
    assert Holds(w, a, i) && Holds(w, b, j);
  }

  // ----------------------------------------------------- changes to the world

  ghost predicate SameMatter(w: World, v: World) {
    v.chunks.Keys == w.chunks.Keys && forall m: Matter :: Tally(v.chunks, m) == Tally(w.chunks, m)
  }

  // Writing back the same matter with another tag or velocity.
  method Retag(world: CellWorld, pos: CellPos, cell: Cell)
    requires world.View().Loaded(pos) && cell.Visible() == world.View().At(pos).value.Visible()
    modifies world`chunks, world`unseated
    ensures SameMatter(old(world.View()), world.View()) && world.View() == old(world.View()).Set(pos, cell)
    ensures world.View().At(pos) == Some(cell.ClearMoved())
    ensures forall p: CellPos | p != pos :: world.View().At(p) == old(world.View()).At(p)
  {
    SetGives(world.View(), pos, cell);
    forall m: Matter
      ensures Tally(world.View().Set(pos, cell).chunks, m) == Tally(world.View().chunks, m)
    {
      SetTally(world.View(), pos, cell, m);
    }
    world.Set(pos, cell);
  }

  // Two cells change places.
  method Exchange(world: CellWorld, a: CellPos, b: CellPos, first: Cell, second: Cell)
    requires a != b && world.View().At(a).Some? && world.View().At(b).Some?
    requires first.Visible() == world.View().At(b).value.Visible() && second.Visible() == world.View().At(a).value.Visible()
    modifies world`chunks, world`unseated
    ensures SameMatter(old(world.View()), world.View()) && world.View() == old(world.View()).Set(a, first).Set(b, second)
    ensures world.View().At(a) == Some(first.ClearMoved()) && world.View().At(b) == Some(second.ClearMoved())
    ensures forall p: CellPos | p != a && p != b :: world.View().At(p) == old(world.View()).At(p)
  {
    ghost var w0 := world.View();
    ghost var w1 := w0.Set(a, first);
    SetGives(w0, a, first);
    SetGives(w1, b, second);
    forall m: Matter
      ensures Tally(w1.Set(b, second).chunks, m) == Tally(w0.chunks, m)
    {
      SetTally(w0, a, first, m);
      SetTally(w1, b, second, m);
    }
    world.Set(a, first);
    world.Set(b, second);
  }

  // What releasing cells of body `id` may do: no tag appears, other bodies' cells and the
  // body's own bondable cells stay, and no matter is made or lost.
  ghost predicate Releases(w: World, v: World, id: BodyId) {
    && SameMatter(w, v)
    && (forall p: CellPos :: v.Tagged(p) ==> v.At(p) == w.At(p))
    && (forall p: CellPos :: w.Tagged(p) && !TaggedBy(w, p, id) ==> v.At(p) == w.At(p))
    && (forall p: CellPos :: TaggedBy(w, p, id) && Bondable(w.At(p).value.material) ==> v.At(p) == w.At(p))
  }

  lemma ReleasesReflexive(w: World, id: BodyId)
    ensures Releases(w, w, id)
  {
  }

  lemma ReleasesTransitive(a: World, b: World, c: World, id: BodyId)
    requires Releases(a, b, id) && Releases(b, c, id)
    ensures Releases(a, c, id)
  {
    forall p: CellPos | a.Tagged(p) && !TaggedBy(a, p, id)
      ensures c.At(p) == a.At(p)
    {
      assert b.At(p) == a.At(p) && b.Tagged(p);
    }
  }

  lemma SameMatterSameLoaded(w: World, v: World, p: CellPos)
    requires SameMatter(w, v)
    ensures w.At(p).Some? == v.At(p).Some?
  {
  }

  // The outlets tried, in order: up, left, right, down.
  const OUTLETS: seq<(int, int)> := [(0, 1), (-1, 0), (1, 0), (0, -1)]

  predicate TakesSpill(cell: Cell) {
    cell.motion.Velocity? && (cell.Phase() == Empty || cell.Phase() == Gas)
  }

  // The first neighbour a freed cell can spill into.
  function OutletOf(w: World, pos: CellPos, i: nat): Option<CellPos>
    requires i <= |OUTLETS|
    decreases |OUTLETS| - i
  {
    if i == |OUTLETS| then None
    else
      var outlet := pos.Translated(OUTLETS[i].0, OUTLETS[i].1);
      if w.At(outlet).Some? && TakesSpill(w.At(outlet).value) then Some(outlet) else OutletOf(w, pos, i + 1)
  }

  // The outlet is the first of the four that takes a spill: above, to the left, to the right, below.
  lemma OutletIsFirst(w: World, pos: CellPos)
    ensures var takes := (p: CellPos) => w.At(p).Some? && TakesSpill(w.At(p).value);
      var (up, left, right, down) := (pos.Translated(0, 1), pos.Translated(-1, 0), pos.Translated(1, 0), pos.Translated(0, -1));
      OutletOf(w, pos, 0) ==
        if takes(up) then Some(up) else if takes(left) then Some(left) else if takes(right) then Some(right)
        else if takes(down) then Some(down) else None
  {
    assert OutletOf(w, pos, 4) == None;
    assert OutletOf(w, pos, 2)
      == if w.At(pos.Translated(1, 0)).Some? && TakesSpill(w.At(pos.Translated(1, 0)).value) then Some(pos.Translated(1, 0))
         else OutletOf(w, pos, 3);
  }

  function Released(w: World, pos: CellPos): World
    requires w.At(pos).Some?
  {
    var cell := w.At(pos).value.WithoutBody();
    var freed := w.Set(pos, cell);
    if cell.IsAir() then freed
    else
      match OutletOf(freed, pos, 0)
      case None => freed
      case Some(outlet) =>
        if freed.At(outlet).Some? then freed.Set(pos, freed.At(outlet).value).Set(outlet, cell) else freed
  }

  // A cell that a body can no longer hold is freed, and spills into a free neighbour.
  method Release(world: CellWorld, id: BodyId, pos: CellPos)
    requires TaggedBy(world.View(), pos, id) && !Bondable(world.View().At(pos).value.material)
    modifies world`chunks, world`unseated
    ensures Releases(old(world.View()), world.View(), id)
    ensures world.View() == Released(old(world.View()), pos)
    ensures !world.View().Tagged(pos)
    ensures forall p: CellPos | p != pos && old(world.View()).Tagged(p) :: world.View().At(p) == old(world.View()).At(p)
  {
    ghost var w0 := world.View();
    var found := world.GetCell(pos);
    var cell := found.value.WithoutBody();
    Retag(world, pos, cell);
    ghost var w1 := world.View();
    if cell.IsAir() {
      return;
    }
    for i := 0 to |OUTLETS|
      invariant world.View() == w1 && OutletOf(w1, pos, 0) == OutletOf(w1, pos, i)
    {
      var outlet := pos.Translated(OUTLETS[i].0, OUTLETS[i].1);
      var near := world.GetCell(outlet);
      if near.Some? && TakesSpill(near.value) {
        Exchange(world, pos, outlet, near.value, cell);
        return;
      }
    }
  }

  // Takes hold of cells of the world as a new body at its reference pose.
  method Capture(world: CellWorld, id: BodyId, cells: seq<CellPos>) returns (body: Body)
    requires cells != [] && (forall i | 0 <= i < |cells| :: world.View().At(cells[i]).Some?)
    requires forall i, j | 0 <= i < j < |cells| :: cells[i] != cells[j]
    modifies world`chunks, world`unseated
    ensures SameMatter(old(world.View()), world.View())
    ensures body.id == id && body.raster == cells && WellFormed(body) && body.inertia.mass > 0 && AtReference(body)
    ensures AtRest(body)
    ensures forall i | 0 <= i < |cells| ::
      world.View().At(cells[i]) == Some(old(world.View()).At(cells[i]).value.WithBody(id).ClearMoved())
    ensures forall i | 0 <= i < |cells| :: body.slots[i].material == old(world.View()).At(cells[i]).value.material
    ensures forall p: CellPos | p !in cells :: world.View().At(p) == old(world.View()).At(p)
  {
    ghost var w := world.View();
    var slots: seq<Slot> := [];
    for i := 0 to |cells|
      invariant world.View() == w
      invariant |slots| == i && forall j | 0 <= j < i :: slots[j].material == w.At(cells[j]).value.material
    {
      var cell := world.GetCell(cells[i]);
      slots := slots + [Slot((0, 0), cell.value.material)];
    }
    TagAll(world, id, cells);
    body := NewBody(id, slots, cells);
  }

  // A body at rest on its cells.
  // Without motion, and free to move, turn and settle.
  predicate AtRest(body: Body) {
    && body.vx == 0 && body.vy == 0 && body.spin == 0 && body.carried == (0, 0, 0)
    && body.accX == 0 && body.accY == 0 && body.accTurn == 0 && body.weight == 0
    && body.turns && body.settles && !body.assists && !body.parked
  }

  function NewBody(id: BodyId, slots: seq<Slot>, cells: seq<CellPos>): (body: Body)
    requires |slots| == |cells| && cells != [] && forall i, j | 0 <= i < j < |cells| :: cells[i] != cells[j]
    ensures body.id == id && body.raster == cells && WellFormed(body) && body.inertia.mass > 0 && AtReference(body)
    ensures AtRest(body)
    ensures forall i | 0 <= i < |cells| :: body.slots[i].material == slots[i].material
  {
    var body := Body.Body(
      id, slots, cells, CellPos(0, 0), 0, 0, 0, 0, (0, 0, 0), 0, 0, 0, Inertia(0, (0, 0), 0, 0, 0, 0), 0,
      true, true, false, false);
    RebasedIsWellFormed(body);
    RebasedIsAtReference(body);
    RebasedPose(body)
  }

  method TagAll(world: CellWorld, id: BodyId, cells: seq<CellPos>)
    requires forall i | 0 <= i < |cells| :: world.View().At(cells[i]).Some?
    requires forall i, j | 0 <= i < j < |cells| :: cells[i] != cells[j]
    modifies world`chunks, world`unseated
    ensures SameMatter(old(world.View()), world.View())
    ensures forall i | 0 <= i < |cells| ::
      world.View().At(cells[i]) == Some(old(world.View()).At(cells[i]).value.WithBody(id).ClearMoved())
    ensures forall p: CellPos | p !in cells :: world.View().At(p) == old(world.View()).At(p)
  {
    ghost var w := world.View();
    for i := 0 to |cells|
      invariant SameMatter(w, world.View())
      invariant forall j | 0 <= j < i :: world.View().At(cells[j]) == Some(w.At(cells[j]).value.WithBody(id).ClearMoved())
      invariant forall j | i <= j < |cells| :: world.View().At(cells[j]) == w.At(cells[j])
      invariant forall p: CellPos | p !in cells :: world.View().At(p) == w.At(p)
    {
      var cell := world.GetCell(cells[i]);
      Retag(world, cells[i], cell.value.WithBody(id));
    }
  }
}
