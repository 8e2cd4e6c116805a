// What the parts of a broken body carry on: the velocity that derive_part gives a part against the
// rigid motion of the whole, cell by cell (crates/fallingsand_sim/src/body/mod.rs, state.rs).
module Breaking {
  import opened Coords
  import opened Materials
  import opened Numbers
  import opened BodyState
  import opened Reconcile
  import Rotation

  // A full turn a tick is 0x100000 of spin, and 710 / 113 radians.
  const TURN: int := 0x10_0000 * 113
  const RADIANS: int := 710

  function Middle(at: int): int {
    at * CELL + CELL / 2
  }

  // ----------------------------------------------------- the centre in the world

  // The sums of the centres of a body's cells, each as heavy as its material.
  function MomentX(slots: seq<Slot>, raster: seq<CellPos>): int
    requires |slots| == |raster|
  {
    if slots == [] then 0
    else
      var n := |slots| - 1;
      MomentX(slots[..n], raster[..n]) + Heaviness(slots[n].material) * Middle(raster[n].x)
  }

  function MomentY(slots: seq<Slot>, raster: seq<CellPos>): int
    requires |slots| == |raster|
  {
    if slots == [] then 0
    else
      var n := |slots| - 1;
      MomentY(slots[..n], raster[..n]) + Heaviness(slots[n].material) * Middle(raster[n].y)
  }

  ghost predicate OnRaster(slots: seq<Slot>, raster: seq<CellPos>, anchor: CellPos)
    requires |slots| == |raster|
  {
    forall i | 0 <= i < |slots| :: anchor.Translated(slots[i].local.0, slots[i].local.1) == raster[i]
  }

  lemma {:induction false} MomentsShift(slots: seq<Slot>, raster: seq<CellPos>, anchor: CellPos)
    requires |slots| == |raster| && OnRaster(slots, raster, anchor)
    ensures MomentX(slots, raster) == WeightedX(slots) * CELL + MassOf(slots) * Middle(anchor.x)
    ensures MomentY(slots, raster) == WeightedY(slots) * CELL + MassOf(slots) * Middle(anchor.y)
  {
    if slots != [] {
      var n := |slots| - 1;
      MomentsShift(slots[..n], raster[..n], anchor);
      assert anchor.Translated(slots[n].local.0, slots[n].local.1) == raster[n];
      ShiftOne(Heaviness(slots[n].material), WeightedX(slots[..n]), MassOf(slots[..n]), slots[n].local.0, anchor.x);
      ShiftOne(Heaviness(slots[n].material), WeightedY(slots[..n]), MassOf(slots[..n]), slots[n].local.1, anchor.y);
    }
  }

  lemma ShiftOne(h: int, sum: int, mass: int, local: int, anchor: int)
    ensures sum * CELL + mass * Middle(anchor) + h * Middle(anchor + local)
      == (sum + h * local) * CELL + (mass + h) * Middle(anchor)
  {
    assert Middle(anchor + local) == local * CELL + Middle(anchor);
    assert h * (local * CELL + Middle(anchor)) == (h * local) * CELL + h * Middle(anchor);
  }

  lemma {:induction false} UnturnedSum(slots: seq<Slot>, com: (int, int))
    ensures RotatedSum(slots, 0, com) == (WeightedX(slots), WeightedY(slots))
  {
    if slots != [] {
      var n := |slots| - 1;
      UnturnedSum(slots[..n], com);
      Rotation.StepZeroStays(Rotation.Point(com.0, com.1), Rotation.Point(slots[n].local.0, slots[n].local.1));
    }
  }

  lemma NearestMultiple(n: int, d: int)
    requires d > 0
    ensures 2 * Abs(d * RoundDiv(n, d) - n) <= d
  {
    RoundedMean(n, d);
  }

  lemma ReferenceIsOnRaster(b: Body)
    requires AtReference(b)
    ensures OnRaster(b.slots, b.raster, b.anchor) && b.step == 0 && b.inertia.mass == MassOf(b.slots)
  {
    forall i | 0 <= i < |b.slots|
      ensures b.anchor.Translated(b.slots[i].local.0, b.slots[i].local.1) == b.raster[i]
    {
      assert SlotOnRaster(b, i);
    }
  }

  lemma MeanOfShift(mass: int, base: int, sum: int)
    requires mass > 0
    ensures 2 * Abs(mass * (base + RoundDiv(sum, mass)) - (sum + mass * base)) <= mass
  {
    NearestMultiple(sum, mass);
    assert mass * (base + RoundDiv(sum, mass)) == mass * base + mass * RoundDiv(sum, mass);
  }

  lemma {:induction false} CenterIsMean(slots: seq<Slot>, raster: seq<CellPos>, anchor: CellPos, inertia: Inertia)
    requires |slots| == |raster| && OnRaster(slots, raster, anchor) && inertia.mass == MassOf(slots) > 0
    ensures 2 * Abs(inertia.mass * Center(slots, 0, anchor, inertia).0 - MomentX(slots, raster)) <= inertia.mass
    ensures 2 * Abs(inertia.mass * Center(slots, 0, anchor, inertia).1 - MomentY(slots, raster)) <= inertia.mass
  {
    MomentsShift(slots, raster, anchor);
    UnturnedSum(slots, inertia.localCom);
    MeanOfShift(inertia.mass, Middle(anchor.x), WeightedX(slots) * CELL);
    MeanOfShift(inertia.mass, Middle(anchor.y), WeightedY(slots) * CELL);
  }

  // The centre of mass of a body at its reference pose is the mean of its cells' centres, rounded.
  lemma ComIsMean(b: Body)
    requires AtReference(b) && b.inertia.mass > 0
    ensures 2 * Abs(b.inertia.mass * Com(b).0 - MomentX(b.slots, b.raster)) <= b.inertia.mass
    ensures 2 * Abs(b.inertia.mass * Com(b).1 - MomentY(b.slots, b.raster)) <= b.inertia.mass
  {
    ReferenceIsOnRaster(b);
    CenterIsMean(b.slots, b.raster, b.anchor, b.inertia);
  }

  // ------------------------------------------------------- the rigid motion

  // What the cells carry along x and y in the motion of a whole that turns about com, each cell with
  // the velocity of its own place, times TURN.
  function CarriedX(slots: seq<Slot>, raster: seq<CellPos>, source: Body, com: (int, int)): int
    requires |slots| == |raster|
  {
    if slots == [] then 0
    else
      var n := |slots| - 1;
      CarriedX(slots[..n], raster[..n], source, com)
        + Heaviness(slots[n].material) * (TURN * source.vx - RADIANS * source.spin * (Middle(raster[n].y) - com.1))
  }

  function CarriedY(slots: seq<Slot>, raster: seq<CellPos>, source: Body, com: (int, int)): int
    requires |slots| == |raster|
  {
    if slots == [] then 0
    else
      var n := |slots| - 1;
      CarriedY(slots[..n], raster[..n], source, com)
        + Heaviness(slots[n].material) * (TURN * source.vy + RADIANS * source.spin * (Middle(raster[n].x) - com.0))
  }

  lemma CarryOne(h: int, mass: int, moment: int, v: int, turn: int, at: int, com: int)
    ensures mass * v + turn * (moment - mass * com) + h * (v + turn * (at - com))
      == (mass + h) * v + turn * (moment + h * at - (mass + h) * com)
  {
    assert h * (v + turn * (at - com)) == h * v + turn * (h * at - h * com);
    assert turn * (moment - mass * com) + turn * (h * at - h * com) == turn * (moment + h * at - (mass + h) * com);
  }

  lemma {:induction false} CarriedSums(slots: seq<Slot>, raster: seq<CellPos>, source: Body, com: (int, int))
    requires |slots| == |raster|
    ensures CarriedX(slots, raster, source, com)
      == MassOf(slots) * (TURN * source.vx) + (-RADIANS * source.spin) * (MomentY(slots, raster) - MassOf(slots) * com.1)
    ensures CarriedY(slots, raster, source, com)
      == MassOf(slots) * (TURN * source.vy) + (RADIANS * source.spin) * (MomentX(slots, raster) - MassOf(slots) * com.0)
  {
    if slots != [] {
      var n := |slots| - 1;
      CarriedSums(slots[..n], raster[..n], source, com);
      var h, mass := Heaviness(slots[n].material), MassOf(slots[..n]);
      CarryOne(
        h, mass, MomentY(slots[..n], raster[..n]), TURN * source.vx, -RADIANS * source.spin, Middle(raster[n].y), com.1);
      CarryOne(
        h, mass, MomentX(slots[..n], raster[..n]), TURN * source.vy, RADIANS * source.spin, Middle(raster[n].x), com.0);
      Negated(RADIANS * source.spin, Middle(raster[n].y) - com.1);
    }
  }

  lemma Negated(a: int, b: int)
    ensures (-a) * b == -(a * b)
  {
  }

  // The speed of a place is the spin's, rounded: with the lever and the spin it turns its sign.
  lemma SpeedIsNearest(spin: int, lever: int)
    ensures 2 * Abs(TURN * SpeedAt(spin, lever) - RADIANS * spin * lever) <= TURN
  {
    NearestMultiple(RADIANS * spin * lever, TURN);
  }

  // How far apart the momentum of a whole and of its cells can be along one axis, from two roundings.
  lemma TwoRoundings(mass: int, v: int, speed: int, turn: int, at: int, moment: int, com: int)
    requires mass > 0 && 2 * Abs(TURN * speed - turn * (at - com)) <= TURN && 2 * Abs(mass * at - moment) <= mass
    ensures 2 * Abs(TURN * (mass * (v + speed)) - (mass * (TURN * v) + turn * (moment - mass * com)))
      <= mass * (TURN + Abs(turn))
  {
    var e, f := TURN * speed - turn * (at - com), mass * at - moment;
    ErrorsAddUp(TURN, mass, v, speed, turn, at, moment, com);
    AbsOfProduct(mass, e, TURN);
    AbsOfProduct(turn, f, mass);
  }

  lemma ErrorsAddUp(unit: int, mass: int, v: int, speed: int, turn: int, at: int, moment: int, com: int)
    ensures unit * (mass * (v + speed)) - (mass * (unit * v) + turn * (moment - mass * com))
      == mass * (unit * speed - turn * (at - com)) + turn * (mass * at - moment)
  {
  }

  lemma AbsOfProduct(a: int, b: int, bound: int)
    requires 2 * Abs(b) <= bound
    ensures 2 * Abs(a * b) <= Abs(a) * bound
  {
    assert Abs(a * b) == Abs(a) * Abs(b);
    assert Abs(a) * (bound - 2 * Abs(b)) >= 0;
    assert Abs(a) * (bound - 2 * Abs(b)) == Abs(a) * bound - 2 * (Abs(a) * Abs(b));
  }

  // Each part of a broken body carries what its cells carried in the whole, up to rounding its centre
  // and its speed: half a unit of speed for its mass, and half a unit of lever for its spin.
  lemma PartKeepsMomentum(part: Body, source: Body, com: (int, int))
    requires part.inertia.mass > 0 && MovesAlong(part, source, com)
    ensures 2 * Abs(TURN * (part.inertia.mass * part.vx) - CarriedX(part.slots, part.raster, source, com))
      <= part.inertia.mass * (TURN + RADIANS * Abs(source.spin))
    ensures 2 * Abs(TURN * (part.inertia.mass * part.vy) - CarriedY(part.slots, part.raster, source, com))
      <= part.inertia.mass * (TURN + RADIANS * Abs(source.spin))
  {
    ReferenceIsOnRaster(part);
    ComIsMean(part);
    CarriedSums(part.slots, part.raster, source, com);
    CarriesAlong(
      part.inertia.mass, part.vx, part.vy, source, com, Com(part),
      MomentX(part.slots, part.raster), MomentY(part.slots, part.raster));
  }

  lemma CarriesAlong(mass: int, vx: int, vy: int, source: Body, com: (int, int), center: (int, int), x: int, y: int)
    requires mass > 0 && 2 * Abs(mass * center.0 - x) <= mass && 2 * Abs(mass * center.1 - y) <= mass
    requires vx == source.vx - SpeedAt(source.spin, center.1 - com.1)
    requires vy == source.vy + SpeedAt(source.spin, center.0 - com.0)
    ensures 2 * Abs(TURN * (mass * vx) - (mass * (TURN * source.vx) + (-RADIANS * source.spin) * (y - mass * com.1)))
      <= mass * (TURN + RADIANS * Abs(source.spin))
    ensures 2 * Abs(TURN * (mass * vy) - (mass * (TURN * source.vy) + (RADIANS * source.spin) * (x - mass * com.0)))
      <= mass * (TURN + RADIANS * Abs(source.spin))
  {
    var turn := RADIANS * source.spin;
    SpeedIsNearest(source.spin, center.1 - com.1);
    SpeedIsNearest(source.spin, center.0 - com.0);
    Negated(turn, center.1 - com.1);
    TwoRoundings(mass, source.vx, -SpeedAt(source.spin, center.1 - com.1), -turn, center.1, y, com.1);
    TwoRoundings(mass, source.vy, SpeedAt(source.spin, center.0 - com.0), turn, center.0, x, com.0);
    assert Abs(turn) == Abs(-turn) == RADIANS * Abs(source.spin);
  }
}
