// What the inertia of a body means (inertia of crates/fallingsand_sim/src/body/state.rs, and body_energy
// of body/contact.rs): it answers for the cells the body is made of.
module Weighing {
  import opened Materials
  import opened Numbers
  import opened BodyState
  import opened Contact

  // ------------------------------------------------------------- reach and surface

  // The radius reaches every cell's centre from the centre of mass, and is the least number of
  // whole cells that reaches beyond all of them.
  lemma RadiusReachesAll(slots: seq<Slot>)
    requires slots != []
    ensures var i := InertiaOf(slots);
      && (forall s | s in slots :: Arm(s, i.localCom) < (i.radius * CELL) * (i.radius * CELL))
      && exists s | s in slots :: Arm(s, i.localCom) >= ((i.radius - 1) * CELL) * ((i.radius - 1) * CELL)
  {
    var com := InertiaOf(slots).localCom;
    ReachIsFarthest(slots, com);
    var reach := ReachOf(slots, com);
    RadiusBounds(Isqrt(reach), reach);
    var s :| s in slots && Arm(s, com) == reach;
  }

  lemma ArmIsNonNegative(s: Slot, com: (int, int))
    ensures Arm(s, com) >= 0
  {
    Square(s.local.0 * CELL - com.0);
    Square(s.local.1 * CELL - com.1);
  }

  lemma {:induction false} ReachIsFarthest(slots: seq<Slot>, com: (int, int))
    requires slots != []
    ensures forall s | s in slots :: Arm(s, com) <= ReachOf(slots, com)
    ensures exists s | s in slots :: Arm(s, com) == ReachOf(slots, com)
  {
    var last := |slots| - 1;
    ArmIsNonNegative(slots[last], com);
    assert slots == slots[..last] + [slots[last]];
    if last > 0 {
      ReachIsFarthest(slots[..last], com);
      var s :| s in slots[..last] && Arm(s, com) == ReachOf(slots[..last], com);
      assert s in slots && slots[last] in slots;
    } else {
      assert slots[..last] == [] && slots[0] in slots;
    }
  }

  lemma RadiusBounds(root: nat, reach: nat)
    requires root * root <= reach < (root + 1) * (root + 1)
    ensures var radius := root / CELL + 1;
      ((radius - 1) * CELL) * ((radius - 1) * CELL) <= reach < (radius * CELL) * (radius * CELL)
  {
    var q := root / CELL;
    assert q * CELL <= root < q * CELL + CELL;
    SquaresGrow(q * CELL, root);
    SquaresGrow(root + 1, (q + 1) * CELL);
  }

  lemma SquaresGrow(a: nat, b: nat)
    requires a <= b
    ensures a * a <= b * b
  {
    assert a * a <= a * b <= b * b;
  }

  // The body bounces like its bounciest cell, and slides like its slickest.
  lemma {:induction false} SurfaceIsExtreme(slots: seq<Slot>)
    requires slots != []
    ensures forall s | s in slots ::
      CONTENT.restitution(s.material) <= Bounciest(slots) && Slickest(slots) <= CONTENT.friction(s.material)
    ensures exists s | s in slots :: CONTENT.restitution(s.material) == Bounciest(slots)
    ensures Slickest(slots) == FRICTION_NONE || exists s | s in slots :: CONTENT.friction(s.material) == Slickest(slots)
  {
    var last := |slots| - 1;
    assert slots == slots[..last] + [slots[last]];
    assert slots[last] in slots;
    if last > 0 {
      SurfaceIsExtreme(slots[..last]);
      var s :| s in slots[..last] && CONTENT.restitution(s.material) == Bounciest(slots[..last]);
      assert s in slots;
    } else {
      assert slots[..last] == [];
    }
  }

  // ----------------------------------------------------------------- the energy

  // Each cell as a particle of its own, carried along and round the centre.
  function CellsEnergy(slots: seq<Slot>, com: (int, int), vx: int, vy: int, turn: int): int {
    if slots == [] then 0
    else
      var last := slots[|slots| - 1];
      var dx, dy := last.local.0 * CELL - com.0, last.local.1 * CELL - com.1;
      CellsEnergy(slots[..|slots| - 1], com, vx, vy, turn)
      + Heaviness(last.material) * ((vx - turn * dy) * (vx - turn * dy) + (vy + turn * dx) * (vy + turn * dx))
  }

  // The cells' moment as points.
  function PointMoment(slots: seq<Slot>, com: (int, int)): int {
    if slots == [] then 0
    else
      PointMoment(slots[..|slots| - 1], com)
      + Heaviness(slots[|slots| - 1].material) * Arm(slots[|slots| - 1], com)
  }

  // How far the rounded centre is off, times the mass.
  function Offset(slots: seq<Slot>, com: (int, int)): (int, int) {
    (WeightedX(slots) * CELL - MassOf(slots) * com.0, WeightedY(slots) * CELL - MassOf(slots) * com.1)
  }

  lemma OneCellsEnergy(m: int, vx: int, vy: int, turn: int, dx: int, dy: int)
    ensures m * ((vx - turn * dy) * (vx - turn * dy) + (vy + turn * dx) * (vy + turn * dx))
      == m * (vx * vx + vy * vy) + 2 * turn * (vy * (m * dx) - vx * (m * dy)) + turn * turn * (m * (dx * dx + dy * dy))
  {
    var p, q := turn * dy, turn * dx;
    SquareOfDifference(vx, p);
    SquareOfDifference(vy, -q);
    Shuffled(m, vx, turn, dy);
    Shuffled(m, vy, turn, dx);
    SquareShuffled(m, turn, dx);
    SquareShuffled(m, turn, dy);
    Collected(m, vx * vx + vy * vy, vx * p, vy * q, p * p, q * q);
    TwiceTurned(turn, vy * (m * dx), vx * (m * dy));
    Gathered(turn * turn, m, dx * dx, dy * dy);
  }

  lemma SquareOfDifference(a: int, b: int)
    ensures (a - b) * (a - b) == a * a - 2 * (a * b) + b * b
  {
  }

  lemma Shuffled(m: int, v: int, t: int, d: int)
    ensures m * (v * (t * d)) == t * (v * (m * d))
  {
  }

  lemma SquareShuffled(m: int, t: int, d: int)
    ensures m * ((t * d) * (t * d)) == t * t * (m * (d * d))
  {
  }

  lemma Collected(m: int, v: int, a: int, b: int, c: int, d: int)
    ensures m * (v - 2 * a + c + 2 * b + d) == m * v - 2 * (m * a) + m * c + 2 * (m * b) + m * d
  {
  }

  lemma TwiceTurned(t: int, a: int, b: int)
    ensures 2 * t * (a - b) == 2 * (t * a) - 2 * (t * b)
  {
  }

  lemma Gathered(square: int, m: int, a: int, b: int)
    ensures square * (m * (a + b)) == square * (m * a) + square * (m * b)
  {
  }

  lemma {:induction false} EnergySplits(slots: seq<Slot>, com: (int, int), vx: int, vy: int, turn: int)
    ensures CellsEnergy(slots, com, vx, vy, turn)
      == MassOf(slots) * (vx * vx + vy * vy)
         + 2 * turn * (vy * Offset(slots, com).0 - vx * Offset(slots, com).1)
         + turn * turn * PointMoment(slots, com)
  {
    if slots != [] {
      var last := slots[|slots| - 1];
      var before := slots[..|slots| - 1];
      var dx, dy := last.local.0 * CELL - com.0, last.local.1 * CELL - com.1;
      EnergySplits(before, com, vx, vy, turn);
      OneCellsEnergy(Heaviness(last.material), vx, vy, turn, dx, dy);
      OffsetAdds(slots, com);
      SumsAdd(
        MassOf(before), Heaviness(last.material), vx * vx + vy * vy, turn, vx, vy, Offset(before, com),
        (Heaviness(last.material) * dx, Heaviness(last.material) * dy), turn * turn, PointMoment(before, com),
        Heaviness(last.material) * Arm(last, com));
    }
  }

  lemma OffsetAdds(slots: seq<Slot>, com: (int, int))
    requires slots != []
    ensures var (last, before) := (slots[|slots| - 1], Offset(slots[..|slots| - 1], com));
      && Offset(slots, com).0 == before.0 + Heaviness(last.material) * (last.local.0 * CELL - com.0)
      && Offset(slots, com).1 == before.1 + Heaviness(last.material) * (last.local.1 * CELL - com.1)
  {
  }

  lemma SumsAdd(
    m: int, n: int, v: int, turn: int, vx: int, vy: int, a: (int, int), b: (int, int), square: int, p: int, q: int)
    ensures m * v + 2 * turn * (vy * a.0 - vx * a.1) + square * p + (n * v + 2 * turn * (vy * b.0 - vx * b.1) + square * q)
      == (m + n) * v + 2 * turn * (vy * (a.0 + b.0) - vx * (a.1 + b.1)) + square * (p + q)
  {
  }

  lemma {:induction false} MomentIsOfPoints(slots: seq<Slot>, com: (int, int))
    ensures PointMoment(slots, com) <= MomentOf(slots, com) <= PointMoment(slots, com) + MassOf(slots) * (CELL * CELL / 6)
  {
    if slots != [] {
      var last := slots[|slots| - 1];
      MomentIsOfPoints(slots[..|slots| - 1], com);
      ArmIsNonNegative(last, com);
      AtLeastASquare(Heaviness(last.material), Arm(last, com), CELL * CELL / 6);
      MassAdds(slots, CELL * CELL / 6);
    }
  }

  lemma {:induction false} MassAdds(slots: seq<Slot>, k: int)
    requires slots != []
    ensures MassOf(slots) * k == MassOf(slots[..|slots| - 1]) * k + Heaviness(slots[|slots| - 1].material) * k
  {
    SumScaled(MassOf(slots[..|slots| - 1]), Heaviness(slots[|slots| - 1].material), k);
  }

  lemma SumScaled(a: int, b: int, k: int)
    ensures (a + b) * k == a * k + b * k
  {
  }

  lemma AtLeastASquare(m: nat, arm: nat, least: nat)
    ensures m * arm <= m * (if arm > least then arm else least) <= m * arm + m * least
  {
  }

  lemma CentreIsRounded(slots: seq<Slot>)
    requires slots != []
    ensures var off := Offset(slots, InertiaOf(slots).localCom);
      2 * Abs(off.0) <= MassOf(slots) && 2 * Abs(off.1) <= MassOf(slots)
  {
    var m := MassOf(slots);
    NearestQuotient(WeightedX(slots) * CELL, m);
    NearestQuotient(WeightedY(slots) * CELL, m);
  }

  // A body's energy is that of its cells, carried along and round its centre of mass. It differs by
  // what the rounding of the centre makes of it, and by the cells that lie so close to the centre
  // that they count as a square.
  lemma BodyEnergyIsItsCells(body: Body)
    requires body.slots != [] && body.inertia == InertiaOf(body.slots)
    ensures var (turn, off) := (body.spin * TAU_NUMERATOR, Offset(body.slots, body.inertia.localCom));
      var close := body.inertia.moment - PointMoment(body.slots, body.inertia.localCom);
      && CellsEnergy(
           body.slots, body.inertia.localCom, RADIANS_PER_TURN * body.vx, RADIANS_PER_TURN * body.vy, turn)
         == BodyEnergy(body) - turn * turn * close
            + 2 * turn * (RADIANS_PER_TURN * body.vy * off.0 - RADIANS_PER_TURN * body.vx * off.1)
      && 2 * Abs(off.0) <= body.inertia.mass && 2 * Abs(off.1) <= body.inertia.mass
      && 0 <= close <= body.inertia.mass * (CELL * CELL / 6)
  {
    var (com, turn, r) := (body.inertia.localCom, body.spin * TAU_NUMERATOR, RADIANS_PER_TURN);
    CentreIsRounded(body.slots);
    MomentIsOfPoints(body.slots, com);
    EnergySplits(body.slots, com, r * body.vx, r * body.vy, turn);
    SpeedsScale(body.inertia.mass, r, body.vx, body.vy);
    Remainder(turn * turn, body.inertia.moment, PointMoment(body.slots, com));
  }

  lemma SpeedsScale(m: int, r: int, vx: int, vy: int)
    ensures m * ((r * vx) * (r * vx) + (r * vy) * (r * vy)) == m * (vx * vx + vy * vy) * (r * r)
  {
    assert (r * vx) * (r * vx) == vx * vx * (r * r) && (r * vy) * (r * vy) == vy * vy * (r * r);
  }

  lemma Remainder(square: int, moment: int, points: int)
    ensures moment * square - square * (moment - points) == square * points
  {
  }
}
