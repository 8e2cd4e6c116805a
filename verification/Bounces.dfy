// What a moving cell is left with after it was stopped (collide of crates/fallingsand_sim/src/motion.rs
// and the impacts of liquid.rs there): it does not go on into what stopped it, and gains no speed.
module Bounces {
  import opened Wrappers
  import opened Materials
  import opened Cells
  import opened Coords
  import opened Windows
  import opened Numbers
  import opened Motion
  import opened Courses
  import opened Fluids

  lemma KeptIsNoMore(keep: nat, v: int)
    requires keep <= ONE_Q16
    ensures Abs(ApplyQ16(keep, v)) <= Abs(v) && ApplyQ16(keep, v) * v >= 0
  {
    SizeOfProduct(v, keep);
    AtMostWhole(Abs(v), keep);
    var kept := (Abs(v) * keep + 0x8000) / ONE_Q16;
    SameSign(kept, v);
  }

  lemma SizeOfProduct(v: int, keep: nat)
    ensures Abs(v * keep) == Abs(v) * keep && (v * keep < 0 ==> v < 0) && (v < 0 && v * keep >= 0 ==> Abs(v) * keep == 0)
  {
    if v < 0 {
      assert v * keep == -(-v * keep);
    }
  }

  lemma AtMostWhole(size: nat, keep: nat)
    requires keep <= ONE_Q16
    ensures (size * keep + 0x8000) / ONE_Q16 <= size
  {
    assert size * keep <= size * ONE_Q16;
  }

  lemma SameSign(kept: int, v: int)
    requires kept >= 0
    ensures v < 0 ==> -kept * v >= 0
    ensures v >= 0 ==> kept * v >= 0
  {
    if v < 0 {
      assert -kept * v == kept * -v;
    }
  }

  // What is kept goes the same way, and is no more.
  lemma KeptGoesOn(keep: nat, v: int)
    requires keep <= ONE_Q16
    ensures v > 0 ==> 0 <= ApplyQ16(keep, v) <= v
    ensures v < 0 ==> v <= ApplyQ16(keep, v) <= 0
    ensures v == 0 ==> ApplyQ16(keep, v) == 0
  {
    KeptIsNoMore(keep, v);
    SignsDiffer(ApplyQ16(keep, v), v);
  }

  lemma SignsDiffer(a: int, b: int)
    ensures a < 0 < b || b < 0 < a ==> a * b < 0
  {
  }

  // ------------------------------------------------------------- a liquid's impact

  // A liquid that falls onto a floor goes on sideways, into an open side and with no more than the
  // speed it had; the way it was going first. It stops only if both sides are closed or nothing is kept.
  lemma RedirectTurnsAside(w: Window, pos: CellPos, vx: int, vy: int, keep: nat, right: bool)
    requires keep <= ONE_Q16
    ensures var ((x, y), speed) := (Redirected(w, pos, vx, vy, keep, right), ApplyQ16(keep, VectorLength(vx, vy)));
      var east := EntryOf(w, Fluid, 0, pos.Translated(1, 0)) == Open;
      var west := EntryOf(w, Fluid, 0, pos.Translated(-1, 0)) == Open;
      y == 0 && TurnsAside(x, speed, vx, east, west) && x * x <= vx * vx + vy * vy
  {
    var length, speed := VectorLength(vx, vy), ApplyQ16(keep, VectorLength(vx, vy));
    KeptIsNoMore(keep, length);
    var side := OpenSideOf(w, pos, Preferred(vx, right));
    SidedSpeed(side, speed);
    SquareGrows(speed, length);
  }

  ghost predicate TurnsAside(x: int, speed: int, vx: int, east: bool, west: bool) {
    && (x > 0 ==> east) && (x < 0 ==> west) && (x != 0 ==> Abs(x) == speed)
    && (x == 0 <==> speed == 0 || (!east && !west))
    && (vx > 0 && east ==> x >= 0) && (vx < 0 && west ==> x <= 0)
  }

  lemma SidedSpeed(side: int, speed: int)
    requires side == 0 || side == 1 || side == -1
    ensures side * speed == if side == 0 then 0 else if side == 1 then speed else -speed
    ensures (side * speed) * (side * speed) <= speed * speed
  {
    if side == -1 {
      assert -speed * -speed == speed * speed;
    }
  }

  lemma SquareGrows(a: nat, b: nat)
    requires a <= b
    ensures a * a <= b * b
  {
    assert a * a <= a * b <= b * b;
  }

  // A floor that is no body's leaves a liquid nothing but speed sideways, no more than it had.
  lemma FloorStops(b: Bump, cell: Cell, travel: Travelled, right: bool)
    requires CONTENT.liquidImpact(cell.material) <= ONE_Q16
    requires travel.blockedY < 0 && !b.window.Tagged(travel.pos.Translated(0, -1))
    ensures var after := Impacted(b, cell, travel, right);
      after.window == b.window && after.vy == 0 && after.vx * after.vx <= b.vx * b.vx + b.vy * b.vy
  {
    RedirectTurnsAside(b.window, travel.pos, b.vx, b.vy, CONTENT.liquidImpact(cell.material), right);
  }

  // A ceiling that is no body's stops a liquid upward.
  lemma CeilingStops(b: Bump, cell: Cell, travel: Travelled)
    ensures var after := CeilingHit(b, cell, travel);
      && after.vx == b.vx && (after.vy == b.vy || after.vy == 0) && (travel.blockedY <= 0 ==> after == b)
      && (travel.blockedY > 0 && !b.window.Tagged(travel.pos.Translated(0, 1)) ==> after.vy == 0)
      && forall p: CellPos :: after.window.At(p) == b.window.At(p)
  {
  }

  // A wall that is no body's throws it back, with no more than the speed it had.
  lemma WallThrowsBack(b: Bump, cell: Cell, travel: Travelled)
    requires CONTENT.liquidImpact(cell.material) <= ONE_Q16
    ensures var after := WallHit(b, cell, travel);
      && after.vy == b.vy && Abs(after.vx) <= Abs(b.vx) && (travel.blockedX == 0 ==> after == b)
      && (travel.blockedX != 0 && !b.window.Tagged(travel.pos.Translated(travel.blockedX, 0)) ==>
            (b.vx > 0 ==> after.vx <= 0) && (b.vx < 0 ==> after.vx >= 0))
  {
    KeptGoesOn(CONTENT.liquidImpact(cell.material), b.vx);
  }

  // So a liquid that was stopped on its way up or sideways is left with what the two leave it.
  lemma WallStops(b: Bump, cell: Cell, travel: Travelled, right: bool)
    requires CONTENT.liquidImpact(cell.material) <= ONE_Q16 && travel.blockedY >= 0
    ensures var after := Impacted(b, cell, travel, right);
      && (travel.blockedY > 0 && !b.window.Tagged(travel.pos.Translated(0, 1)) ==> after.vy == 0)
      && (travel.blockedX != 0 && !b.window.Tagged(travel.pos.Translated(travel.blockedX, 0)) ==>
            (b.vx > 0 ==> after.vx <= 0) && (b.vx < 0 ==> after.vx >= 0))
      && Abs(after.vy) <= Abs(b.vy) && Abs(after.vx) <= Abs(b.vx)
      && (travel.blockedX == 0 && travel.blockedY == 0 ==> after == b)
  {
    var stopped := CeilingHit(b, cell, travel);
    CeilingStops(b, cell, travel);
    WallThrowsBack(stopped, cell, travel);
    assert Impacted(b, cell, travel, right) == WallHit(stopped, cell, travel);
    if travel.blockedX != 0 {
      var wall := travel.pos.Translated(travel.blockedX, 0);
      assert stopped.window.Tagged(wall) == b.window.Tagged(wall);
    }
  }

  // Over something lighter that is no liquid, a liquid does not come to rest, however slow; over
  // anything else it does, when it is slow.
  lemma SlowLiquidsFallOn(w: Window, pos: CellPos, cell: Cell, d: Draws)
    requires cell.motion.Velocity?
    requires var s := Walked(w, pos, cell, Fluid, d); Loose(s.window, s.travel.pos)
    ensures var s := Walked(w, pos, cell, Fluid, d);
      var here := s.window.At(s.travel.pos).value;
      var b := Impacted(Bump(s.window, here.motion.vx, here.motion.vy), cell, s.travel, d.right);
      var floor := s.travel.pos.Translated(0, -1);
      var falls := Loose(b.window, floor)
        && (b.window.At(floor).value.Phase() == Empty || b.window.At(floor).value.Phase() == Gas)
        && CONTENT.densityMilli(b.window.At(floor).value.material) < CONTENT.densityMilli(here.material);
      LiquidMoved(w, pos, cell, d) == Slowed(b.window, s.travel.pos, here, b.vx, b.vy, !falls)
  {
  }

  // ------------------------------------------------------------ a grain's collisions

  // The part of a velocity that goes into a neighbour.
  function Into(b: Bump, i: nat): int
    requires i < |NEIGHBOURS|
  {
    var (dx, dy) := NEIGHBOURS[i];
    if dx != 0 then b.vx * dx else b.vy * dy
  }

  // A neighbour takes speed from a grain that goes for it and gives none; a solid throws it back.
  // Across the direction of the neighbour nothing happens.
  lemma BumpGivesNothing(b: Bump, cell: Cell, here: CellPos, i: nat)
    requires i < |NEIGHBOURS| && CONTENT.restitution(cell.material) <= ONE_Q16
    requires cell.Phase() != Solid && cell.Phase() != Empty
    ensures var after, (dx, dy) := Bumped(b, cell, here, i), NEIGHBOURS[i];
      var target := here.Translated(dx, dy);
      && Into(after, i) <= Into(b, i)
      && (if dx != 0 then after.vy == b.vy else after.vx == b.vx)
      && (Into(b, i) <= 0 ==> after == b)
      && (Into(b, i) > 0 && Loose(b.window, target) && b.window.At(target).value.Phase() == Solid ==>
            Into(after, i) <= 0 && Into(b, i) + Into(after, i) >= 0 && after.window == b.window)
  {
    var (dx, dy) := NEIGHBOURS[i];
    assert (dx, dy) == (0, -1) || (dx, dy) == (-1, 0) || (dx, dy) == (1, 0) || (dx, dy) == (0, 1);
    var velocity := if dx != 0 then b.vx else b.vy;
    KeptGoesOn(CONTENT.restitution(cell.material), velocity);
  }

  // --------------------------------------------------------------- what is written

  // A velocity is written as it is, but capped; it is given up exactly if the cell is settled and slow.
  lemma SlowCellsSettle(vx: int, vy: int, settled: bool)
    ensures var (x, y) := WrittenVelocity(vx, vy, settled);
      && Abs(x) <= MAX_COMPONENT_RAW && Abs(y) <= MAX_COMPONENT_RAW
      && ((x, y) == (0, 0) <==> (vx, vy) == (0, 0) || (settled && vx * vx + vy * vy < SETTLE * SETTLE))
      && ((x, y) != (0, 0) && Abs(vx) <= MAX_COMPONENT_RAW && Abs(vy) <= MAX_COMPONENT_RAW ==> (x, y) == (vx, vy))
  {
    var length := VectorLength(vx, vy);
    if length < SETTLE {
      SquareGrows(length + 1, SETTLE);
    } else {
      SquareGrows(SETTLE, length);
    }
  }

  // A grain settles only on what it cannot go into: a solid, a powder, a body, or something of its own
  // weight or heavier; a gas only under what it cannot go into, which is what has its own weight.
  lemma GrainsSettleOnTheirWeight(w: Window, cell: Cell, here: CellPos, vx: int, vy: int)
    requires Loose(w, here)
    ensures var next := here.Translated(0, if cell.Phase() == Gas then 1 else -1);
      var (mine, other) :=
        (CONTENT.densityMilli(cell.material), if w.At(next).Some? then CONTENT.densityMilli(w.At(next).value.material) else 0);
      var goesOn := Loose(w, next) && w.At(next).value.Phase() != Solid && w.At(next).value.Phase() != Powder
        && (other < mine || (cell.Phase() == Gas && other > mine));
      Rested(w, cell, here, vx, vy) == Slowed(w, here, w.At(here).value, vx, vy, !goesOn)
  {
  }

  // ----------------------------------------------------- a heavier liquid sinking

  // The speed it gains sideways is paid for: with what the lighter one gains in return, its energy is at
  // most what sinking by one cell sets free, and it is as fast as that allows.
  lemma SinkingPaysForThePush(mover: MaterialId, displaced: MaterialId, sinking: bool)
    ensures var (m1, m2, v) := (Heaviness(mover), Heaviness(displaced), DensityExchangeSpeed(mover, displaced, sinking));
      && (v > 0 ==> sinking && m1 > m2 && CONTENT.phase(mover) == Liquid && CONTENT.phase(displaced) == Liquid)
      && (v > 0 ==> v * v * (m1 * (m1 + m2)) <= 2 * GRAVITY_DV * SUBCELL_UNITS_PER_CELL * (m1 - m2) * m2)
      && (sinking && m1 > m2 && CONTENT.phase(mover) == Liquid && CONTENT.phase(displaced) == Liquid ==>
            (v + 1) * (v + 1) * (m1 * (m1 + m2)) > 2 * GRAVITY_DV * SUBCELL_UNITS_PER_CELL * (m1 - m2) * m2)
  {
    var m1: nat, m2: nat := Heaviness(mover), Heaviness(displaced);
    if sinking && m1 > m2 && CONTENT.phase(mover) == Liquid && CONTENT.phase(displaced) == Liquid {
      assert m1 * (m1 + m2) > 0 && 2 * GRAVITY_DV * SUBCELL_UNITS_PER_CELL * (m1 - m2) * m2 >= 0;
      RootOfQuotient(2 * GRAVITY_DV * SUBCELL_UNITS_PER_CELL * (m1 - m2) * m2, m1 * (m1 + m2));
    }
  }

  lemma RootOfQuotient(n: nat, d: nat)
    requires d > 0
    ensures var v := Isqrt(n / d); v * v * d <= n < (v + 1) * (v + 1) * d
  {
    Whole(n, d);
    RootOf(n, n / d, d);
  }

  lemma Whole(n: nat, d: nat)
    requires d > 0
    ensures n / d * d <= n < n / d * d + d
  {
  }

  lemma RootOf(n: nat, q: nat, d: nat)
    requires q * d <= n < q * d + d
    ensures var v := Isqrt(q); v * v * d <= n < (v + 1) * (v + 1) * d
  {
    var v := Isqrt(q);
    Scaled(v * v, q, d);
    Scaled(q + 1, (v + 1) * (v + 1), d);
    assert (q + 1) * d == q * d + d;
  }

  lemma Scaled(a: nat, b: nat, d: nat)
    requires a <= b
    ensures a * d <= b * d
  {
  }

  // What is kept of a wake: what the liquid that gives way keeps, or the mover's share if that is a
  // liquid too and keeps less.
  lemma LesserKeepCounts(mover: MaterialId, displaced: MaterialId)
    ensures var keep := LiquidWakeKeep(mover, displaced);
      && keep <= CONTENT.liquidImpact(displaced)
      && (CONTENT.phase(mover) == Liquid ==> keep <= CONTENT.liquidImpact(mover))
      && (keep == CONTENT.liquidImpact(displaced) || (CONTENT.phase(mover) == Liquid && keep == CONTENT.liquidImpact(mover)))
  {
  }
}
