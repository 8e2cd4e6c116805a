// How a cell travels (crates/fallingsand_sim/src/motion.rs). Hash draws and rng draws
// are arbitrary values. A move begun at `pos` reads, writes and marks within
// SPEED_OF_LIGHT cells of it: at most 62 steps, one cell further for what it meets,
// and one more for the marks around a write.
module Motion {
  import opened Wrappers
  import opened Materials
  import opened Cells
  import opened Coords
  import opened Windows
  import opened Numbers

  const MAX_SPEED_CELLS: nat := 31
  const MAX_TRAVEL: nat := 62
  const SUBCELL_UNITS_PER_CELL: nat := 1024
  const MAX_COMPONENT_RAW: int := 31 * 1024
  const SETTLE: int := 128
  const GRAVITY_DV: int := 171
  const ONE_Q16: nat := 0x1_0000

  // ------------------------------------------------------------- arithmetic

  // Division rounded to the nearest, halves away from zero.
  function DivideSigned(n: int, d: nat): (q: int)
    requires d > 0
    ensures n >= 0 ==> q >= 0
    ensures n <= 0 ==> q <= 0
  {
    var magnitude := (Abs(n) + d / 2) / d;
    if n < 0 then -magnitude else magnitude
  }

  function VectorLength(vx: int, vy: int): nat {
    assert vx * vx >= 0 && vy * vy >= 0;
    Isqrt(vx * vx + vy * vy)
  }

  // Q16.apply and Q16.mul.
  function ApplyQ16(raw: nat, v: int): int {
    var product := v * raw;
    var magnitude := (Abs(product) + 0x8000) / ONE_Q16;
    if product < 0 then -magnitude else magnitude
  }

  function MulQ16(a: nat, b: nat): nat {
    (a * b + 0x8000) / ONE_Q16
  }

  // The whole cells of a speed, and one more when the draw falls below the fraction.
  function StepCells(velocity: int, draw: nat): int {
    var magnitude := Abs(velocity);
    var cells := magnitude / SUBCELL_UNITS_PER_CELL + if draw < magnitude % SUBCELL_UNITS_PER_CELL then 1 else 0;
    (if cells < MAX_SPEED_CELLS then cells else MAX_SPEED_CELLS) * Signum(velocity)
  }

  // A step count goes with the velocity and is off by less than a cell, unless it is capped.
  lemma StepCellsTrackVelocity(velocity: int, draw: nat)
    requires draw < SUBCELL_UNITS_PER_CELL
    ensures Abs(StepCells(velocity, draw)) <= MAX_SPEED_CELLS
    ensures Abs(velocity) <= MAX_COMPONENT_RAW ==>
      Abs(StepCells(velocity, draw) * SUBCELL_UNITS_PER_CELL - velocity) < SUBCELL_UNITS_PER_CELL
    ensures StepCells(velocity, draw) * velocity >= 0
  {
    var steps := Abs(StepCells(velocity, draw));
    assert StepCells(velocity, draw) == steps || StepCells(velocity, draw) == -steps;
    if velocity < 0 {
      assert StepCells(velocity, draw) == -steps;
      assert (-steps) * velocity == steps * -velocity;
    }
  }

  lemma DivideSignedIsNearest(n: int, d: nat)
    requires d > 0
    ensures 2 * Abs(DivideSigned(n, d) * d - n) <= d
  {
    var q := (Abs(n) + d / 2) / d;
    assert Abs(n) + d / 2 == q * d + (Abs(n) + d / 2) % d;
    if n < 0 {
      assert DivideSigned(n, d) * d == -(q * d);
    }
  }

  // -------------------------------------------------------------- what admits what

  datatype Entry = Open | Busy | Blocked

  predicate Yields(cell: Cell) {
    cell.motion.Velocity?
    && (cell.Phase() == Empty || cell.Phase() == Liquid || cell.Phase() == Gas)
  }

  predicate Admits(mover: MaterialId, dy: int, target: Cell) {
    && Yields(target)
    && (CONTENT.densityMilli(target.material) < CONTENT.densityMilli(mover)
        || (dy > 0 && CONTENT.densityMilli(target.material) > CONTENT.densityMilli(mover))
        || (dy == 0 && target.IsAir()))
  }

  predicate CanEnter(w: Window, mover: MaterialId, dy: int, target: CellPos) {
    w.At(target).Some? && Admits(mover, dy, w.At(target).value)
  }

  // Who is travelling: a grain with the density rules, or a liquid.
  datatype Mode = Grain(material: MaterialId) | Fluid

  function EntryOf(w: Window, mode: Mode, dy: int, target: CellPos): Entry {
    if w.At(target).None? then Blocked
    else
      var cell := w.At(target).value;
      var admitted := match mode case Grain(material) => Admits(material, dy, cell) case Fluid => Yields(cell);
      if !admitted then Blocked
      else if !cell.IsAir() && cell.moved then Busy
      else Open
  }

  // -------------------------------------------------------- exchange with a liquid

  // forward and transverse part of a relative velocity after the exchange, in Q16.
  function Contrast(moverMass: nat, displacedMass: nat): nat
    requires moverMass > 0 && displacedMass > 0
  {
    var delta := Abs(moverMass - displacedMass);
    var greatest := if moverMass < displacedMass then displacedMass else moverMass;
    delta * 0x1_0000_0000 / greatest
  }

  lemma ContrastIsAFraction(moverMass: nat, displacedMass: nat)
    requires moverMass > 0 && displacedMass > 0
    ensures Contrast(moverMass, displacedMass) <= 0x1_0000_0000
  {
    var delta := Abs(moverMass - displacedMass);
    var greatest := if moverMass < displacedMass then displacedMass else moverMass;
    assert delta * 0x1_0000_0000 <= greatest * 0x1_0000_0000;
    QuotientBound(delta * 0x1_0000_0000, greatest, 0x1_0000_0000);
  }

  lemma QuotientBound(n: nat, d: nat, q: nat)
    requires d > 0 && n <= d * q
    ensures n / d <= q
  {
    assert d * (n / d - q) == d * (n / d) - d * q;
    MultipleIsLarge(d, n / d - q);
  }

  function Scatter(moverMass: nat, displacedMass: nat): (factors: (nat, nat))
    requires moverMass > 0 && displacedMass > 0
  {
    ContrastIsAFraction(moverMass, displacedMass);
    (Isqrt(Contrast(moverMass, displacedMass)), Isqrt(0x1_0000_0000 - Contrast(moverMass, displacedMass)))
  }

  // The scatter makes no speed: its two factors are the legs of a triangle whose
  // hypotenuse is at most one.
  lemma ScatterIsNoGain(moverMass: nat, displacedMass: nat)
    requires moverMass > 0 && displacedMass > 0
    ensures var (forward, transverse) := Scatter(moverMass, displacedMass);
      forward * forward + transverse * transverse <= 0x1_0000_0000
  {
    ContrastIsAFraction(moverMass, displacedMass);
  }

  function LiquidWakeKeep(mover: MaterialId, displaced: MaterialId): nat {
    var retention := CONTENT.liquidImpact(displaced);
    if CONTENT.phase(mover) == Liquid && CONTENT.liquidImpact(mover) < retention
    then CONTENT.liquidImpact(mover) else retention
  }

  // Sideways speed a heavier liquid gains when it sinks below a lighter one.
  function DensityExchangeSpeed(mover: MaterialId, displaced: MaterialId, sinking: bool): nat {
    var m1: nat, m2: nat := Heaviness(mover), Heaviness(displaced);
    if CONTENT.phase(mover) != Liquid || CONTENT.phase(displaced) != Liquid || !sinking || m1 <= m2 then 0
    else
      assert m1 * (m1 + m2) > 0 && 2 * GRAVITY_DV * SUBCELL_UNITS_PER_CELL * (m1 - m2) * m2 >= 0;
      Isqrt(2 * GRAVITY_DV * SUBCELL_UNITS_PER_CELL * (m1 - m2) * m2 / (m1 * (m1 + m2)))
  }

  datatype Velocities = Velocities(moverX: int, moverY: int, displacedX: int, displacedY: int)

  function Wake(mover: Cell, displaced: Cell, side: int): (int, int)
    requires mover.motion.Velocity? && displaced.motion.Velocity?
  {
    Scattered(
      LiquidWakeKeep(mover.material, displaced.material),
      Scatter(Heaviness(mover.material), Heaviness(displaced.material)), side,
      mover.motion.vx - displaced.motion.vx, mover.motion.vy - displaced.motion.vy)
  }

  function Scattered(retention: nat, scatter: (nat, nat), side: int, rx: int, ry: int): (int, int) {
    var f, t := MulQ16(retention, scatter.0), MulQ16(retention, scatter.1);
    (ApplyQ16(f, rx) - side * ApplyQ16(t, ry), ApplyQ16(f, ry) + side * ApplyQ16(t, rx))
  }

  function Exchanged(mover: Cell, displaced: Cell, side: int, sinking: bool): Velocities
    requires mover.motion.Velocity? && displaced.motion.Velocity?
  {
    var m1: nat, m2: nat := Heaviness(mover.material), Heaviness(displaced.material);
    var (wakeX, wakeY) := Wake(mover, displaced, side);
    var density := side * DensityExchangeSpeed(mover.material, displaced.material, sinking);
    var (moverX, displacedX) := AxisExchange(m1, m2, mover.motion.vx, displaced.motion.vx, wakeX, density);
    var (moverY, displacedY) := AxisExchange(m1, m2, mover.motion.vy, displaced.motion.vy, wakeY, 0);
    Velocities(moverX, moverY, displacedX, displacedY)
  }

  // One axis: the common velocity, plus each one's share of the wake and the density push.
  function AxisExchange(m1: nat, m2: nat, u: int, v: int, wake: int, density: int): (int, int)
    requires m1 > 0 && m2 > 0
  {
    var center := DivideSigned(m1 * u + m2 * v, m1 + m2);
    (center + DivideSigned(m2 * wake, m1 + m2) + density,
     center - DivideSigned(m1 * wake, m1 + m2) - DivideSigned(m1 * density, m2))
  }

  lemma Associates(x: int, y: int, z: int)
    ensures (x * y) * z == x * (y * z)
  {
  }

  lemma Distributes(x: int, y: int, m: int)
    ensures (x - y) * m == x * m - y * m
    ensures m * (x - y) == m * x - m * y
  {
  }

  lemma ScaledBound(a: nat, x: int, bound: nat)
    requires 2 * Abs(x) <= bound
    ensures 2 * Abs(a * x) <= a * bound
  {
    if x >= 0 {
      assert a * (2 * x) <= a * bound;
    } else {
      assert a * (2 * -x) <= a * bound;
      assert a * x == -(a * -x);
    }
  }

  // a and b are rounded quotients of n1 and n2 by m; scaled by m1 and m2, which would make
  // the quotients equal, they differ by the scaled remainders.
  lemma RemaindersDiffer(m1: nat, m2: nat, a: int, b: int, n1: int, n2: int, m: nat)
    requires m1 * n1 == m2 * n2
    ensures (m1 * a - m2 * b) * m == m1 * (a * m - n1) - m2 * (b * m - n2)
  {
    Distributes(m1 * a, m2 * b, m);
    Associates(m1, a, m);
    Associates(m2, b, m);
    Distributes(a * m, n1, m1);
    Distributes(b * m, n2, m2);
  }

  // So rounding unbalances them by at most half the scales.
  lemma RoundedQuotientsBalance(m1: nat, m2: nat, n1: int, n2: int, m: nat)
    requires m > 0 && m1 * n1 == m2 * n2
    ensures 2 * Abs(m1 * DivideSigned(n1, m) - m2 * DivideSigned(n2, m)) <= m1 + m2
  {
    var a, b := DivideSigned(n1, m), DivideSigned(n2, m);
    DivideSignedIsNearest(n1, m);
    DivideSignedIsNearest(n2, m);
    RemaindersDiffer(m1, m2, a, b, n1, n2, m);
    ScaledBound(m1, a * m - n1, m);
    ScaledBound(m2, b * m - n2, m);
    SumBoundDividesOut(m1 * a - m2 * b, m1 * (a * m - n1), m2 * (b * m - n2), m1, m2, m);
  }

  lemma SumBoundDividesOut(x: int, r: int, s: int, m1: nat, m2: nat, m: nat)
    requires m > 0 && x * m == r - s && 2 * Abs(r) <= m1 * m && 2 * Abs(s) <= m2 * m
    ensures 2 * Abs(x) <= m1 + m2
  {
    assert (m1 + m2) * m == m1 * m + m2 * m;
    Doubled(x, m);
    CancelBound(2 * x, m1 + m2, m);
    CancelBound(-2 * x, m1 + m2, m);
  }

  lemma Doubled(x: int, m: nat)
    ensures (2 * x) * m == 2 * (x * m) && (-2 * x) * m == -2 * (x * m)
  {
  }

  lemma PositiveProduct(e: nat, m: nat)
    requires e > 0 && m > 0
    ensures e * m > 0
  {
  }

  lemma CancelBound(y: int, k: int, m: nat)
    requires m > 0 && y * m <= k * m
    ensures y <= k
  {
    if y > k {
      PositiveProduct(y - k, m);
      Distributes(y, k, m);
    }
  }

  // The two shares of a relative velocity balance up to half the total mass.
  lemma SharesBalance(m1: nat, m2: nat, v: int)
    requires m1 > 0 && m2 > 0
    ensures 2 * Abs(m1 * DivideSigned(m2 * v, m1 + m2) - m2 * DivideSigned(m1 * v, m1 + m2)) <= m1 + m2
  {
    assert m1 * (m2 * v) == m2 * (m1 * v) by {
      Associates(m1, m2, v);
      Associates(m2, m1, v);
    }
    RoundedQuotientsBalance(m1, m2, m2 * v, m1 * v, m1 + m2);
  }

  // Before clamping, an exchange shifts the total momentum by rounding only.
  lemma ExchangeDrift(mover: Cell, displaced: Cell, side: int, sinking: bool)
    requires mover.motion.Velocity? && displaced.motion.Velocity?
    ensures var m1, m2 := Heaviness(mover.material), Heaviness(displaced.material);
      var after := Exchanged(mover, displaced, side, sinking);
      && 2 * Abs(Momentum(m1, m2, after.moverX, after.displacedX) - Momentum(m1, m2, mover.motion.vx, displaced.motion.vx))
         <= 2 * (m1 + m2) + m2
      && Abs(Momentum(m1, m2, after.moverY, after.displacedY) - Momentum(m1, m2, mover.motion.vy, displaced.motion.vy))
         <= m1 + m2
  {
    var m1: nat, m2: nat := Heaviness(mover.material), Heaviness(displaced.material);
    var (wakeX, wakeY) := Wake(mover, displaced, side);
    var density := side * DensityExchangeSpeed(mover.material, displaced.material, sinking);
    AxisDrift(m1, m2, mover.motion.vx, displaced.motion.vx, wakeX, density);
    AxisDrift(m1, m2, mover.motion.vy, displaced.motion.vy, wakeY, 0);
  }

  function Momentum(m1: int, m2: int, u: int, v: int): int {
    m1 * u + m2 * v
  }

  lemma AxisDrift(m1: nat, m2: nat, u: int, v: int, wake: int, density: int)
    requires m1 > 0 && m2 > 0
    ensures var after := AxisExchange(m1, m2, u, v, wake, density);
      2 * Abs(Momentum(m1, m2, after.0, after.1) - Momentum(m1, m2, u, v))
        <= 2 * (m1 + m2) + if density == 0 then 0 else m2
  {
    var m := m1 + m2;
    var center := DivideSigned(m1 * u + m2 * v, m);
    var a, b, c := DivideSigned(m2 * wake, m), DivideSigned(m1 * wake, m), DivideSigned(m1 * density, m2);
    DivideSignedIsNearest(m1 * u + m2 * v, m);
    SharesBalance(m1, m2, wake);
    DivideSignedIsNearest(m1 * density, m2);
    SumsUp(m1, m2, center, a, b, c, density);
    if density == 0 {
      assert m1 * density == 0;
    }
  }

  lemma SumsUp(m1: nat, m2: nat, center: int, a: int, b: int, c: int, density: int)
    ensures m1 * (center + a + density) + m2 * (center - b - c)
      == center * (m1 + m2) + (m1 * a - m2 * b) + (m1 * density - c * m2)
  {
  }

  // ------------------------------------------------------------ momentum transfer

  // The change of the mover's and of the blocker's velocity when they meet at `closing`.
  function TransferDeltas(mover: MaterialId, blocker: MaterialId, closing: nat, restitution: nat): (nat, nat) {
    var m1: nat, m2: nat := Heaviness(mover), Heaviness(blocker);
    var bounce := if CONTENT.phase(mover) == CONTENT.phase(blocker) then 0
      else if CONTENT.restitution(blocker) < restitution then CONTENT.restitution(blocker) else restitution;
    (Share(closing, m2, ONE_Q16 + bounce, m1 + m2), Share(closing, m1, ONE_Q16 + bounce, m1 + m2))
  }

  function Share(closing: nat, mass: nat, impulse: nat, total: nat): nat
    requires total > 0
  {
    assert closing * mass >= 0 && (closing * mass) * impulse >= 0;
    DivideSigned(closing * mass * impulse, total * ONE_Q16)
  }

  // What one loses the other gains, up to half the total mass.
  lemma TransferDrift(mover: MaterialId, blocker: MaterialId, closing: nat, restitution: nat)
    ensures var m1, m2 := Heaviness(mover), Heaviness(blocker);
      var (lost, gained) := TransferDeltas(mover, blocker, closing, restitution);
      2 * Abs(m2 * gained - m1 * lost) <= m1 + m2
  {
    var m1: nat, m2: nat := Heaviness(mover), Heaviness(blocker);
    var bounce := if CONTENT.phase(mover) == CONTENT.phase(blocker) then 0
      else if CONTENT.restitution(blocker) < restitution then CONTENT.restitution(blocker) else restitution;
    var impulse := ONE_Q16 + bounce;
    CrossProducts(m1, m2, closing, impulse);
    RoundedQuotientsBalance(m2, m1, closing * m1 * impulse, closing * m2 * impulse, (m1 + m2) * ONE_Q16);
  }

  lemma CrossProducts(m1: nat, m2: nat, closing: nat, impulse: nat)
    ensures m2 * (closing * m1 * impulse) == m1 * (closing * m2 * impulse)
  {
    Associates(m2, closing * m1, impulse);
    Associates(m1, closing * m2, impulse);
    Associates(m2, closing, m1);
    Associates(m1, closing, m2);
    assert m2 * (closing * m1) == (closing * m1) * m2 == closing * (m1 * m2);
    assert m1 * (closing * m2) == (closing * m2) * m1 == closing * (m2 * m1);
  }
}
