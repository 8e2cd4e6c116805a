// Rotation of a body's cells on the lattice by quarter turns and three rounded shears
// (crates/fallingsand_sim/src/body/rotation.rs).
module Rotation {
  import opened Numbers

  const SHEAR_SCALE: int := 0x1_0000
  const SHEAR_CENTER: int := 32
  const CELL: int := 1024
  const ANGLE_STEPS: nat := 256
  const QUARTER: nat := 64

  // For each residual step, -32 to 32, the shear coefficients along x and along y.
  const SHEARS: seq<(int, int)> :=
    (([(-27146, -46341), (-26208, -45190), (-25280, -44011), (-24360, -42806), (-23449, -41576)]
      + [(-22546, -40320), (-21650, -39040), (-20762, -37736), (-19880, -36410), (-19005, -35062)]
      + [(-18136, -33692), (-17273, -32303), (-16416, -30893), (-15564, -29466), (-14717, -28020)])
     + ([(-13874, -26558), (-13036, -25080), (-12202, -23586), (-11372, -22078), (-10545, -20557)]
        + [(-9721, -19024), (-8901, -17479), (-8083, -15924), (-7268, -14359), (-6455, -12785)]
        + [(-5644, -11204), (-4834, -9616), (-4026, -8022), (-3220, -6424), (-2414, -4821)]))
    + (([(-1609, -3216), (-804, -1608), (0, 0), (804, 1608), (1609, 3216)]
        + [(2414, 4821), (3220, 6424), (4026, 8022), (4834, 9616), (5644, 11204)]
        + [(6455, 12785), (7268, 14359), (8083, 15924), (8901, 17479), (9721, 19024)])
       + (([(10545, 20557), (11372, 22078), (12202, 23586), (13036, 25080), (13874, 26558)]
           + [(14717, 28020), (15564, 29466), (16416, 30893), (17273, 32303), (18136, 33692)])
          + ([(19005, 35062), (19880, 36410), (20762, 37736), (21650, 39040), (22546, 40320)]
             + [(23449, 41576), (24360, 42806), (25280, 44011), (26208, 45190), (27146, 46341)])))

  type Step = s: nat | s < ANGLE_STEPS
  type Table = t: seq<(int, int)> | |t| == 65 witness seq(65, _ => (0, 0))

  datatype Point = Point(x: int, y: int)

  // The nearest number of quarter turns, and the steps that remain.
  function Decompose(step: Step): (d: (nat, int))
    ensures d.0 < 4 && -SHEAR_CENTER <= d.1 < SHEAR_CENTER
    ensures (QUARTER * d.0 + d.1 - step) % ANGLE_STEPS == 0
  {
    var quarters := (step * 4 + ANGLE_STEPS / 2) / ANGLE_STEPS;
    (quarters % 4, step - quarters * QUARTER)
  }

  function ResidualShears(table: Table, residual: int): (int, int)
    requires -SHEAR_CENTER <= residual <= SHEAR_CENTER
  {
    table[residual + SHEAR_CENTER]
  }

  function RoundShear(coefficient: int, coordinate: int, center: int): int {
    RoundDiv(coefficient * (coordinate * CELL - center), SHEAR_SCALE * CELL)
  }

  function QuarterTurn(p: Point): Point {
    Point(-p.y, p.x)
  }

  function QuarterTurns(p: Point, k: nat): Point {
    if k == 0 then p else QuarterTurn(QuarterTurns(p, k - 1))
  }

  // Along x, along y, and along x again.
  function Sheared(t: int, s: int, center: Point, p: Point): Point {
    var x1 := p.x - RoundShear(t, p.y, center.y);
    var y1 := p.y + RoundShear(s, x1, center.x);
    Point(x1 - RoundShear(t, y1, center.y), y1)
  }

  // The proofs read the table through a parameter: it matters only that it is odd.
  function RotatedBy(table: Table, step: Step, com: Point, p: Point): Point {
    var (quarters, residual) := Decompose(step);
    var (t, s) := ResidualShears(table, residual);
    Sheared(t, s, QuarterTurns(com, quarters), QuarterTurns(p, quarters))
  }

  method RotateOffset(table: Table, step: Step, com: Point, dx: int, dy: int) returns (x: int, y: int)
    ensures Point(x, y) == RotatedBy(table, step, com, Point(dx, dy))
  {
    var (quarters, residual) := Decompose(step);
    x, y := dx, dy;
    var centerX, centerY := com.x, com.y;
    for k := 0 to quarters
      invariant Point(x, y) == QuarterTurns(Point(dx, dy), k)
      invariant Point(centerX, centerY) == QuarterTurns(com, k)
    {
      x, y := -y, x;
      centerX, centerY := -centerY, centerX;
    }
    var (t, s) := ResidualShears(table, residual);
    x := x - RoundShear(t, y, centerY);
    y := y + RoundShear(s, x, centerX);
    x := x - RoundShear(t, y, centerY);
  }

  // ------------------------------------------------------------ no cell is lost

  function Unsheared(t: int, s: int, center: Point, p: Point): Point {
    var x1 := p.x + RoundShear(t, p.y, center.y);
    var y := p.y - RoundShear(s, x1, center.x);
    Point(x1 + RoundShear(t, y, center.y), y)
  }

  // Rounded or not, a shear only shifts rows or columns, so it can be taken back.
  lemma ShearsUndone(t: int, s: int, center: Point, p: Point)
    ensures Unsheared(t, s, center, Sheared(t, s, center, p)) == p
  {
  }

  lemma UnshearsUndone(t: int, s: int, center: Point, p: Point)
    ensures Sheared(t, s, center, Unsheared(t, s, center, p)) == p
  {
  }

  lemma {:induction false} TurnsAdd(p: Point, j: nat, k: nat)
    ensures QuarterTurns(QuarterTurns(p, j), k) == QuarterTurns(p, j + k)
  {
    if k > 0 {
      TurnsAdd(p, j, k - 1);
    }
  }

  lemma FourTurns(p: Point)
    ensures QuarterTurns(p, 4) == p
  {
    assert QuarterTurns(p, 1) == Point(-p.y, p.x);
    assert QuarterTurns(p, 2) == Point(-p.x, -p.y);
    assert QuarterTurns(p, 3) == Point(p.y, -p.x);
  }

  lemma {:induction false} TurnsCycle(p: Point, k: nat)
    ensures QuarterTurns(p, 4 * k) == p
  {
    if k > 0 {
      TurnsCycle(p, k - 1);
      TurnsAdd(p, 4 * (k - 1), 4);
      FourTurns(p);
    }
  }

  function Unrotated(table: Table, step: Step, com: Point, p: Point): Point {
    var (quarters, residual) := Decompose(step);
    var (t, s) := ResidualShears(table, residual);
    QuarterTurns(Unsheared(t, s, QuarterTurns(com, quarters), p), 3 * quarters)
  }

  // Rotation is a bijection of the lattice for every step and every centre.
  lemma RotationIsABijection(table: Table, step: Step, com: Point, p: Point)
    ensures Unrotated(table, step, com, RotatedBy(table, step, com, p)) == p
    ensures RotatedBy(table, step, com, Unrotated(table, step, com, p)) == p
  {
    var (quarters, residual) := Decompose(step);
    var (t, s) := ResidualShears(table, residual);
    var center := QuarterTurns(com, quarters);
    ShearsUndone(t, s, center, QuarterTurns(p, quarters));
    TurnsAdd(p, quarters, 3 * quarters);
    TurnsCycle(p, quarters);
    var q := Unsheared(t, s, center, p);
    UnshearsUndone(t, s, center, p);
    TurnsAdd(q, 3 * quarters, quarters);
    TurnsCycle(q, quarters);
  }

  // So a rotation never brings two points together.
  lemma RotationKeepsCellsApart(table: Table, step: Step, com: Point, p: Point, q: Point)
    requires p != q
    ensures RotatedBy(table, step, com, p) != RotatedBy(table, step, com, q)
  {
    RotationIsABijection(table, step, com, p);
    RotationIsABijection(table, step, com, q);
  }

  // ------------------------------------------------------ turning back again

  lemma RoundDivIsOdd(n: int, d: int)
    requires d > 0
    ensures RoundDiv(-n, d) == -RoundDiv(n, d)
  {
  }

  lemma RoundShearIsOdd(c: int, coordinate: int, center: int)
    ensures RoundShear(-c, coordinate, center) == -RoundShear(c, coordinate, center)
    ensures RoundShear(c, -coordinate, -center) == -RoundShear(c, coordinate, center)
  {
    var v := coordinate * CELL - center;
    assert -coordinate * CELL - -center == -v;
    assert (-c) * v == -(c * v) && c * (-v) == -(c * v);
    RoundDivIsOdd(c * v, SHEAR_SCALE * CELL);
  }

  predicate OddAt(table: Table, k: nat)
    requires k <= 32
  {
    table[32 - k].0 == -table[32 + k].0 && table[32 - k].1 == -table[32 + k].1
  }

  ghost predicate Odd(table: Table) {
    forall k: nat | k <= 32 :: OddAt(table, k)
  }

  lemma OddNearZero()
    ensures forall k: nat | 0 <= k <= 8 :: OddAt(SHEARS, k)
  {
    var t := SHEARS;
    assert OddAt(t, 0) && OddAt(t, 1) && OddAt(t, 2) && OddAt(t, 3) && OddAt(t, 4) && OddAt(t, 5);
    assert OddAt(t, 6) && OddAt(t, 7) && OddAt(t, 8);
  }

  lemma OddAtSmallTurns()
    ensures forall k: nat | 9 <= k <= 16 :: OddAt(SHEARS, k)
  {
    var t := SHEARS;
    assert OddAt(t, 9) && OddAt(t, 10) && OddAt(t, 11) && OddAt(t, 12) && OddAt(t, 13) && OddAt(t, 14);
    assert OddAt(t, 15) && OddAt(t, 16);
  }

  lemma OddAtWideTurns()
    ensures forall k: nat | 17 <= k <= 24 :: OddAt(SHEARS, k)
  {
    var t := SHEARS;
    assert OddAt(t, 17) && OddAt(t, 18) && OddAt(t, 19) && OddAt(t, 20) && OddAt(t, 21) && OddAt(t, 22);
    assert OddAt(t, 23) && OddAt(t, 24);
  }

  lemma OddFarFromZero()
    ensures forall k: nat | 25 <= k <= 32 :: OddAt(SHEARS, k)
  {
    var t := SHEARS;
    assert OddAt(t, 25) && OddAt(t, 26) && OddAt(t, 27) && OddAt(t, 28) && OddAt(t, 29) && OddAt(t, 30);
    assert OddAt(t, 31) && OddAt(t, 32);
  }

  // The shears of opposite turns are opposite.
  lemma TableIsOdd()
    ensures Odd(SHEARS)
  {
    OddNearZero();
    OddAtSmallTurns();
    OddAtWideTurns();
    OddFarFromZero();
  }

  lemma OddShears(table: Table, residual: int)
    requires -SHEAR_CENTER <= residual <= SHEAR_CENTER && Odd(table)
    ensures ResidualShears(table, -residual) == (-ResidualShears(table, residual).0, -ResidualShears(table, residual).1)
  {
    assert OddAt(table, if residual < 0 then -residual else residual);
  }

  lemma OppositeShearsUndo(t: int, s: int, center: Point, p: Point)
    ensures Sheared(-t, -s, center, Sheared(t, s, center, p)) == p
  {
    var x1 := p.x - RoundShear(t, p.y, center.y);
    var y1 := p.y + RoundShear(s, x1, center.x);
    RoundShearIsOdd(t, y1, center.y);
    RoundShearIsOdd(s, x1, center.x);
    RoundShearIsOdd(t, p.y, center.y);
  }

  function Opposite(step: Step): Step {
    (ANGLE_STEPS - step) % ANGLE_STEPS
  }

  predicate TurnsBack(table: Table, step: Step, com: Point, p: Point) {
    RotatedBy(table, Opposite(step), com, RotatedBy(table, step, com, p)) == p
  }

  // Small turns, and whole quarter turns.
  predicate Reversible(step: Step) {
    step < 32 || step > 224 || step % QUARTER == 0
  }

  lemma SmallTurnsBack(table: Table, step: Step, com: Point, p: Point)
    requires (step < 32 || step > 224) && Odd(table)
    ensures TurnsBack(table, step, com, p)
  {
    var residual := if step < 32 then step as int else step - ANGLE_STEPS;
    OddShears(table, residual);
    var (t, s) := ResidualShears(table, residual);
    assert Decompose(step) == (0, residual) && Decompose(Opposite(step)) == (0, -residual);
    OppositeShearsUndo(t, s, com, p);
  }

  lemma QuarterTurnsCancel(table: Table, step: Step, back: Step, com: Point, p: Point)
    requires step % QUARTER == 0 && back % QUARTER == 0 && (step + back == 0 || step + back == ANGLE_STEPS) && Odd(table)
    ensures RotatedBy(table, back, com, RotatedBy(table, step, com, p)) == p
  {
    PureTurn(table, step, com, p);
    PureTurn(table, back, com, QuarterTurns(p, step / QUARTER));
    TurnsAdd(p, step / QUARTER, back / QUARTER);
    FourTurns(p);
    assert step / QUARTER + back / QUARTER == 4 || step / QUARTER + back / QUARTER == 0;
  }

  lemma PureTurn(table: Table, step: Step, com: Point, p: Point)
    requires step % QUARTER == 0 && Odd(table)
    ensures RotatedBy(table, step, com, p) == QuarterTurns(p, step / QUARTER)
  {
    assert OddAt(table, 0);
    assert Decompose(step) == (step / QUARTER, 0) && ResidualShears(table, 0) == (0, 0);
    NoShear(QuarterTurns(com, step / QUARTER), QuarterTurns(p, step / QUARTER));
  }

  lemma StepZeroStays(com: Point, p: Point)
    ensures RotatedBy(SHEARS, 0, com, p) == p
  {
    TableIsOdd();
    PureTurn(SHEARS, 0, com, p);
  }

  lemma ReversibleTurnsBack(table: Table, step: Step, com: Point, p: Point)
    requires Reversible(step) && Odd(table)
    ensures TurnsBack(table, step, com, p)
  {
    if step % QUARTER == 0 {
      QuarterTurnsCancel(table, step, Opposite(step), com, p);
    } else {
      SmallTurnsBack(table, step, com, p);
    }
  }

  // Steps below an eighth of a turn, either way, and whole quarters undo each other exactly.
  lemma RotationComesBack(step: Step, com: Point, p: Point)
    requires Reversible(step)
    ensures TurnsBack(SHEARS, step, com, p)
  {
    TableIsOdd();
    ReversibleTurnsBack(SHEARS, step, com, p);
  }

  // --------------------------------------------- which turns do not come back

  // A body's centre is never further than half a cell from its anchor.
  const HALF_CELL: int := 512

  predicate NearAnchor(com: Point) {
    -HALF_CELL <= com.x <= HALF_CELL && -HALF_CELL <= com.y <= HALF_CELL
  }

  // The shear of a coordinate that is k half cells from the centre.
  lemma ShearIsNil(c: int, v: int, center: int, k: int)
    requires v * CELL - center == HALF_CELL * k && Abs(c) * Abs(k) < SHEAR_SCALE
    ensures RoundShear(c, v, center) == 0
  {
    HalfCells(c, k);
  }

  lemma ShearIsSome(c: int, v: int, center: int, k: int)
    requires v * CELL - center == HALF_CELL * k && Abs(c) * Abs(k) >= SHEAR_SCALE
    ensures RoundShear(c, v, center) != 0
  {
    HalfCells(c, k);
  }

  lemma HalfCells(c: int, k: int)
    ensures Abs(c * (HALF_CELL * k)) == HALF_CELL * (Abs(c) * Abs(k))
  {
    SignOfProduct(c, k);
    assert c * (HALF_CELL * k) == HALF_CELL * (c * k);
  }

  lemma SignOfProduct(a: int, b: int)
    ensures Abs(a * b) == Abs(a) * Abs(b)
  {
  }

  // Shears as a move of points about a centre.
  type Move = (Point, Point) -> Point

  function Shears(t: int, s: int): Move {
    (center: Point, p: Point) => Sheared(t, s, center, p)
  }

  // Shears too weak to move a point, kx half cells from the centre along y and ky along x.
  lemma StaysPut(t: int, s: int, center: Point, p: Point, kx: int, ky: int)
    requires p.y * CELL - center.y == HALF_CELL * kx && p.x * CELL - center.x == HALF_CELL * ky
    requires Abs(t) * Abs(kx) < SHEAR_SCALE && Abs(s) * Abs(ky) < SHEAR_SCALE
    ensures Shears(t, s)(center, p) == p
  {
    ShearIsNil(t, p.y, center.y, kx);
    ShearIsNil(s, p.x, center.x, ky);
  }

  // And strong enough along y.
  lemma IsMoved(t: int, s: int, center: Point, p: Point, kx: int, ky: int)
    requires p.y * CELL - center.y == HALF_CELL * kx && p.x * CELL - center.x == HALF_CELL * ky
    requires Abs(t) * Abs(kx) < SHEAR_SCALE && Abs(s) * Abs(ky) >= SHEAR_SCALE
    ensures Shears(t, s)(center, p) != p
  {
    ShearIsNil(t, p.y, center.y, kx);
    ShearIsSome(s, p.x, center.x, ky);
  }

  function Turned(p: Point, k: nat): Point {
    if k == 0 then p else if k == 1 then Point(-p.y, p.x) else if k == 2 then Point(-p.x, -p.y) else Point(p.y, -p.x)
  }

  lemma PointTurns(p: Point, k: nat)
    requires k < 4
    ensures QuarterTurns(p, k) == Turned(p, k)
  {
    assert QuarterTurns(p, 1) == Point(-p.y, p.x);
    assert QuarterTurns(p, 2) == Point(-p.x, -p.y);
  }

  // A turn through `quarters` and a move, and the rest of a full turn and another.
  function ThereAndBack(out: Move, home: Move, quarters: nat, com: Point, p: Point): Point
    requires quarters <= 4
  {
    var there := out(Turned(com, quarters), Turned(p, quarters));
    home(Turned(com, 4 - quarters), Turned(there, 4 - quarters))
  }

  lemma AnchorTurns(com: Point, k: nat)
    requires com == Point(0, 0)
    ensures Turned(com, k) == com
  {
  }

  lemma OnlyMovedBack(out: Move, home: Move, quarters: nat, com: Point, p: Point)
    requires 1 <= quarters < 4 && out(Turned(com, quarters), Turned(p, quarters)) == Turned(p, quarters)
    requires home(Turned(com, 4 - quarters), p) != p
    ensures ThereAndBack(out, home, quarters, com, p) != p
  {
    TurnedBack(p, quarters);
  }

  lemma OnlyMovedBackAboutAnchor(out: Move, home: Move, quarters: nat, com: Point, p: Point)
    requires 1 <= quarters < 4 && com == Point(0, 0) && out(com, Turned(p, quarters)) == Turned(p, quarters)
    requires home(com, p) != p
    ensures ThereAndBack(out, home, quarters, com, p) != p
  {
    AnchorTurns(com, quarters);
    AnchorTurns(com, 4 - quarters);
    OnlyMovedBack(out, home, quarters, com, p);
  }

  lemma TurnedBack(p: Point, quarters: nat)
    requires 1 <= quarters < 4
    ensures Turned(Turned(p, quarters), 4 - quarters) == p
  {
  }

  lemma TurnsAddUp(step: Step)
    requires !Reversible(step) && step % QUARTER != 32
    ensures var (quarters, residual), (back, rest) := Decompose(step), Decompose(Opposite(step));
      1 <= quarters < 4 && back == 4 - quarters && residual != 0 && rest == -residual
  {
    var quarters := if step < 96 then 1 else if step < 160 then 2 else 3;
    assert Decompose(step) == (quarters, step - QUARTER * quarters);
    assert Decompose(Opposite(step)) == (4 - quarters, QUARTER * quarters - step);
  }

  lemma TurnsThereAndBack(table: Table, step: Step, com: Point, p: Point)
    requires !Reversible(step) && step % QUARTER != 32 && Odd(table)
    ensures var (quarters, residual) := Decompose(step);
      var (t, s) := ResidualShears(table, residual);
      TurnsBack(table, step, com, p) <==> ThereAndBack(Shears(t, s), Shears(-t, -s), quarters, com, p) == p
  {
    TurnsAddUp(step);
    var (quarters, residual) := Decompose(step);
    var (t, s) := ResidualShears(table, residual);
    OddShears(table, residual);
    PointTurns(com, quarters);
    PointTurns(p, quarters);
    PointTurns(com, 4 - quarters);
    PointTurns(RotatedBy(table, step, com, p), 4 - quarters);
  }

  // The coordinate that the shear along y does not move by one half cell less, but does by one more.
  function Edge(s: int): int
    requires s != 0
  {
    (SHEAR_SCALE - 1 + Abs(s)) / (2 * Abs(s))
  }

  lemma EdgeIsSharp(s: int)
    requires s != 0 && Abs(s) < SHEAR_SCALE
    ensures Edge(s) >= 1
    ensures Abs(s) * Abs(2 * Edge(s) - 1) < SHEAR_SCALE <= Abs(s) * Abs(2 * Edge(s) + 1)
  {
    var m, n := Abs(s), Edge(s);
    var d := 2 * m;
    assert d * n <= SHEAR_SCALE - 1 + m < d * n + d;
    assert m * (2 * n - 1) == d * n - m && m * (2 * n + 1) == d * n + m;
    MultipleIsLarge(d, n);
  }

  // A centre in the corner of a cell, to one side for a quarter turn and to the other for more.
  function Corner(quarters: nat): Point {
    if quarters == 1 then Point(HALF_CELL, -HALF_CELL) else Point(HALF_CELL, HALF_CELL)
  }

  // Sheared about one corner on the way there and about the opposite one on the way back, the point
  // at the edge stays put once and is moved the other time.
  lemma EdgeStaysAway(t: int, s: int, quarters: nat)
    requires 1 <= quarters < 4 && s != 0 && Abs(t) <= Abs(s) < SHEAR_SCALE
    ensures ThereAndBack(Shears(t, s), Shears(-t, -s), quarters, Corner(quarters), Point(Edge(s), 0)) != Point(Edge(s), 0)
  {
    var n, com := Edge(s), Corner(quarters);
    EdgeIsSharp(s);
    WeakerShear(t, s, 2 * n - 1);
    var center, there := Turned(com, quarters), Turned(Point(n, 0), quarters);
    if quarters == 1 {
      StaysPut(t, s, center, there, 2 * n - 1, -1);
    } else if quarters == 2 {
      StaysPut(t, s, center, there, 1, 1 - 2 * n);
    } else {
      StaysPut(t, s, center, there, 1 - 2 * n, -1);
    }
    EdgeIsMoved(t, s, quarters, n);
    OnlyMovedBack(Shears(t, s), Shears(-t, -s), quarters, com, Point(n, 0));
  }

  lemma EdgeIsMoved(t: int, s: int, quarters: nat, n: int)
    requires 1 <= quarters < 4 && Abs(t) < SHEAR_SCALE && Abs(s) * Abs(2 * n + 1) >= SHEAR_SCALE
    ensures Shears(-t, -s)(Turned(Corner(quarters), 4 - quarters), Point(n, 0)) != Point(n, 0)
  {
    IsMoved(-t, -s, Turned(Corner(quarters), 4 - quarters), Point(n, 0), if quarters == 3 then -1 else 1, 2 * n + 1);
  }

  lemma WeakerShear(t: int, s: int, k: int)
    requires Abs(t) <= Abs(s) && Abs(s) * Abs(k) < SHEAR_SCALE
    ensures Abs(t) * Abs(k) < SHEAR_SCALE
  {
    assert (Abs(s) - Abs(t)) * Abs(k) >= 0;
    assert (Abs(s) - Abs(t)) * Abs(k) == Abs(s) * Abs(k) - Abs(t) * Abs(k);
  }

  // Every shear of the table but the middle one is steep along y, and steeper than along x.
  predicate SteepAt(table: Table, k: nat)
    requires k < 65
  {
    k == 32 || (Abs(table[k].0) <= Abs(table[k].1) && 1608 <= Abs(table[k].1) <= 46341)
  }

  lemma TableIsSteep(k: nat)
    requires k < 65
    ensures SteepAt(SHEARS, k)
  {
    if k < 33 {
      LowerHalfIsSteep(k);
    } else {
      UpperHalfIsSteep(k);
    }
  }

  lemma LowerHalfIsSteep(k: nat)
    requires k < 33
    ensures SteepAt(SHEARS, k)
  {
  }

  lemma UpperHalfIsSteep(k: nat)
    requires 33 <= k < 65
    ensures SteepAt(SHEARS, k)
  {
  }

  // At an odd eighth of a turn both ways of the turn have the same residual.
  lemma EighthsAddUp(step: Step)
    requires step in {32, 96, 160, 224}
    ensures Decompose(step) ==
      (if step == 32 then 1 else if step == 96 then 2 else if step == 160 then 3 else 0, -32)
    ensures Decompose(Opposite(step)) ==
      (if step == 32 then 0 else if step == 96 then 3 else if step == 160 then 2 else 1, -32)
  {
    assert Opposite(step) == ANGLE_STEPS - step;
  }

  // Next to the centre of a body that is centred on its anchor.
  function Beside(step: Step): Point {
    if step == 32 || step == 160 then Point(1, 0) else Point(0, 1)
  }

  lemma UpAndDownStay(t: int, s: int, center: Point, p: Point)
    requires center == Point(0, 0) && p.x == 0 && Abs(p.y) == 1 && 2 * Abs(t) < SHEAR_SCALE
    ensures Sheared(t, s, center, p) == p
  {
    StaysPut(t, s, center, p, 2 * p.y, 0);
  }

  lemma LeftGoesUp(t: int, s: int, center: Point, p: Point)
    requires center == Point(0, 0) && p == Point(-1, 0) && t == -27146 && s == -46341
    ensures Sheared(t, s, center, p) == Point(-1, 1)
  {
    assert RoundShear(t, 0, 0) == 0 && RoundShear(s, -1, 0) == 1 && RoundShear(t, 1, 0) == 0;
  }

  lemma EighthTurns(table: Table, step: Step, quarters: nat, com: Point, p: Point)
    requires quarters < 4 && Decompose(step) == (quarters, -32) && com == Point(0, 0)
    ensures RotatedBy(table, step, com, p) == Sheared(table[0].0, table[0].1, com, Turned(p, quarters))
  {
    PointTurns(com, quarters);
    PointTurns(p, quarters);
  }

  lemma EighthGoes(table: Table, step: Step, quarters: nat, back: nat, com: Point, p: Point, there: Point, home: Point)
    requires quarters < 4 && back < 4 && com == Point(0, 0)
    requires Decompose(step) == (quarters, -32) && Decompose(Opposite(step)) == (back, -32)
    requires Sheared(table[0].0, table[0].1, com, Turned(p, quarters)) == there
    requires Sheared(table[0].0, table[0].1, com, Turned(there, back)) == home
    ensures TurnsBack(table, step, com, p) <==> home == p
  {
    EighthTurns(table, step, quarters, com, p);
    EighthTurns(table, Opposite(step), back, com, there);
  }

  // Upright both times, so only turned.
  lemma EighthUpright(table: Table, step: Step, quarters: nat, back: nat, com: Point, p: Point, there: Point, home: Point)
    requires quarters < 4 && back < 4 && com == Point(0, 0) && 2 * Abs(table[0].0) < SHEAR_SCALE
    requires Decompose(step) == (quarters, -32) && Decompose(Opposite(step)) == (back, -32)
    requires there == Turned(p, quarters) && home == Turned(there, back)
    requires there.x == home.x == 0 && Abs(there.y) == Abs(home.y) == 1
    ensures TurnsBack(table, step, com, p) <==> home == p
  {
    UpAndDownStay(table[0].0, table[0].1, com, there);
    UpAndDownStay(table[0].0, table[0].1, com, home);
    EighthGoes(table, step, quarters, back, com, p, there, home);
  }

  // Lying down the second time, so moved as well.
  lemma EighthLyingDown(table: Table, step: Step, quarters: nat, back: nat, com: Point, p: Point, there: Point)
    requires quarters < 4 && back < 4 && com == Point(0, 0) && 2 * Abs(table[0].0) < SHEAR_SCALE
    requires Decompose(step) == (quarters, -32) && Decompose(Opposite(step)) == (back, -32)
    requires there == Turned(p, quarters) && Turned(there, back) == Point(-1, 0) && there.x == 0 && Abs(there.y) == 1
    requires Sheared(table[0].0, table[0].1, com, Point(-1, 0)) == Point(-1, 1)
    ensures TurnsBack(table, step, com, p) <==> Point(-1, 1) == p
  {
    UpAndDownStay(table[0].0, table[0].1, com, there);
    EighthGoes(table, step, quarters, back, com, p, there, Point(-1, 1));
  }

  lemma EighthsStayAway(table: Table, step: Step, com: Point)
    requires step in {32, 96, 160, 224} && com == Point(0, 0) && 2 * Abs(table[0].0) < SHEAR_SCALE
    requires Sheared(table[0].0, table[0].1, com, Point(-1, 0)) == Point(-1, 1)
    ensures !TurnsBack(table, step, com, Beside(step))
  {
    EighthsAddUp(step);
    var p := Beside(step);
    if step == 32 {
      EighthUpright(table, step, 1, 0, com, p, Point(0, 1), Point(0, 1));
    } else if step == 96 {
      EighthLyingDown(table, step, 2, 3, com, p, Point(0, -1));
    } else if step == 160 {
      EighthUpright(table, step, 3, 2, com, p, Point(0, -1), Point(0, 1));
    } else {
      EighthLyingDown(table, step, 0, 1, com, p, Point(0, 1));
    }
  }

  lemma EighthStaysAway(step: Step, com: Point)
    requires !Reversible(step) && step % QUARTER == 32 && com == Point(0, 0)
    ensures !TurnsBack(SHEARS, step, com, Beside(step))
  {
    assert step in {32, 96, 160, 224};
    LeftGoesUp(SHEARS[0].0, SHEARS[0].1, com, Point(-1, 0));
    EighthsStayAway(SHEARS, step, com);
  }

  // Where a step that does not come back shows it.
  function AwayCentre(step: Step): Point {
    if step % QUARTER == 32 then Point(0, 0) else Corner(Decompose(step).0)
  }

  function AwayPoint(step: Step): Point
    requires !Reversible(step)
  {
    if step % QUARTER == 32 then Beside(step)
    else
      TurnsAddUp(step);
      TableIsSteep(Decompose(step).1 + SHEAR_CENTER);
      Point(Edge(ResidualShears(SHEARS, Decompose(step).1).1), 0)
  }

  lemma StaysAway(step: Step)
    requires !Reversible(step)
    ensures !TurnsBack(SHEARS, step, AwayCentre(step), AwayPoint(step))
  {
    if step % QUARTER == 32 {
      EighthStaysAway(step, AwayCentre(step));
    } else {
      TableIsOdd();
      TurnsAddUp(step);
      var (quarters, residual) := Decompose(step);
      TableIsSteep(residual + SHEAR_CENTER);
      var (t, s) := ResidualShears(SHEARS, residual);
      EdgeStaysAway(t, s, quarters);
      MovedIsAway(SHEARS, step, quarters, residual + SHEAR_CENTER, Corner(quarters), Point(Edge(s), 0));
    }
  }

  // No other step comes back for every body, even with a centre next to the anchor.
  lemma ReversibleIsExact(step: Step)
    ensures Reversible(step) <==> forall com, p | NearAnchor(com) :: TurnsBack(SHEARS, step, com, p)
  {
    if Reversible(step) {
      forall com, p
        ensures TurnsBack(SHEARS, step, com, p)
      {
        RotationComesBack(step, com, p);
      }
    } else {
      StaysAway(step);
      assert NearAnchor(AwayCentre(step));
    }
  }

  // ------------------------------------------- bodies centred on their anchor

  lemma ShearedIsOdd(t: int, s: int, com: Point, p: Point)
    requires com == Point(0, 0)
    ensures var q := Sheared(t, s, com, p);
      Sheared(t, s, com, Point(-p.x, -p.y)) == Point(-q.x, -q.y)
  {
    var x1 := p.x - RoundShear(t, p.y, com.y);
    var y1 := p.y + RoundShear(s, x1, com.x);
    RoundShearIsOdd(t, p.y, com.y);
    RoundShearIsOdd(s, x1, com.x);
    RoundShearIsOdd(t, y1, com.y);
  }

  // About half a turn the shears of both ways cancel, as the points are turned to the other side.
  lemma CentredHalfTurn(table: Table, step: Step, com: Point, p: Point)
    requires 96 < step < 160 && Odd(table) && com == Point(0, 0)
    ensures TurnsBack(table, step, com, p)
  {
    if Reversible(step) {
      ReversibleTurnsBack(table, step, com, p);
    } else {
      NearHalfATurn(step);
      HalfTurnCancels(table, step, Decompose(step).1 + SHEAR_CENTER, com, p);
    }
  }

  lemma NearHalfATurn(step: Step)
    requires 96 < step < 160
    ensures Decompose(step) == (2, step - 128) && step % QUARTER != 32
  {
  }

  lemma HalfTurnCancels(table: Table, step: Step, k: nat, com: Point, p: Point)
    requires !Reversible(step) && step % QUARTER != 32 && Odd(table) && com == Point(0, 0)
    requires k < 65 && Decompose(step) == (2, k - SHEAR_CENTER)
    ensures TurnsBack(table, step, com, p)
  {
    HalfTurnUndone(table[k].0, table[k].1, com, p);
    UnmovedIsBack(table, step, 2, k, com, p);
  }

  lemma UnmovedIsBack(table: Table, step: Step, quarters: nat, k: nat, com: Point, p: Point)
    requires !Reversible(step) && step % QUARTER != 32 && Odd(table) && Decompose(step) == (quarters, k - SHEAR_CENTER)
    requires k < 65 && ThereAndBack(Shears(table[k].0, table[k].1), Shears(-table[k].0, -table[k].1), quarters, com, p) == p
    ensures TurnsBack(table, step, com, p)
  {
    TurnsThereAndBack(table, step, com, p);
  }

  lemma HalfTurnUndone(t: int, s: int, com: Point, p: Point)
    requires com == Point(0, 0)
    ensures ThereAndBack(Shears(t, s), Shears(-t, -s), 2, com, p) == p
  {
    ShearsAreOdd(t, s, com, p);
    ShearsCancel(t, s, com, p);
    AnchorTurns(com, 2);
    OddMovesCancel(Shears(t, s), Shears(-t, -s), com, p);
  }

  lemma OddMovesCancel(out: Move, home: Move, com: Point, p: Point)
    requires Turned(com, 2) == com && out(com, Turned(p, 2)) == Turned(out(com, p), 2) && home(com, out(com, p)) == p
    ensures ThereAndBack(out, home, 2, com, p) == p
  {
  }

  lemma ShearsAreOdd(t: int, s: int, com: Point, p: Point)
    requires com == Point(0, 0)
    ensures Shears(t, s)(com, Turned(p, 2)) == Turned(Shears(t, s)(com, p), 2)
  {
    ShearedIsOdd(t, s, com, p);
  }

  lemma ShearsCancel(t: int, s: int, com: Point, p: Point)
    ensures Shears(-t, -s)(com, Shears(t, s)(com, p)) == p
  {
    OppositeShearsUndo(t, s, com, p);
  }

  // The first coordinate that the shear along y moves.
  function Brink(s: int): int
    requires s != 0
  {
    (SHEAR_SCALE / 2 - 1 + Abs(s)) / Abs(s)
  }

  lemma BrinkIsSharp(s: int)
    requires s != 0 && Abs(s) < SHEAR_SCALE
    ensures Brink(s) >= 1 && Abs(s) * Brink(s) >= SHEAR_SCALE / 2 > Abs(s) * Brink(s) - Abs(s)
  {
    var m, n := Abs(s), Brink(s);
    assert m * n <= SHEAR_SCALE / 2 - 1 + m < m * n + m;
    MultipleIsLarge(m, n);
  }

  lemma BrinkStaysAway(t: int, s: int, quarters: nat, com: Point)
    requires (quarters == 1 || quarters == 3) && com == Point(0, 0)
    requires s != 0 && Abs(s) < SHEAR_SCALE && 2 * (Abs(t) * Brink(s)) < SHEAR_SCALE
    ensures ThereAndBack(Shears(t, s), Shears(-t, -s), quarters, com, Point(Brink(s), 0)) != Point(Brink(s), 0)
  {
    var n, p := Brink(s), Point(Brink(s), 0);
    EastTurns(n, quarters);
    BrinkIsSharp(s);
    BrinkStays(t, s, n, com, Turned(p, quarters));
    BrinkMoves(t, s, n, com, p);
    OnlyMovedBackAboutAnchor(Shears(t, s), Shears(-t, -s), quarters, com, p);
  }

  lemma EastTurns(n: int, quarters: nat)
    requires quarters == 1 || quarters == 3
    ensures Turned(Point(n, 0), quarters) == Point(0, if quarters == 1 then n else -n)
  {
  }

  lemma BrinkStays(t: int, s: int, n: int, com: Point, p: Point)
    requires com == Point(0, 0) && n >= 1 && p.x == 0 && Abs(p.y) == n && 2 * (Abs(t) * n) < SHEAR_SCALE
    ensures Shears(t, s)(com, p) == p
  {
    Doubles(t, n);
    StaysPut(t, s, com, p, 2 * p.y, 0);
  }

  lemma BrinkMoves(t: int, s: int, n: int, com: Point, p: Point)
    requires com == Point(0, 0) && n >= 1 && p == Point(n, 0) && 2 * (Abs(s) * n) >= SHEAR_SCALE
    ensures Shears(-t, -s)(com, p) != p
  {
    Doubles(s, n);
    IsMoved(-t, -s, com, p, 0, 2 * n);
  }

  lemma Doubles(c: int, n: int)
    requires n >= 0
    ensures Abs(c) * Abs(2 * n) == 2 * (Abs(c) * n) && Abs(c) * Abs(-2 * n) == 2 * (Abs(c) * n)
  {
  }

  // Shears along x so much less steep that they do not move the point at the brink.
  predicate Tight(t: int, s: int) {
    if Abs(s) >= 32768 then Abs(t) < 32768
    else if Abs(s) >= 16384 then Abs(t) < 16384
    else 100 * Abs(t) <= 51 * Abs(s)
  }

  // Four entries of the table are not.
  predicate Middling(t: int, s: int) {
    16416 <= t <= 17273 && 30893 <= s <= 32303
  }

  predicate SuitsAt(table: Table, k: nat)
    requires k < 65
  {
    var (t, s) := table[k];
    k == 32 || (1608 <= Abs(s) <= 46341 && (Tight(t, s) || Middling(t, s) || Middling(-t, -s)))
  }

  lemma TableSuits(k: nat)
    requires k < 65
    ensures SuitsAt(SHEARS, k)
  {
    if k < 33 {
      LowerHalfSuits(k);
    } else {
      UpperHalfSuits(k);
    }
  }

  lemma LowerHalfSuits(k: nat)
    requires k < 33
    ensures SuitsAt(SHEARS, k)
  {
  }

  lemma UpperHalfSuits(k: nat)
    requires 33 <= k < 65
    ensures SuitsAt(SHEARS, k)
  {
  }

  lemma BrinkIsFarEnough(t: int, s: int)
    requires s != 0 && Abs(s) < SHEAR_SCALE && Tight(t, s)
    ensures 2 * (Abs(t) * Brink(s)) < SHEAR_SCALE
  {
    var m, n := Abs(s), Brink(s);
    BrinkIsSharp(s);
    if m >= 16384 {
      BrinkIsNear(m, n);
      assert n == 1 || (n == 2 && m < 32768);
    } else {
      assert (51 * m - 100 * Abs(t)) * n >= 0;
      assert (51 * m - 100 * Abs(t)) * n == 51 * (m * n) - 100 * (Abs(t) * n);
    }
  }

  lemma BrinkIsNear(m: int, n: int)
    requires m >= 16384 && n >= 1 && m * n - m < 32768
    ensures n <= 2 && (m >= 32768 ==> n == 1)
  {
    assert m * (n - 3) == m * n - 3 * m;
    MultipleIsLarge(m, n - 3);
  }

  lemma MiddlingBrink(s: int)
    requires 30893 <= Abs(s) <= 32303
    ensures Brink(s) == 2
  {
    var m, n := Abs(s), Brink(s);
    BrinkIsSharp(s);
    BrinkIsNear(m, n);
  }

  // The four move the point at 2 in both turns, the first time to the side.
  lemma MiddlingThere(t: int, s: int, com: Point, p: Point)
    requires Middling(t, s) && com == Point(0, 0) && (p == Point(0, 2) || p == Point(0, -2))
    ensures Shears(t, s)(com, p) == Point(-p.y, p.y)
  {
    if p.y == 2 {
      assert RoundShear(t, 2, 0) == 1 && RoundShear(s, -1, 0) == 0;
    } else {
      assert RoundShear(t, -2, 0) == -1 && RoundShear(s, 1, 0) == 0;
    }
  }

  lemma MiddlingBack(t: int, s: int, com: Point, p: Point)
    requires Middling(-t, -s) && com == Point(0, 0) && p == Point(2, 2)
    ensures Shears(t, s)(com, p).x != 2
  {
    assert RoundShear(t, 2, 0) == -1 && RoundShear(s, 3, 0) == -1 && RoundShear(t, 1, 0) == 0;
  }

  // The same about the other side of an axis.
  lemma MirroredThere(t: int, s: int, com: Point, p: Point)
    requires Middling(-t, -s) && com == Point(0, 0) && (p == Point(0, 2) || p == Point(0, -2))
    ensures Shears(t, s)(com, p) == Point(p.y, p.y)
  {
    if p.y == 2 {
      assert RoundShear(t, 2, 0) == -1 && RoundShear(s, 1, 0) == 0;
    } else {
      assert RoundShear(t, -2, 0) == 1 && RoundShear(s, -1, 0) == 0;
    }
  }

  lemma MirroredBack(t: int, s: int, com: Point, p: Point)
    requires Middling(t, s) && com == Point(0, 0) && p == Point(2, -2)
    ensures Shears(t, s)(com, p).x != 2
  {
    assert RoundShear(t, -2, 0) == -1 && RoundShear(s, 3, 0) == 1 && RoundShear(t, -1, 0) == 0;
  }

  lemma MiddlingMoves(t: int, s: int, quarters: nat, com: Point, p: Point, turned: Point)
    requires Middling(t, s) && com == Point(0, 0) && turned == Turned(p, quarters) && turned.x == 0
    requires (quarters == 1 && turned.y == 2) || (quarters == 3 && turned.y == -2)
    ensures ThereAndBack(Shears(t, s), Shears(-t, -s), quarters, com, p).x != 2
  {
    var there, back := Point(-turned.y, turned.y), Point(2, 2);
    MiddlingThere(t, s, com, turned);
    MiddlingBack(-t, -s, com, back);
    SideTurnsBack(quarters, there, back);
    MovedTo(Shears(t, s), Shears(-t, -s), quarters, com, p, there, back);
  }

  lemma MirroredMoves(t: int, s: int, quarters: nat, com: Point, p: Point, turned: Point)
    requires Middling(-t, -s) && com == Point(0, 0) && turned == Turned(p, quarters) && turned.x == 0
    requires (quarters == 1 && turned.y == 2) || (quarters == 3 && turned.y == -2)
    ensures ThereAndBack(Shears(t, s), Shears(-t, -s), quarters, com, p).x != 2
  {
    var there, back := Point(turned.y, turned.y), Point(2, -2);
    MirroredThere(t, s, com, turned);
    MirroredBack(-t, -s, com, back);
    SideTurnsBack(quarters, there, back);
    MovedTo(Shears(t, s), Shears(-t, -s), quarters, com, p, there, back);
  }

  lemma SideTurnsBack(quarters: nat, there: Point, back: Point)
    requires (quarters == 1 && there.y == 2) || (quarters == 3 && there.y == -2)
    requires back.x == 2 && ((there.x == -there.y && back.y == 2) || (there.x == there.y && back.y == -2))
    ensures Turned(there, 4 - quarters) == back
  {
  }

  lemma MovedTo(out: Move, home: Move, quarters: nat, com: Point, p: Point, there: Point, back: Point)
    requires quarters <= 4 && com == Point(0, 0)
    requires out(com, Turned(p, quarters)) == there && Turned(there, 4 - quarters) == back
    requires home(com, back).x != 2
    ensures ThereAndBack(out, home, quarters, com, p).x != 2
  {
    AnchorTurns(com, quarters);
    AnchorTurns(com, 4 - quarters);
  }

  lemma CentredMoves(t: int, s: int, quarters: nat, com: Point, p: Point)
    requires (quarters == 1 || quarters == 3) && com == Point(0, 0) && 1608 <= Abs(s) <= 46341 && p == Point(Brink(s), 0)
    requires Tight(t, s) || Middling(t, s) || Middling(-t, -s)
    ensures ThereAndBack(Shears(t, s), Shears(-t, -s), quarters, com, p) != p
  {
    if Tight(t, s) {
      BrinkIsFarEnough(t, s);
      BrinkStaysAway(t, s, quarters, com);
    } else {
      MiddlingBrink(s);
      EastTurns(Brink(s), quarters);
      if Middling(t, s) {
        MiddlingMoves(t, s, quarters, com, p, Turned(p, quarters));
      } else {
        MirroredMoves(t, s, quarters, com, p, Turned(p, quarters));
      }
    }
  }

  lemma MovedIsAway(table: Table, step: Step, quarters: nat, k: nat, com: Point, p: Point)
    requires !Reversible(step) && step % QUARTER != 32 && Odd(table) && Decompose(step) == (quarters, k - SHEAR_CENTER)
    requires k < 65 && ThereAndBack(Shears(table[k].0, table[k].1), Shears(-table[k].0, -table[k].1), quarters, com, p) != p
    ensures !TurnsBack(table, step, com, p)
  {
    TurnsThereAndBack(table, step, com, p);
  }

  lemma BrinkIsAway(table: Table, step: Step, quarters: nat, k: nat, com: Point, s: int)
    requires !Reversible(step) && !(96 < step < 160) && step % QUARTER != 32 && Odd(table) && com == Point(0, 0)
    requires k < 65 && k != 32 && Decompose(step) == (quarters, k - SHEAR_CENTER) && SuitsAt(table, k) && s == table[k].1
    ensures s != 0 && !TurnsBack(table, step, com, Point(Brink(s), 0))
  {
    assert quarters == 1 || quarters == 3;
    CentredMoves(table[k].0, s, quarters, com, Point(Brink(s), 0));
    MovedIsAway(table, step, quarters, k, com, Point(Brink(s), 0));
  }

  lemma CentredStaysAway(step: Step, com: Point) returns (p: Point)
    requires !Reversible(step) && !(96 < step < 160) && com == Point(0, 0)
    ensures !TurnsBack(SHEARS, step, com, p)
  {
    if step % QUARTER == 32 {
      p := Beside(step);
      EighthStaysAway(step, com);
    } else {
      TableIsOdd();
      TurnsAddUp(step);
      var (quarters, residual) := Decompose(step);
      var k := residual + SHEAR_CENTER;
      TableSuits(k);
      var s := SHEARS[k].1;
      BrinkIsAway(SHEARS, step, quarters, k, com, s);
      p := Point(Brink(s), 0);
    }
  }

  // A body centred on its anchor comes back from every turn near half a turn, too, and from no other.
  lemma CentredIsExact(step: Step)
    ensures Reversible(step) || 96 < step < 160 <==> forall p :: TurnsBack(SHEARS, step, Point(0, 0), p)
  {
    if Reversible(step) || 96 < step < 160 {
      forall p
        ensures TurnsBack(SHEARS, step, Point(0, 0), p)
      {
        if Reversible(step) {
          RotationComesBack(step, Point(0, 0), p);
        } else {
          TableIsOdd();
          CentredHalfTurn(SHEARS, step, Point(0, 0), p);
        }
      }
    } else {
      var p := CentredStaysAway(step, Point(0, 0));
    }
  }

  lemma NoShear(center: Point, p: Point)
    ensures Sheared(0, 0, center, p) == p
  {
    assert RoundShear(0, p.y, center.y) == 0 && RoundShear(0, p.x, center.x) == 0;
  }

  // -------------------------------------------------- how far rounding moves a cell

  predicate BoundedAt(table: Table, k: nat)
    requires k < 65
  {
    -27146 <= table[k].0 <= 27146 && -46341 <= table[k].1 <= 46341
  }

  lemma TableIsBounded(k: nat)
    requires k < 65
    ensures BoundedAt(SHEARS, k)
  {
    if k < 33 {
      LowerHalfIsBounded(k);
    } else {
      UpperHalfIsBounded(k);
    }
  }

  lemma LowerHalfIsBounded(k: nat)
    requires k < 33
    ensures BoundedAt(SHEARS, k)
  {
  }

  lemma UpperHalfIsBounded(k: nat)
    requires 33 <= k < 65
    ensures BoundedAt(SHEARS, k)
  {
  }

  function ExactShear(coefficient: int, coordinate: real, center: int): real {
    coefficient as real / 65536.0 * (coordinate - center as real / 1024.0)
  }

  // The three shears without rounding.
  function ExactlySheared(t: int, s: int, center: Point, p: Point): (real, real) {
    var x1 := p.x as real - ExactShear(t, p.y as real, center.y);
    var y1 := p.y as real + ExactShear(s, x1, center.x);
    (x1 - ExactShear(t, y1, center.y), y1)
  }

  predicate Within(a: real, b: real, margin: real) {
    -margin <= a - b <= margin
  }

  lemma RoundDivIsNearest(n: int, d: int)
    requires d > 0 && d % 2 == 0
    ensures -d <= 2 * (RoundDiv(n, d) * d - n) <= d
  {
    var m := if n >= 0 then n else -n;
    var q := (m + d / 2) / d;
    assert m + d / 2 == q * d + (m + d / 2) % d;
    assert RoundDiv(n, d) * d == if n >= 0 then q * d else -(q * d);
  }

  lemma RoundShearIsNear(c: int, v: int, center: int)
    ensures Within(RoundShear(c, v, center) as real, ExactShear(c, v as real, center), 0.5)
  {
    var d := SHEAR_SCALE * CELL;
    var n := c * (v * CELL - center);
    RoundDivIsNearest(n, d);
    var exact := ExactShear(c, v as real, center);
    assert exact * 67108864.0 == n as real by {
      assert c as real / 65536.0 * 65536.0 == c as real;
      var w := v as real - center as real / 1024.0;
      assert w * 1024.0 == (v * CELL - center) as real;
      assert (c as real / 65536.0 * 65536.0) * (w * 1024.0) == (c as real / 65536.0 * w) * 67108864.0;
    }
    assert -67108864.0 <= 2.0 * (RoundShear(c, v, center) as real * 67108864.0 - n as real) <= 67108864.0;
  }

  // An error in the coordinate passes a shear in proportion to its coefficient.
  lemma ShearPassesError(c: int, v: real, w: real, center: int, bound: int, margin: real)
    requires -bound <= c <= bound && Within(v, w, margin) && margin >= 0.0
    ensures Within(ExactShear(c, v, center), ExactShear(c, w, center), bound as real / 65536.0 * margin)
  {
    var a := c as real / 65536.0;
    var b := bound as real / 65536.0;
    assert ExactShear(c, v, center) - ExactShear(c, w, center) == a * (v - w);
    ProductBound(a, v - w, b, margin);
  }

  lemma ProductBound(a: real, e: real, b: real, margin: real)
    requires -b <= a <= b && -margin <= e <= margin
    ensures -(b * margin) <= a * e <= b * margin
  {
    assert (b - a) * (margin + e) >= 0.0 && (b + a) * (margin - e) >= 0.0;
    assert (b - a) * (margin - e) >= 0.0 && (b + a) * (margin + e) >= 0.0;
  }

  // Rounding moves a cell less than 1.4 cells along x and 0.9 along y.
  lemma RoundingStaysClose(t: int, s: int, center: Point, p: Point)
    requires -27146 <= t <= 27146 && -46341 <= s <= 46341
    ensures var rounded, exact := Sheared(t, s, center, p), ExactlySheared(t, s, center, p);
      -1.4 < rounded.x as real - exact.0 < 1.4 && -0.9 < rounded.y as real - exact.1 < 0.9
  {
    var x1 := p.x - RoundShear(t, p.y, center.y);
    var ex1 := p.x as real - ExactShear(t, p.y as real, center.y);
    RoundShearIsNear(t, p.y, center.y);
    ShearShifts(p.x, RoundShear(t, p.y, center.y), p.x as real, ExactShear(t, p.y as real, center.y), 0.0, 0.5);
    LaterShearsStayClose(t, s, center, x1, ex1, p.y);
  }

  lemma LaterShearsStayClose(t: int, s: int, center: Point, x1: int, ex1: real, y: int)
    requires -27146 <= t <= 27146 && -46341 <= s <= 46341 && Within(x1 as real, ex1, 0.5)
    ensures var y1, ey1 := y + RoundShear(s, x1, center.x), y as real + ExactShear(s, ex1, center.x);
      && Within(y1 as real, ey1, 0.8536)
      && Within((x1 - RoundShear(t, y1, center.y)) as real, ex1 - ExactShear(t, ey1, center.y), 1.36)
  {
    var y1, ey1 := y + RoundShear(s, x1, center.x), y as real + ExactShear(s, ex1, center.x);
    SteepestShearNear(s, x1, ex1, center.x);
    ShearShifts(y, -RoundShear(s, x1, center.x), y as real, -ExactShear(s, ex1, center.x), 0.0, 0.8536);
    WidestShearNear(t, y1, ey1, center.y);
    ShearShifts(x1, RoundShear(t, y1, center.y), ex1, ExactShear(t, ey1, center.y), 0.5, 0.86);
  }

  lemma ShearShifts(v: int, shear: int, w: real, exact: real, m: real, n: real)
    requires Within(v as real, w, m) && Within(shear as real, exact, n)
    ensures Within((v - shear) as real, w - exact, m + n)
  {
  }

  lemma SteepestShearNear(s: int, v: int, w: real, center: int)
    requires -46341 <= s <= 46341 && Within(v as real, w, 0.5)
    ensures Within(RoundShear(s, v, center) as real, ExactShear(s, w, center), 0.8536)
  {
    ShearErrorAdds(s, v, w, center, 46341, 0.5);
  }

  lemma WidestShearNear(t: int, v: int, w: real, center: int)
    requires -27146 <= t <= 27146 && Within(v as real, w, 0.8536)
    ensures Within(RoundShear(t, v, center) as real, ExactShear(t, w, center), 0.86)
  {
    ShearErrorAdds(t, v, w, center, 27146, 0.8536);
  }

  // A rounded shear of a coordinate that is off by a margin.
  lemma ShearErrorAdds(c: int, v: int, w: real, center: int, bound: int, margin: real)
    requires -bound <= c <= bound && Within(v as real, w, margin) && margin >= 0.0
    ensures Within(RoundShear(c, v, center) as real, ExactShear(c, w, center), 0.5 + bound as real / 65536.0 * margin)
  {
    RoundShearIsNear(c, v, center);
    ShearPassesError(c, v as real, w, center, bound, margin);
  }

  // The quarter turns, and the shears unrounded.
  function ExactlyRotated(table: Table, step: Step, com: Point, p: Point): (real, real) {
    var (quarters, residual) := Decompose(step);
    var (t, s) := ResidualShears(table, residual);
    ExactlySheared(t, s, QuarterTurns(com, quarters), QuarterTurns(p, quarters))
  }

  // For every step of the table and every body.
  lemma RotationStaysClose(step: Step, com: Point, p: Point)
    ensures var rounded, exact := RotatedBy(SHEARS, step, com, p), ExactlyRotated(SHEARS, step, com, p);
      -1.4 < rounded.x as real - exact.0 < 1.4 && -0.9 < rounded.y as real - exact.1 < 0.9
  {
    var (quarters, residual) := Decompose(step);
    TableIsBounded(residual + SHEAR_CENTER);
    var (t, s) := ResidualShears(SHEARS, residual);
    RoundingStaysClose(t, s, QuarterTurns(com, quarters), QuarterTurns(p, quarters));
  }
}
