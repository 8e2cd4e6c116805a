// Which way, and how far, the shears of crates/fallingsand_sim/src/body/rotation.rs turn a body:
// every step of the table turns it on by the same angle, anticlockwise, and keeps distances.
module Angles {
  import opened Numbers
  import opened Rotation

  // Cosines and sines are counted in units of 2^-32; a shear coefficient's unit is 2^-16.
  const ONE: int := 0x1_0000_0000

  // The cosine and sine that shears of t, s and t make.
  function Direction(t: int, s: int): Point {
    Point(ONE - t * s, s * SHEAR_SCALE)
  }

  // Where a step of the table turns the x axis to.
  function Heading(table: Table, step: Step): Point {
    var (quarters, residual) := Decompose(step);
    var (t, s) := ResidualShears(table, residual);
    QuarterTurns(Direction(t, s), quarters)
  }

  // Angles add and lengths multiply: the product of the points as complex numbers.
  function Times(a: Point, b: Point): Point {
    Point(a.x * b.x - a.y * b.y, a.x * b.y + a.y * b.x)
  }

  // `b` is `a` turned on by `turn`, up to a unit and a half of the table.
  predicate TurnedOn(a: Point, turn: Point, b: Point) {
    && 2 * Abs(b.x * ONE - Times(a, turn).x) <= 3 * SHEAR_SCALE * ONE
    && 2 * Abs(b.y * ONE - Times(a, turn).y) <= 3 * SHEAR_SCALE * ONE
  }

  // On the unit circle, up to a unit of the table.
  predicate OnCircle(h: Point) {
    Abs(h.x * h.x + h.y * h.y - ONE * ONE) <= SHEAR_SCALE * ONE
  }

  // The shears along x are tangents of half the angle: 2t = s (1 + t^2), up to a unit and a quarter.
  predicate Halves(t: int, s: int) {
    4 * Abs(s * (ONE + t * t) - 2 * t * ONE) <= 5 * ONE
  }

  // An entry of the table, and the one after it.
  predicate TurnsAt(table: Table, k: nat)
    requires k < 64
  {
    var ((t, s), (t', s')) := (table[k], table[k + 1]);
    Halves(t, s) && TurnedOn(Direction(t, s), Direction(804, 1608), Direction(t', s'))
  }

  lemma WideTurnsBack(k: nat)
    requires 0 <= k < 16
    ensures TurnsAt(SHEARS, k)
  {
  }

  lemma TurnsBack(k: nat)
    requires 16 <= k < 30
    ensures TurnsAt(SHEARS, k)
  {
  }

  lemma SmallTurns(k: nat)
    requires 30 <= k < 37
    ensures TurnsAt(SHEARS, k)
  {
  }

  lemma TurnsAhead(k: nat)
    requires 37 <= k < 50
    ensures TurnsAt(SHEARS, k)
  {
  }

  lemma WideTurnsAhead(k: nat)
    requires 50 <= k < 64
    ensures TurnsAt(SHEARS, k)
  {
  }

  lemma TableTurns(k: nat)
    requires k < 64
    ensures TurnsAt(SHEARS, k)
  {
    if k < 16 {
      WideTurnsBack(k);
    } else if k < 30 {
      TurnsBack(k);
    } else if k < 37 {
      SmallTurns(k);
    } else if k < 50 {
      TurnsAhead(k);
    } else {
      WideTurnsAhead(k);
    }
  }

  // The turns of the table follow on each other, all the way round.
  ghost predicate Even(table: Table) {
    && (forall k: nat | k < 64 :: TurnsAt(table, k))
    && table[63] == (26208, 45190) && table[0] == (-27146, -46341) && table[33] == (804, 1608) && table[32] == (0, 0)
  }

  lemma TableIsEven()
    ensures Even(SHEARS)
  {
    forall k: nat | k < 64
      ensures TurnsAt(SHEARS, k)
    {
      TableTurns(k);
    }
    LastEntryMeets();
    assert SHEARS[32] == (0, 0);
  }

  // The last entry is an eighth of a turn, which the next step reaches from the other side.
  lemma LastEntryMeets()
    ensures Halves(27146, 46341)
    ensures TurnedOn(Direction(26208, 45190), Direction(804, 1608), QuarterTurn(Direction(-27146, -46341)))
    ensures SHEARS[63] == (26208, 45190) && SHEARS[0] == (-27146, -46341) && SHEARS[33] == (804, 1608)
  {
  }

  lemma TimesQuarterTurn(a: Point, b: Point)
    ensures Times(QuarterTurn(a), b) == QuarterTurn(Times(a, b)) == Times(a, QuarterTurn(b))
  {
    assert -a.y * b.x == -(a.y * b.x) && -a.y * b.y == -(a.y * b.y);
    assert a.x * -b.y == -(a.x * b.y) && a.y * -b.y == -(a.y * b.y);
  }

  lemma {:induction false} TimesQuarterTurns(a: Point, b: Point, k: nat)
    ensures Times(QuarterTurns(a, k), b) == QuarterTurns(Times(a, b), k) == Times(a, QuarterTurns(b, k))
  {
    if k > 0 {
      TimesQuarterTurns(a, b, k - 1);
      TimesQuarterTurn(QuarterTurns(a, k - 1), b);
      TimesQuarterTurn(a, QuarterTurns(b, k - 1));
    }
  }

  // Turning on commutes with a quarter turn of both.
  lemma {:induction false} TurnedOnTurns(a: Point, turn: Point, b: Point, k: nat)
    requires TurnedOn(a, turn, b)
    ensures TurnedOn(QuarterTurns(a, k), turn, QuarterTurns(b, k))
  {
    if k > 0 {
      TurnedOnTurns(a, turn, b, k - 1);
      TurnedOnOnce(QuarterTurns(a, k - 1), turn, QuarterTurns(b, k - 1));
    }
  }

  lemma TurnedOnOnce(a: Point, turn: Point, b: Point)
    requires TurnedOn(a, turn, b)
    ensures TurnedOn(QuarterTurn(a), turn, QuarterTurn(b))
  {
    TimesQuarterTurn(a, turn);
    assert -b.y * ONE - -Times(a, turn).y == -(b.y * ONE - Times(a, turn).y);
  }

  lemma FirstHeadings(table: Table)
    requires Even(table)
    ensures Heading(table, 0) == Point(ONE, 0)
    ensures Heading(table, 1) == Direction(804, 1608)
    ensures Heading(table, 64) == Point(0, ONE)
  {
    assert Decompose(0) == (0, 0) && Decompose(1) == (0, 1) && Decompose(64) == (1, 0);
    assert QuarterTurns(Direction(0, 0), 1) == QuarterTurn(QuarterTurns(Direction(0, 0), 0));
  }

  lemma TurnsWithinAQuarter(table: Table, quarters: nat, residual: int)
    requires Even(table) && -SHEAR_CENTER <= residual < 31
    ensures var ((t, s), (t', s')) := (ResidualShears(table, residual), ResidualShears(table, residual + 1));
      TurnedOn(QuarterTurns(Direction(t, s), quarters), Direction(804, 1608), QuarterTurns(Direction(t', s'), quarters))
  {
    assert TurnsAt(table, residual + SHEAR_CENTER);
    var ((t, s), (t', s')) := (ResidualShears(table, residual), ResidualShears(table, residual + 1));
    TurnedOnTurns(Direction(t, s), Direction(804, 1608), Direction(t', s'), quarters);
  }

  lemma TurnsToNextQuarter(quarters: nat)
    requires quarters < 4
    ensures TurnedOn(
      QuarterTurns(Direction(26208, 45190), quarters), Direction(804, 1608),
      QuarterTurns(Direction(-27146, -46341), (quarters + 1) % 4))
  {
    LastEntryMeets();
    var last := Direction(-27146, -46341);
    TurnedOnTurns(Direction(26208, 45190), Direction(804, 1608), QuarterTurn(last), quarters);
    OneMoreQuarter(last, quarters);
  }

  // From every step to the next the body turns on by the same angle: all 256 of them are one turn.
  lemma EveryStepTurnsOn(table: Table, step: Step)
    requires Even(table)
    ensures TurnedOn(Heading(table, step), Heading(table, 1), Heading(table, (step + 1) % ANGLE_STEPS))
  {
    FirstHeadings(table);
    var (quarters, residual) := Decompose(step);
    NextStep(step);
    if residual < 31 {
      TurnsWithinAQuarter(table, quarters, residual);
    } else {
      TurnsToNextQuarter(quarters);
    }
  }

  lemma QuotientIs(n: nat, q: nat)
    requires 256 * q <= n < 256 * (q + 1)
    ensures n / 256 == q
  {
  }

  lemma NextStep(step: Step)
    ensures var ((quarters, residual), next) := (Decompose(step), Decompose((step + 1) % ANGLE_STEPS));
      next == if residual < 31 then (quarters, residual + 1) else ((quarters + 1) % 4, -32)
  {
    var quarters := (step * 4 + 128) / 256;
    var residual := step - quarters * 64;
    if step == 255 {
      assert Decompose(0) == (0, 0);
    } else {
      assert (step + 1) % ANGLE_STEPS == step + 1;
      QuotientIs((step + 1) * 4 + 128, if residual < 31 then quarters else quarters + 1);
    }
  }

  lemma OneMoreQuarter(p: Point, quarters: nat)
    requires quarters < 4
    ensures QuarterTurns(QuarterTurn(p), quarters) == QuarterTurns(p, (quarters + 1) % 4)
  {
    assert QuarterTurn(p) == QuarterTurns(p, 1) by {
      assert QuarterTurns(p, 0) == p;
    }
    TurnsAdd(p, 1, quarters);
    FourTurns(p);
  }

  // Every heading is on the unit circle.
  lemma HeadingsAreUnits(step: Step)
    ensures OnCircle(Heading(SHEARS, step))
  {
    var (quarters, residual) := Decompose(step);
    TableTurns(residual + SHEAR_CENTER);
    TableIsBounded(residual + SHEAR_CENTER);
    var (t, s) := ResidualShears(SHEARS, residual);
    HalvesAreOnCircle(t, s);
    TurnsKeepCircle(Direction(t, s), quarters);
  }

  lemma HalvesAreOnCircle(t: int, s: int)
    requires Halves(t, s) && -46341 <= s <= 46341
    ensures OnCircle(Direction(t, s))
  {
    var h, off := Direction(t, s), s * (ONE + t * t) - 2 * t * ONE;
    SquareOf(t, s, ONE, SHEAR_SCALE);
    assert h.x * h.x + h.y * h.y - ONE * ONE == s * off;
    SmallProduct(s, off, 46341, 5 * ONE / 4);
  }

  lemma SquareOf(t: int, s: int, one: int, n: int)
    requires n * n == one
    ensures (one - t * s) * (one - t * s) + (s * n) * (s * n) - one * one == s * (s * (one + t * t) - 2 * t * one)
  {
    assert (s * n) * (s * n) == s * s * one;
    assert (one - t * s) * (one - t * s) == one * one - 2 * (t * s * one) + t * s * (t * s);
  }

  lemma SmallProduct(a: int, b: int, m: nat, n: nat)
    requires Abs(a) <= m && Abs(b) <= n
    ensures Abs(a * b) <= m * n
  {
    assert Abs(a * b) == Abs(a) * Abs(b);
    assert (m - Abs(a)) * Abs(b) >= 0 && m * (n - Abs(b)) >= 0;
  }

  lemma {:induction false} TurnsKeepCircle(h: Point, k: nat)
    requires OnCircle(h)
    ensures OnCircle(QuarterTurns(h, k))
  {
    if k > 0 {
      TurnsKeepCircle(h, k - 1);
    }
  }

  // ------------------------------------------------ what the heading does to a body

  function Apart(p: Point, q: Point): Point {
    Point(q.x - p.x, q.y - p.y)
  }

  lemma {:induction false} TurnsKeepApart(p: Point, q: Point, k: nat)
    ensures Apart(QuarterTurns(p, k), QuarterTurns(q, k)) == QuarterTurns(Apart(p, q), k)
    ensures Abs(QuarterTurns(Apart(p, q), k).x) + Abs(QuarterTurns(Apart(p, q), k).y) == Abs(Apart(p, q).x) + Abs(Apart(p, q).y)
  {
    if k > 0 {
      TurnsKeepApart(p, q, k - 1);
    }
  }

  lemma ExactShearIsLinear(c: int, v: real, w: real, center: int)
    ensures ExactShear(c, w, center) - ExactShear(c, v, center) == c as real / 65536.0 * (w - v)
  {
  }

  // Three shears: the cosine on the diagonal, the sine below it, and above it what
  // would be minus the sine were the tangent exact.
  datatype Matrix = Matrix(cosine: real, sine: real, above: real)

  function MatrixFor(t: int, s: int): Matrix {
    var (m, n) := (t as real / 65536.0, s as real / 65536.0);
    Matrix(1.0 - m * n, n, m * (2.0 - m * n))
  }

  // The matrix takes d to x and y.
  ghost predicate Takes(m: Matrix, d: Point, x: real, y: real) {
    x == m.cosine * d.x as real - m.above * d.y as real && y == m.sine * d.x as real + m.cosine * d.y as real
  }

  lemma ShearsAreAMatrix(t: int, s: int, center: Point, p: Point, q: Point)
    ensures var (a, b) := (ExactlySheared(t, s, center, p), ExactlySheared(t, s, center, q));
      Takes(MatrixFor(t, s), Apart(p, q), b.0 - a.0, b.1 - a.1)
  {
    var (m, n) := (t as real / 65536.0, s as real / 65536.0);
    var (dx, dy) := (Apart(p, q).x as real, Apart(p, q).y as real);
    ExactShearIsLinear(t, p.y as real, q.y as real, center.y);
    var x := p.x as real - ExactShear(t, p.y as real, center.y);
    var x' := q.x as real - ExactShear(t, q.y as real, center.y);
    assert x' - x == dx - m * dy;
    ExactShearIsLinear(s, x, x', center.x);
    var y, y' := p.y as real + ExactShear(s, x, center.x), q.y as real + ExactShear(s, x', center.x);
    assert y' - y == dy + n * (dx - m * dy);
    ExactShearIsLinear(t, y, y', center.y);
    MatrixOf(m, n, dx, dy);
  }

  lemma MatrixOf(m: real, n: real, dx: real, dy: real)
    ensures var (x1, y1) := (dx - m * dy, dy + n * (dx - m * dy));
      y1 == n * dx + (1.0 - m * n) * dy && x1 - m * y1 == (1.0 - m * n) * dx - m * (2.0 - m * n) * dy
  {
    assert n * (m * dy) == m * n * dy;
    assert m * (n * dx) == m * n * dx;
    assert m * ((1.0 - m * n) * dy) == m * (1.0 - m * n) * dy;
  }

  // A matrix that turns as the heading does, but for an error above the diagonal.
  ghost predicate TurnsLike(m: Matrix, h: Point) {
    && Within(m.above, m.sine, 0.00002)
    && h.x as real == m.cosine * 4294967296.0 && h.y as real == m.sine * 4294967296.0
  }

  lemma ShearsTurnLike(t: int, s: int)
    requires Halves(t, s)
    ensures TurnsLike(MatrixFor(t, s), Direction(t, s))
  {
    var (m, n) := (t as real / 65536.0, s as real / 65536.0);
    CosineScales(t, s, m, n);
    TangentIsNear(t, s, m, n);
    assert MatrixFor(t, s) == Matrix(1.0 - m * n, n, m * (2.0 - m * n));
  }

  lemma CosineScales(t: int, s: int, m: real, n: real)
    requires t as real == m * 65536.0 && s as real == n * 65536.0
    ensures (ONE - t * s) as real == (1.0 - m * n) * 4294967296.0
  {
    assert (t * s) as real == t as real * s as real == m * n * 4294967296.0;
  }

  lemma TangentIsNear(t: int, s: int, m: real, n: real)
    requires Halves(t, s) && t as real == m * 65536.0 && s as real == n * 65536.0
    ensures Within(m * (2.0 - m * n), n, 0.00002)
  {
    var off := s * (ONE + t * t) - 2 * t * ONE;
    assert (t * t) as real == t as real * t as real == m * m * 4294967296.0;
    assert (ONE + t * t) as real == (1.0 + m * m) * 4294967296.0;
    assert (s * (ONE + t * t)) as real == s as real * (ONE + t * t) as real == n * (1.0 + m * m) * 281474976710656.0;
    assert off as real == (n * (1.0 + m * m) - 2.0 * m) * 281474976710656.0;
    assert n * (1.0 + m * m) - 2.0 * m == n - m * (2.0 - m * n);
  }

  // The cells of a body keep their distances and turn by the heading of the step, up to the rounding
  // of both cells and of the table.
  lemma RotationTurns(step: Step, com: Point, p: Point, q: Point)
    ensures var (a, b) := (RotatedBy(SHEARS, step, com, p), RotatedBy(SHEARS, step, com, q));
      var (d, turned) := (Apart(p, q), Times(Heading(SHEARS, step), Apart(p, q)));
      && Within(Apart(a, b).x as real, turned.x as real / 4294967296.0, 2.8 + 0.00002 * (Abs(d.x) + Abs(d.y)) as real)
      && Within(Apart(a, b).y as real, turned.y as real / 4294967296.0, 1.8)
  {
    TableIsEven();
    ExactTurns(SHEARS, step, com, p, q);
    RotationStaysClose(step, com, p);
    RotationStaysClose(step, com, q);
  }

  lemma ExactTurns(table: Table, step: Step, com: Point, p: Point, q: Point)
    requires Even(table)
    ensures var (a, b) := (ExactlyRotated(table, step, com, p), ExactlyRotated(table, step, com, q));
      var (d, turned) := (Apart(p, q), Times(Heading(table, step), Apart(p, q)));
      && Within(b.0 - a.0, turned.x as real / 4294967296.0, 0.00002 * (Abs(d.x) + Abs(d.y)) as real)
      && b.1 - a.1 == turned.y as real / 4294967296.0
  {
    var (quarters, residual) := Decompose(step);
    var (t, s) := ResidualShears(table, residual);
    EveryEntryHalves(table, residual);
    TurnsKeepApart(p, q, quarters);
    TimesQuarterTurns(Direction(t, s), Apart(p, q), quarters);
    ShearsTurnApart(t, s, QuarterTurns(com, quarters), QuarterTurns(p, quarters), QuarterTurns(q, quarters));
  }

  lemma EveryEntryHalves(table: Table, residual: int)
    requires Even(table) && -SHEAR_CENTER <= residual < SHEAR_CENTER
    ensures var (t, s) := ResidualShears(table, residual); Halves(t, s)
  {
    assert TurnsAt(table, residual + SHEAR_CENTER);
  }

  lemma ShearsTurnApart(t: int, s: int, center: Point, p: Point, q: Point)
    requires Halves(t, s)
    ensures var (a, b) := (ExactlySheared(t, s, center, p), ExactlySheared(t, s, center, q));
      var (d, turned) := (Apart(p, q), Times(Direction(t, s), Apart(p, q)));
      && Within(b.0 - a.0, turned.x as real / 4294967296.0, 0.00002 * (Abs(d.x) + Abs(d.y)) as real)
      && b.1 - a.1 == turned.y as real / 4294967296.0
  {
    var (a, b) := (ExactlySheared(t, s, center, p), ExactlySheared(t, s, center, q));
    ShearsAreAMatrix(t, s, center, p, q);
    ShearsTurnLike(t, s);
    MatrixTurns(MatrixFor(t, s), Direction(t, s), Apart(p, q), b.0 - a.0, b.1 - a.1);
  }

  lemma MatrixTurns(m: Matrix, h: Point, d: Point, x: real, y: real)
    requires TurnsLike(m, h) && Takes(m, d, x, y)
    ensures Within(x, Times(h, d).x as real / 4294967296.0, 0.00002 * (Abs(d.x) + Abs(d.y)) as real)
    ensures y == Times(h, d).y as real / 4294967296.0
  {
    Scaled(h.x, d.x, m.cosine);
    Scaled(h.x, d.y, m.cosine);
    Scaled(h.y, d.x, m.sine);
    Scaled(h.y, d.y, m.sine);
    SmallError(m.cosine * d.x as real, m.above, m.sine, d.x, d.y, x, Times(h, d).x as real / 4294967296.0);
  }

  lemma SmallError(along: real, off: real, n: real, dx: int, dy: int, x: real, turned: real)
    requires Within(off, n, 0.00002) && x == along - off * dy as real && turned == along - n * dy as real
    ensures Within(x, turned, 0.00002 * (Abs(dx) + Abs(dy)) as real)
  {
    ProductBound(off - n, dy as real, 0.00002, Abs(dy) as real);
    assert (off - n) * dy as real == off * dy as real - n * dy as real;
  }

  lemma Scaled(h: int, d: int, m: real)
    requires h as real == m * 4294967296.0
    ensures (h * d) as real / 4294967296.0 == m * d as real
  {
    assert (h * d) as real == h as real * d as real;
  }
}
