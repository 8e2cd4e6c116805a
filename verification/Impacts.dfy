// What an impact does to the cells it meets, read off the window: momentum, rebound and the turn
// of the wake (crates/fallingsand_sim/src/motion.rs).
module Impacts {
  import opened Wrappers
  import opened Materials
  import opened Cells
  import opened Coords
  import opened Windows
  import opened Motion
  import opened Courses
  import opened Numbers

  // The speed of a cell along a direction of the grid, and across it.
  function Along(cell: Cell, dx: int): int
    requires cell.motion.Velocity?
  {
    if dx != 0 then cell.motion.vx else cell.motion.vy
  }

  function Across(cell: Cell, dx: int): int
    requires cell.motion.Velocity?
  {
    if dx != 0 then cell.motion.vy else cell.motion.vx
  }

  predicate Unit(dx: int, dy: int) {
    (dx == 0) != (dy == 0) && -1 <= dx <= 1 && -1 <= dy <= 1
  }

  // A component that the two bytes of a velocity hold without being cut off.
  predicate Representable(v: int) {
    -0x8000 < v < 0x7fff
  }

  // ------------------------------------------------------- a push

  lemma ShareIsNearest(closing: nat, mass: nat, impulse: nat, total: nat)
    requires total > 0
    ensures 2 * Abs(Share(closing, mass, impulse, total) * (total * ONE_Q16) - closing * mass * impulse) <= total * ONE_Q16
  {
    assert closing * mass >= 0 && (closing * mass) * impulse >= 0;
    DivideSignedIsNearest(closing * mass * impulse, total * ONE_Q16);
  }

  // Together the two shares are the speed that is exchanged, up to one unit.
  lemma SharesAddUp(m1: nat, m2: nat, closing: nat, impulse: nat)
    requires m1 > 0 && m2 > 0
    ensures var total := m1 + m2;
      Abs(ONE_Q16 * (Share(closing, m2, impulse, total) + Share(closing, m1, impulse, total)) - closing * impulse) <= ONE_Q16
  {
    var total := m1 + m2;
    var a, b := Share(closing, m2, impulse, total), Share(closing, m1, impulse, total);
    ShareIsNearest(closing, m2, impulse, total);
    ShareIsNearest(closing, m1, impulse, total);
    NearSums(a * (total * ONE_Q16), closing * m2 * impulse, b * (total * ONE_Q16), closing * m1 * impulse, total * ONE_Q16);
    TotalOfShares(closing, m1, m2, impulse);
    SumOfScaled(a, b, total);
    Shared(ONE_Q16 * (a + b), closing * impulse, total);
  }

  lemma NearSums(x: int, p: int, y: int, q: int, t: int)
    requires 2 * Abs(x - p) <= t && 2 * Abs(y - q) <= t
    ensures Abs(x + y - (p + q)) <= t
  {
  }

  lemma Shared(x: int, y: int, total: nat)
    requires total > 0 && Abs(x * total - y * total) <= total * ONE_Q16
    ensures Abs(x - y) <= ONE_Q16
  {
    Distributes(x, y, total);
    DividesOut(x - y, ONE_Q16, total);
  }

  lemma TotalOfShares(closing: nat, m1: nat, m2: nat, impulse: nat)
    ensures closing * m2 * impulse + closing * m1 * impulse == (closing * impulse) * (m1 + m2)
  {
  }

  lemma SumOfScaled(a: int, b: int, total: nat)
    ensures a * (total * ONE_Q16) + b * (total * ONE_Q16) == (ONE_Q16 * (a + b)) * total
  {
  }

  lemma DividesOut(x: int, bound: nat, total: nat)
    requires total > 0 && Abs(x * total) <= bound * total
    ensures Abs(x) <= bound
  {
    CancelBound(x, bound, total);
    assert (-x) * total == -(x * total);
    CancelBound(-x, bound, total);
  }

  // How much of the closing speed comes back, in Q16: nothing between cells of one phase.
  function Bounce(mover: MaterialId, blocker: MaterialId, restitution: nat): nat {
    if CONTENT.phase(mover) == CONTENT.phase(blocker) then 0
    else if CONTENT.restitution(blocker) < restitution then CONTENT.restitution(blocker) else restitution
  }

  lemma DeltasAddUp(mover: MaterialId, blocker: MaterialId, closing: nat, restitution: nat)
    ensures var (lost, gained) := TransferDeltas(mover, blocker, closing, restitution);
      Abs(ONE_Q16 * (closing - lost - gained) + Bounce(mover, blocker, restitution) * closing) <= ONE_Q16
  {
    var bounce := Bounce(mover, blocker, restitution);
    var (lost, gained) := TransferDeltas(mover, blocker, closing, restitution);
    SharesAddUp(Heaviness(mover), Heaviness(blocker), closing, ONE_Q16 + bounce);
    Parted(closing, lost, gained, bounce);
  }

  lemma Parted(closing: int, lost: int, gained: int, bounce: int)
    ensures ONE_Q16 * (closing - lost - gained) + bounce * closing
      == -(ONE_Q16 * (lost + gained) - closing * (ONE_Q16 + bounce))
  {
  }

  // A push of `gained` along the direction, with its sign, and nothing across it.
  lemma PushGives(blocker: Cell, dx: int, dy: int, gained: int)
    requires blocker.motion.Velocity? && Unit(dx, dy)
    ensures var pushed := Pushed(blocker, dx, dy, gained);
      && pushed.motion.Velocity? && Across(pushed, dx) == Across(blocker, dx)
      && (Representable(Along(pushed, dx)) ==> Along(pushed, dx) == Along(blocker, dx) + AlongOf(dx, dy) * gained)
  {
  }

  // The window after a mover of this material has met the cell at `target` with a speed along the
  // direction, and what the mover keeps: the cell is the same matter, its speed across is as it was,
  // what one loses the other gains up to half the total mass, and the two part with the share of
  // their closing speed that bounces back, up to one unit. Nothing happens if they do not close in.
  ghost predicate Rebounds(
    w: Window, v: Window, mover: MaterialId, target: CellPos, dx: int, dy: int, velocity: int, kept: int, restitution: nat)
    requires Loose(w, target)
  {
    Loose(v, target) && var was, now := w.At(target).value, v.At(target).value;
    var s, u, u' := AlongOf(dx, dy), Along(was, dx), Along(now, dx);
    var m1, m2 := Heaviness(mover), Heaviness(was.material);
    && now.Visible() == was.Visible() && Across(now, dx) == Across(was, dx)
    && ((velocity - u) * s <= 0 ==> v == w && kept == velocity)
    && (Representable(u') ==>
          && 2 * Abs(m1 * (kept - velocity) + m2 * (u' - u)) <= m1 + m2
          && ((velocity - u) * s > 0 ==>
                Abs(ONE_Q16 * ((kept - u') * s) + Bounce(mover, was.material, restitution) * ((velocity - u) * s)) <= ONE_Q16))
  }

  lemma TransferRebounds(
    w: Window, mover: MaterialId, target: CellPos, dx: int, dy: int, velocity: int, restitution: nat)
    requires Loose(w, target) && w.Surrounded(target) && Unit(dx, dy)
    ensures var (v, kept) := Transferred(w, mover, target, dx, dy, velocity, restitution);
      Rebounds(w, v, mover, target, dx, dy, velocity, kept, restitution)
  {
    var was := w.At(target).value;
    var s, u := AlongOf(dx, dy), Along(was, dx);
    var closing := ClosingSpeed(was, dx, dy, velocity);
    assert closing == (velocity - u) * s;
    if closing > 0 {
      var (lost, gained) := TransferDeltas(mover, was.material, closing, restitution);
      var pushed := Pushed(was, dx, dy, gained);
      SetGives(w, target, pushed);
      PushGives(was, dx, dy, gained);
      TransferDrift(mover, was.material, closing, restitution);
      DeltasAddUp(mover, was.material, closing, restitution);
      SignedShares(Heaviness(mover), Heaviness(was.material), s, velocity, u, lost, gained);
    }
  }

  lemma SignedShares(m1: int, m2: int, s: int, velocity: int, u: int, lost: int, gained: int)
    requires s == 1 || s == -1
    ensures Abs(m1 * ((velocity - s * lost) - velocity) + m2 * ((u + s * gained) - u)) == Abs(m2 * gained - m1 * lost)
    ensures ((velocity - s * lost) - (u + s * gained)) * s == (velocity - u) * s - lost - gained
  {
    if s == 1 {
      assert m1 * -lost == -(m1 * lost);
    } else {
      assert m2 * -gained == -(m2 * gained);
    }
  }

  // ------------------------------------------------------- the wake of an exchange

  // The part of a wake that goes sideways is that of the mass ratio: its square is the lighter mass over
  // the heavier, and the square of the part that goes on is what that leaves of one.
  lemma WakeIsOfTheMassRatio(m1: nat, m2: nat)
    requires m1 > 0 && m2 > 0
    ensures var light, heavy := if m1 < m2 then m1 else m2, if m1 < m2 then m2 else m1;
      var rest := 0x1_0000_0000 - Contrast(m1, m2);
      light * 0x1_0000_0000 <= rest * heavy < light * 0x1_0000_0000 + heavy
    ensures var (forward, transverse) := Scatter(m1, m2);
      && forward * forward <= Contrast(m1, m2) < (forward + 1) * (forward + 1)
      && transverse * transverse <= 0x1_0000_0000 - Contrast(m1, m2) < (transverse + 1) * (transverse + 1)
  {
    ContrastIsAFraction(m1, m2);
    var light, heavy := if m1 < m2 then m1 else m2, if m1 < m2 then m2 else m1;
    ContrastOf(m1, m2, light, heavy);
    RatioLeft(light, heavy, 0x1_0000_0000, Contrast(m1, m2));
  }

  lemma ContrastOf(m1: nat, m2: nat, light: nat, heavy: nat)
    requires m1 > 0 && m2 > 0 && (if m1 < m2 then light == m1 && heavy == m2 else light == m2 && heavy == m1)
    ensures Contrast(m1, m2) == (heavy - light) * 0x1_0000_0000 / heavy
  {
  }

  lemma RatioLeft(light: nat, heavy: nat, one: nat, contrast: nat)
    requires heavy > 0 && light <= heavy && contrast == (heavy - light) * one / heavy
    ensures light * one <= (one - contrast) * heavy < light * one + heavy
  {
    var n := (heavy - light) * one;
    assert n == heavy * contrast + n % heavy;
    assert n == heavy * one - light * one;
    assert (one - contrast) * heavy == heavy * one - heavy * contrast;
  }

  lemma ApplyIsNearest(raw: nat, v: int)
    ensures 2 * Abs(ONE_Q16 * ApplyQ16(raw, v) - raw * v) <= ONE_Q16
  {
    var m := Abs(v * raw);
    assert m + 0x8000 == ONE_Q16 * ((m + 0x8000) / ONE_Q16) + (m + 0x8000) % ONE_Q16;
  }

  lemma MulIsNearest(a: nat, b: nat)
    ensures ONE_Q16 * MulQ16(a, b) <= a * b + 0x8000
  {
  }

  lemma AtMostOne(x: nat, y: nat)
    requires x * x + y * y <= 0x1_0000_0000
    ensures x <= ONE_Q16
  {
    if x > ONE_Q16 {
      Squares(ONE_Q16 + 1, x);
    }
  }

  lemma Squares(x: nat, y: nat)
    requires x <= y
    ensures x * x <= y * y
  {
    assert x * x <= x * y && x * y <= y * y;
  }

  // Both factors of the wake together are the retention at most, up to one unit.
  lemma KeepsAtMost(keep: nat, forward: nat, transverse: nat)
    requires forward * forward + transverse * transverse <= 0x1_0000_0000
    ensures var f, t := MulQ16(keep, forward), MulQ16(keep, transverse);
      f * f + t * t <= UpTo(keep)
  {
    var f, t := MulQ16(keep, forward), MulQ16(keep, transverse);
    AtMostOne(forward, transverse);
    AtMostOne(transverse, forward);
    MulIsNearest(keep, forward);
    MulIsNearest(keep, transverse);
    LegScaled(keep, forward, f);
    LegScaled(keep, transverse, t);
    HypotenuseScaled(keep * keep, forward * forward, transverse * transverse);
    assert (keep + 1) * (keep + 1) == keep * keep + 2 * keep + 1;
  }

  lemma HypotenuseScaled(square: nat, a: nat, b: nat)
    requires a + b <= 0x1_0000_0000
    ensures square * a + square * b <= 0x1_0000_0000 * square
  {
    assert square * a + square * b == square * (a + b);
    assert square * (0x1_0000_0000 - (a + b)) >= 0;
    assert square * (0x1_0000_0000 - (a + b)) == 0x1_0000_0000 * square - square * (a + b);
  }

  lemma LegScaled(keep: nat, leg: nat, f: nat)
    requires leg <= ONE_Q16 && ONE_Q16 * f <= keep * leg + 0x8000
    ensures 0x1_0000_0000 * (f * f) <= (keep * keep) * (leg * leg) + 0x1_0000_0000 * keep + 0x4000_0000
  {
    var p := keep * leg;
    LegIsShort(keep, leg);
    LegSquare(ONE_Q16 * f, p);
    SquareOfProduct(keep, leg);
    SquareOfProduct(ONE_Q16, f);
  }

  lemma LegIsShort(keep: nat, leg: nat)
    requires leg <= ONE_Q16
    ensures keep * leg <= ONE_Q16 * keep
  {
    assert keep * (ONE_Q16 - leg) >= 0;
  }

  lemma LegSquare(n: nat, p: nat)
    requires n <= p + 0x8000
    ensures n * n <= p * p + ONE_Q16 * p + 0x4000_0000
  {
    Squares(n, p + 0x8000);
    assert (p + 0x8000) * (p + 0x8000) == p * p + ONE_Q16 * p + 0x4000_0000;
  }

  lemma SquareOfProduct(a: int, b: int)
    ensures (a * b) * (a * b) == (a * a) * (b * b)
  {
  }

  // A turn and a stretch: what it makes of a length, of the part ahead and of the part to the left.
  lemma TurnedAndStretched(f: int, t: int, rx: int, ry: int)
    ensures var ax, ay, square := f * rx - t * ry, f * ry + t * rx, rx * rx + ry * ry;
      && ax * ax + ay * ay == (f * f + t * t) * square
      && rx * ax + ry * ay == f * square && rx * ay - ry * ax == t * square
  {
  }

  // (ax, ay) is (rx, ry) turned to a side, and never against it, with its square at most `bound` times
  // as long.
  predicate TurnOf(rx: int, ry: int, ax: int, ay: int, side: int, bound: nat) {
    && ax * ax + ay * ay <= bound * (rx * rx + ry * ry)
    && rx * ax + ry * ay >= 0 && side * (rx * ay - ry * ax) >= 0
  }

  function UpTo(keep: nat): nat {
    var more := keep + 1;
    assert more * more >= 0;
    more * more
  }

  // The wake of two cells is near a turn of their relative velocity.
  predicate NearTurnOf(wake: (int, int), rx: int, ry: int, ax: int, ay: int, side: int, bound: nat) {
    Abs(ONE_Q16 * wake.0 - ax) <= ONE_Q16 && Abs(ONE_Q16 * wake.1 - ay) <= ONE_Q16 && TurnOf(rx, ry, ax, ay, side, bound)
  }

  // The wake of two cells comes of what the exchange keeps, of their masses, and of the relative velocity.
  lemma WakeComesOf(mover: Cell, displaced: Cell, side: int)
    requires mover.motion.Velocity? && displaced.motion.Velocity?
    ensures Wake(mover, displaced, side)
      == Scattered(
           LiquidWakeKeep(mover.material, displaced.material),
           Scatter(Heaviness(mover.material), Heaviness(displaced.material)), side,
           mover.motion.vx - displaced.motion.vx, mover.motion.vy - displaced.motion.vy)
  {
  }

  // It is the relative velocity, turned to the side of the draw and never against it, and stretched
  // by what the exchange keeps at most, up to one unit of speed along each axis.
  lemma WakeIsATurn(wake: (int, int), keep: nat, m1: nat, m2: nat, side: int, rx: int, ry: int) returns (ax: int, ay: int)
    requires (side == 1 || side == -1) && m1 > 0 && m2 > 0 && wake == Scattered(keep, Scatter(m1, m2), side, rx, ry)
    ensures NearTurnOf(wake, rx, ry, ax, ay, side, UpTo(keep))
  {
    ScatterIsNoGain(m1, m2);
    ax, ay := ScatteredTurns(keep, Scatter(m1, m2), side, rx, ry);
  }

  lemma ScatteredTurns(keep: nat, scatter: (nat, nat), side: int, rx: int, ry: int) returns (ax: int, ay: int)
    requires (side == 1 || side == -1) && scatter.0 * scatter.0 + scatter.1 * scatter.1 <= 0x1_0000_0000
    ensures NearTurnOf(Scattered(keep, scatter, side, rx, ry), rx, ry, ax, ay, side, UpTo(keep))
  {
    KeepsAtMost(keep, scatter.0, scatter.1);
    ax, ay := NearTurn(MulQ16(keep, scatter.0), MulQ16(keep, scatter.1), side, rx, ry, UpTo(keep));
  }

  lemma NearTurn(f: nat, t: nat, side: int, rx: int, ry: int, bound: nat) returns (ax: int, ay: int)
    requires (side == 1 || side == -1) && f * f + t * t <= bound
    ensures Abs(ONE_Q16 * (ApplyQ16(f, rx) - side * ApplyQ16(t, ry)) - ax) <= ONE_Q16
    ensures Abs(ONE_Q16 * (ApplyQ16(f, ry) + side * ApplyQ16(t, rx)) - ay) <= ONE_Q16
    ensures TurnOf(rx, ry, ax, ay, side, bound)
  {
    ApplyIsNearest(f, rx);
    ApplyIsNearest(f, ry);
    ApplyIsNearest(t, rx);
    ApplyIsNearest(t, ry);
    ax := SidedSum(ApplyQ16(f, rx), f * rx, side, -1, ApplyQ16(t, ry), t * ry);
    ay := SidedSum(ApplyQ16(f, ry), f * ry, side, 1, ApplyQ16(t, rx), t * rx);
    IsATurn(f, t, side, rx, ry, ax, ay, bound);
  }

  lemma SidedSum(a: int, p: int, side: int, sign: int, b: int, q: int) returns (sum: int)
    requires (side == 1 || side == -1) && (sign == 1 || sign == -1)
    requires 2 * Abs(ONE_Q16 * a - p) <= ONE_Q16 && 2 * Abs(ONE_Q16 * b - q) <= ONE_Q16
    ensures sum == p + sign * (side * q) && Abs(ONE_Q16 * (a + sign * (side * b)) - sum) <= ONE_Q16
  {
    sum := p + sign * (side * q);
  }

  lemma IsATurn(f: nat, t: nat, side: int, rx: int, ry: int, ax: int, ay: int, bound: nat)
    requires (side == 1 || side == -1) && ax == f * rx - side * (t * ry) && ay == f * ry + side * (t * rx)
    requires f * f + t * t <= bound
    ensures TurnOf(rx, ry, ax, ay, side, bound)
  {
    Sided(side, t, ry);
    Sided(side, t, rx);
    TurnedAndStretched(f, side * t, rx, ry);
    assert rx * rx >= 0 && ry * ry >= 0;
    WakeBounds(f, t, side, rx * rx + ry * ry, bound);
  }

  lemma Sided(side: int, t: int, v: int)
    requires side == 1 || side == -1
    ensures (side * t) * v == side * (t * v)
  {
  }

  lemma WakeBounds(f: nat, t: nat, side: int, square: nat, bound: nat)
    requires (side == 1 || side == -1) && f * f + t * t <= bound
    ensures (f * f + (side * t) * (side * t)) * square <= bound * square
    ensures f * square >= 0 && side * ((side * t) * square) >= 0
  {
    assert (side * t) * (side * t) == t * t;
    assert t * square >= 0 && side * ((side * t) * square) == t * square;
  }

  // ------------------------------------------------------- mover and liquid apart

  lemma WakeIsShared(m1: nat, m2: nat, wake: int)
    requires m1 > 0 && m2 > 0
    ensures Abs(DivideSigned(m2 * wake, m1 + m2) + DivideSigned(m1 * wake, m1 + m2) - wake) <= 1
  {
    DivideSignedIsNearest(m2 * wake, m1 + m2);
    DivideSignedIsNearest(m1 * wake, m1 + m2);
    assert m2 * wake + m1 * wake == wake * (m1 + m2);
    NearestSum(
      DivideSigned(m2 * wake, m1 + m2), DivideSigned(m1 * wake, m1 + m2), m2 * wake, m1 * wake, wake, m1 + m2);
  }

  lemma NearestSum(a: int, b: int, p: int, q: int, c: int, total: nat)
    requires total > 0 && 2 * Abs(a * total - p) <= total && 2 * Abs(b * total - q) <= total && p + q == c * total
    ensures Abs(a + b - c) <= 1
  {
    NearSums(a * total, p, b * total, q, total);
    assert a * total + b * total == (a + b) * total;
    Distributes(a + b, c, total);
    DividesOut(a + b - c, 1, total);
  }

  // When no density is exchanged, the two part with the wake, up to one unit along each axis.
  lemma ExchangeSeparates(mover: Cell, displaced: Cell, side: int, wake: (int, int))
    requires mover.motion.Velocity? && displaced.motion.Velocity? && wake == Wake(mover, displaced, side)
    ensures var after := Exchanged(mover, displaced, side, false);
      Abs(after.moverX - after.displacedX - wake.0) <= 1 && Abs(after.moverY - after.displacedY - wake.1) <= 1
  {
    var m1, m2 := Heaviness(mover.material), Heaviness(displaced.material);
    AxisSeparates(m1, m2, mover.motion.vx, displaced.motion.vx, wake.0);
    AxisSeparates(m1, m2, mover.motion.vy, displaced.motion.vy, wake.1);
    assert side * 0 == 0;
  }

  lemma AxisSeparates(m1: nat, m2: nat, u: int, v: int, wake: int)
    requires m1 > 0 && m2 > 0
    ensures var (a, b) := AxisExchange(m1, m2, u, v, wake, 0);
      Abs(a - b - wake) <= 1
  {
    WakeIsShared(m1, m2, wake);
    assert m1 * 0 == 0 && DivideSigned(0, m2) == 0;
  }
}
