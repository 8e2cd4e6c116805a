// What a blow of the size the resolver wants does to a contact wherever it is struck
// (crates/fallingsand_sim/src/body/contact.rs): the effective masses are the inverse of what an
// impulse gains, with the turning of the bodies, so that one blow meets the need.
module Response {
  import opened Wrappers
  import opened Numbers
  import opened BodyState
  import opened Contact
  import opened Landing

  // ---------------------------------------------------------- what turning adds

  // How much longer than the centre's way the way of the struck place is, as a lever.
  function Lever(com: (int, int), point: (int, int), d: (int, int)): int {
    Dot((-(point.1 - com.1), point.0 - com.0), d)
  }

  // Rounding to the nearest twice is off by at most one.
  lemma SpeedsDiffer(spin: int, more: int, lever: int)
    ensures Abs(RADIANS_PER_TURN * (SpeedAt(spin + more, lever) - SpeedAt(spin, lever)) - TAU_NUMERATOR * more * lever)
      <= RADIANS_PER_TURN
  {
    var n, n' := TAU_NUMERATOR * spin * lever, TAU_NUMERATOR * (spin + more) * lever;
    NearestQuotient(n, RADIANS_PER_TURN);
    NearestQuotient(n', RADIANS_PER_TURN);
    MoreSpin(TAU_NUMERATOR, spin, more, lever);
  }

  lemma MoreSpin(tau: int, spin: int, more: int, lever: int)
    ensures tau * (spin + more) * lever == tau * spin * lever + tau * more * lever
  {
  }

  // Two gains along the two axes, each off by at most one.
  lemma AlongBoth(r: nat, a: int, b: int, p: int, q: int, d: (int, int))
    requires Abs(r * a - p) <= r && Abs(r * b - q) <= r
    ensures Abs(r * (a * d.0 + b * d.1) - (p * d.0 + q * d.1)) <= r * Reach(d)
  {
    ScaledLoss(r * a - p, d.0, r);
    ScaledLoss(r * b - q, d.1, r);
    ErrorAlong(r, a, p, d.0);
    ErrorAlong(r, b, q, d.1);
    Distributed(r, a * d.0, b * d.1);
    Distributed(r, Abs(d.0), Abs(d.1));
  }

  lemma ErrorAlong(r: int, a: int, p: int, d: int)
    ensures (r * a - p) * d == r * (a * d) - p * d
  {
  }

  lemma Distributed(r: int, a: int, b: int)
    ensures r * (a + b) == r * a + r * b
  {
  }

  // What more spin adds to the speed of a place along a direction.
  lemma SpinGains(spin: int, more: int, rx: int, ry: int, d: (int, int))
    ensures var before, after := (-SpeedAt(spin, ry), SpeedAt(spin, rx)), (-SpeedAt(spin + more, ry), SpeedAt(spin + more, rx));
      Abs(RADIANS_PER_TURN * (Dot(after, d) - Dot(before, d)) - TAU_NUMERATOR * more * Dot((-ry, rx), d))
        <= RADIANS_PER_TURN * Reach(d)
  {
    var a, b := SpeedAt(spin, ry) - SpeedAt(spin + more, ry), SpeedAt(spin + more, rx) - SpeedAt(spin, rx);
    SpeedsDiffer(spin, more, ry);
    SpeedsDiffer(spin, more, rx);
    SpinGainsAlong(RADIANS_PER_TURN, a, b, TAU_NUMERATOR * more, rx, ry, d);
    DotsDiffer((-SpeedAt(spin, ry), SpeedAt(spin, rx)), (-SpeedAt(spin + more, ry), SpeedAt(spin + more, rx)), d);
  }

  lemma SpinGainsAlong(r: nat, a: int, b: int, t: int, rx: int, ry: int, d: (int, int))
    requires Abs(r * -a - t * ry) <= r && Abs(r * b - t * rx) <= r
    ensures Abs(r * (a * d.0 + b * d.1) - t * Dot((-ry, rx), d)) <= r * Reach(d)
  {
    assert r * -a == -(r * a) && t * -ry == -(t * ry);
    AlongBoth(r, a, b, t * -ry, t * rx, d);
    DotScales(t, (-ry, rx), d);
  }

  lemma DotsDiffer(a: (int, int), b: (int, int), d: (int, int))
    ensures Dot(b, d) - Dot(a, d) == (b.0 - a.0) * d.0 + (b.1 - a.1) * d.1
  {
  }

  lemma DotScales(t: int, a: (int, int), d: (int, int))
    ensures t * Dot(a, d) == t * a.0 * d.0 + t * a.1 * d.1
  {
  }

  // ------------------------------------------------------------ what a blow gains

  // The lighter the body, and the easier it turns about the lever, the larger: the denominator of
  // the effective mass.
  function Ease(m: int, moment: int, lever: int, d: (int, int)): int {
    moment * Dot(d, d) + m * (lever * lever)
  }

  function Slack(lever: int, d: (int, int)): nat {
    2 * RADIANS_PER_TURN * Reach(d) + TAU_NUMERATOR * Abs(lever)
  }

  // A body that answers a blow as its effective mass says: it turns, or the blow goes through its centre.
  ghost predicate Answers(body: Body, lever: int) {
    WellMade(body) && body.inertia.moment > 0 && (Turns(body) || lever == 0)
  }

  // A blow moves the struck place along itself by its share of the mass, and of the moment at the lever.
  lemma BlowGains(body: Body, com: (int, int), point: (int, int), d: (int, int), j: int)
    requires Answers(body, Lever(com, point, d))
    ensures var hit, lever := Hit(body, com, point, j * d.0, j * d.1, false), Lever(com, point, d);
      var gain := Dot(PointVelocity(hit, com, point), d) - Dot(PointVelocity(body, com, point), d);
      var m, moment := body.inertia.mass, body.inertia.moment;
      Abs(m * moment * RADIANS_PER_TURN * gain - j * RADIANS_PER_TURN * Ease(m, moment, lever, d))
        <= m * moment * Slack(lever, d)
  {
    var hit, lever := Hit(body, com, point, j * d.0, j * d.1, false), Lever(com, point, d);
    var m, moment := body.inertia.mass, body.inertia.moment;
    var (rx, ry) := (point.0 - com.0, point.1 - com.1);
    var more := hit.spin - body.spin;
    SpinGains(body.spin, more, rx, ry, d);
    GainIsNear(j, d, m);
    SpinIsNear(body, com, point, d, j);
    var before, after := (-SpeedAt(body.spin, ry), SpeedAt(body.spin, rx)), (-SpeedAt(hit.spin, ry), SpeedAt(hit.spin, rx));
    var turned := Dot(after, d) - Dot(before, d);
    MovesAndTurns(body, hit, com, point, d, Gained(j, d, m));
    TurningGains(moment, RADIANS_PER_TURN, TAU_NUMERATOR, turned, more, lever, j, Reach(d));
    GainsTogether(
      m, moment, RADIANS_PER_TURN, Gained(j, d, m), turned, j, Dot(d, d), lever, Reach(d), TAU_NUMERATOR * Abs(lever));
  }

  // The spin a blow adds, from its torque.
  lemma SpinIsNear(body: Body, com: (int, int), point: (int, int), d: (int, int), j: int)
    requires Answers(body, Lever(com, point, d))
    ensures var hit, lever := Hit(body, com, point, j * d.0, j * d.1, false), Lever(com, point, d);
      Abs(j * lever * RADIANS_PER_TURN - body.inertia.moment * TAU_NUMERATOR * (hit.spin - body.spin))
        <= body.inertia.moment * TAU_NUMERATOR
  {
    if Turns(body) {
      BlowTurns(body, com, point, d, j);
    }
  }

  lemma MovesAndTurns(body: Body, hit: Body, com: (int, int), point: (int, int), d: (int, int), moved: int)
    requires moved == (hit.vx - body.vx) * d.0 + (hit.vy - body.vy) * d.1
    ensures var (rx, ry) := (point.0 - com.0, point.1 - com.1);
      Dot(PointVelocity(hit, com, point), d) - Dot(PointVelocity(body, com, point), d)
        == moved + (Dot((-SpeedAt(hit.spin, ry), SpeedAt(hit.spin, rx)), d)
                    - Dot((-SpeedAt(body.spin, ry), SpeedAt(body.spin, rx)), d))
  {
    var (rx, ry) := (point.0 - com.0, point.1 - com.1);
    DotOfSum((hit.vx, hit.vy), (-SpeedAt(hit.spin, ry), SpeedAt(hit.spin, rx)), d);
    DotOfSum((body.vx, body.vy), (-SpeedAt(body.spin, ry), SpeedAt(body.spin, rx)), d);
    DotsDiffer((body.vx, body.vy), (hit.vx, hit.vy), d);
  }

  lemma TurningGains(moment: nat, r: nat, t: nat, turned: int, more: int, lever: int, j: int, reach: nat)
    requires Abs(r * turned - t * more * lever) <= r * reach
    requires Abs(j * lever * r - moment * t * more) <= moment * t
    ensures Abs(moment * r * turned - j * r * (lever * lever)) <= moment * (r * reach + t * Abs(lever))
  {
    ScaledLoss(j * lever * r - moment * t * more, lever, moment * t);
    ScaledError(r * turned - t * more * lever, r * reach, moment);
    LeverTwice(j, lever, r, moment, t, more);
    ErrorScaled(moment, r * turned, t * more * lever);
    Regrouped(moment, r, turned);
    Distributed(moment, r * reach, t * Abs(lever));
    Regrouped(moment, t, Abs(lever));
  }

  lemma LeverTwice(j: int, lever: int, r: int, moment: int, t: int, more: int)
    ensures (j * lever * r - moment * t * more) * lever == j * r * (lever * lever) - moment * (t * more * lever)
  {
  }

  lemma ErrorScaled(m: int, a: int, b: int)
    ensures m * (a - b) == m * a - m * b
  {
  }

  lemma Regrouped(a: int, b: int, c: int)
    ensures a * (b * c) == a * b * c
  {
  }

  lemma ScaledError(e: int, bound: int, m: nat)
    requires Abs(e) <= bound
    ensures Abs(m * e) <= m * bound
  {
    assert Abs(m * e) == m * Abs(e);
    assert m * Abs(e) <= m * bound;
  }

  lemma GainsTogether(
    m: nat, moment: nat, r: nat, moved: int, turned: int, j: int, square: int, lever: int, reach: nat, slack: nat)
    requires Abs(m * moved - j * square) <= m * reach
    requires Abs(moment * r * turned - j * r * (lever * lever)) <= moment * (r * reach + slack)
    ensures Abs(m * moment * r * (moved + turned) - j * r * (moment * square + m * (lever * lever)))
      <= m * moment * (2 * r * reach + slack)
  {
    ScaledError(m * moved - j * square, m * reach, moment * r);
    ScaledError(moment * r * turned - j * r * (lever * lever), moment * (r * reach + slack), m);
    ErrorScaled(moment * r, m * moved, j * square);
    ErrorScaled(m, moment * r * turned, j * r * (lever * lever));
    GainTerms(m, moment, r, moved, turned, j, square, lever * lever);
    SlackTerms(m, moment, r, reach, slack);
  }

  lemma GainTerms(m: int, moment: int, r: int, moved: int, turned: int, j: int, square: int, lever: int)
    ensures moment * r * (m * moved) + m * (moment * r * turned) == m * moment * r * (moved + turned)
    ensures moment * r * (j * square) + m * (j * r * lever) == j * r * (moment * square + m * lever)
  {
  }

  lemma SlackTerms(m: int, moment: int, r: int, reach: int, slack: int)
    ensures moment * r * (m * reach) + m * (moment * (r * reach + slack)) == m * moment * (2 * r * reach + slack)
  {
  }

  // -------------------------------------------------------- the effective mass

  // The effective mass is the inverse of the ease, up to a unit, where it is not cut off at one.
  lemma MassIsInverse(side: Side, m: Mass, moment: nat, lever: int, d: (int, int))
    requires side.inverse == Some(Inverse(m, moment, lever, false))
    requires 0 < Ease(m, moment, lever, d) <= m * moment * MASS_UNITS
    ensures var (a, ease) := (EffectiveMass(side, d), Ease(m, moment, lever, d));
      a.Some? && a.value * ease <= m * moment * MASS_UNITS < (a.value + 1) * ease
  {
    Parted(m * moment * MASS_UNITS, Ease(m, moment, lever, d));
  }

  lemma Parted(n: nat, d: nat)
    requires 0 < d <= n
    ensures TruncateDiv(n, d) >= 1 && TruncateDiv(n, d) * d <= n < (TruncateDiv(n, d) + 1) * d
  {
    var q := n / d;
    assert n == d * q + n % d;
    SumScaled(q, d);
  }

  // A side gives way to a blow as its effective mass says.
  ghost predicate Yields(a: nat, gain: int, j: int, slack: nat) {
    RADIANS_PER_TURN * a * Abs(a * gain - j * MASS_UNITS) <= a * a * slack + Abs(j) * RADIANS_PER_TURN * MASS_UNITS
  }

  lemma SideYields(m: nat, moment: nat, ease: nat, slack: nat, a: nat, gain: int, j: int)
    requires m > 0 && moment > 0 && a * ease <= m * moment * MASS_UNITS < (a + 1) * ease
    requires Abs(m * moment * RADIANS_PER_TURN * gain - j * RADIANS_PER_TURN * ease) <= m * moment * slack
    ensures Yields(a, gain, j, slack)
  {
    SideYieldsBy(m * moment, RADIANS_PER_TURN, ease, slack, a, gain, j, MASS_UNITS);
  }

  lemma SideYieldsBy(w: nat, r: nat, ease: nat, slack: nat, a: nat, gain: int, j: int, units: nat)
    requires w > 0 && a * ease <= w * units < (a + 1) * ease
    requires Abs(w * r * gain - j * r * ease) <= w * slack
    ensures r * a * Abs(a * gain - j * units) <= a * a * slack + Abs(j) * r * units
  {
    var x := a * gain - j * units;
    SumScaled(a, ease);
    Exchanged(w, r, ease, a, gain, j, units);
    OffBy(w * r * gain - j * r * ease, w * slack, a, j, r, w * units - a * ease, ease);
    SizeOf(w * r, x);
    SharedOut(w, r, ease, slack, a, Abs(x), Abs(j), units);
  }

  lemma OffBy(off: int, slack: nat, a: nat, j: int, r: nat, short: int, ease: nat)
    requires Abs(off) <= slack && 0 <= short <= ease
    ensures Abs(a * off - j * r * short) <= a * slack + Abs(j) * r * ease
  {
    ScaledError(off, slack, a);
    ScaledSize(j * r, short, ease);
    SizeOf(r, j);
  }

  lemma SharedOut(w: nat, r: nat, ease: nat, slack: nat, a: nat, x: nat, j: nat, units: nat)
    requires w > 0 && a * ease <= w * units
    requires w * r * x <= a * (w * slack) + j * r * ease
    ensures r * a * x <= a * a * slack + j * r * units
  {
    Monotone(a, w * r * x, a * (w * slack) + j * r * ease);
    Rotated(a, w, r, x);
    Distributed(a, a * (w * slack), j * r * ease);
    Reordered(a, w, slack);
    Swapped(a, j * r, ease);
    Swapped(j * r, w, units);
    Distributed(w, a * a * slack, j * r * units);
    Monotone(j * r, a * ease, w * units);
    CancelFactor(w, r * a * x, a * a * slack + j * r * units);
  }

  lemma SumScaled(a: int, d: int)
    ensures (a + 1) * d == a * d + d
  {
  }

  lemma Exchanged(w: int, r: int, ease: int, a: int, gain: int, j: int, units: int)
    ensures w * r * (a * gain - j * units) == a * (w * r * gain - j * r * ease) - j * r * (w * units - a * ease)
  {
  }

  lemma ScaledSize(j: int, e: nat, bound: nat)
    requires e <= bound
    ensures Abs(j * e) <= Abs(j) * bound
  {
    assert Abs(j * e) == Abs(j) * e;
    assert Abs(j) * e <= Abs(j) * bound;
  }

  lemma Rotated(a: int, w: int, r: int, x: int)
    ensures a * (w * r * x) == w * (r * a * x)
  {
  }

  lemma Reordered(a: int, w: int, slack: int)
    ensures a * (a * (w * slack)) == w * (a * a * slack)
  {
  }

  lemma Swapped(a: int, b: int, c: int)
    ensures a * (b * c) == b * (a * c)
  {
  }

  lemma SizeOf(k: nat, x: int)
    ensures Abs(k * x) == k * Abs(x)
  {
  }

  lemma Monotone(k: nat, a: int, b: int)
    requires a <= b
    ensures k * a <= k * b
  {
  }

  lemma CancelFactor(w: nat, a: int, b: int)
    requires w > 0 && w * a <= w * b
    ensures a <= b
  {
    if a > b {
      Monotone(w, b + 1, a);
    }
  }

  // ------------------------------------------------------ one blow meets the need

  lemma TruncatesBelow(n: int, d: nat)
    requires d > 0
    ensures Abs(TruncateDiv(n, d)) * d <= Abs(n)
  {
    Whole(Abs(n), d, Abs(TruncateDiv(n, d)));
  }

  lemma Whole(n: nat, d: nat, q: nat)
    requires d > 0 && q == n / d
    ensures q * d <= n
  {
  }

  // What is left of a need: the slack of the speeds, and the share of a unit of mass.
  ghost predicate Meets(a: nat, need: int, left: int, slack: nat) {
    RADIANS_PER_TURN * a * Abs(left) <= a * slack + RADIANS_PER_TURN * (Abs(need) + MASS_UNITS)
  }

  // The blow brings the closing speed to the goal, up to the rounding of speeds and the unit of the mass.
  lemma NeedIsMet(a: nat, gain: int, need: int, j: int, slack: nat)
    requires a > 0 && j == TruncateDiv(need * a, MASS_UNITS) && Yields(a, gain, j, slack)
    ensures Meets(a, need, need - gain, slack)
  {
    TruncationLoss(need * a, MASS_UNITS);
    TruncatesBelow(need * a, MASS_UNITS);
    SizeOf(a, need);
    NeedIsMetBy(RADIANS_PER_TURN, a, gain, need, j, slack, MASS_UNITS);
  }

  lemma NeedIsMetBy(r: nat, a: nat, gain: int, need: int, j: int, slack: nat, units: nat)
    requires a > 0 && Abs(need * a - units * j) <= units && Abs(j) * units <= Abs(need) * a
    requires r * a * Abs(a * gain - j * units) <= a * a * slack + Abs(j) * r * units
    ensures r * a * Abs(gain - need) <= a * slack + r * (Abs(need) + units)
  {
    Apart(a, gain, need, j, units);
    SizeOf(a, gain - need);
    Chained(r, a, Abs(gain - need), Abs(a * gain - j * units), Abs(j), Abs(need), slack, units);
  }

  lemma Chained(r: nat, a: nat, g: nat, x: nat, j: nat, need: nat, slack: nat, units: nat)
    requires a > 0 && a * g <= x + units && j * units <= need * a
    requires r * a * x <= a * a * slack + j * r * units
    ensures r * a * g <= a * slack + r * (need + units)
  {
    Monotone(r * a, a * g, x + units);
    Distributed(r * a, x, units);
    Reordered3(j, r, units);
    Monotone(r, j * units, need * a);
    Rescaled(r, a, g, slack, need, units);
    CancelFactor(a, r * a * g, a * slack + r * (need + units));
  }

  lemma Apart(a: int, gain: int, need: int, j: int, units: int)
    ensures a * (gain - need) == (a * gain - j * units) - (need * a - units * j)
  {
  }

  lemma Rescaled(r: nat, a: nat, g: nat, slack: nat, need: nat, units: nat)
    ensures r * a * (a * g) == a * (r * a * g)
    ensures a * a * slack + r * (need * a) + r * a * units == a * (a * slack + r * (need + units))
  {
    Swapped(r * a, a, g);
    Distributed(a, a * slack, r * (need + units));
    Distributed(r, need, units);
    Distributed(a, r * need, r * units);
    Regrouped(a, a, slack);
    Reordered3(r, a, units);
    Turned(r, need, a);
  }

  lemma Turned(r: int, need: int, a: int)
    ensures r * (need * a) == a * (r * need)
  {
  }

  lemma Reordered3(a: int, b: int, c: int)
    ensures a * b * c == b * (a * c)
  {
  }

  // The body's side of a contact.
  lemma BodyYields(body: Body, com: (int, int), point: (int, int), d: (int, int), j: int, side: Side)
    requires Answers(body, Lever(com, point, d)) && side.inverse == Some(InverseOf(body, com, point, d))
    requires Eased(body, com, point, d)
    ensures var a := EffectiveMass(side, d);
      a.Some? && Yields(a.value, GainOf(body, com, point, d, j), j, Slack(Lever(com, point, d), d))
  {
    var (m, moment, lever) := (body.inertia.mass, body.inertia.moment, Lever(com, point, d));
    MassIsInverse(side, m, moment, lever, d);
    BlowGains(body, com, point, d, j);
    SideYields(
      m, moment, Ease(m, moment, lever, d), Slack(lever, d), EffectiveMass(side, d).value,
      GainOf(body, com, point, d, j), j);
  }

  function InverseOf(body: Body, com: (int, int), point: (int, int), d: (int, int)): Inverse
    requires WellMade(body)
  {
    Inverse(body.inertia.mass, body.inertia.moment, Lever(com, point, d), false)
  }

  // The effective mass is not cut off.
  ghost predicate Eased(body: Body, com: (int, int), point: (int, int), d: (int, int)) {
    var (m, moment) := (body.inertia.mass, body.inertia.moment);
    0 < Ease(m, moment, Lever(com, point, d), d) <= m * moment * MASS_UNITS
  }

  // What the struck place gains along the blow.
  function GainOf(body: Body, com: (int, int), point: (int, int), d: (int, int), j: int): int
    requires WellMade(body)
  {
    Dot(PointVelocity(Hit(body, com, point, j * d.0, j * d.1, false), com, point), d)
    - Dot(PointVelocity(body, com, point), d)
  }

  // A side that answers a blow, by a mass that is not cut off.
  ghost predicate Ready(scene: Scene, c: Contact, d: (int, int))
    requires scene.Valid() && scene.Holds(c)
  {
    var (body, com) := (scene.bodies[c.body], scene.coms[c.body]);
    Answers(body, Lever(com, c.Point(), d)) && Eased(body, com, c.Point(), d)
  }

  // The body that is struck gains just that.
  lemma MineGains(scene: Scene, c: Contact, d: (int, int), j: int)
    requires scene.Valid() && scene.Holds(c)
    ensures var struck, gain := Struck(scene, c, d, j), GainOf(scene.bodies[c.body], scene.coms[c.body], c.Point(), d, j);
      struck.Holds(c) && Dot(MyVelocity(struck, c), d) == Dot(MyVelocity(scene, c), d) + gain
  {
    assert Struck(scene, c, d, j).bodies[c.body]
      == Hit(scene.bodies[c.body], scene.coms[c.body], c.Point(), j * d.0, j * d.1, false);
  }

  // On the ground: wherever the body is struck, one blow of the wanted size brings the speed at which
  // the place closes in to the goal.
  lemma GroundBlowMeetsGoal(scene: Scene, c: Contact, d: (int, int), goal: int)
    requires scene.Valid() && scene.Holds(c) && c.peer.Terrain? && Ready(scene, c, d)
    ensures var struck := Struck(scene, c, d, Wanted(scene, c, d, goal));
      var (need, left) := (goal - Closing(scene, c, d), goal - Closing(struck, c, d));
      var (a, lever) := (PairMass(scene, c, d), Lever(scene.coms[c.body], c.Point(), d));
      a > 0 && struck.Holds(c) && Meets(a, need, left, Slack(lever, d))
  {
    var j := Wanted(scene, c, d, goal);
    GroundMeets(scene, c, d, goal);
    GroundCloses(scene, c, d, j);
  }

  // The same of the body alone: the blow its effective mass makes of a need meets the need.
  lemma BodyMeets(
    body: Body, com: (int, int), point: (int, int), d: (int, int), need: int, side: Side, a: nat, j: int)
    requires Answers(body, Lever(com, point, d)) && side.inverse == Some(InverseOf(body, com, point, d))
    requires Eased(body, com, point, d) && EffectiveMass(side, d) == Some(a) && j == TruncateDiv(need * a, MASS_UNITS)
    ensures Meets(a, need, need - GainOf(body, com, point, d, j), Slack(Lever(com, point, d), d))
  {
    BodyYields(body, com, point, d, j, side);
    NeedIsMet(a, GainOf(body, com, point, d, j), need, j, Slack(Lever(com, point, d), d));
  }

  lemma GroundMeets(scene: Scene, c: Contact, d: (int, int), goal: int)
    requires scene.Valid() && scene.Holds(c) && c.peer.Terrain? && Ready(scene, c, d)
    ensures var gain := GainOf(scene.bodies[c.body], scene.coms[c.body], c.Point(), d, Wanted(scene, c, d, goal));
      var (need, a) := (goal - Closing(scene, c, d), PairMass(scene, c, d));
      a > 0 && Meets(a, need, need - gain, Slack(Lever(scene.coms[c.body], c.Point(), d), d))
  {
    var (body, com, point) := (scene.bodies[c.body], scene.coms[c.body], c.Point());
    GroundIsMine(scene, c, d, goal);
    BodyMeets(
      body, com, point, d, goal - Closing(scene, c, d), Mine(scene, c, d), PairMass(scene, c, d),
      Wanted(scene, c, d, goal));
  }

  lemma GroundIsMine(scene: Scene, c: Contact, d: (int, int), goal: int)
    requires scene.Valid() && scene.Holds(c) && c.peer.Terrain? && Ready(scene, c, d)
    ensures EffectiveMass(Mine(scene, c, d), d) == Some(PairMass(scene, c, d)) && PairMass(scene, c, d) > 0
    ensures Mine(scene, c, d).inverse == Some(InverseOf(scene.bodies[c.body], scene.coms[c.body], c.Point(), d))
    ensures Wanted(scene, c, d, goal)
      == TruncateDiv((goal - Closing(scene, c, d)) * PairMass(scene, c, d), MASS_UNITS)
  {
    MineIs(scene, c, d);
    MassIsThere(Mine(scene, c, d), scene.bodies[c.body], scene.coms[c.body], c.Point(), d);
    GroundHasNone(scene, c, d);
  }

  lemma MineIs(scene: Scene, c: Contact, d: (int, int))
    requires scene.Valid() && scene.Holds(c)
    ensures Mine(scene, c, d).inverse == Some(InverseOf(scene.bodies[c.body], scene.coms[c.body], c.Point(), d))
  {
    LeverIs(scene.coms[c.body], c.Point(), d);
  }

  lemma LeverIs(com: (int, int), point: (int, int), d: (int, int))
    ensures (point.0 - com.0) * d.1 - (point.1 - com.1) * d.0 == Lever(com, point, d)
  {
  }

  lemma MassIsThere(side: Side, body: Body, com: (int, int), point: (int, int), d: (int, int))
    requires WellMade(body) && side.inverse == Some(InverseOf(body, com, point, d)) && Eased(body, com, point, d)
    ensures EffectiveMass(side, d).Some?
  {
    MassIsInverse(side, body.inertia.mass, body.inertia.moment, Lever(com, point, d), d);
  }

  lemma GroundHasNone(scene: Scene, c: Contact, d: (int, int))
    requires scene.Valid() && scene.Holds(c) && c.peer.Terrain? && EffectiveMass(Mine(scene, c, d), d).Some?
    ensures EffectiveMass(Mine(scene, c, d), d) == Some(PairMass(scene, c, d))
  {
  }

  lemma GroundCloses(scene: Scene, c: Contact, d: (int, int), j: int)
    requires scene.Valid() && scene.Holds(c) && c.peer.Terrain?
    ensures var struck, gain := Struck(scene, c, d, j), GainOf(scene.bodies[c.body], scene.coms[c.body], c.Point(), d, j);
      struck.Holds(c) && Closing(struck, c, d) == Closing(scene, c, d) + gain
  {
    MineGains(scene, c, d, j);
    ClosingIsRelative(scene, c, d);
    ClosingIsRelative(Struck(scene, c, d, j), c, d);
  }

  // --------------------------------------------------- a body that may not turn

  // Its effective mass has the lever in it all the same, so a blow beside the centre falls short: of a
  // need it gains the part that goes without turning.
  lemma FixedBodiesFallShort(scene: Scene, c: Contact, d: (int, int), goal: int)
    requires scene.Valid() && scene.Holds(c) && c.peer.Terrain? && !Turns(scene.bodies[c.body])
    requires scene.bodies[c.body].inertia.moment > 0
    requires Eased(scene.bodies[c.body], scene.coms[c.body], c.Point(), d)
    ensures var (body, lever) := (scene.bodies[c.body], Lever(scene.coms[c.body], c.Point(), d));
      var (struck, need) := (Struck(scene, c, d, Wanted(scene, c, d, goal)), goal - Closing(scene, c, d));
      && struck.Holds(c)
      && FallsShort(
           body.inertia.mass, body.inertia.moment, lever, d, need, Closing(struck, c, d) - Closing(scene, c, d))
  {
    var (body, com, point) := (scene.bodies[c.body], scene.coms[c.body], c.Point());
    var (m, moment, lever) := (body.inertia.mass, body.inertia.moment, Lever(com, point, d));
    var j, need := Wanted(scene, c, d, goal), goal - Closing(scene, c, d);
    MineIs(scene, c, d);
    MassIsThere(Mine(scene, c, d), body, com, point, d);
    GroundHasNone(scene, c, d);
    MassIsInverse(Mine(scene, c, d), m, moment, lever, d);
    GroundCloses(scene, c, d, j);
    HitGains(body, com, point, d, j);
    ShortBy(m, moment, lever, d, need, PairMass(scene, c, d), j);
  }

  // The gain is to the need as the moment's part of the ease is to the whole, up to rounding.
  ghost predicate FallsShort(m: nat, moment: nat, lever: int, d: (int, int), need: int, gain: int) {
    var ease := Ease(m, moment, lever, d);
    m * MASS_UNITS * Abs(gain * ease - need * (moment * Dot(d, d)))
      <= Abs(ease) * (m * MASS_UNITS * Reach(d) + Abs(Dot(d, d)) * (MASS_UNITS + Abs(need)))
  }

  lemma ShortBy(m: nat, moment: nat, lever: int, d: (int, int), need: int, a: nat, j: int)
    requires m > 0 && 0 < Ease(m, moment, lever, d) && j == TruncateDiv(need * a, MASS_UNITS)
    requires a * Ease(m, moment, lever, d) <= m * moment * MASS_UNITS < (a + 1) * Ease(m, moment, lever, d)
    ensures FallsShort(m, moment, lever, d, need, Gained(j, d, m))
  {
    var (ease, square, gain) := (Ease(m, moment, lever, d), Dot(d, d), Gained(j, d, m));
    GainIsNear(j, d, m);
    TruncationLoss(need * a, MASS_UNITS);
    SumScaled(a, ease);
    DotIsPositive(d);
    ShortByParts(m, moment, MASS_UNITS, ease, square, gain, need, a, j, Reach(d));
  }

  lemma DotIsPositive(d: (int, int))
    ensures Dot(d, d) >= 0
  {
    Square(d.0);
    Square(d.1);
  }

  lemma ShortByParts(
    m: nat, moment: nat, units: nat, ease: nat, square: nat, gain: int, need: int, a: nat, j: int, reach: nat)
    requires Abs(m * gain - j * square) <= m * reach && Abs(need * a - units * j) <= units
    requires 0 <= m * moment * units - a * ease <= ease
    ensures m * units * Abs(gain * ease - need * (moment * square)) <= ease * (m * units * reach + square * (units + Abs(need)))
  {
    var x, y, z := m * gain - j * square, need * a - units * j, m * moment * units - a * ease;
    ShortSplits(m, moment, units, ease, square, gain, need, a, j);
    SizeOf(m * units, gain * ease - need * (moment * square));
    ScaledError(x, m * reach, ease * units);
    ScaledError(y, units, ease * square);
    ScaledError(z, ease, square);
    ScaledLoss(square * z, need, square * ease);
    ShortSlack(m, units, ease, square, reach, Abs(need));
  }

  lemma ShortSplits(m: int, moment: int, units: int, ease: int, square: int, gain: int, need: int, a: int, j: int)
    ensures m * units * (gain * ease - need * (moment * square))
      == ease * units * (m * gain - j * square) - ease * square * (need * a - units * j)
         - square * (m * moment * units - a * ease) * need
  {
    ErrorScaled(m * units, gain * ease, need * (moment * square));
    ErrorScaled(ease * units, m * gain, j * square);
    ErrorScaled(ease * square, need * a, units * j);
    ErrorScaled(square, m * moment * units, a * ease);
    Differed(square * (m * moment * units), square * (a * ease), need);
    Crossed(m, units, gain, ease, need, moment, square);
    Canceled(ease, units, square, j, need, a);
  }

  lemma Differed(a: int, b: int, k: int)
    ensures (a - b) * k == a * k - b * k
  {
  }

  lemma Crossed(m: int, units: int, gain: int, ease: int, need: int, moment: int, square: int)
    ensures m * units * (gain * ease) == ease * units * (m * gain)
    ensures m * units * (need * (moment * square)) == square * (m * moment * units) * need
  {
  }

  lemma Canceled(ease: int, units: int, square: int, j: int, need: int, a: int)
    ensures ease * units * (j * square) == ease * square * (units * j)
    ensures ease * square * (need * a) == square * (a * ease) * need
  {
  }

  lemma ShortSlack(m: nat, units: nat, ease: nat, square: nat, reach: nat, need: nat)
    ensures ease * units * (m * reach) + ease * square * units + square * ease * need
      == ease * (m * units * reach + square * (units + need))
  {
    Distributed(ease, m * units * reach, square * (units + need));
    Distributed(square, units, need);
    Distributed(ease, square * units, square * need);
    Crossed3(ease, units, m, reach);
    Regrouped(ease, square, units);
    Regrouped(ease, square, need);
  }

  lemma Crossed3(ease: int, units: int, m: int, reach: int)
    ensures ease * units * (m * reach) == ease * (m * units * reach)
  {
  }

  // ------------------------------------------------------------- two sides

  // The pair's mass is that of the two in series, up to one.
  lemma SeriesMass(a: nat, b: nat)
    requires a > 0 && b > 0
    ensures var p := if a * b / (a + b) > 1 then a * b / (a + b) else 1;
      Abs(p * (a + b) - a * b) <= a + b
    ensures a + b <= 2 * (a * b)
  {
    SumBelowProduct(a, b);
    SeriesOf(a * b, a + b);
  }

  lemma SumBelowProduct(a: nat, b: nat)
    requires a > 0 && b > 0
    ensures a + b <= 2 * (a * b)
  {
    Monotone(a, 1, b);
    Monotone(b, 1, a);
  }

  lemma SeriesOf(n: nat, d: nat)
    requires d > 0
    ensures Abs((if n / d > 1 then n / d else 1) * d - n) <= d
  {
    var q := n / d;
    assert n == d * q + n % d;
    if q <= 1 {
      assert d * q <= d;
    }
  }

  // Both sides together: what each gains, and what the rounding of the pair's mass leaves.
  lemma PairNeedIsMet(a: nat, b: nat, p: nat, g1: int, g2: int, need: int, j: int, s1: nat, s2: nat)
    requires a > 0 && b > 0 && p == (if a * b / (a + b) > 1 then a * b / (a + b) else 1)
    requires j == TruncateDiv(need * p, MASS_UNITS) && Yields(a, g1, j, s1) && Yields(b, g2, j, s2)
    ensures PairMeets(a, b, need, need - (g1 + g2), s1 + s2)
  {
    SeriesMass(a, b);
    TruncationLoss(need * p, MASS_UNITS);
    TruncatesBelow(need * p, MASS_UNITS);
    PairNeedIsMetBy(RADIANS_PER_TURN, MASS_UNITS, a, b, p, g1, g2, need, j, s1, s2);
  }

  lemma PairNeedIsMetBy(
    r: nat, units: nat, a: nat, b: nat, p: nat, g1: int, g2: int, need: int, j: int, s1: nat, s2: nat)
    requires a > 0 && b > 0 && Abs(p * (a + b) - a * b) <= a + b <= 2 * (a * b)
    requires Abs(need * p - units * j) <= units && Abs(j) * units <= Abs(need * p)
    requires r * a * Abs(a * g1 - j * units) <= a * a * s1 + Abs(j) * r * units
    requires r * b * Abs(b * g2 - j * units) <= b * b * s2 + Abs(j) * r * units
    ensures r * (a * b) * Abs(need - (g1 + g2)) <= a * b * (s1 + s2) + r * (a + b) * (4 * Abs(need) + units)
  {
    var x1, x2 := Abs(a * g1 - j * units), Abs(b * g2 - j * units);
    SizeOf(p, need);
    PairOff(a, b, p, g1, g2, need, j, units);
    PairChained(r, a, b, p, x1, x2, s1, s2, Abs(j), units, Abs(need), Abs(need - (g1 + g2)));
  }

  ghost predicate PairMeets(a: nat, b: nat, need: int, left: int, slack: nat) {
    RADIANS_PER_TURN * (a * b) * Abs(left)
      <= a * b * slack + RADIANS_PER_TURN * (a + b) * (4 * Abs(need) + MASS_UNITS)
  }

  lemma PairOff(a: nat, b: nat, p: nat, g1: int, g2: int, need: int, j: int, units: nat)
    requires Abs(p * (a + b) - a * b) <= a + b && Abs(need * p - units * j) <= units
    ensures a * b * Abs(need - (g1 + g2))
      <= b * Abs(a * g1 - j * units) + a * Abs(b * g2 - j * units) + (a + b) * (units + Abs(need))
  {
    var x1, x2, e, f := a * g1 - j * units, b * g2 - j * units, need * p - units * j, p * (a + b) - a * b;
    PairSplits(a, b, p, g1, g2, need, j, units);
    SizeOf(a * b, need - (g1 + g2));
    SizeOf(b, x1);
    SizeOf(a, x2);
    ScaledError(e, units, a + b);
    SizeOf(a + b, e);
    ScaledLoss(f, need, a + b);
    Distributed(a + b, units, Abs(need));
  }

  lemma PairSplits(a: int, b: int, p: int, g1: int, g2: int, need: int, j: int, units: int)
    ensures a * b * (need - (g1 + g2))
      == -(b * (a * g1 - j * units)) - a * (b * g2 - j * units) + (a + b) * (need * p - units * j)
         - (p * (a + b) - a * b) * need
  {
    SideSplits(a, b, g1, j, units);
    SideSplits(b, a, g2, j, units);
    ErrorScaled(a + b, need * p, units * j);
    NeedSplits(a, b, p, need);
    Distributed(a * b, need, -(g1 + g2));
    Distributed(a * b, g1, g2);
    JointBlow(a, b, j, units);
    assert a * b * -(g1 + g2) == -(a * b * (g1 + g2));
  }

  lemma SideSplits(a: int, b: int, g: int, j: int, units: int)
    ensures b * (a * g - j * units) == a * b * g - b * (j * units)
  {
  }

  lemma NeedSplits(a: int, b: int, p: int, need: int)
    ensures (p * (a + b) - a * b) * need == (a + b) * (need * p) - a * b * need
  {
  }

  lemma JointBlow(a: int, b: int, j: int, units: int)
    ensures (a + b) * (units * j) == a * (j * units) + b * (j * units)
  {
  }

  lemma PairChained(
    r: nat, a: nat, b: nat, p: nat, x1: nat, x2: nat, s1: nat, s2: nat, j: nat, units: nat, need: nat, left: nat)
    requires a > 0 && b > 0 && p * (a + b) <= a * b + (a + b) && a + b <= 2 * (a * b) && j * units <= p * need
    requires r * a * x1 <= a * a * s1 + j * r * units && r * b * x2 <= b * b * s2 + j * r * units
    requires a * b * left <= b * x1 + a * x2 + (a + b) * (units + need)
    ensures r * (a * b) * left <= a * b * (s1 + s2) + r * (a + b) * (4 * need + units)
  {
    var k, s := a * b, a + b;
    HalfChained(r, a, b, x1, s1, j, units);
    HalfChained(r, b, a, x2, s2, j, units);
    Monotone(r * k, k * left, b * x1 + a * x2 + s * (units + need));
    Distributed(r * k, b * x1 + a * x2, s * (units + need));
    Distributed(r * k, b * x1, a * x2);
    BlowsAreSmall(r, a, b, p, j, units, need);
    Final(r, k, s, s1, s2, units, need, left);
    CancelFactor(k, r * k * left, k * (s1 + s2) + r * s * (4 * need + units));
  }

  lemma HalfChained(r: nat, a: nat, b: nat, x: nat, slack: nat, j: nat, units: nat)
    requires r * a * x <= a * a * slack + j * r * units
    ensures r * (a * b) * (b * x) <= a * b * (a * b) * slack + b * b * (j * r * units)
  {
    Monotone(b * b, r * a * x, a * a * slack + j * r * units);
    Distributed(b * b, a * a * slack, j * r * units);
    Folded(r, a, b, x);
    FoldedSquare(a, b, slack);
  }

  lemma Folded(r: int, a: int, b: int, x: int)
    ensures r * (a * b) * (b * x) == b * b * (r * a * x)
  {
  }

  lemma FoldedSquare(a: int, b: int, slack: int)
    ensures a * b * (a * b) * slack == b * b * (a * a * slack)
  {
  }

  lemma BlowsAreSmall(r: nat, a: nat, b: nat, p: nat, j: nat, units: nat, need: nat)
    requires p * (a + b) <= a * b + (a + b) && a + b <= 2 * (a * b) && j * units <= p * need
    ensures a * a * (j * r * units) + b * b * (j * r * units) <= r * (a * b) * ((a + b) * (3 * need))
  {
    var s, k := a + b, a * b;
    SquaresBelow(a, b);
    Distributed(j * r * units, a * a, b * b);
    Monotone(j * r * units, a * a + b * b, s * s);
    Reordered3(j, r, units);
    Monotone(r * (s * s), j * units, p * need);
    ThreeFold(r, s, p, need, k);
    Outward(j, r, units, s);
  }

  lemma SquaresBelow(a: nat, b: nat)
    ensures a * a + b * b <= (a + b) * (a + b)
  {
    assert (a + b) * (a + b) == a * a + b * b + 2 * (a * b);
  }

  lemma Outward(j: int, r: int, units: int, s: int)
    ensures j * r * units * (s * s) == r * (s * s) * (j * units)
  {
  }

  lemma ThreeFold(r: nat, s: nat, p: nat, need: nat, k: nat)
    requires p * s <= k + s && s <= 2 * k
    ensures r * (s * s) * (p * need) <= r * k * (s * (3 * need))
  {
    Monotone(r * s * need, p * s, 3 * k);
    Regather(r, s, p, need, k);
  }

  lemma Regather(r: int, s: int, p: int, need: int, k: int)
    ensures r * (s * s) * (p * need) == r * s * need * (p * s)
    ensures r * k * (s * (3 * need)) == r * s * need * (3 * k)
  {
  }

  lemma Final(r: nat, k: nat, s: nat, s1: nat, s2: nat, units: nat, need: nat, left: nat)
    ensures r * k * (k * left) == k * (r * k * left)
    ensures k * k * s1 + k * k * s2 + r * k * (s * (3 * need)) + r * k * (s * (units + need))
      == k * (k * (s1 + s2) + r * s * (4 * need + units))
  {
    Swapped(r * k, k, left);
    Distributed(k, k * (s1 + s2), r * s * (4 * need + units));
    Distributed(k, s1, s2);
    Distributed(k, k * s1, k * s2);
    Regrouped(k, k, s1);
    Regrouped(k, k, s2);
    Distributed(r * k * s, 3 * need, units + need);
    Regrouped(r * k, s, 3 * need);
    Regrouped(r * k, s, units + need);
    Inward(r, k, s, 4 * need + units);
  }

  lemma Inward(r: int, k: int, s: int, x: int)
    ensures r * k * s * x == k * (r * s * x)
  {
  }

  function Back(d: (int, int)): (int, int) {
    (-d.0, -d.1)
  }

  // What the other side gains, away from the body.
  ghost function TheirsGain(scene: Scene, c: Contact, d: (int, int), j: int): int
    requires scene.Valid() && scene.Holds(c) && !c.peer.Terrain?
  {
    match c.peer
    case Another(index) => GainOf(scene.bodies[index], scene.coms[index], c.Point(), Back(d), j)
    case Loose(pos, _) => Gained(j, Back(d), scene.cells[pos].mass)
  }

  ghost function TheirLever(scene: Scene, c: Contact, d: (int, int)): int
    requires scene.Valid() && scene.Holds(c) && !c.peer.Terrain?
  {
    if c.peer.Another? then Lever(scene.coms[c.peer.index], c.Point(), Back(d)) else 0
  }

  // The other side answers too: a body that does not press into its ground, or a loose cell.
  ghost predicate TheirsReady(scene: Scene, c: Contact, d: (int, int))
    requires scene.Valid() && scene.Holds(c) && !c.peer.Terrain?
  {
    match c.peer
    case Another(index) =>
      && !Pressed(scene, c, d) && Answers(scene.bodies[index], TheirLever(scene, c, d))
      && Eased(scene.bodies[index], scene.coms[index], c.Point(), Back(d))
    case Loose(pos, mass) => mass == scene.cells[pos].mass && 0 < Dot(d, d) <= mass * MASS_UNITS
  }

  lemma SquaresOfBack(d: (int, int))
    ensures Dot(Back(d), Back(d)) == Dot(d, d) && Back(d).0 * Back(d).0 == d.0 * d.0 && Back(d).1 * Back(d).1 == d.1 * d.1
    ensures forall a: (int, int) :: Dot(a, Back(d)) == -Dot(a, d)
  {
  }

  lemma BackIsTheSame(side: Side, d: (int, int))
    ensures EffectiveMass(side, Back(d)) == EffectiveMass(side, d)
  {
    SquaresOfBack(d);
  }

  lemma CellYields(mass: Mass, d: (int, int), j: int, side: Side)
    requires side.inverse == Some(Inverse(mass, 1, 0, false)) && 0 < Dot(d, d) <= mass * MASS_UNITS
    ensures var a := EffectiveMass(side, d); a.Some? && Yields(a.value, Gained(j, d, mass), j, Slack(0, d))
  {
    assert Ease(mass, 1, 0, d) == Dot(d, d);
    MassIsInverse(side, mass, 1, 0, d);
    GainIsNear(j, d, mass);
    ScaledError(mass * Gained(j, d, mass) - j * Dot(d, d), mass * Reach(d), RADIANS_PER_TURN);
    CellTerms(mass, RADIANS_PER_TURN, Gained(j, d, mass), j, Dot(d, d), Reach(d));
    SideYields(mass, 1, Dot(d, d), Slack(0, d), EffectiveMass(side, d).value, Gained(j, d, mass), j);
  }

  lemma CellTerms(m: nat, r: nat, gain: int, j: int, square: int, reach: nat)
    ensures r * (m * gain - j * square) == m * 1 * r * gain - j * r * square
    ensures r * (m * reach) <= m * 1 * (2 * r * reach)
  {
    ErrorScaled(r, m * gain, j * square);
    Swapped(r, m, reach);
    Monotone(m, r * reach, 2 * r * reach);
  }

  lemma TheirsYield(scene: Scene, c: Contact, d: (int, int), j: int)
    requires scene.Valid() && scene.Holds(c) && !c.peer.Terrain? && TheirsReady(scene, c, d)
    ensures var b := EffectiveMass(Theirs(scene, c, Back(d)), d);
      b.Some? && Yields(b.value, TheirsGain(scene, c, d, j), j, Slack(TheirLever(scene, c, d), Back(d)))
  {
    var side := Theirs(scene, c, Back(d));
    BackIsTheSame(side, d);
    SquaresOfBack(d);
    match c.peer
    case Another(index) =>
      LeverIs(scene.coms[index], c.Point(), Back(d));
      BodyYields(scene.bodies[index], scene.coms[index], c.Point(), Back(d), j, side);
    case Loose(pos, mass) =>
      CellYields(mass, Back(d), j, side);
  }

  // And they gain just that.
  lemma TheirsRecoilBy(scene: Scene, c: Contact, d: (int, int), j: int)
    requires scene.Valid() && scene.Holds(c) && !c.peer.Terrain? && TheirsReady(scene, c, d)
    ensures var struck := Struck(scene, c, d, j);
      struck.Holds(c) && Dot(TheirVelocity(struck, c), d) == Dot(TheirVelocity(scene, c), d) - TheirsGain(scene, c, d, j)
  {
    SquaresOfBack(d);
    assert -(j * d.0) == j * Back(d).0 && -(j * d.1) == j * Back(d).1;
    match c.peer
    case Another(index) =>
      assert Struck(scene, c, d, j).bodies[index]
        == Hit(scene.bodies[index], scene.coms[index], c.Point(), j * Back(d).0, j * Back(d).1, false);
    case Loose(pos, _) =>
      var state := scene.cells[pos];
      CellGains(state.mass, state.vx, state.vy, Back(d), j);
  }

  // Between two sides: one blow of the wanted size brings the closing speed to the goal, wherever and
  // along whatever direction they touch, and with the turning of both.
  lemma PairBlowMeetsGoal(scene: Scene, c: Contact, d: (int, int), goal: int)
    requires scene.Valid() && scene.Holds(c) && !c.peer.Terrain? && Ready(scene, c, d) && TheirsReady(scene, c, d)
    ensures var struck := Struck(scene, c, d, Wanted(scene, c, d, goal));
      var (need, left) := (goal - Closing(scene, c, d), goal - Closing(struck, c, d));
      var (a, b) := (EffectiveMass(Mine(scene, c, d), d), EffectiveMass(Theirs(scene, c, Back(d)), d));
      && a.Some? && b.Some? && struck.Holds(c)
      && PairMeets(
           a.value, b.value, need, left,
           Slack(Lever(scene.coms[c.body], c.Point(), d), d) + Slack(TheirLever(scene, c, d), Back(d)))
  {
    var j := Wanted(scene, c, d, goal);
    PairMeetsBy(scene, c, d, goal);
    PairCloses(scene, c, d, j);
  }

  lemma PairCloses(scene: Scene, c: Contact, d: (int, int), j: int)
    requires scene.Valid() && scene.Holds(c) && !c.peer.Terrain? && TheirsReady(scene, c, d)
    ensures var struck, gain := Struck(scene, c, d, j), GainOf(scene.bodies[c.body], scene.coms[c.body], c.Point(), d, j);
      struck.Holds(c) && Closing(struck, c, d) == Closing(scene, c, d) + (gain + TheirsGain(scene, c, d, j))
  {
    MineGains(scene, c, d, j);
    TheirsRecoilBy(scene, c, d, j);
    ClosingIsRelative(scene, c, d);
    ClosingIsRelative(Struck(scene, c, d, j), c, d);
  }

  lemma PairMeetsBy(scene: Scene, c: Contact, d: (int, int), goal: int)
    requires scene.Valid() && scene.Holds(c) && !c.peer.Terrain? && Ready(scene, c, d) && TheirsReady(scene, c, d)
    ensures var (j, need) := (Wanted(scene, c, d, goal), goal - Closing(scene, c, d));
      var gain := GainOf(scene.bodies[c.body], scene.coms[c.body], c.Point(), d, j);
      var (a, b) := (EffectiveMass(Mine(scene, c, d), d), EffectiveMass(Theirs(scene, c, Back(d)), d));
      && a.Some? && b.Some?
      && PairMeets(
           a.value, b.value, need, need - (gain + TheirsGain(scene, c, d, j)),
           Slack(Lever(scene.coms[c.body], c.Point(), d), d) + Slack(TheirLever(scene, c, d), Back(d)))
  {
    var (body, com, point) := (scene.bodies[c.body], scene.coms[c.body], c.Point());
    var j := Wanted(scene, c, d, goal);
    MineIs(scene, c, d);
    MassIsThere(Mine(scene, c, d), body, com, point, d);
    TheirsYield(scene, c, d, j);
    BothMeet(
      body, com, point, d, goal - Closing(scene, c, d), Mine(scene, c, d), PairMass(scene, c, d), j,
      EffectiveMass(Mine(scene, c, d), d).value, EffectiveMass(Theirs(scene, c, Back(d)), d).value,
      TheirsGain(scene, c, d, j), Slack(TheirLever(scene, c, d), Back(d)));
  }

  lemma BothMeet(
    body: Body, com: (int, int), point: (int, int), d: (int, int), need: int, side: Side, p: nat, j: int, a: nat, b: nat,
    gain: int, slack: nat)
    requires Answers(body, Lever(com, point, d)) && side.inverse == Some(InverseOf(body, com, point, d))
    requires Eased(body, com, point, d) && EffectiveMass(side, d) == Some(a) && j == TruncateDiv(need * p, MASS_UNITS)
    requires a > 0 && b > 0 && p == (if a * b / (a + b) > 1 then a * b / (a + b) else 1) && Yields(b, gain, j, slack)
    ensures PairMeets(
      a, b, need, need - (GainOf(body, com, point, d, j) + gain), Slack(Lever(com, point, d), d) + slack)
  {
    BodyYields(body, com, point, d, j, side);
    PairNeedIsMet(
      a, b, p, GainOf(body, com, point, d, j), gain, need, j, Slack(Lever(com, point, d), d), slack);
  }

  // A body that stands is not pressed down by a blow from above, and otherwise struck like any other.
  lemma StandingIsNotPressed(body: Body, com: (int, int), point: (int, int), jx: int, jy: int)
    requires WellMade(body)
    ensures var pressed, free := Hit(body, com, point, jx, jy, true), Hit(body, com, point, jx, jy, false);
      && pressed.vy >= body.vy && pressed.vx == free.vx && pressed.spin == free.spin
      && (free.vy >= body.vy ==> pressed == free)
  {
  }

  // What should be left of an approach is its share by the restitution; of a parting, nothing is asked.
  lemma ReboundIsAShare(scene: Scene, c: Contact)
    requires scene.Valid() && scene.Holds(c)
    ensures var (closing, rebound) := (Closing(scene, c, c.normal), Rebound(scene, c));
      && (closing >= 0 ==> rebound == 0)
      && (closing < 0 ==> rebound * 0x1_0000 <= c.restitution * -closing < (rebound + 1) * 0x1_0000)
  {
    if Closing(scene, c, c.normal) < 0 {
      assert c.restitution * -Closing(scene, c, c.normal) >= 0;
    }
  }

  // ------------------------------------------------------------------ friction

  // Friction holds back no more than its share of the push, and all of it.
  lemma FrictionIsAShare(c: Contact)
    requires c.push >= 0
    ensures c.Limit() * 0x1_0000 <= c.friction * c.push < (c.Limit() + 1) * 0x1_0000
  {
    assert c.friction * c.push >= 0;
  }
}
