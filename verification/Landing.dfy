// What a blow does to the speed at which the two sides of a contact close, and how a single contact
// with the ground ends (crates/fallingsand_sim/src/body/contact.rs).
module Landing {
  import opened Wrappers
  import opened Coords
  import opened Numbers
  import opened BodyState
  import opened Iteration
  import opened Contact

  // ------------------------------------------------------------- arithmetic

  function Dot(a: (int, int), b: (int, int)): int {
    a.0 * b.0 + a.1 * b.1
  }

  function Reach(d: (int, int)): nat {
    Abs(d.0) + Abs(d.1)
  }

  // What a truncated share adds along a direction, against the exact one.
  lemma ShareAlong(j: int, d: int, m: nat)
    requires m > 0
    ensures Abs(m * (TruncateDiv(j * d, m) * d) - j * (d * d)) <= m * Abs(d)
  {
    var q := TruncateDiv(j * d, m);
    TruncationLoss(j * d, m);
    Associated(m, q, d, j);
    ScaledLoss(m * q - j * d, d, m);
  }

  lemma Associated(m: int, q: int, d: int, j: int)
    ensures m * (q * d) - j * (d * d) == (m * q - j * d) * d
  {
  }

  lemma ScaledLoss(e: int, d: int, m: nat)
    requires Abs(e) <= m
    ensures Abs(e * d) <= m * Abs(d)
  {
    assert Abs(e * d) == Abs(e) * Abs(d);
    assert (m - Abs(e)) * Abs(d) >= 0;
    assert (m - Abs(e)) * Abs(d) == m * Abs(d) - Abs(e) * Abs(d);
  }

  function Gained(j: int, d: (int, int), m: int): int
    requires m > 0
  {
    TruncateDiv(j * d.0, m) * d.0 + TruncateDiv(j * d.1, m) * d.1
  }

  lemma GainIsNear(j: int, d: (int, int), m: nat)
    requires m > 0
    ensures Abs(m * Gained(j, d, m) - j * Dot(d, d)) <= m * Reach(d)
  {
    ShareAlong(j, d.0, m);
    ShareAlong(j, d.1, m);
    SumIsNear(
      m, TruncateDiv(j * d.0, m) * d.0, TruncateDiv(j * d.1, m) * d.1, j, d.0 * d.0, d.1 * d.1, Abs(d.0), Abs(d.1));
  }

  lemma SumIsNear(m: nat, a: int, b: int, j: int, p: int, q: int, r: int, s: int)
    requires Abs(m * a - j * p) <= m * r && Abs(m * b - j * q) <= m * s
    ensures Abs(m * (a + b) - j * (p + q)) <= m * (r + s)
  {
    assert m * (a + b) == m * a + m * b && j * (p + q) == j * p + j * q && m * (r + s) == m * r + m * s;
  }

  // ------------------------------------------------ a blow and the closing speed

  // The velocity of a body at a place does not depend on the direction that is looked at.
  function PointVelocity(body: Body, com: (int, int), point: (int, int)): (int, int) {
    (body.vx - SpeedAt(body.spin, point.1 - com.1), body.vy + SpeedAt(body.spin, point.0 - com.0))
  }

  lemma HitGains(body: Body, com: (int, int), point: (int, int), d: (int, int), j: int)
    requires WellMade(body) && !Turns(body)
    ensures var hit := Hit(body, com, point, j * d.0, j * d.1, false);
      Dot(PointVelocity(hit, com, point), d) == Dot(PointVelocity(body, com, point), d) + Gained(j, d, body.inertia.mass)
  {
    var p := PointVelocity(body, com, point);
    var x, y := TruncateDiv(j * d.0, body.inertia.mass), TruncateDiv(j * d.1, body.inertia.mass);
    assert PointVelocity(Hit(body, com, point, j * d.0, j * d.1, false), com, point) == (p.0 + x, p.1 + y);
    DotOfSum(p, (x, y), d);
  }

  lemma DotOfSum(p: (int, int), q: (int, int), d: (int, int))
    ensures Dot((p.0 + q.0, p.1 + q.1), d) == Dot(p, d) + Dot(q, d)
  {
  }

  lemma DotOfDifference(p: (int, int), q: (int, int), d: (int, int))
    ensures Dot((p.0 - q.0, p.1 - q.1), d) == Dot(p, d) - Dot(q, d)
  {
  }

  lemma GainIsOdd(j: int, d: (int, int), m: int)
    requires m > 0
    ensures Gained(-j, d, m) == -Gained(j, d, m)
  {
    ShareIsOdd(j, d.0, m);
    ShareIsOdd(j, d.1, m);
  }

  lemma TruncationIsOdd(n: int, m: nat)
    requires m > 0
    ensures TruncateDiv(-n, m) == -TruncateDiv(n, m)
  {
    if n == 0 {
      assert 0 / m == 0;
    }
  }

  lemma ShareIsOdd(j: int, d: int, m: nat)
    requires m > 0
    ensures TruncateDiv((-j) * d, m) * d == -(TruncateDiv(j * d, m) * d)
  {
    Opposite(j, d);
    TruncationIsOdd(j * d, m);
    Opposite(TruncateDiv(j * d, m), d);
  }

  lemma Opposite(a: int, b: int)
    ensures (-a) * b == -(a * b)
  {
  }

  ghost function MyVelocity(scene: Scene, c: Contact): (int, int)
    requires scene.Valid() && scene.Holds(c)
  {
    PointVelocity(scene.bodies[c.body], scene.coms[c.body], c.Point())
  }

  ghost function TheirVelocity(scene: Scene, c: Contact): (int, int)
    requires scene.Valid() && scene.Holds(c)
  {
    match c.peer
    case Terrain => (0, 0)
    case Another(index) => PointVelocity(scene.bodies[index], scene.coms[index], c.Point())
    case Loose(pos, _) => (scene.cells[pos].vx, scene.cells[pos].vy)
  }

  // The closing speed is the speed of the body's place away from the other side's, along the direction.
  lemma ClosingIsRelative(scene: Scene, c: Contact, d: (int, int))
    requires scene.Valid() && scene.Holds(c)
    ensures Closing(scene, c, d) == Dot(MyVelocity(scene, c), d) - Dot(TheirVelocity(scene, c), d)
  {
    DotOfDifference(MyVelocity(scene, c), TheirVelocity(scene, c), d);
  }

  lemma CellGains(mass: int, vx: int, vy: int, d: (int, int), j: int)
    requires mass > 0
    ensures Dot((vx + TruncateDiv(j * d.0, mass), vy + TruncateDiv(j * d.1, mass)), d)
      == Dot((vx, vy), d) + Gained(j, d, mass)
  {
    DotOfSum((vx, vy), (TruncateDiv(j * d.0, mass), TruncateDiv(j * d.1, mass)), d);
  }

  // What the blow adds to the closing speed on either side.
  function TheirGain(scene: Scene, c: Contact, d: (int, int), j: int): int
    requires scene.Valid() && scene.Holds(c)
  {
    match c.peer
    case Terrain => 0
    case Another(index) => Gained(j, d, scene.bodies[index].inertia.mass)
    case Loose(pos, _) => Gained(j, d, scene.cells[pos].mass)
  }

  // The mass on the other side; the ground has none that counts.
  function TheirMass(scene: Scene, c: Contact): int
    requires scene.Valid() && scene.Holds(c)
  {
    match c.peer
    case Terrain => 0
    case Another(index) => scene.bodies[index].inertia.mass
    case Loose(pos, _) => scene.cells[pos].mass
  }

  // A blow drives the two sides apart: it raises the closing speed by its share of each mass, exactly
  // but for rounding two components of each side, for sides that do not turn.
  lemma BlowRaisesClosing(scene: Scene, c: Contact, d: (int, int), j: int)
    requires scene.Valid() && scene.Holds(c) && !Turns(scene.bodies[c.body])
    requires c.peer.Another? ==> !Turns(scene.bodies[c.peer.index]) && !Pressed(scene, c, d)
    ensures var struck := Struck(scene, c, d, j);
      var m, mine, theirs := scene.bodies[c.body].inertia.mass,
        Gained(j, d, scene.bodies[c.body].inertia.mass), TheirGain(scene, c, d, j);
      && struck.Holds(c) && Closing(struck, c, d) == Closing(scene, c, d) + mine + theirs
      && Abs(m * mine - j * Dot(d, d)) <= m * Reach(d)
      && (c.peer.Terrain? ==> theirs == 0)
      && (!c.peer.Terrain? ==>
            Abs(TheirMass(scene, c) * theirs - j * Dot(d, d)) <= TheirMass(scene, c) * Reach(d))
  {
    var body := scene.bodies[c.body];
    ClosingIsRelative(scene, c, d);
    HitGains(body, scene.coms[c.body], c.Point(), d, j);
    GainIsNear(j, d, body.inertia.mass);
    TheirsRecoil(scene, c, d, j);
    var struck := Struck(scene, c, d, j);
    assert struck.bodies[c.body] == Hit(body, scene.coms[c.body], c.Point(), j * d.0, j * d.1, false);
    ClosingIsRelative(struck, c, d);
    if !c.peer.Terrain? {
      GainIsNear(j, d, TheirMass(scene, c));
    }
  }

  lemma TheirsRecoil(scene: Scene, c: Contact, d: (int, int), j: int)
    requires scene.Valid() && scene.Holds(c)
    requires c.peer.Another? ==> !Turns(scene.bodies[c.peer.index]) && !Pressed(scene, c, d)
    ensures var struck := Struck(scene, c, d, j);
      struck.Holds(c) && Dot(TheirVelocity(struck, c), d) == Dot(TheirVelocity(scene, c), d) - TheirGain(scene, c, d, j)
  {
    assert -(j * d.0) == (-j) * d.0 && -(j * d.1) == (-j) * d.1;
    match c.peer
    case Terrain =>
    case Another(index) =>
      var struck := Struck(scene, c, d, j);
      assert struck.bodies[index]
        == Hit(scene.bodies[index], scene.coms[index], c.Point(), -(j * d.0), -(j * d.1), false);
      HitGains(scene.bodies[index], scene.coms[index], c.Point(), d, -j);
      GainIsOdd(j, d, scene.bodies[index].inertia.mass);
    case Loose(pos, _) =>
      var state := scene.cells[pos];
      CellGains(state.mass, state.vx, state.vy, d, -j);
      GainIsOdd(j, d, state.mass);
  }

  // What a loose cell gains from a blow the body loses, up to the rounding of the two velocities.
  lemma BlowKeepsCellMomentum(scene: Scene, c: Contact, d: (int, int), j: int)
    requires scene.Valid() && scene.Holds(c) && c.peer.Loose?
    ensures var a, b := scene.bodies[c.body], scene.cells[c.peer.pos];
      var struck := Struck(scene, c, d, j);
      var a', b' := struck.bodies[c.body], struck.cells[c.peer.pos];
      && Abs(a.inertia.mass * (a'.vx - a.vx) + b.mass * (b'.vx - b.vx)) < a.inertia.mass + b.mass
      && Abs(a.inertia.mass * (a'.vy - a.vy) + b.mass * (b'.vy - b.vy)) < a.inertia.mass + b.mass
  {
    var a, b := scene.bodies[c.body], scene.cells[c.peer.pos];
    OppositeShares(a.inertia.mass, b.mass, j * d.0);
    OppositeShares(a.inertia.mass, b.mass, j * d.1);
  }

  // A blow beside the centre turns the body so that the place that is struck gives way: with the
  // spin it adds, the place moves along the blow.
  lemma BlowTurns(body: Body, com: (int, int), point: (int, int), d: (int, int), j: int)
    requires WellMade(body) && Turns(body) && body.inertia.moment > 0
    ensures var hit, lever := Hit(body, com, point, j * d.0, j * d.1, false),
        Dot((-(point.1 - com.1), point.0 - com.0), d);
      && (hit.spin - body.spin) * (j * lever) >= 0
      && Abs(j * lever * RADIANS_PER_TURN - body.inertia.moment * TAU_NUMERATOR * (hit.spin - body.spin))
         < body.inertia.moment * TAU_NUMERATOR
  {
    var lever := Dot((-(point.1 - com.1), point.0 - com.0), d);
    var torque := (point.0 - com.0) * (j * d.1) - (point.1 - com.1) * (j * d.0);
    TorqueOfBlow(point.0 - com.0, point.1 - com.1, d, j);
    assert torque == j * lever;
    TruncationLoss(torque * RADIANS_PER_TURN, body.inertia.moment * TAU_NUMERATOR);
    SignOfTruncation(torque, RADIANS_PER_TURN, body.inertia.moment * TAU_NUMERATOR);
  }

  lemma TorqueOfBlow(rx: int, ry: int, d: (int, int), j: int)
    ensures rx * (j * d.1) - ry * (j * d.0) == j * Dot((-ry, rx), d)
  {
  }

  lemma SignOfTruncation(n: int, scale: int, m: nat)
    requires m > 0 && scale > 0
    ensures TruncateDiv(n * scale, m) * n >= 0
  {
    if n < 0 {
      assert n * scale < 0;
      assert TruncateDiv(n * scale, m) <= 0;
      assert (-TruncateDiv(n * scale, m)) * (-n) >= 0;
    } else {
      assert n * scale >= 0;
      assert TruncateDiv(n * scale, m) >= 0;
    }
  }

  // ------------------------------------------------------- a contact under the centre

  predicate Adjacent(d: (int, int)) {
    -1 <= d.0 <= 1 && -1 <= d.1 <= 1 && d != (0, 0)
  }

  function FromCentre(scene: Scene, c: Contact): (int, int)
    requires scene.Valid() && scene.Holds(c)
  {
    (c.Point().0 - scene.coms[c.body].0, c.Point().1 - scene.coms[c.body].1)
  }

  // A body on the ground at a place whose normal goes through the centre of the body.
  ghost predicate Central(scene: Scene, c: Contact) {
    && scene.Valid() && scene.Holds(c) && c.peer.Terrain? && Adjacent(c.normal)
    && FromCentre(scene, c).0 * c.normal.1 == FromCentre(scene, c).1 * c.normal.0 && scene.bodies[c.body].inertia.moment > 0
  }

  lemma SpeedIsOdd(spin: int, lever: int)
    ensures SpeedAt(spin, -lever) == -SpeedAt(spin, lever)
  {
    assert TAU_NUMERATOR * spin * -lever == -(TAU_NUMERATOR * spin * lever);
  }

  // Turning about the centre does not move a place along the line through the centre.
  lemma SpinDoesNotClose(spin: int, rx: int, ry: int, n: (int, int))
    requires Adjacent(n) && rx * n.1 == ry * n.0
    ensures Dot((-SpeedAt(spin, ry), SpeedAt(spin, rx)), n) == 0
  {
    SpeedIsOdd(spin, rx);
    if n.0 == 0 || n.1 == 0 {
      assert TAU_NUMERATOR * spin * 0 == 0;
    }
  }

  lemma CentralClosing(scene: Scene, c: Contact)
    requires Central(scene, c)
    ensures Closing(scene, c, c.normal) == Dot((scene.bodies[c.body].vx, scene.bodies[c.body].vy), c.normal)
  {
    var body, r := scene.bodies[c.body], FromCentre(scene, c);
    ClosingIsRelative(scene, c, c.normal);
    SpinDoesNotClose(body.spin, r.0, r.1, c.normal);
    DotOfSum((body.vx, body.vy), (-SpeedAt(body.spin, r.1), SpeedAt(body.spin, r.0)), c.normal);
  }

  // There the body counts with its own mass.
  lemma CentralMass(scene: Scene, c: Contact)
    requires Central(scene, c)
    ensures Dot(c.normal, c.normal) == 1 || Dot(c.normal, c.normal) == 2
    ensures PairMass(scene, c, c.normal) == scene.bodies[c.body].inertia.mass * (MASS_UNITS / Dot(c.normal, c.normal))
  {
    var body, n := scene.bodies[c.body], c.normal;
    var side := Mine(scene, c, n);
    assert side.inverse == Some(Inverse(body.inertia.mass, body.inertia.moment, 0, false)) by {
      assert FromCentre(scene, c).0 * n.1 - FromCentre(scene, c).1 * n.0 == 0;
    }
    CentralEffect(side, body.inertia.mass, body.inertia.moment, n);
  }

  lemma CentralEffect(side: Side, mass: Mass, moment: nat, n: (int, int))
    requires Adjacent(n) && moment > 0 && side.inverse == Some(Inverse(mass, moment, 0, false))
    ensures EffectiveMass(side, n) == Some(mass * (MASS_UNITS / Dot(n, n)))
  {
    var span := Dot(n, n);
    var units := MASS_UNITS / span;
    assert mass * (0 * 0) == 0;
    assert mass * moment * MASS_UNITS == (moment * span) * (mass * units) by {
      assert span * units == MASS_UNITS;
      Regroup(mass, moment, span, units);
    }
    ExactQuotient(moment * span, mass * units);
  }

  lemma Regroup(a: int, b: int, c: int, d: int)
    ensures a * b * (c * d) == (b * c) * (a * d)
  {
  }

  lemma ExactQuotient(d: int, q: int)
    requires d > 0 && q > 0
    ensures TruncateDiv(d * q, d) == q
  {
    assert d * q > 0;
    Quotient(q, 0, d);
  }

  lemma Quotient(q: int, rest: int, d: int)
    requires 0 <= rest < d
    ensures (q * d + rest) / d == q
  {
    var k := (q * d + rest) / d;
    assert q * d + rest == d * k + (q * d + rest) % d;
    MultipleIsLarge(d, q - k);
    assert d * (q - k) == q * d - d * k;
  }

  // ------------------------------------------------------- a blow along the normal

  lemma UnitShare(j: int, d: int, m: int)
    requires m > 0 && -1 <= d <= 1
    ensures TruncateDiv(j * d, m) == TruncateDiv(j, m) * d
  {
    if d == -1 {
      assert j * d == -j && TruncateDiv(j, m) * d == -TruncateDiv(j, m);
      TruncationIsOdd(j, m);
    } else if d == 0 {
      assert j * d == 0 && 0 / m == 0;
    } else {
      assert j * d == j;
    }
  }

  function Moved(scene: Scene, c: Contact, q: int, d: (int, int), spin: int): Scene
    requires scene.Valid() && scene.Holds(c)
  {
    var body := scene.bodies[c.body];
    scene.(bodies := scene.bodies[c.body := body.(vx := body.vx + q * d.0, vy := body.vy + q * d.1, spin := spin)])
  }

  // Along an adjacent direction a body on the ground is moved by a whole share.
  lemma GroundStrike(scene: Scene, c: Contact, d: (int, int), j: int)
    requires scene.Valid() && scene.Holds(c) && c.peer.Terrain? && Adjacent(d)
    ensures var struck := Struck(scene, c, d, j);
      struck == Moved(scene, c, TruncateDiv(j, scene.bodies[c.body].inertia.mass), d, struck.bodies[c.body].spin)
  {
    var body := scene.bodies[c.body];
    UnitShare(j, d.0, body.inertia.mass);
    UnitShare(j, d.1, body.inertia.mass);
  }

  lemma NoTorque(rx: int, ry: int, n: (int, int), j: int)
    requires rx * n.1 == ry * n.0
    ensures rx * (j * n.1) - ry * (j * n.0) == 0
  {
    assert rx * (j * n.1) == j * (rx * n.1) && ry * (j * n.0) == j * (ry * n.0);
  }

  // And along its normal it does not turn.
  lemma CentralStrike(scene: Scene, c: Contact, j: int)
    requires Central(scene, c)
    ensures Struck(scene, c, c.normal, j)
      == Moved(scene, c, TruncateDiv(j, scene.bodies[c.body].inertia.mass), c.normal, scene.bodies[c.body].spin)
  {
    GroundStrike(scene, c, c.normal, j);
    NoTorque(FromCentre(scene, c).0, FromCentre(scene, c).1, c.normal, j);
    var moment := scene.bodies[c.body].inertia.moment;
    assert 0 * RADIANS_PER_TURN == 0 && 0 / (moment * TAU_NUMERATOR) == 0;
  }

  lemma MovedIsCentral(scene: Scene, c: Contact, q: int, d: (int, int), spin: int)
    requires Central(scene, c)
    ensures var moved := Moved(scene, c, q, d, spin);
      Central(moved, c) && Closing(moved, c, c.normal) == Closing(scene, c, c.normal) + q * Dot(d, c.normal)
  {
    var moved, body := Moved(scene, c, q, d, spin), scene.bodies[c.body];
    CentralClosing(scene, c);
    assert forall i | 0 <= i < |moved.bodies| :: WellMade(moved.bodies[i]);
    CentralClosing(moved, c);
    DotOfSum((body.vx, body.vy), (q * d.0, q * d.1), c.normal);
    DotScaled(q, d, c.normal);
  }

  lemma DotScaled(q: int, d: (int, int), n: (int, int))
    ensures Dot((q * d.0, q * d.1), n) == q * Dot(d, n)
  {
  }

  // Sideways blows do not close.
  lemma TangentStrike(scene: Scene, c: Contact, j: int)
    requires Central(scene, c)
    ensures var struck := Struck(scene, c, c.Tangent(), j);
      Central(struck, c) && Closing(struck, c, c.normal) == Closing(scene, c, c.normal)
  {
    var struck := Struck(scene, c, c.Tangent(), j);
    GroundStrike(scene, c, c.Tangent(), j);
    MovedIsCentral(
      scene, c, TruncateDiv(j, scene.bodies[c.body].inertia.mass), c.Tangent(), struck.bodies[c.body].spin);
    assert Dot(c.Tangent(), c.normal) == 0 by {
      assert -c.normal.1 * c.normal.0 == -(c.normal.0 * c.normal.1);
    }
  }

  // ------------------------------------------------------- its energy

  lemma SquareOfSum(v: int, q: int, d: int)
    ensures (v + q * d) * (v + q * d) == v * v + 2 * (q * (v * d)) + q * q * (d * d)
  {
  }

  // Moving a body by q along a direction does work by the mean of the two closing speeds.
  lemma WorkDone(m: int, vx: int, vy: int, q: int, d: (int, int))
    ensures m * ((vx + q * d.0) * (vx + q * d.0) + (vy + q * d.1) * (vy + q * d.1)) - m * (vx * vx + vy * vy)
      == m * (q * (2 * Dot((vx, vy), d) + q * Dot(d, d)))
  {
    SquareOfSum(vx, q, d.0);
    SquareOfSum(vy, q, d.1);
    assert q * (2 * Dot((vx, vy), d) + q * Dot(d, d))
      == 2 * (q * (vx * d.0)) + 2 * (q * (vy * d.1)) + q * q * (d.0 * d.0) + q * q * (d.1 * d.1);
  }

  lemma CentralWork(scene: Scene, c: Contact, q: int)
    requires Central(scene, c)
    ensures var body := scene.bodies[c.body];
      BodyEnergy(Moved(scene, c, q, c.normal, body.spin).bodies[c.body]) - BodyEnergy(body)
        == (body.inertia.mass * (q * (2 * Closing(scene, c, c.normal) + q * Dot(c.normal, c.normal))))
           * (RADIANS_PER_TURN * RADIANS_PER_TURN)
  {
    var body, n := scene.bodies[c.body], c.normal;
    CentralClosing(scene, c);
    WorkDone(body.inertia.mass, body.vx, body.vy, q, n);
    var before, after := body.inertia.mass * (body.vx * body.vx + body.vy * body.vy),
      body.inertia.mass * ((body.vx + q * n.0) * (body.vx + q * n.0) + (body.vy + q * n.1) * (body.vy + q * n.1));
    Factored(after, before, RADIANS_PER_TURN * RADIANS_PER_TURN);
  }

  lemma Factored(a: int, b: int, r: int)
    ensures a * r - b * r == (a - b) * r
  {
  }

  lemma SignOfWork(m: int, q: int, s: int, r: int)
    requires m > 0 && q >= 0 && r > 0
    ensures s <= 0 ==> (m * (q * s)) * r <= 0
    ensures s > 0 && q > 0 ==> (m * (q * s)) * r > 0
  {
    if s <= 0 {
      assert q * s <= 0;
      assert m * (q * s) <= 0;
    } else if q > 0 {
      assert q * s > 0;
      assert m * (q * s) > 0;
    }
  }

  lemma EnergyOfPush(scene: Scene, c: Contact, j: int, q: int)
    requires Central(scene, c) && q == TruncateDiv(j, scene.bodies[c.body].inertia.mass)
    ensures Energy(Struck(scene, c, c.normal, j)) - Energy(scene)
      == BodyEnergy(Moved(scene, c, q, c.normal, scene.bodies[c.body].spin).bodies[c.body]) - BodyEnergy(scene.bodies[c.body])
  {
    CentralStrike(scene, c, j);
    BlowIsLocal(scene, c, c.normal, j);
  }

  lemma NothingMoved(scene: Scene, c: Contact, d: (int, int))
    requires scene.Valid() && scene.Holds(c)
    ensures Moved(scene, c, 0, d, scene.bodies[c.body].spin) == scene
  {
    assert 0 * d.0 == 0 && 0 * d.1 == 0;
    assert Moved(scene, c, 0, d, scene.bodies[c.body].spin).bodies == scene.bodies;
  }

  // A push on a central contact raises the energy exactly if it drives it past the speed it had.
  lemma PushRaisesEnergy(scene: Scene, c: Contact, j: int, q: int)
    requires Central(scene, c) && q == TruncateDiv(j, scene.bodies[c.body].inertia.mass) && q >= 0
    ensures var gain := 2 * Closing(scene, c, c.normal) + q * Dot(c.normal, c.normal);
      && (gain <= 0 ==> Energy(Struck(scene, c, c.normal, j)) <= Energy(scene))
      && (q > 0 && gain > 0 ==> Energy(Struck(scene, c, c.normal, j)) > Energy(scene))
  {
    EnergyOfPush(scene, c, j, q);
    CentralWork(scene, c, q);
    SignOfWork(
      scene.bodies[c.body].inertia.mass, q, 2 * Closing(scene, c, c.normal) + q * Dot(c.normal, c.normal),
      RADIANS_PER_TURN * RADIANS_PER_TURN);
  }

  // ------------------------------------------------------- one push

  lemma ScaledDown(y: int, span: int)
    requires span == 1 || span == 2
    ensures TruncateDiv(y * (MASS_UNITS / span), MASS_UNITS) == TruncateDiv(y, span)
  {
  }

  lemma CentralWanted(scene: Scene, c: Contact, goal: int)
    requires Central(scene, c)
    ensures Wanted(scene, c, c.normal, goal)
      == TruncateDiv((goal - Closing(scene, c, c.normal)) * scene.bodies[c.body].inertia.mass, Dot(c.normal, c.normal))
  {
    var m, need, span := scene.bodies[c.body].inertia.mass, goal - Closing(scene, c, c.normal), Dot(c.normal, c.normal);
    CentralMass(scene, c);
    Grouped(need, m, MASS_UNITS / span);
    ScaledDown(need * m, span);
  }

  lemma Grouped(a: int, b: int, c: int)
    ensures a * (b * c) == (a * b) * c
  {
  }

  // The share of a body in what it needs is what it needs, by the span of the direction.
  lemma WholeShare(need: nat, m: int, span: int)
    requires m > 0 && (span == 1 || span == 2)
    ensures need * m >= 0 && TruncateDiv(need * m, span) >= 0
    ensures TruncateDiv(TruncateDiv(need * m, span), m) == need / span
  {
    assert need * m >= 0;
    if span == 1 {
      Quotient(need, 0, m);
    } else {
      var half, odd := need / 2, need % 2;
      assert need * m == 2 * (half * m) + odd * m by {
        assert need == 2 * half + odd;
      }
      assert odd * m == 0 || odd * m == m;
      assert (need * m) / 2 == half * m + (odd * m) / 2;
      Quotient(half, (odd * m) / 2, m);
    }
  }

  // The push that a contact is given: it reaches its target from below, stays when it is there, and
  // is left alone when it does not close in, or when the target would take energy.
  lemma OnePush(scene: Scene, c: Contact)
    requires Central(scene, c) && c.push >= 0
    ensures var before, span := Closing(scene, c, c.normal), Dot(c.normal, c.normal);
      var r := Guarded(scene, c, c.normal, MorePush(scene, c));
      && (before <= c.target && before + c.target <= 0 ==>
            && Central(r.0, c) && r.1 >= 0 && r.0.bodies[c.body].spin == scene.bodies[c.body].spin
            && c.target - span < Closing(r.0, c, c.normal) <= c.target)
      && (c.target - span < before <= c.target ==> r.0 == scene && r.1 >= 0)
      && (c.target <= before && c.push == 0 ==> r == (scene, 0))
      && (span == 1 && before < c.target && before + c.target > 0 && c.push == 0 ==> r == (scene, 0))
  {
    var before, span, m := Closing(scene, c, c.normal), Dot(c.normal, c.normal), scene.bodies[c.body].inertia.mass;
    var need := c.target - before;
    CentralMass(scene, c);
    CentralWanted(scene, c, c.target);
    if need >= 0 {
      WholeShare(need, m, span);
      var j := TruncateDiv(need * m, span);
      assert MorePush(scene, c) == j;
      PushRaisesEnergy(scene, c, j, need / span);
      CentralStrike(scene, c, j);
      NothingMoved(scene, c, c.normal);
      MovedIsCentral(scene, c, need / span, c.normal, scene.bodies[c.body].spin);
      NeedIsMet(need, span);
    } else {
      NothingNeeded(need, m, span);
    }
  }

  lemma NeedIsMet(need: nat, span: int)
    requires span == 1 || span == 2
    ensures need - span < (need / span) * span <= need
  {
  }

  lemma NothingNeeded(need: int, m: int, span: int)
    requires need < 0 && m > 0 && (span == 1 || span == 2)
    ensures TruncateDiv(need * m, span) <= 0
  {
    assert need * m < 0;
  }

  // ------------------------------------------------------- all turns of a single contact

  // A bout of one contact, which is that of `first` but for what it has pushed and dragged.
  ghost predicate Alone(bout: Bout, first: Contact) {
    && bout.Valid() && |bout.contacts| == 1 && Central(bout.scene, bout.contacts[0])
    && bout.contacts[0] == first.(push := bout.contacts[0].push, drag := bout.contacts[0].drag)
  }

  ghost predicate Between(bout: Bout, first: Contact, low: int, high: int) {
    Alone(bout, first) && low < Closing(bout.scene, bout.contacts[0], first.normal) <= high
  }

  lemma OnlyOne(bout: Bout, c: Contact)
    requires |bout.contacts| == 1
    ensures bout.contacts[0 := c] == [c]
  {
  }

  lemma SameClosing(scene: Scene, c: Contact, push: int, drag: int)
    requires Central(scene, c)
    ensures var d := c.(push := push, drag := drag);
      Central(scene, d) && Closing(scene, d, c.normal) == Closing(scene, c, c.normal)
  {
    var d := c.(push := push, drag := drag);
    assert d.Point() == c.Point() && FromCentre(scene, d) == FromCentre(scene, c);
  }

  // The turns that keep the closing speed where it is.
  lemma DragTurn(bout: Bout, first: Contact, low: int, high: int)
    requires Ready(bout, Dragging) && Between(bout, first, low, high)
    ensures Between(Turn(bout, Dragging, 0), first, low, high)
  {
    var c := bout.contacts[0];
    var r := Guarded(bout.scene, c, c.Tangent(), MoreDrag(bout.scene, c));
    DragIsSound(bout, 0);
    TangentStrike(bout.scene, c, MoreDrag(bout.scene, c));
    assert Central(r.0, c) && Closing(r.0, c, c.normal) == Closing(bout.scene, c, c.normal);
    SameClosing(r.0, c, c.push, c.drag + r.1);
    OnlyOne(bout, c.(drag := c.drag + r.1));
  }

  lemma PushTurn(bout: Bout, first: Contact, low: int, high: int)
    requires Ready(bout, Pushing) && Alone(bout, first)
    requires var c := bout.contacts[0];
      var r := Guarded(bout.scene, c, c.normal, MorePush(bout.scene, c));
      Central(r.0, c) && low < Closing(r.0, c, c.normal) <= high
    ensures Between(Turn(bout, Pushing, 0), first, low, high)
  {
    var c := bout.contacts[0];
    var r := Guarded(bout.scene, c, c.normal, MorePush(bout.scene, c));
    PushIsSound(bout, 0);
    SameClosing(r.0, c, c.push + r.1, c.drag);
    OnlyOne(bout, c.(push := c.push + r.1));
  }

  // Whatever each turn keeps, the rounds keep.
  lemma RoundsOfOne(bout: Bout, first: Contact, kind: Kind, low: int, high: int, n: nat)
    requires Ready(bout, kind) && Between(bout, first, low, high)
    requires kind.Pushing? ==> high - low <= Dot(first.normal, first.normal) && first.target == high
    ensures Ready(Rounds(bout, kind, n), kind) && Between(Rounds(bout, kind, n), first, low, high)
    decreases n
  {
    if n > 0 {
      RoundsOfOne(bout, first, kind, low, high, n - 1);
      var before := Rounds(bout, kind, n - 1);
      RoundOfOne(before, first, kind, low, high);
    }
  }

  lemma RoundOfOne(bout: Bout, first: Contact, kind: Kind, low: int, high: int)
    requires Ready(bout, kind) && Between(bout, first, low, high)
    requires kind.Pushing? ==> high - low <= Dot(first.normal, first.normal) && first.target == high
    ensures var after := Pass(bout, kind, |bout.contacts|); Ready(after, kind) && Between(after, first, low, high)
  {
    OneTurnPass(bout, kind);
    match kind
    case Pushing =>
      var c := bout.contacts[0];
      OnePush(bout.scene, c);
      PushTurn(bout, first, low, high);
      PushIsSound(bout, 0);
    case Dragging =>
      DragTurn(bout, first, low, high);
      DragIsSound(bout, 0);
  }

  lemma OneTurnPass(bout: Bout, kind: Kind)
    requires Ready(bout, kind) && |bout.contacts| == 1
    ensures Pass(bout, kind, |bout.contacts|) == Turn(bout, kind, 0)
  {
    PassNext(bout, kind, 0);
    assert Pass(bout, kind, 0) == bout;
  }

  // From the first push on, the closing speed is within a rounding of the target.
  lemma {:induction false} ReachesTarget(bout: Bout, first: Contact, n: nat)
    requires Ready(bout, Pushing) && Alone(bout, first) && n > 0
    requires var before := Closing(bout.scene, bout.contacts[0], first.normal);
      before <= first.target && before + first.target <= 0
    ensures Ready(Rounds(bout, Pushing, n), Pushing)
    ensures Between(Rounds(bout, Pushing, n), first, first.target - Dot(first.normal, first.normal), first.target)
    decreases n
  {
    var low := first.target - Dot(first.normal, first.normal);
    if n == 1 {
      assert Rounds(bout, Pushing, 0) == bout;
      OneTurnPass(bout, Pushing);
      OnePush(bout.scene, bout.contacts[0]);
      PushTurn(bout, first, low, first.target);
      PushIsSound(bout, 0);
    } else {
      ReachesTarget(bout, first, n - 1);
      RoundOfOne(Rounds(bout, Pushing, n - 1), first, Pushing, low, first.target);
    }
  }

  // Left alone, it stays as it is.
  lemma {:induction false} StaysUnpushed(bout: Bout, first: Contact, n: nat)
    requires Ready(bout, Pushing) && Alone(bout, first) && bout.contacts[0].push == 0
    requires var before := Closing(bout.scene, bout.contacts[0], first.normal);
      first.target <= before
      || (Dot(first.normal, first.normal) == 1 && before < first.target && before + first.target > 0)
    ensures Rounds(bout, Pushing, n) == bout
    decreases n
  {
    if n > 0 {
      StaysUnpushed(bout, first, n - 1);
      OneTurnPass(bout, Pushing);
      OnePush(bout.scene, bout.contacts[0]);
      OnlyOne(bout, bout.contacts[0]);
    }
  }

  // How a single contact with the ground is left: `span` is the square of its normal.
  ghost predicate Left(before: int, target: int, span: int, end: int) {
    && (before >= 0 ==> end == before)
    && (before < 0 && target <= -before ==> target - span < end <= target)
    && (span == 1 && before < 0 && target > -before ==> end == before)
  }

  // A single contact with the ground under the centre of a body. If the body closes in, it leaves at
  // the target, exactly along an axis and at most one below it along a diagonal; if it does not, its
  // speed along the normal stays; and a target that would take energy, by a restitution above one, is
  // not pursued at all along an axis.
  lemma GroundContactResolves(bout: Bout)
    requires bout.Valid() && |bout.contacts| == 1 && Central(bout.scene, bout.contacts[0])
    ensures var c, after := bout.contacts[0], Resolved(bout);
      && after.Valid() && after.scene.Holds(c)
      && Left(
        Closing(bout.scene, c, c.normal), Rebound(bout.scene, c), Dot(c.normal, c.normal), Closing(after.scene, c, c.normal))
  {
    ResolvingIsSound(bout);
    ResolvesIn(bout, Bout(bout.scene, Aimed(bout)), ITERATIONS);
  }

  lemma ResolvesIn(bout: Bout, aimed: Bout, n: nat)
    requires bout.Valid() && |bout.contacts| == 1 && Central(bout.scene, bout.contacts[0]) && n > 0
    requires aimed == Bout(bout.scene, Aimed(bout))
    ensures Ready(aimed, Pushing)
    ensures var c, after := bout.contacts[0], Rounds(Rounds(aimed, Pushing, n), Dragging, n);
      after.scene.Valid() && after.scene.Holds(c) ==>
        Left(
          Closing(bout.scene, c, c.normal), Rebound(bout.scene, c), Dot(c.normal, c.normal),
          Closing(after.scene, c, c.normal))
  {
    var c := bout.contacts[0];
    AimedIsReady(bout);
    AimedIsAlone(bout);
    CentralMass(bout.scene, c);
    var first, before, span := aimed.contacts[0], Closing(bout.scene, c, c.normal), Dot(c.normal, c.normal);
    if before >= 0 || (span == 1 && first.target > -before) {
      StaysUnpushed(aimed, first, n);
      Dragged(aimed, first, before - 1, before, n, c);
    } else if first.target <= -before {
      ReachesTarget(aimed, first, n);
      Dragged(Rounds(aimed, Pushing, n), first, first.target - span, first.target, n, c);
    }
  }

  lemma AimedIsAlone(bout: Bout)
    requires bout.Valid() && |bout.contacts| == 1 && Central(bout.scene, bout.contacts[0])
    ensures var aimed, c := Bout(bout.scene, Aimed(bout)), bout.contacts[0];
      && aimed.Valid() && |aimed.contacts| == 1
      && aimed.contacts[0] == c.(target := Rebound(bout.scene, c), push := 0, drag := 0)
      && Alone(aimed, aimed.contacts[0])
      && Closing(aimed.scene, aimed.contacts[0], c.normal) == Closing(bout.scene, c, c.normal)
  {
    var c := bout.contacts[0];
    var d := c.(target := Rebound(bout.scene, c), push := 0, drag := 0);
    assert d.Point() == c.Point() && FromCentre(bout.scene, d) == FromCentre(bout.scene, c);
    AimedIsReady(bout);
  }

  // The drags that follow change nothing of it, whichever record of the contact is asked.
  lemma Dragged(pushed: Bout, first: Contact, low: int, high: int, n: nat, c: Contact)
    requires Ready(pushed, Pushing) && Between(pushed, first, low, high)
    requires c == first.(target := c.target, push := c.push, drag := c.drag)
    ensures var after := Rounds(pushed, Dragging, n);
      Central(after.scene, c) && low < Closing(after.scene, c, first.normal) <= high
  {
    PushedIsSound(pushed);
    RoundsOfOne(pushed, first, Dragging, low, high, n);
    SameRecord(Rounds(pushed, Dragging, n), first, c);
  }

  lemma SameRecord(bout: Bout, first: Contact, c: Contact)
    requires Alone(bout, first) && c == first.(target := c.target, push := c.push, drag := c.drag)
    ensures Central(bout.scene, c)
    ensures Closing(bout.scene, c, first.normal) == Closing(bout.scene, bout.contacts[0], first.normal)
  {
    var d := bout.contacts[0];
    assert c.Point() == d.Point() && FromCentre(bout.scene, c) == FromCentre(bout.scene, d);
  }
}
