// Contacts between bodies, loose cells and the ground, resolved by impulses that may not
// raise the kinetic energy (crates/fallingsand_sim/src/body/contact.rs).
module Contact {
  import opened Coords
  import opened Worlds
  import opened Numbers
  import opened BodyState
  import opened Iteration
  import opened Wrappers
  import opened Materials

  const ITERATIONS: nat := 8
  const MASS_UNITS: nat := 0x1_0000
  const TAU_NUMERATOR: int := 710
  const RADIANS_PER_TURN: int := 0x10_0000 * 113

  type Mass = m: int | m > 0 witness 1

  datatype Peer = Terrain | Another(index: nat) | Loose(pos: CellPos, mass: Mass)

  datatype Contact = Contact(
    body: nat, from: CellPos, at: CellPos, normal: (int, int), peer: Peer,
    restitution: nat, friction: nat, target: int, push: int, drag: int)
  {
    function Point(): (int, int) {
      (TruncateDiv(CellCenter(from.x) + CellCenter(at.x), 2), TruncateDiv(CellCenter(from.y) + CellCenter(at.y), 2))
    }

    function Tangent(): (int, int) {
      (-normal.1, normal.0)
    }

    // The most that friction may hold back, for the push there is.
    function Limit(): nat
      requires push >= 0
    {
      friction * push / 0x1_0000
    }
  }

  datatype CellState = CellState(mass: Mass, vx: int, vy: int, startVx: int, startVy: int)

  function CellCenter(cell: int): int {
    cell * CELL + CELL / 2
  }

  // What the resolver works on. Only the bodies' and cells' motion changes.
  datatype Scene = Scene(
    bodies: seq<Body>, coms: seq<(int, int)>, grounded: seq<bool>, cells: map<CellPos, CellState>)
  {
    predicate Valid() {
      && |coms| == |bodies| == |grounded|
      && forall i | 0 <= i < |bodies| :: WellMade(bodies[i])
    }

    // A contact within the scene; no body touches itself.
    predicate Holds(c: Contact) {
      && c.body < |bodies|
      && match c.peer {
        case Terrain => true
        case Another(index) => index < |bodies| && index != c.body
        case Loose(pos, _) => pos in cells
      }
    }
  }

  predicate WellMade(body: Body) {
    body.inertia.mass > 0 && body.inertia.moment >= 0
  }

  lemma {:induction false} MomentIsNonNegative(slots: seq<Slot>, com: (int, int))
    ensures MomentOf(slots, com) >= 0
  {
    if slots != [] {
      var last := slots[|slots| - 1];
      MomentIsNonNegative(slots[..|slots| - 1], com);
      var arm := Arm(last, com);
      Product(Heaviness(last.material), if arm > CELL * CELL / 6 then arm else CELL * CELL / 6);
    }
  }

  // Every body that carries the inertia of its own cells can be resolved.
  lemma WeighedIsWellMade(body: Body)
    requires body.slots != [] && body.inertia == InertiaOf(body.slots)
    ensures WellMade(body)
  {
    MomentIsNonNegative(body.slots, body.inertia.localCom);
  }

  // ------------------------------------------------------------- arithmetic

  lemma Product(a: int, b: int)
    requires a >= 0 && b >= 0
    ensures a * b >= 0
  {
  }

  lemma Square(a: int)
    ensures a * a >= 0
  {
  }

  // Rounding towards zero loses less than one division step.
  lemma TruncationLoss(n: int, d: nat)
    requires d > 0
    ensures Abs(n - d * TruncateDiv(n, d)) < d
  {
    var q := Abs(n) / d;
    assert d * q + Abs(n) % d == Abs(n);
    if n < 0 {
      assert d * TruncateDiv(n, d) == -(d * q);
    }
  }

  // ----------------------------------------------------------------- energy

  function ParticleEnergy(mass: int, vx: int, vy: int): int {
    mass * (vx * vx + vy * vy) * (RADIANS_PER_TURN * RADIANS_PER_TURN)
  }

  function CellEnergy(cell: CellState): nat {
    Square(cell.vx);
    Square(cell.vy);
    Product(cell.mass, cell.vx * cell.vx + cell.vy * cell.vy);
    ParticleEnergy(cell.mass, cell.vx, cell.vy)
  }

  function BodyEnergy(body: Body): int {
    var angular := body.spin * TAU_NUMERATOR;
    ParticleEnergy(body.inertia.mass, body.vx, body.vy) + body.inertia.moment * (angular * angular)
  }

  function BodiesEnergy(bodies: seq<Body>): int {
    if bodies == [] then 0 else BodiesEnergy(bodies[..|bodies| - 1]) + BodyEnergy(bodies[|bodies| - 1])
  }

  function CellShare(cells: map<CellPos, CellState>): CellPos -> nat {
    (pos: CellPos) => if pos in cells then CellEnergy(cells[pos]) else 0
  }

  ghost function Energy(scene: Scene): int {
    BodiesEnergy(scene.bodies) + SumOver(scene.cells.Keys, CellShare(scene.cells))
  }

  // The energy of the two sides of one contact.
  function PairEnergy(scene: Scene, c: Contact): int
    requires scene.Holds(c)
  {
    BodyEnergy(scene.bodies[c.body])
    + match c.peer {
      case Terrain => 0
      case Another(index) => BodyEnergy(scene.bodies[index])
      case Loose(pos, _) => CellEnergy(scene.cells[pos])
    }
  }

  lemma {:induction false} ReplacedBodyEnergy(bodies: seq<Body>, i: nat, body: Body)
    requires i < |bodies|
    ensures BodiesEnergy(bodies[i := body]) == BodiesEnergy(bodies) - BodyEnergy(bodies[i]) + BodyEnergy(body)
  {
    var n := |bodies| - 1;
    if i < n {
      ReplacedBodyEnergy(bodies[..n], i, body);
      assert bodies[i := body][..n] == bodies[..n][i := body];
    } else {
      assert bodies[i := body][..n] == bodies[..n];
    }
  }

  lemma ReplacedCellEnergy(cells: map<CellPos, CellState>, pos: CellPos, state: CellState)
    requires pos in cells
    ensures SumOver(cells.Keys, CellShare(cells[pos := state]))
         == SumOver(cells.Keys, CellShare(cells)) - CellEnergy(cells[pos]) + CellEnergy(state)
  {
    SumSplits(cells.Keys, CellShare(cells), pos);
    SumSplits(cells.Keys, CellShare(cells[pos := state]), pos);
    SumAgrees(cells.Keys - {pos}, CellShare(cells), CellShare(cells[pos := state]));
  }

  // --------------------------------------------------------------- one blow

  function SpeedAt(spin: int, lever: int): int {
    RoundDiv(TAU_NUMERATOR * spin * lever, RADIANS_PER_TURN)
  }

  function FromAngularImpulse(impulse: int, moment: nat): int {
    if moment == 0 then 0 else TruncateDiv(impulse * RADIANS_PER_TURN, moment * TAU_NUMERATOR)
  }

  // Whether the body may turn: it is let, and more than one cell.
  predicate Turns(body: Body) {
    body.turns && |body.slots| > 1
  }

  function Hit(body: Body, com: (int, int), point: (int, int), jx: int, jy: int, pressing: bool): (hit: Body)
    requires WellMade(body)
    ensures hit == body.(vx := hit.vx, vy := hit.vy, spin := hit.spin)
  {
    var dvx, dvy := TruncateDiv(jx, body.inertia.mass), TruncateDiv(jy, body.inertia.mass);
    var torque := (point.0 - com.0) * jy - (point.1 - com.1) * jx;
    body.(
      vx := body.vx + dvx,
      vy := body.vy + if pressing && dvy < 0 then 0 else dvy,
      spin := body.spin + if Turns(body) then FromAngularImpulse(torque, body.inertia.moment) else 0)
  }

  function HitCell(state: CellState, jx: int, jy: int): CellState {
    state.(vx := state.vx + TruncateDiv(jx, state.mass), vy := state.vy + TruncateDiv(jy, state.mass))
  }

  // Whether the blow would press a standing peer into its ground.
  predicate Pressed(scene: Scene, c: Contact, direction: (int, int))
    requires scene.Holds(c) && |scene.grounded| == |scene.bodies|
  {
    c.peer.Another? && scene.grounded[c.peer.index] && -direction.1 < 0
  }

  // The scene after equal and opposite impulses on the two sides.
  ghost function Struck(scene: Scene, c: Contact, direction: (int, int), magnitude: int): (struck: Scene)
    requires scene.Valid() && scene.Holds(c)
    ensures struck.Valid()
  {
    var point, jx, jy := c.Point(), magnitude * direction.0, magnitude * direction.1;
    var bodies := scene.bodies[c.body := Hit(scene.bodies[c.body], scene.coms[c.body], point, jx, jy, false)];
    match c.peer
    case Terrain => scene.(bodies := bodies)
    case Another(index) =>
      var pressed := Pressed(scene, c, direction);
      scene.(bodies := bodies[index := Hit(bodies[index], scene.coms[index], point, -jx, -jy, pressed)])
    case Loose(pos, _) =>
      scene.(bodies := bodies, cells := scene.cells[pos := HitCell(scene.cells[pos], -jx, -jy)])
  }

  // A blow changes the whole energy by what it changes the energy of its two sides.
  lemma BlowIsLocal(scene: Scene, c: Contact, direction: (int, int), magnitude: int)
    requires scene.Valid() && scene.Holds(c)
    ensures var struck := Struck(scene, c, direction, magnitude);
      struck.Holds(c) && Energy(struck) == Energy(scene) - PairEnergy(scene, c) + PairEnergy(struck, c)
  {
    var struck := Struck(scene, c, direction, magnitude);
    var bodies := scene.bodies[c.body := struck.bodies[c.body]];
    ReplacedBodyEnergy(scene.bodies, c.body, struck.bodies[c.body]);
    match c.peer
    case Terrain =>
      assert struck.bodies == bodies;
    case Another(index) =>
      ReplacedBodyEnergy(bodies, index, struck.bodies[index]);
      assert struck.bodies == bodies[index := struck.bodies[index]];
    case Loose(pos, _) =>
      assert struck.bodies == bodies;
      ReplacedCellEnergy(scene.cells, pos, struck.cells[pos]);
      assert struck.cells.Keys == scene.cells.Keys;
  }

  // Unless the peer is held by its ground, what one side gains the other loses, up to the
  // rounding of the two velocities.
  lemma BlowKeepsMomentum(scene: Scene, c: Contact, direction: (int, int), magnitude: int)
    requires scene.Valid() && scene.Holds(c) && c.peer.Another? && !Pressed(scene, c, direction)
    ensures var a, b := scene.bodies[c.body], scene.bodies[c.peer.index];
      var struck := Struck(scene, c, direction, magnitude);
      var a', b' := struck.bodies[c.body], struck.bodies[c.peer.index];
      && Abs(a.inertia.mass * (a'.vx - a.vx) + b.inertia.mass * (b'.vx - b.vx)) < a.inertia.mass + b.inertia.mass
      && Abs(a.inertia.mass * (a'.vy - a.vy) + b.inertia.mass * (b'.vy - b.vy)) < a.inertia.mass + b.inertia.mass
  {
    var a, b := scene.bodies[c.body], scene.bodies[c.peer.index];
    var struck := Struck(scene, c, direction, magnitude);
    var jx, jy := magnitude * direction.0, magnitude * direction.1;
    assert struck.bodies[c.body] == Hit(a, scene.coms[c.body], c.Point(), jx, jy, false);
    assert struck.bodies[c.peer.index] == Hit(b, scene.coms[c.peer.index], c.Point(), -jx, -jy, false);
    OppositeShares(a.inertia.mass, b.inertia.mass, jx);
    OppositeShares(a.inertia.mass, b.inertia.mass, jy);
  }

  lemma OppositeShares(m: nat, n: nat, j: int)
    requires m > 0 && n > 0
    ensures Abs(m * TruncateDiv(j, m) + n * TruncateDiv(-j, n)) < m + n
  {
    TruncationLoss(j, m);
    TruncationLoss(-j, n);
    SumOfLosses(m * TruncateDiv(j, m), n * TruncateDiv(-j, n), j, m, n);
  }

  lemma SumOfLosses(p: int, q: int, j: int, m: nat, n: nat)
    requires Abs(j - p) < m && Abs(-j - q) < n
    ensures Abs(p + q) < m + n
  {
  }

  // The blow happens, unless it would raise the energy of the whole scene.
  ghost function Guarded(scene: Scene, c: Contact, direction: (int, int), magnitude: int): (r: (Scene, int))
    requires scene.Valid() && scene.Holds(c)
    ensures r.0.Valid() && Energy(r.0) <= Energy(scene)
  {
    if magnitude == 0 || Energy(Struck(scene, c, direction, magnitude)) > Energy(scene) then (scene, 0)
    else (Struck(scene, c, direction, magnitude), magnitude)
  }

  // ------------------------------------------------------ how hard to strike

  datatype Inverse = Inverse(mass: Mass, moment: nat, lever: int, rigidY: bool)

  datatype Side = Side(velocity: (int, int), inverse: Option<Inverse>)

  function BodySide(body: Body, com: (int, int), point: (int, int), direction: (int, int), pressing: bool): Side
    requires WellMade(body)
  {
    var rx, ry := point.0 - com.0, point.1 - com.1;
    Side(
      (body.vx - SpeedAt(body.spin, ry), body.vy + SpeedAt(body.spin, rx)),
      Some(Inverse(body.inertia.mass, body.inertia.moment, rx * direction.1 - ry * direction.0, pressing)))
  }

  function Mine(scene: Scene, c: Contact, direction: (int, int)): Side
    requires scene.Valid() && scene.Holds(c)
  {
    BodySide(scene.bodies[c.body], scene.coms[c.body], c.Point(), direction, false)
  }

  function Theirs(scene: Scene, c: Contact, direction: (int, int)): Side
    requires scene.Valid() && scene.Holds(c)
  {
    match c.peer
    case Terrain => Side((0, 0), None)
    case Another(index) =>
      var pressing := scene.grounded[index] && direction.1 < 0;
      BodySide(scene.bodies[index], scene.coms[index], c.Point(), direction, pressing)
    case Loose(pos, mass) =>
      Side((scene.cells[pos].vx, scene.cells[pos].vy), Some(Inverse(mass, 1, 0, false)))
  }

  function EffectiveMass(side: Side, normal: (int, int)): (mass: Option<int>)
    ensures mass.Some? ==> mass.value >= 1
  {
    match side.inverse
    case None => None
    case Some(inverse) =>
      var translation := normal.0 * normal.0 + if inverse.rigidY && normal.1 != 0 then 0 else normal.1 * normal.1;
      DenominatorIsNonNegative(inverse, normal);
      var denominator := inverse.moment * translation + inverse.mass * (inverse.lever * inverse.lever);
      if denominator == 0 then None
      else
        var mass := TruncateDiv(inverse.mass * inverse.moment * MASS_UNITS, denominator);
        Some(if mass > 1 then mass else 1)
  }

  lemma DenominatorIsNonNegative(inverse: Inverse, normal: (int, int))
    ensures inverse.moment * (normal.0 * normal.0 + normal.1 * normal.1) + inverse.mass * (inverse.lever * inverse.lever) >= 0
    ensures inverse.moment * (normal.0 * normal.0) + inverse.mass * (inverse.lever * inverse.lever) >= 0
  {
    Square(normal.0);
    Square(normal.1);
    Square(inverse.lever);
    Product(inverse.moment, normal.0 * normal.0);
    Product(inverse.moment, normal.0 * normal.0 + normal.1 * normal.1);
    Product(inverse.mass, inverse.lever * inverse.lever);
  }

  // How fast the two sides move into each other along the direction.
  function Closing(scene: Scene, c: Contact, direction: (int, int)): int
    requires scene.Valid() && scene.Holds(c)
  {
    var mine := Mine(scene, c, direction);
    var theirs := Theirs(scene, c, (-direction.0, -direction.1));
    (mine.velocity.0 - theirs.velocity.0) * direction.0 + (mine.velocity.1 - theirs.velocity.1) * direction.1
  }

  function PairMass(scene: Scene, c: Contact, direction: (int, int)): int
    requires scene.Valid() && scene.Holds(c)
  {
    var mine := EffectiveMass(Mine(scene, c, direction), direction);
    var theirs := EffectiveMass(Theirs(scene, c, (-direction.0, -direction.1)), direction);
    match (mine, theirs)
    case (Some(a), Some(b)) => if a * b / (a + b) > 1 then a * b / (a + b) else 1
    case (Some(a), None) => a
    case (None, Some(b)) => b
    case (None, None) => 0
  }

  // The impulse along the direction that would bring the closing speed to the goal.
  function Wanted(scene: Scene, c: Contact, direction: (int, int), goal: int): int
    requires scene.Valid() && scene.Holds(c)
  {
    TruncateDiv((goal - Closing(scene, c, direction)) * PairMass(scene, c, direction), MASS_UNITS)
  }

  // ------------------------------------------------------------ all contacts

  // The scene with its contacts, part way through being resolved.
  datatype Bout = Bout(scene: Scene, contacts: seq<Contact>) {
    ghost predicate Valid() {
      scene.Valid() && forall i | 0 <= i < |contacts| :: scene.Holds(contacts[i])
    }
  }

  // The closing speed that should be left: a share of the one there was.
  function Rebound(scene: Scene, c: Contact): int
    requires scene.Valid() && scene.Holds(c)
  {
    var closing := Closing(scene, c, c.normal);
    if closing < 0 then c.restitution * -closing / 0x1_0000 else 0
  }

  ghost function Aimed(bout: Bout): (aimed: seq<Contact>)
    requires bout.Valid()
    ensures |aimed| == |bout.contacts|
  {
    seq(|bout.contacts|, i requires 0 <= i < |bout.contacts| =>
      AimedOne(bout.scene, bout.contacts[i]))
  }

  ghost function AimedOne(scene: Scene, c: Contact): Contact
    requires scene.Valid() && scene.Holds(c)
  {
    c.(target := Rebound(scene, c), push := 0, drag := 0)
  }

  // How much more push there should be: never so much less that the contact would pull.
  ghost function MorePush(scene: Scene, c: Contact): (more: int)
    requires scene.Valid() && scene.Holds(c)
    ensures c.push + more >= 0
  {
    Upward(c.push, Wanted(scene, c, c.normal, c.target))
  }

  function Upward(push: int, wanted: int): (more: int)
    ensures push + more >= 0
  {
    (if push + wanted > 0 then push + wanted else 0) - push
  }

  function Within(drag: int, wanted: int, limit: int): (more: int)
    requires limit >= 0
    ensures Abs(drag + more) <= limit
  {
    Clamp(drag + wanted, -limit, limit) - drag
  }

  // How much more drag, within what the push allows.
  ghost function MoreDrag(scene: Scene, c: Contact): (more: int)
    requires scene.Valid() && scene.Holds(c) && c.push >= 0
    ensures Abs(c.drag + more) <= c.Limit()
  {
    Within(c.drag, Wanted(scene, c, c.Tangent(), 0), c.Limit())
  }

  datatype Kind = Pushing | Dragging

  // Each contact pushes, and drags no more than its push allows.
  ghost predicate Sound(contacts: seq<Contact>) {
    forall i | 0 <= i < |contacts| :: contacts[i].push >= 0 && Abs(contacts[i].drag) <= contacts[i].Limit()
  }

  // Contacts not dragged yet.
  ghost predicate Pushes(contacts: seq<Contact>) {
    forall i | 0 <= i < |contacts| :: contacts[i].push >= 0 && contacts[i].drag == 0
  }

  ghost predicate Ready(bout: Bout, kind: Kind) {
    bout.Valid() && if kind.Pushing? then Pushes(bout.contacts) else Sound(bout.contacts)
  }

  // One contact's turn.
  ghost function Turn(bout: Bout, kind: Kind, i: nat): Bout
    requires Ready(bout, kind) && i < |bout.contacts|
  {
    var c := bout.contacts[i];
    match kind
    case Pushing =>
      var r := Guarded(bout.scene, c, c.normal, MorePush(bout.scene, c));
      Bout(r.0, bout.contacts[i := c.(push := c.push + r.1)])
    case Dragging =>
      var r := Guarded(bout.scene, c, c.Tangent(), MoreDrag(bout.scene, c));
      Bout(r.0, bout.contacts[i := c.(drag := c.drag + r.1)])
  }

  // What no blow touches: the bodies but for their motion, the cells but for theirs, and who
  // touches whom.
  ghost predicate SameButMotion(a: Bout, b: Bout) {
    && a.scene.coms == b.scene.coms && a.scene.grounded == b.scene.grounded
    && |a.scene.bodies| == |b.scene.bodies| && a.scene.cells.Keys == b.scene.cells.Keys
    && |a.contacts| == |b.contacts|
    && (forall i | 0 <= i < |a.scene.bodies| :: SameBody(a.scene.bodies[i], b.scene.bodies[i]))
    && (forall pos | pos in a.scene.cells :: SameCell(a.scene.cells[pos], b.scene.cells[pos]))
    && (forall i | 0 <= i < |a.contacts| :: SameContact(a.contacts[i], b.contacts[i]))
  }

  predicate SameBody(a: Body, b: Body) {
    && b == a.(vx := b.vx, vy := b.vy, spin := b.spin)
    && (!Turns(a) ==> b.spin == a.spin)
  }

  predicate SameCell(a: CellState, b: CellState) {
    b == a.(vx := b.vx, vy := b.vy)
  }

  predicate SameContact(a: Contact, b: Contact) {
    b == a.(target := b.target, push := b.push, drag := b.drag)
  }

  // What any number of turns keeps.
  ghost predicate Fair(before: Bout, after: Bout, kind: Kind) {
    && Ready(after, kind) && SameButMotion(before, after) && Energy(after.scene) <= Energy(before.scene)
    && (forall j | 0 <= j < |before.contacts| :: after.contacts[j].target == before.contacts[j].target)
  }

  lemma GuardedKeepsTheRest(bout: Bout, c: Contact, direction: (int, int), magnitude: int)
    requires bout.Valid() && bout.scene.Holds(c)
    ensures var after := Bout(Guarded(bout.scene, c, direction, magnitude).0, bout.contacts);
      after.Valid() && SameButMotion(bout, after)
  {
    var scene := bout.scene;
    var after := Guarded(scene, c, direction, magnitude).0;
    assert forall i | 0 <= i < |scene.bodies| && i != c.body && (c.peer.Another? ==> i != c.peer.index) ::
      after.bodies[i] == scene.bodies[i];
  }

  lemma SameIsTransitive(a: Bout, b: Bout, c: Bout)
    requires SameButMotion(a, b) && SameButMotion(b, c)
    ensures SameButMotion(a, c)
  {
    forall i | 0 <= i < |a.scene.bodies|
      ensures SameBody(a.scene.bodies[i], c.scene.bodies[i])
    {
      assert SameBody(a.scene.bodies[i], b.scene.bodies[i]) && SameBody(b.scene.bodies[i], c.scene.bodies[i]);
    }
    forall pos | pos in a.scene.cells
      ensures SameCell(a.scene.cells[pos], c.scene.cells[pos])
    {
      assert SameCell(a.scene.cells[pos], b.scene.cells[pos]) && SameCell(b.scene.cells[pos], c.scene.cells[pos]);
    }
    forall i | 0 <= i < |a.contacts|
      ensures SameContact(a.contacts[i], c.contacts[i])
    {
      assert SameContact(a.contacts[i], b.contacts[i]) && SameContact(b.contacts[i], c.contacts[i]);
    }
  }

  lemma FairIsTransitive(a: Bout, b: Bout, c: Bout, kind: Kind)
    requires Fair(a, b, kind) && Fair(b, c, kind)
    ensures Fair(a, c, kind)
  {
    SameIsTransitive(a, b, c);
  }

  lemma PushIsSound(bout: Bout, i: nat)
    requires Ready(bout, Pushing) && i < |bout.contacts|
    ensures Fair(bout, Turn(bout, Pushing, i), Pushing)
  {
    var c := bout.contacts[i];
    var r := Guarded(bout.scene, c, c.normal, MorePush(bout.scene, c));
    GuardedKeepsTheRest(bout, c, c.normal, MorePush(bout.scene, c));
    ContactReplaced(bout, Bout(r.0, bout.contacts), i, c.(push := c.push + r.1));
  }

  lemma DragIsSound(bout: Bout, i: nat)
    requires Ready(bout, Dragging) && i < |bout.contacts|
    ensures Fair(bout, Turn(bout, Dragging, i), Dragging)
  {
    var c := bout.contacts[i];
    var r := Guarded(bout.scene, c, c.Tangent(), MoreDrag(bout.scene, c));
    GuardedKeepsTheRest(bout, c, c.Tangent(), MoreDrag(bout.scene, c));
    ContactReplaced(bout, Bout(r.0, bout.contacts), i, c.(drag := c.drag + r.1));
    SoundReplaced(bout.contacts, i, c.drag + r.1);
  }

  // A turn is sound: nothing but motion changes, the energy does not rise, and the contact
  // still pushes and drags within its limit.
  lemma TurnIsSound(start: Bout, bout: Bout, kind: Kind, i: nat)
    requires Fair(start, bout, kind) && i < |bout.contacts|
    ensures Fair(start, Turn(bout, kind, i), kind)
  {
    match kind
    case Pushing =>
      PushIsSound(bout, i);
      FairIsTransitive(start, bout, Turn(bout, kind, i), kind);
    case Dragging =>
      DragIsSound(bout, i);
      FairIsTransitive(start, bout, Turn(bout, kind, i), kind);
  }

  lemma SoundReplaced(contacts: seq<Contact>, i: nat, drag: int)
    requires Sound(contacts) && i < |contacts| && Abs(drag) <= contacts[i].Limit()
    ensures Sound(contacts[i := contacts[i].(drag := drag)])
  {
  }

  lemma ContactReplaced(before: Bout, after: Bout, i: nat, c: Contact)
    requires before.Valid() && after.Valid() && SameButMotion(before, after) && before.contacts == after.contacts
    requires i < |before.contacts| && SameContact(before.contacts[i], c)
    ensures var next := Bout(after.scene, after.contacts[i := c]); next.Valid() && SameButMotion(before, next)
  {
    forall j | 0 <= j < |before.contacts|
      ensures SameContact(before.contacts[j], after.contacts[i := c][j]) && after.scene.Holds(after.contacts[i := c][j])
    {
      assert after.scene.Holds(before.contacts[j]);
    }
  }

  ghost function TurnStep(kind: Kind): (Bout, nat) -> Bout {
    (bout: Bout, i: nat) => if Ready(bout, kind) && i < |bout.contacts| then Turn(bout, kind, i) else bout
  }

  // The bout after the turns of the first n contacts.
  ghost function Pass(bout: Bout, kind: Kind, n: nat): Bout {
    Iterate(TurnStep(kind), bout, n)
  }

  ghost function PassStep(kind: Kind): (Bout, nat) -> Bout {
    (bout: Bout, i: nat) => Pass(bout, kind, |bout.contacts|)
  }

  // The bout after n turns of every contact.
  ghost function Rounds(bout: Bout, kind: Kind, n: nat): Bout {
    Iterate(PassStep(kind), bout, n)
  }

  ghost function FairSince(start: Bout, kind: Kind): Bout -> bool {
    (bout: Bout) => Fair(start, bout, kind)
  }

  lemma PassIsSound(start: Bout, bout: Bout, kind: Kind, n: nat)
    requires Fair(start, bout, kind)
    ensures Fair(start, Pass(bout, kind, n), kind)
  {
    var step, fair := TurnStep(kind), FairSince(start, kind);
    forall b, i: nat | fair(b) && i < n
      ensures fair(step(b, i))
    {
      if i < |b.contacts| {
        TurnIsSound(start, b, kind, i);
      }
    }
    IterateKeeps(step, fair, bout, n);
    assert fair(Pass(bout, kind, n));
  }

  lemma PassNext(start: Bout, kind: Kind, i: nat)
    requires Ready(start, kind) && i < |start.contacts|
    ensures Ready(Pass(start, kind, i), kind) && |Pass(start, kind, i).contacts| == |start.contacts|
    ensures Pass(start, kind, i + 1) == Turn(Pass(start, kind, i), kind, i)
  {
    PassIsSound(start, start, kind, i);
  }

  lemma RoundsAreSound(bout: Bout, kind: Kind, n: nat)
    requires Ready(bout, kind)
    ensures Fair(bout, Rounds(bout, kind, n), kind)
  {
    var step, fair := PassStep(kind), FairSince(bout, kind);
    forall b, i: nat | fair(b) && i < n
      ensures fair(step(b, i))
    {
      PassIsSound(bout, b, kind, |b.contacts|);
    }
    IterateKeeps(step, fair, bout, n);
    assert fair(Rounds(bout, kind, n));
  }

  lemma AimedIsReady(bout: Bout)
    requires bout.Valid()
    ensures var aimed := Bout(bout.scene, Aimed(bout)); Ready(aimed, Pushing) && SameButMotion(bout, aimed)
  {
  }

  lemma PushedIsSound(bout: Bout)
    requires Ready(bout, Pushing)
    ensures Ready(bout, Dragging)
  {
  }

  // All contacts aimed, pushed in turns, and then dragged in turns.
  ghost function Resolved(bout: Bout): Bout
    requires bout.Valid()
  {
    Rounds(Rounds(Bout(bout.scene, Aimed(bout)), Pushing, ITERATIONS), Dragging, ITERATIONS)
  }

  // Whatever the contacts, resolving them does not raise the energy of the whole; every contact
  // ends up pushing, dragging no more than friction allows for its final push, and aimed at the
  // rebound of the closing speed it started with.
  lemma ResolvingIsSound(bout: Bout)
    requires bout.Valid()
    ensures var after := Resolved(bout);
      && after.Valid() && SameButMotion(bout, after) && Sound(after.contacts)
      && Energy(after.scene) <= Energy(bout.scene)
      && (forall i | 0 <= i < |bout.contacts| :: after.contacts[i].target == Rebound(bout.scene, bout.contacts[i]))
  {
    AimedIsReady(bout);
    RoundsAreSound(Bout(bout.scene, Aimed(bout)), Pushing, ITERATIONS);
    DraggingIsSound(bout, Bout(bout.scene, Aimed(bout)), Rounds(Bout(bout.scene, Aimed(bout)), Pushing, ITERATIONS));
  }

  lemma DraggingIsSound(bout: Bout, aimed: Bout, pushed: Bout)
    requires SameButMotion(bout, aimed) && Fair(aimed, pushed, Pushing) && Energy(aimed.scene) <= Energy(bout.scene)
    ensures var after := Rounds(pushed, Dragging, ITERATIONS);
      && Ready(after, Dragging) && SameButMotion(bout, after) && Energy(after.scene) <= Energy(bout.scene)
      && (forall i | 0 <= i < |bout.contacts| :: after.contacts[i].target == aimed.contacts[i].target)
  {
    var after := Rounds(pushed, Dragging, ITERATIONS);
    PushedIsSound(pushed);
    RoundsAreSound(pushed, Dragging, ITERATIONS);
    SameIsTransitive(bout, aimed, pushed);
    SameIsTransitive(bout, pushed, after);
  }

  // ---------------------------------------------------------- the resolver

  function Motion(body: Body): (int, int, int) {
    (body.vx, body.vy, body.spin)
  }

  class Resolver {
    const bodies: array<Body>
    const coms: seq<(int, int)>
    const grounded: seq<bool>
    var cells: map<CellPos, CellState>

    constructor (bodies: array<Body>, coms: seq<(int, int)>, grounded: seq<bool>, cells: map<CellPos, CellState>)
      ensures this.bodies == bodies && View() == Scene(bodies[..], coms, grounded, cells)
    {
      this.bodies, this.coms, this.grounded, this.cells := bodies, coms, grounded, cells;
    }

    ghost function View(): Scene
      reads this, bodies
    {
      Scene(bodies[..], coms, grounded, cells)
    }

    // The energy of all bodies and cells, summed one by one.
    method KineticEnergy() returns (energy: int)
      ensures energy == Energy(View())
    {
      energy := 0;
      for i := 0 to bodies.Length
        invariant energy == BodiesEnergy(bodies[..i])
      {
        assert bodies[..i + 1][..i] == bodies[..i];
        energy := energy + BodyEnergy(bodies[i]);
      }
      assert bodies[..bodies.Length] == bodies[..];
      var left := cells.Keys;
      while left != {}
        invariant left <= cells.Keys
        invariant energy + SumOver(left, CellShare(cells)) == Energy(View())
        decreases left
      {
        var pos :| pos in left;
        SumSplits(left, CellShare(cells), pos);
        energy := energy + CellEnergy(cells[pos]);
        left := left - {pos};
      }
    }

    method ContactEnergy(c: Contact) returns (energy: int)
      requires View().Holds(c)
      ensures energy == PairEnergy(View(), c)
    {
      energy := BodyEnergy(bodies[c.body]);
      match c.peer {
        case Terrain =>
        case Another(index) => energy := energy + BodyEnergy(bodies[index]);
        case Loose(pos, _) => energy := energy + CellEnergy(cells[pos]);
      }
    }

    // Strikes both sides, whatever that does to the energy.
    method Strike(c: Contact, direction: (int, int), magnitude: int)
      requires View().Valid() && View().Holds(c)
      modifies this`cells, bodies
      ensures View() == Struck(old(View()), c, direction, magnitude)
    {
      var point, jx, jy := c.Point(), magnitude * direction.0, magnitude * direction.1;
      bodies[c.body] := Hit(bodies[c.body], coms[c.body], point, jx, jy, false);
      match c.peer {
        case Terrain =>
        case Another(index) =>
          var pressing := grounded[index] && -direction.1 < 0;
          bodies[index] := Hit(bodies[index], coms[index], point, -jx, -jy, pressing);
        case Loose(pos, _) =>
          cells := cells[pos := HitCell(cells[pos], -jx, -jy)];
      }
    }

    // Puts both sides' motion back to what it was before the blow.
    method TakeBack(c: Contact, mine: (int, int, int), theirs: (int, int, int), kept: map<CellPos, CellState>,
        ghost start: Scene, ghost direction: (int, int), ghost magnitude: int)
      requires start.Valid() && start.Holds(c) && View() == Struck(start, c, direction, magnitude)
      requires mine == Motion(start.bodies[c.body]) && kept == start.cells
      requires c.peer.Another? ==> theirs == Motion(start.bodies[c.peer.index])
      modifies this`cells, bodies
      ensures View() == start
    {
      bodies[c.body] := bodies[c.body].(vx := mine.0, vy := mine.1, spin := mine.2);
      match c.peer {
        case Terrain =>
        case Another(index) =>
          bodies[index] := bodies[index].(vx := theirs.0, vy := theirs.1, spin := theirs.2);
        case Loose(pos, _) =>
          cells := cells[pos := kept[pos]];
      }
      assert cells == start.cells;
      assert bodies[..] == start.bodies;
    }

    // Strikes, and takes the blow back if the running energy would rise by it. The running
    // energy is kept up from the two sides alone.
    method Apply(c: Contact, direction: (int, int), magnitude: int, energy: int) returns (given: int, running: int)
      requires View().Valid() && View().Holds(c) && energy == Energy(View())
      modifies this`cells, bodies
      ensures (View(), given) == Guarded(old(View()), c, direction, magnitude)
      ensures running == Energy(View())
    {
      if magnitude == 0 {
        return 0, energy;
      }
      ghost var start := View();
      var mine, kept := Motion(bodies[c.body]), cells;
      var theirs := if c.peer.Another? then Motion(bodies[c.peer.index]) else (0, 0, 0);
      var before := ContactEnergy(c);
      Strike(c, direction, magnitude);
      BlowIsLocal(start, c, direction, magnitude);
      var after := ContactEnergy(c);
      var candidate := energy - before + after;
      if candidate <= energy {
        return magnitude, candidate;
      }
      TakeBack(c, mine, theirs, kept, start, direction, magnitude);
      return 0, energy;
    }

    method Aim(contacts: array<Contact>)
      requires Bout(View(), contacts[..]).Valid()
      modifies contacts
      ensures contacts[..] == Aimed(old(Bout(View(), contacts[..])))
    {
      ghost var start := Bout(View(), contacts[..]);
      for i := 0 to contacts.Length
        invariant View() == start.scene
        invariant forall j | 0 <= j < i :: contacts[j] == AimedOne(start.scene, start.contacts[j])
        invariant forall j | i <= j < contacts.Length :: contacts[j] == start.contacts[j]
      {
        var c := contacts[i];
        assert start.scene.Holds(start.contacts[i]);
        var closing := Closing(Scene(bodies[..], coms, grounded, cells), c, c.normal);
        var target := if closing < 0 then c.restitution * -closing / 0x1_0000 else 0;
        contacts[i] := c.(target := target, push := 0, drag := 0);
      }
    }

    method PushOne(contacts: array<Contact>, i: nat, energy: int) returns (running: int)
      requires Ready(Bout(View(), contacts[..]), Pushing) && i < contacts.Length && energy == Energy(View())
      modifies this`cells, bodies, contacts
      ensures Bout(View(), contacts[..]) == Turn(old(Bout(View(), contacts[..])), Pushing, i)
      ensures running == Energy(View())
    {
      ghost var start := Bout(View(), contacts[..]);
      var c := contacts[i];
      assert c == start.contacts[i];
      var wanted := Wanted(Scene(bodies[..], coms, grounded, cells), c, c.normal, c.target);
      var more := Upward(c.push, wanted);
      var given: int;
      given, running := Apply(c, c.normal, more, energy);
      contacts[i] := c.(push := c.push + given);
      assert contacts[..] == start.contacts[i := c.(push := c.push + given)];
    }

    method PushAll(contacts: array<Contact>, energy: int) returns (running: int)
      requires Ready(Bout(View(), contacts[..]), Pushing) && energy == Energy(View())
      modifies this`cells, bodies, contacts
      ensures Bout(View(), contacts[..]) == Pass(old(Bout(View(), contacts[..])), Pushing, contacts.Length)
      ensures running == Energy(View())
    {
      ghost var start := Bout(View(), contacts[..]);
      running := energy;
      for i := 0 to contacts.Length
        invariant Bout(View(), contacts[..]) == Pass(start, Pushing, i)
        invariant running == Energy(View())
      {
        PassNext(start, Pushing, i);
        running := PushOne(contacts, i, running);
      }
    }

    method DragOne(contacts: array<Contact>, i: nat, energy: int) returns (running: int)
      requires Ready(Bout(View(), contacts[..]), Dragging) && i < contacts.Length && energy == Energy(View())
      modifies this`cells, bodies, contacts
      ensures Bout(View(), contacts[..]) == Turn(old(Bout(View(), contacts[..])), Dragging, i)
      ensures running == Energy(View())
    {
      ghost var start := Bout(View(), contacts[..]);
      var c := contacts[i];
      assert c == start.contacts[i];
      var wanted := Wanted(Scene(bodies[..], coms, grounded, cells), c, c.Tangent(), 0);
      var more := Within(c.drag, wanted, c.Limit());
      var given: int;
      given, running := Apply(c, c.Tangent(), more, energy);
      contacts[i] := c.(drag := c.drag + given);
      assert contacts[..] == start.contacts[i := c.(drag := c.drag + given)];
    }

    method DragAll(contacts: array<Contact>, energy: int) returns (running: int)
      requires Ready(Bout(View(), contacts[..]), Dragging) && energy == Energy(View())
      modifies this`cells, bodies, contacts
      ensures Bout(View(), contacts[..]) == Pass(old(Bout(View(), contacts[..])), Dragging, contacts.Length)
      ensures running == Energy(View())
    {
      ghost var start := Bout(View(), contacts[..]);
      running := energy;
      for i := 0 to contacts.Length
        invariant Bout(View(), contacts[..]) == Pass(start, Dragging, i)
        invariant running == Energy(View())
      {
        PassNext(start, Dragging, i);
        running := DragOne(contacts, i, running);
      }
    }

    // Resolves all contacts, pushes first, in turns.
    method Resolve(contacts: array<Contact>)
      requires Bout(View(), contacts[..]).Valid()
      modifies this`cells, bodies, contacts
      ensures Bout(View(), contacts[..]) == Resolved(old(Bout(View(), contacts[..])))
    {
      ghost var start := Bout(View(), contacts[..]);
      var energy := KineticEnergy();
      Aim(contacts);
      AimedIsReady(start);
      ghost var aimed := Bout(start.scene, Aimed(start));
      for n := 0 to ITERATIONS
        invariant Bout(View(), contacts[..]) == Rounds(aimed, Pushing, n)
        invariant energy == Energy(View())
      {
        RoundsAreSound(aimed, Pushing, n);
        energy := PushAll(contacts, energy);
      }
      ghost var pushed := Rounds(aimed, Pushing, ITERATIONS);
      RoundsAreSound(aimed, Pushing, ITERATIONS);
      PushedIsSound(pushed);
      for n := 0 to ITERATIONS
        invariant Bout(View(), contacts[..]) == Rounds(pushed, Dragging, n)
        invariant energy == Energy(View())
      {
        RoundsAreSound(pushed, Dragging, n);
        energy := DragAll(contacts, energy);
      }
    }
  }
}
