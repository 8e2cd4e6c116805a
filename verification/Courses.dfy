// Where a travelling cell goes, as a function of what is drawn on the way (traverse and
// move_cell of crates/fallingsand_sim/src/motion.rs). The draws are arbitrary; whatever they
// are, the walk is short and stays close.
module Courses {
  import opened Wrappers
  import opened Materials
  import opened Cells
  import opened Coords
  import opened Windows
  import opened Motion
  import opened Numbers

  // A cell of the window that no body owns: what may travel.
  ghost predicate Loose(w: Window, pos: CellPos) {
    w.At(pos).Some? && !w.Tagged(pos)
  }

  // ------------------------------------------------------------- single writes

  // The source's writes. Travelling cells never come so near the edge that one is dropped.
  ghost function Wrote(w: Window, pos: CellPos, cell: Cell): Window {
    if w.Surrounded(pos) then w.Set(pos, cell) else w
  }

  ghost function Traded(w: Window, from: CellPos, to: CellPos): Window {
    if w.Surrounded(from) && w.Surrounded(to) then w.Swap(from, to) else w
  }

  ghost function Marked(w: Window, pos: CellPos): Window {
    if w.Inside(pos) then w.Mark(pos) else w
  }

  // A mover changes places with a liquid, and both leave with the exchanged velocities.
  ghost function Through(w: Window, from: CellPos, to: CellPos, side: int): Window {
    if Loose(w, from) && Loose(w, to) then
      var mover, displaced := w.At(from).value, w.At(to).value;
      var after := Exchanged(mover, displaced, side, to.y < from.y);
      var turned := Wrote(w, from, mover.WithVelocity(after.moverX, after.moverY));
      Traded(Wrote(turned, to, displaced.WithVelocity(after.displacedX, after.displacedY)), from, to)
    else w
  }

  ghost function ThroughVelocity(w: Window, from: CellPos, to: CellPos, side: int): (int, int) {
    if Loose(w, from) && Loose(w, to) then
      var after := Exchanged(w.At(from).value, w.At(to).value, side, to.y < from.y);
      (after.moverX, after.moverY)
    else (0, 0)
  }

  // swap_dynamic of the grains and swap_moving of the liquids.
  predicate ThroughLiquid(mode: Mode, mover: Cell, displaced: Cell) {
    match mode
    case Grain(_) => mover.Phase() == Powder && displaced.Phase() == Liquid
    case Fluid => displaced.Phase() == Liquid && displaced.material != mover.material
  }

  // ------------------------------------------------------------------ the walk

  datatype Travelled = Travelled(pos: CellPos, blockedX: int, blockedY: int)

  function Distance(a: CellPos, b: CellPos): nat {
    Abs(a.x - b.x) + Abs(a.y - b.y)
  }

  // The loop variables of traverse: the signed steps of both axes, how many are done, and
  // the steps left over all.
  datatype Course = Course(steps: (int, int), done: (nat, nat), remaining: nat) {
    function Distance(): (nat, nat) {
      (Abs(steps.0), Abs(steps.1))
    }

    predicate Going() {
      done != Distance() && remaining > 0
    }

    // The axis of the next step: the one that lags behind the straight line.
    function Axis(): nat {
      if done.0 == Distance().0 then 1
      else if done.1 == Distance().1 || done.0 * Distance().1 <= done.1 * Distance().0 then 0
      else 1
    }

    function Sign(): int {
      Signum(if Axis() == 0 then steps.0 else steps.1)
    }

    function Next(here: CellPos): CellPos {
      if Axis() == 0 then here.Translated(Sign(), 0) else here.Translated(0, Sign())
    }

    function Stepped(): Course
      requires remaining > 0
    {
      Course(steps, if Axis() == 0 then (done.0 + 1, done.1) else (done.0, done.1 + 1), remaining - 1)
    }

    function Stopped(): Course {
      this.(done := if Axis() == 0 then (Distance().0, done.1) else (done.0, Distance().1))
    }

    ghost predicate Sane() {
      && done.0 <= Distance().0 <= MAX_SPEED_CELLS && done.1 <= Distance().1 <= MAX_SPEED_CELLS
    }

    function Unfinished(): int {
      Distance().0 - done.0 + Distance().1 - done.1
    }

    // How many axes have steps to go.
    function AxesLeft(): nat {
      (if done.0 == Distance().0 then 0 else 1) + if done.1 == Distance().1 then 0 else 1
    }
  }

  // What one exchange draws: the side of the scatter, and the fractions of the new steps.
  type Fraction = n: nat | n < SUBCELL_UNITS_PER_CELL

  datatype Draw = Draw(right: bool, x: Fraction, y: Fraction) {
    function Side(): int {
      if right then 1 else -1
    }
  }

  const NO_DRAW: Draw := Draw(true, 0, 0)

  function Aimed(vx: int, vy: int, d: Draw, remaining: nat): Course {
    Course((StepCells(vx, d.x), StepCells(vy, d.y)), (0, 0), remaining)
  }

  function Departure(vx: int, vy: int, d: Draw): Course {
    Aimed(vx, vy, d, Abs(StepCells(vx, d.x)) + Abs(StepCells(vy, d.y)))
  }

  datatype Stage = Stage(window: Window, course: Course, travel: Travelled)

  ghost function Setting(w: Window, pos: CellPos, vx: int, vy: int, d: Draw): Stage {
    Stage(w, Departure(vx, vy, d), Travelled(pos, 0, 0))
  }

  function Vertical(course: Course): int {
    if course.Axis() == 0 then 0 else course.Sign()
  }

  // One turn of the loop: on into the next cell, waiting behind a cell that has moved, or
  // blocked; through a liquid it takes a new course with the steps that remain.
  ghost function Strode(s: Stage, mode: Mode, d: Draw): Stage {
    if !s.course.Going() then s
    else
      var here, next := s.travel.pos, s.course.Next(s.travel.pos);
      match EntryOf(s.window, mode, Vertical(s.course), next)
      case Open =>
        if s.window.At(here).Some? && ThroughLiquid(mode, s.window.At(here).value, s.window.At(next).value) then
          var v := ThroughVelocity(s.window, here, next, d.Side());
          Stage(
            Through(s.window, here, next, d.Side()), Aimed(v.0, v.1, d, s.course.remaining - 1), Travelled(next, 0, 0))
        else Stage(Traded(s.window, here, next), s.course.Stepped(), s.travel.(pos := next))
      case Busy => Stage(Marked(s.window, here), s.course.Stopped(), s.travel)
      case Blocked => Stage(s.window, s.course.Stopped(), BlockedAhead(s.course, s.travel))
  }

  function BlockedAhead(course: Course, travel: Travelled): Travelled {
    if course.Axis() == 0 then travel.(blockedX := course.Sign()) else travel.(blockedY := course.Sign())
  }

  // All of the loop, a draw for each of its turns.
  ghost function Walk(s: Stage, mode: Mode, draws: seq<Draw>): Stage
    decreases |draws|
  {
    if draws == [] then s else Strode(Walk(s, mode, draws[..|draws| - 1]), mode, draws[|draws| - 1])
  }

  lemma WalkNext(s: Stage, mode: Mode, draws: seq<Draw>, d: Draw)
    ensures Walk(s, mode, draws + [d]) == Strode(Walk(s, mode, draws), mode, d)
  {
    assert (draws + [d])[..|draws|] == draws;
  }

  lemma AimIsSane(vx: int, vy: int, d: Draw, remaining: nat)
    ensures Aimed(vx, vy, d, remaining).Sane()
    ensures Departure(vx, vy, d).remaining <= MAX_TRAVEL
  {
    StepCellsTrackVelocity(vx, d.x);
    StepCellsTrackVelocity(vy, d.y);
  }

  // What every turn keeps: the cell is no further than the steps it has used.
  ghost predicate OnCourse(s: Stage, pos: CellPos, limit: nat) {
    s.course.Sane() && Distance(pos, s.travel.pos) + s.course.remaining <= limit
  }

  lemma CourseGoesOn(c: Course, pos: CellPos, here: CellPos, limit: nat)
    requires c.Sane() && c.Going() && Distance(pos, here) + c.remaining <= limit
    ensures Distance(pos, c.Next(here)) + (c.remaining - 1) <= limit && c.Stepped().Sane() && c.Stopped().Sane()
  {
  }

  lemma StrideStaysOnCourse(s: Stage, mode: Mode, d: Draw, pos: CellPos, limit: nat)
    requires OnCourse(s, pos, limit)
    ensures OnCourse(Strode(s, mode, d), pos, limit)
  {
    if s.course.Going() {
      var here, next := s.travel.pos, s.course.Next(s.travel.pos);
      CourseGoesOn(s.course, pos, here, limit);
      if EntryOf(s.window, mode, Vertical(s.course), next) == Open {
        var v := ThroughVelocity(s.window, here, next, d.Side());
        AimIsSane(v.0, v.1, d, s.course.remaining - 1);
      }
    }
  }

  // The speed of light: however it is turned on its way, a cell ends no further than its first
  // steps allow, which is 62 cells.
  lemma {:induction false} WalkStaysWithin(w: Window, pos: CellPos, vx: int, vy: int, first: Draw, mode: Mode, draws: seq<Draw>)
    ensures var s := Walk(Setting(w, pos, vx, vy, first), mode, draws);
      OnCourse(s, pos, MAX_TRAVEL) && Distance(pos, s.travel.pos) <= MAX_TRAVEL
    decreases |draws|
  {
    AimIsSane(vx, vy, first, 0);
    if draws != [] {
      var last := |draws| - 1;
      WalkStaysWithin(w, pos, vx, vy, first, mode, draws[..last]);
      StrideStaysOnCourse(Walk(Setting(w, pos, vx, vy, first), mode, draws[..last]), mode, draws[last], pos, MAX_TRAVEL);
    }
  }

  // Each step onward uses one of the steps that remain, and each stop closes an axis that only
  // a step can open again.
  function Fuel(course: Course): nat {
    if course.Going() then 3 * course.remaining + course.AxesLeft() else 0
  }

  const LONGEST_WALK: nat := 3 * MAX_TRAVEL + 2

  lemma StrideUsesFuel(s: Stage, mode: Mode, d: Draw)
    requires s.course.Sane() && s.course.Going()
    ensures Fuel(Strode(s, mode, d).course) < Fuel(s.course)
  {
  }

  lemma {:induction false} WalkUsesFuel(s: Stage, mode: Mode, draws: seq<Draw>, pos: CellPos)
    requires OnCourse(s, pos, MAX_TRAVEL)
    ensures OnCourse(Walk(s, mode, draws), pos, MAX_TRAVEL)
    ensures Walk(s, mode, draws).course.Going() ==> Fuel(Walk(s, mode, draws).course) + |draws| <= Fuel(s.course)
    decreases |draws|
  {
    if draws != [] {
      var last := |draws| - 1;
      var before := Walk(s, mode, draws[..last]);
      WalkUsesFuel(s, mode, draws[..last], pos);
      StrideStaysOnCourse(before, mode, draws[last], pos, MAX_TRAVEL);
      if before.course.Going() {
        StrideUsesFuel(before, mode, draws[last]);
      }
    }
  }

  // So the loop ends, after at most 188 turns, however often the cell is turned.
  lemma WalkEnds(w: Window, pos: CellPos, vx: int, vy: int, first: Draw, mode: Mode, draws: seq<Draw>)
    requires |draws| >= LONGEST_WALK
    ensures !Walk(Setting(w, pos, vx, vy, first), mode, draws).course.Going()
  {
    var s := Setting(w, pos, vx, vy, first);
    AimIsSane(vx, vy, first, 0);
    WalkUsesFuel(s, mode, draws, pos);
    assert Fuel(s.course) <= LONGEST_WALK;
  }

  // A walk that has ended goes no further.
  lemma {:induction false} WalkRests(s: Stage, mode: Mode, draws: seq<Draw>, more: seq<Draw>)
    requires !Walk(s, mode, draws).course.Going()
    ensures Walk(s, mode, draws + more) == Walk(s, mode, draws)
    decreases |more|
  {
    if more == [] {
      assert draws + more == draws;
    } else {
      var last := |more| - 1;
      WalkRests(s, mode, draws, more[..last]);
      OneMore(draws, more);
      WalkNext(s, mode, draws + more[..last], more[last]);
    }
  }

  lemma OneMore(draws: seq<Draw>, more: seq<Draw>)
    requires more != []
    ensures draws + more == draws + more[..|more| - 1] + [more[|more| - 1]]
  {
  }

  // ------------------------------------------------------ what a stride goes into

  // The step chosen keeps the cell within one step of the straight line to where it is heading.
  ghost predicate NearLine(c: Course) {
    Off(c) + c.Distance().0 >= 0 && Off(c) <= c.Distance().1
  }

  function Off(c: Course): int {
    OffLine(c.done, c.Distance())
  }

  function OffLine(done: (nat, nat), distance: (nat, nat)): int {
    var p: int, q: int := done.0 * distance.1, done.1 * distance.0;
    p - q
  }

  lemma StaysNearLine(c: Course)
    requires c.Sane() && NearLine(c) && c.Going()
    ensures NearLine(c.Stepped())
  {
    var (done, distance) := (c.done, c.Distance());
    OneStepOff(done, distance);
    Leaning(done, distance);
    assert c.Stepped().Distance() == distance;
    if c.Axis() == 0 {
      assert c.Stepped().done == (done.0 + 1, done.1);
    } else {
      assert c.Stepped().done == (done.0, done.1 + 1);
    }
  }

  lemma OneStepOff(done: (nat, nat), distance: (nat, nat))
    ensures OffLine((done.0 + 1, done.1), distance) == OffLine(done, distance) + distance.1
    ensures OffLine((done.0, done.1 + 1), distance) == OffLine(done, distance) - distance.0
    ensures OffLine(done, distance) <= 0 <==> done.0 * distance.1 <= done.1 * distance.0
  {
    assert (done.0 + 1) * distance.1 == done.0 * distance.1 + distance.1;
    assert (done.1 + 1) * distance.0 == done.1 * distance.0 + distance.0;
  }

  // With one axis done, the line is on the side of the other.
  lemma Leaning(done: (nat, nat), distance: (nat, nat))
    ensures done.0 == distance.0 && done.1 < distance.1 ==> OffLine(done, distance) >= distance.0
    ensures done.1 == distance.1 && done.0 < distance.0 ==> OffLine(done, distance) + distance.1 <= 0
  {
    if done.0 == distance.0 && done.1 < distance.1 {
      OneMoreAtLeast(distance.0, done.1, distance.1);
    }
    if done.1 == distance.1 && done.0 < distance.0 {
      OneMoreAtLeast(distance.1, done.0, distance.0);
    }
  }

  lemma OneMoreAtLeast(a: nat, n: nat, b: nat)
    requires n < b
    ensures a * b >= n * a + a
  {
    assert a * b == a * (n + 1) + a * (b - n - 1);
    assert a * (n + 1) == n * a + a;
  }

  lemma AimIsNearLine(vx: int, vy: int, d: Draw, remaining: nat)
    ensures NearLine(Aimed(vx, vy, d, remaining))
  {
  }

  // A cell that is blocked or has to wait gives up its steps along that axis, and goes on along the other.
  lemma StopsOneAxis(c: Course)
    requires c.Sane() && c.Going()
    ensures c.Stopped().steps == c.steps && c.Stopped().remaining == c.remaining && c.Stopped().Sane()
    ensures if c.Axis() == 0 then
        c.done.0 < c.Distance().0 && c.Stopped().done == (c.Distance().0, c.done.1)
      else c.done.1 < c.Distance().1 && c.Stopped().done == (c.done.0, c.Distance().1)
    ensures c.Stopped().Going() <==> c.AxesLeft() == 2
  {
  }

  // A grain's stride goes with the weights: down into something lighter, sideways into something
  // lighter or air, up into anything of another weight; never into a body, a solid or a powder, and
  // through a cell that has moved only if it is air. And nothing else keeps it from going.
  lemma GrainsGoWithTheirWeight(s: Stage, m: MaterialId, d: Draw)
    requires s.course.Going() && s.course.Sane()
    ensures var next, dy := s.course.Next(s.travel.pos), Vertical(s.course);
      Strode(s, Grain(m), d).travel.pos == next <==>
        && Loose(s.window, next)
        && var target := s.window.At(next).value;
           var (mine, other) := (CONTENT.densityMilli(m), CONTENT.densityMilli(target.material));
           && target.Phase() != Solid && target.Phase() != Powder && (target.moved ==> target.material == AIR_ID)
           && (other < mine || (dy == 1 && other > mine) || (dy == 0 && target.material == AIR_ID))
  {
    assert s.course.Next(s.travel.pos) != s.travel.pos;
  }

  // --------------------------------------------------------------- a free walk

  function Toward(steps: int, done: int): int {
    if steps > 0 then done else if steps < 0 then -done else 0
  }

  // Nothing has stopped or turned the cell: it is `done` steps along its course.
  ghost predicate Free(s: Stage, pos: CellPos, plan: (int, int)) {
    Straight(s.course, s.travel, pos, plan)
  }

  ghost predicate Straight(course: Course, travel: Travelled, pos: CellPos, plan: (int, int)) {
    && course.steps == plan && course.remaining == course.Unfinished() && course.Sane()
    && travel == Travelled(pos.Translated(Toward(plan.0, course.done.0), Toward(plan.1, course.done.1)), 0, 0)
  }

  lemma StraightOn(course: Course, travel: Travelled, pos: CellPos, plan: (int, int))
    requires Straight(course, travel, pos, plan) && course.Going()
    ensures Straight(course.Stepped(), travel.(pos := course.Next(travel.pos)), pos, plan)
  {
  }

  // The next cell can be entered, and is no liquid to be turned by.
  ghost predicate Clear(s: Stage, mode: Mode) {
    var here, next := s.travel.pos, s.course.Next(s.travel.pos);
    EntryOf(s.window, mode, Vertical(s.course), next) == Open
    && (s.window.At(here).Some? ==> !ThroughLiquid(mode, s.window.At(here).value, s.window.At(next).value))
  }

  lemma ClearStride(s: Stage, mode: Mode, d: Draw, pos: CellPos, plan: (int, int))
    requires Free(s, pos, plan) && (s.course.Going() ==> Clear(s, mode))
    ensures Free(Strode(s, mode, d), pos, plan)
  {
    if s.course.Going() {
      StraightOn(s.course, s.travel, pos, plan);
      assert Strode(s, mode, d)
        == Stage(Traded(s.window, s.travel.pos, s.course.Next(s.travel.pos)), s.course.Stepped(), s.travel.(pos := s.course.Next(s.travel.pos)));
    }
  }

  // A cell in nobody's way arrives exactly at its drawn steps.
  lemma {:induction false} FreeWalkArrives(
    w: Window, pos: CellPos, vx: int, vy: int, first: Draw, mode: Mode, draws: seq<Draw>)
    requires forall n | 0 <= n < |draws| ::
      var s := Walk(Setting(w, pos, vx, vy, first), mode, draws[..n]); s.course.Going() ==> Clear(s, mode)
    ensures var s := Walk(Setting(w, pos, vx, vy, first), mode, draws);
      var plan := Departure(vx, vy, first).steps;
      Free(s, pos, plan) && (!s.course.Going() ==> s.travel == Travelled(pos.Translated(plan.0, plan.1), 0, 0))
    decreases |draws|
  {
    var start, plan := Setting(w, pos, vx, vy, first), Departure(vx, vy, first).steps;
    AimIsSane(vx, vy, first, 0);
    if draws != [] {
      var last := |draws| - 1;
      forall n | 0 <= n < last
        ensures var s := Walk(start, mode, draws[..last][..n]); s.course.Going() ==> Clear(s, mode)
      {
        assert draws[..last][..n] == draws[..n];
      }
      FreeWalkArrives(w, pos, vx, vy, first, mode, draws[..last]);
      ClearStride(Walk(start, mode, draws[..last]), mode, draws[last], pos, plan);
    }
    Arrived(Walk(start, mode, draws), pos, plan);
  }

  // And on its whole way it keeps within one step of the straight line there.
  lemma FreeWalkStaysNearLine(w: Window, pos: CellPos, vx: int, vy: int, first: Draw, mode: Mode, draws: seq<Draw>)
    requires forall n | 0 <= n < |draws| ::
      var s := Walk(Setting(w, pos, vx, vy, first), mode, draws[..n]); s.course.Going() ==> Clear(s, mode)
    ensures NearLine(Walk(Setting(w, pos, vx, vy, first), mode, draws).course)
  {
    AimIsSane(vx, vy, first, 0);
    AimIsNearLine(vx, vy, first, Departure(vx, vy, first).remaining);
    ClearWalkStaysNear(Setting(w, pos, vx, vy, first), mode, draws);
  }

  lemma {:induction false} ClearWalkStaysNear(start: Stage, mode: Mode, draws: seq<Draw>)
    requires start.course.Sane() && NearLine(start.course)
    requires forall n | 0 <= n < |draws| :: var s := Walk(start, mode, draws[..n]); s.course.Going() ==> Clear(s, mode)
    ensures var s := Walk(start, mode, draws); s.course.Sane() && NearLine(s.course)
    decreases |draws|
  {
    if draws != [] {
      var last := |draws| - 1;
      forall n | 0 <= n < last
        ensures var s := Walk(start, mode, draws[..last][..n]); s.course.Going() ==> Clear(s, mode)
      {
        assert draws[..last][..n] == draws[..n];
      }
      ClearWalkStaysNear(start, mode, draws[..last]);
      ClearStrideStaysNear(Walk(start, mode, draws[..last]), mode, draws[last]);
    }
  }

  lemma ClearStrideStaysNear(s: Stage, mode: Mode, d: Draw)
    requires s.course.Sane() && NearLine(s.course) && (s.course.Going() ==> Clear(s, mode))
    ensures Strode(s, mode, d).course.Sane() && NearLine(Strode(s, mode, d).course)
  {
    if s.course.Going() {
      StaysNearLine(s.course);
    }
  }

  lemma Arrived(s: Stage, pos: CellPos, plan: (int, int))
    requires Free(s, pos, plan)
    ensures !s.course.Going() ==> s.travel == Travelled(pos.Translated(plan.0, plan.1), 0, 0)
  {
  }

  // ------------------------------------------------------------ after the travel

  // A settled cell below the settling speed comes to rest; every speed is capped.
  function WrittenVelocity(vx: int, vy: int, settled: bool): (int, int) {
    if settled && VectorLength(vx, vy) < SETTLE then (0, 0)
    else (Clamp(vx, -MAX_COMPONENT_RAW, MAX_COMPONENT_RAW), Clamp(vy, -MAX_COMPONENT_RAW, MAX_COMPONENT_RAW))
  }

  // write_velocity: written when it changes, and kept awake while it is not zero.
  ghost function Slowed(w: Window, here: CellPos, cell: Cell, vx: int, vy: int, settled: bool): Window
    requires cell.motion.Velocity?
  {
    var (x, y) := WrittenVelocity(vx, vy, settled);
    if cell.motion.vx != x || cell.motion.vy != y then Wrote(w, here, cell.WithVelocity(x, y))
    else if x != 0 || y != 0 then Marked(w, here)
    else w
  }

  function AlongOf(dx: int, dy: int): int {
    if dx != 0 then dx else dy
  }

  // How fast a mover closes in on a blocker along a direction.
  function ClosingSpeed(blocker: Cell, dx: int, dy: int, velocity: int): int
    requires blocker.motion.Velocity?
  {
    (velocity - if dx != 0 then blocker.motion.vx else blocker.motion.vy) * AlongOf(dx, dy)
  }

  function Pushed(blocker: Cell, dx: int, dy: int, gained: int): (pushed: Cell)
    requires blocker.motion.Velocity?
    ensures pushed.motion.Velocity? && pushed.Visible() == blocker.Visible() && pushed.moved
  {
    var gain := AlongOf(dx, dy) * gained;
    (if dx != 0 then blocker.WithVelocity(blocker.motion.vx + gain, blocker.motion.vy)
     else blocker.WithVelocity(blocker.motion.vx, blocker.motion.vy + gain)).(moved := true)
  }

  // What a blocker takes of the speed along a direction, and the window with what it gained.
  ghost function Transferred(
    w: Window, mover: MaterialId, target: CellPos, dx: int, dy: int, velocity: int, restitution: nat): (Window, int)
    requires Loose(w, target)
  {
    var blocker := w.At(target).value;
    var closing := ClosingSpeed(blocker, dx, dy, velocity);
    if closing <= 0 then (w, velocity)
    else
      var (lost, gained) := TransferDeltas(mover, blocker.material, closing, restitution);
      (Wrote(w, target, Pushed(blocker, dx, dy, gained)), velocity - AlongOf(dx, dy) * lost)
  }

  // struck_body: a body's cell takes the impulse.
  ghost function Struck(w: Window, mover: Cell, grain: CellPos, bodyCell: CellPos): Window {
    if w.Tagged(bodyCell) then
      var id := w.At(bodyCell).value.motion.id;
      w.(impulses := w.impulses + [Strike(id, bodyCell, grain, Heaviness(mover.material))])
    else w
  }

  ghost function Collided(w: Window, cell: Cell, here: CellPos, dx: int, dy: int, velocity: int): (Window, int) {
    var target := here.Translated(dx, dy);
    if w.At(target).None? then (w, velocity)
    else if w.Tagged(target) then (Struck(w, cell, here, target), velocity)
    else
      var blocker := w.At(target).value;
      if blocker.Phase() == Powder || blocker.Phase() == Liquid || blocker.Phase() == Gas then
        Transferred(w, cell.material, target, dx, dy, velocity, CONTENT.restitution(cell.material))
      else if blocker.Phase() == cell.Phase() then (w, TruncateDiv(velocity, 2))
      else (w, -ApplyQ16(CONTENT.restitution(cell.material), velocity))
  }

  // CARDINAL_NEIGHBORS
  const NEIGHBOURS: seq<(int, int)> := [(0, -1), (-1, 0), (1, 0), (0, 1)]

  datatype Bump = Bump(window: Window, vx: int, vy: int)

  // One neighbour, if the mover is heading for it and cannot enter it.
  ghost function Bumped(b: Bump, cell: Cell, here: CellPos, i: nat): Bump
    requires i < |NEIGHBOURS|
  {
    var (dx, dy) := NEIGHBOURS[i];
    var incoming := if dx != 0 then b.vx * dx > 0 else b.vy * dy > 0;
    if !incoming || CanEnter(b.window, cell.material, dy, here.Translated(dx, dy)) then b
    else
      var (window, kept) := Collided(b.window, cell, here, dx, dy, if dx != 0 then b.vx else b.vy);
      if dx != 0 then Bump(window, kept, b.vy) else Bump(window, b.vx, kept)
  }

  // The neighbours in turn, each with the velocity the ones before have left.
  ghost function BumpedAll(b: Bump, cell: Cell, here: CellPos, n: nat): Bump
    requires n <= |NEIGHBOURS|
  {
    if n == 0 then b else Bumped(BumpedAll(b, cell, here, n - 1), cell, here, n - 1)
  }

  // A cell is settled when it cannot go on in the direction its weight takes it.
  ghost function Rested(w: Window, cell: Cell, here: CellPos, vx: int, vy: int): Window {
    if !Loose(w, here) then w
    else
      var down := if cell.Phase() == Gas then 1 else -1;
      Slowed(w, here, w.At(here).value, vx, vy, !CanEnter(w, cell.material, down, here.Translated(0, down)))
  }

  // The draws of one cell: its first steps, one for every turn of its walk, a side to prefer,
  // and whether a cell at rest flows.
  type WalkDraws = s: seq<Draw> | |s| == LONGEST_WALK witness seq(LONGEST_WALK, _ => NO_DRAW)

  datatype Draws = Draws(first: Draw, walk: WalkDraws, right: bool, flows: bool) {
    function Side(): int {
      if right then 1 else -1
    }
  }

  ghost function Walked(w: Window, pos: CellPos, cell: Cell, mode: Mode, d: Draws): Stage
    requires cell.motion.Velocity?
  {
    Walk(Setting(w, pos, cell.motion.vx, cell.motion.vy, d.first), mode, d.walk)
  }

  // motion::move_cell: travel, collide with what stops the cell, and keep a velocity.
  ghost function GrainMoved(w: Window, pos: CellPos, cell: Cell, d: Draws): Window
    requires cell.motion.Velocity?
  {
    var s := Walked(w, pos, cell, Grain(cell.material), d);
    if !Loose(s.window, s.travel.pos) then s.window
    else
      var current := s.window.At(s.travel.pos).value;
      var b := BumpedAll(Bump(s.window, current.motion.vx, current.motion.vy), cell, s.travel.pos, |NEIGHBOURS|);
      Rested(b.window, cell, s.travel.pos, b.vx, b.vy)
  }

  // However long the walk took, it can be told with a draw for each of the 188 turns there are.
  lemma DrawsForWalk(w: Window, pos: CellPos, vx: int, vy: int, first: Draw, mode: Mode, draws: seq<Draw>)
    returns (all: WalkDraws)
    requires !Walk(Setting(w, pos, vx, vy, first), mode, draws).course.Going() && |draws| <= LONGEST_WALK
    ensures Walk(Setting(w, pos, vx, vy, first), mode, all) == Walk(Setting(w, pos, vx, vy, first), mode, draws)
  {
    all := draws + seq(LONGEST_WALK - |draws|, _ => NO_DRAW);
    WalkRests(Setting(w, pos, vx, vy, first), mode, draws, seq(LONGEST_WALK - |draws|, _ => NO_DRAW));
  }

  lemma StillGoing(w: Window, pos: CellPos, vx: int, vy: int, first: Draw, mode: Mode, draws: seq<Draw>)
    requires Walk(Setting(w, pos, vx, vy, first), mode, draws).course.Going()
    ensures |draws| < LONGEST_WALK
  {
    AimIsSane(vx, vy, first, 0);
    WalkUsesFuel(Setting(w, pos, vx, vy, first), mode, draws, pos);
  }
}
