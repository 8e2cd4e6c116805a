// The moving half of crates/fallingsand_sim/src/motion.rs: traverse and what is done
// with it, on the window. Each method keeps the law Moves around the cell it was called for,
// and does what Courses says for the draws it made.
module Travel {
  import opened Wrappers
  import opened Materials
  import opened Cells
  import opened Coords
  import opened Windows
  import opened Motion
  import opened Numbers
  import opened Courses
  import Impacts

  // Enough of the window around `center` for everything a move may touch.
  ghost predicate Room(w: Window, center: CellPos) {
    w.Holds(center, SPEED_OF_LIGHT)
  }

  lemma RoomSurrounds(w: Window, center: CellPos, pos: CellPos)
    requires Room(w, center) && Near(center, pos, SPEED_OF_LIGHT - 1)
    ensures w.Surrounded(pos)
  {
    NearNeighbours(center, pos, SPEED_OF_LIGHT - 1);
    assert Near(center, pos, SPEED_OF_LIGHT);
    forall k | 0 <= k < 9
      ensures w.Inside(Neighbour(pos, k))
    {
      assert Near(center, Neighbour(pos, k), SPEED_OF_LIGHT);
      assert w.At(Neighbour(pos, k)).Some?;
    }
  }

  // The whole of a move so far: the law kept, and the matter that set out from `pos` now
  // at `here`.
  ghost predicate Carried(w: Window, v: Window, pos: CellPos, here: CellPos) {
    && Moves(w, v, pos, SPEED_OF_LIGHT - 1)
    && w.At(pos).Some? && Loose(v, here) && v.At(here).value.Visible() == w.At(pos).value.Visible()
  }

  method SwapCells(w: SimWindow, from: CellPos, to: CellPos, ghost center: CellPos)
    requires Room(w.View(), center) && Loose(w.View(), from) && Loose(w.View(), to) && from != to
    requires Near(center, from, SPEED_OF_LIGHT - 1) && Near(center, to, SPEED_OF_LIGHT - 1)
    modifies w
    ensures Moves(old(w.View()), w.View(), center, SPEED_OF_LIGHT - 1)
    ensures w.View() == Traded(old(w.View()), from, to)
    ensures w.View().At(to) == Some(old(w.View()).At(from).value.Swapped())
    ensures w.View().At(from) == Some(old(w.View()).At(to).value.Swapped())
    ensures forall p: CellPos | p != from && p != to :: w.View().At(p) == old(w.View()).At(p)
  {
    RoomSurrounds(w.View(), center, from);
    RoomSurrounds(w.View(), center, to);
    SwapGives(w.View(), from, to);
    SwapMoves(w.View(), from, to, center, SPEED_OF_LIGHT - 1);
    w.Swap(from, to);
  }

  // Writing a loose cell back with another velocity or other flags.
  method Rewrite(w: SimWindow, pos: CellPos, cell: Cell, ghost center: CellPos)
    requires Room(w.View(), center) && Loose(w.View(), pos) && Near(center, pos, SPEED_OF_LIGHT - 1)
    requires cell.motion.Velocity? && cell.Visible() == w.View().At(pos).value.Visible()
    modifies w
    ensures Moves(old(w.View()), w.View(), center, SPEED_OF_LIGHT - 1)
    ensures w.View() == Wrote(old(w.View()), pos, cell)
    ensures w.View().At(pos) == Some(cell)
    ensures forall p: CellPos | p != pos :: w.View().At(p) == old(w.View()).At(p)
  {
    RoomSurrounds(w.View(), center, pos);
    SetGives(w.View(), pos, cell);
    RewriteMoves(w.View(), pos, cell, center, SPEED_OF_LIGHT - 1);
    w.Set(pos, cell);
  }

  method MarkCell(w: SimWindow, pos: CellPos, ghost center: CellPos)
    requires Room(w.View(), center) && Near(center, pos, SPEED_OF_LIGHT)
    modifies w
    ensures Moves(old(w.View()), w.View(), center, SPEED_OF_LIGHT - 1)
    ensures w.View() == Marked(old(w.View()), pos)
    ensures forall p: CellPos :: w.View().At(p) == old(w.View()).At(p)
  {
    assert w.View().At(pos).Some?;
    MarkMoves(w.View(), pos, center, SPEED_OF_LIGHT - 1);
    MarkKeepsCells(w.View(), pos);
    SameCellsSameAt(w.View(), w.View().Mark(pos));
    w.Mark(pos);
  }

  // A mover changes places with a liquid, and both leave with the exchanged velocities.
  method SwapThroughLiquid(w: SimWindow, from: CellPos, to: CellPos, ghost center: CellPos)
    returns (velocity: (int, int), ghost right: bool)
    requires Room(w.View(), center) && Loose(w.View(), from) && Loose(w.View(), to) && from != to
    requires Near(center, from, SPEED_OF_LIGHT - 1) && Near(center, to, SPEED_OF_LIGHT - 1)
    modifies w
    ensures Moves(old(w.View()), w.View(), center, SPEED_OF_LIGHT - 1)
    ensures w.View() == Through(old(w.View()), from, to, if right then 1 else -1)
    ensures velocity == ThroughVelocity(old(w.View()), from, to, if right then 1 else -1)
    ensures var mover, displaced := old(w.View()).At(from).value, old(w.View()).At(to).value;
        var after := Exchanged(mover, displaced, if right then 1 else -1, to.y < from.y);
        && w.View().At(to) == Some(mover.WithVelocity(after.moverX, after.moverY).Swapped())
        && w.View().At(from) == Some(displaced.WithVelocity(after.displacedX, after.displacedY).Swapped())
    ensures forall p: CellPos | p != from && p != to :: w.View().At(p) == old(w.View()).At(p)
  {
    ghost var w0 := w.View();
    assert w0.At(from).Some? && w0.At(to).Some?;
    var mover := w.Get(from);
    var displaced := w.Get(to);
    var bit: bool := *;
    var sign := if bit then 1 else -1;
    right := bit;
    var after := Exchanged(mover.value, displaced.value, sign, to.y < from.y);
    Rewrite(w, from, mover.value.WithVelocity(after.moverX, after.moverY), center);
    ghost var w1 := w.View();
    MovesKeepsHolds(w0, w1, center, SPEED_OF_LIGHT);
    Rewrite(w, to, displaced.value.WithVelocity(after.displacedX, after.displacedY), center);
    ghost var w2 := w.View();
    MovesTransitive(w0, w1, w2, center, SPEED_OF_LIGHT - 1);
    MovesKeepsHolds(w1, w2, center, SPEED_OF_LIGHT);
    SwapCells(w, from, to, center);
    MovesTransitive(w0, w2, w.View(), center, SPEED_OF_LIGHT - 1);
    velocity := (after.moverX, after.moverY);
  }

  datatype Revector = Continue | Revector(vx: int, vy: int)

  method SwapAhead(w: SimWindow, mode: Mode, from: CellPos, to: CellPos, ghost center: CellPos)
    returns (control: Revector, ghost right: bool)
    requires Room(w.View(), center) && Loose(w.View(), from) && Loose(w.View(), to) && from != to
    requires Near(center, from, SPEED_OF_LIGHT - 1) && Near(center, to, SPEED_OF_LIGHT - 1)
    modifies w
    ensures Moves(old(w.View()), w.View(), center, SPEED_OF_LIGHT - 1)
    ensures Loose(w.View(), to) && w.View().At(to).value.Visible() == old(w.View()).At(from).value.Visible()
    ensures Loose(w.View(), from) && w.View().At(from).value.Visible() == old(w.View()).At(to).value.Visible()
    ensures (w.View(), control) == Passed(old(w.View()), mode, from, to, right)
  {
    assert w.View().At(from).Some? && w.View().At(to).Some?;
    var mover := w.Get(from);
    var displaced := w.Get(to);
    right := true;
    if ThroughLiquid(mode, mover.value, displaced.value) {
      var velocity: (int, int);
      velocity, right := SwapThroughLiquid(w, from, to, center);
      control := Revector(velocity.0, velocity.1);
    } else {
      SwapCells(w, from, to, center);
      control := Continue;
    }
  }

  // The window after a cell has gone into the next one, and whether that turned it.
  ghost function Passed(w: Window, mode: Mode, from: CellPos, to: CellPos, right: bool): (Window, Revector)
    requires w.At(from).Some? && w.At(to).Some?
  {
    var side := if right then 1 else -1;
    if ThroughLiquid(mode, w.At(from).value, w.At(to).value) then
      var v := ThroughVelocity(w, from, to, side);
      (Through(w, from, to, side), Revector(v.0, v.1))
    else (Traded(w, from, to), Continue)
  }

  // step_cells with its draw of ten bits.
  method DrawSteps(velocity: int) returns (steps: int, ghost fraction: Fraction)
    ensures steps == StepCells(velocity, fraction)
  {
    var draw: Fraction :| true;
    fraction := draw;
    steps := StepCells(velocity, draw);
  }

  // Walks a cell along its velocity. Every exchange with a liquid may turn it, with a new
  // draw, but the steps that remain were fixed at the start: no cell goes further than 62,
  // and the loop ends however often the cell is turned (WalkStaysWithin, WalkEnds).
  method Traverse(w: SimWindow, pos: CellPos, cell: Cell, mode: Mode, ghost d: Draws)
    returns (travel: Travelled, ghost d': Draws)
    requires Room(w.View(), pos) && Loose(w.View(), pos) && cell.motion.Velocity?
    modifies w
    ensures Carried(old(w.View()), w.View(), pos, travel.pos)
    ensures Distance(pos, travel.pos) <= MAX_TRAVEL
    ensures -1 <= travel.blockedX <= 1 && -1 <= travel.blockedY <= 1
    ensures var s := Walked(old(w.View()), pos, cell, mode, d'); w.View() == s.window && travel == s.travel
    ensures d' == d.(first := d'.first, walk := d'.walk)
  {
    ghost var w0 := w.View();
    ghost var fx: Fraction, fy: Fraction;
    var stepsX: int, stepsY: int;
    stepsX, fx := DrawSteps(cell.motion.vx);
    stepsY, fy := DrawSteps(cell.motion.vy);
    var course := Course((stepsX, stepsY), (0, 0), Abs(stepsX) + Abs(stepsY));
    travel := Travelled(pos, 0, 0);
    ghost var first, draws := Draw(true, fx, fy), [];
    ghost var start := Setting(w0, pos, cell.motion.vx, cell.motion.vy, first);
    MovesReflexive(w0, pos, SPEED_OF_LIGHT - 1);
    while course.Going()
      invariant Carried(w0, w.View(), pos, travel.pos)
      invariant -1 <= travel.blockedX <= 1 && -1 <= travel.blockedY <= 1
      invariant Stage(w.View(), course, travel) == Walk(start, mode, draws) && |draws| <= LONGEST_WALK
      decreases LONGEST_WALK - |draws|
    {
      StillGoing(w0, pos, cell.motion.vx, cell.motion.vy, first, mode, draws);
      WalkStaysWithin(w0, pos, cell.motion.vx, cell.motion.vy, first, mode, draws);
      ghost var draw: Draw;
      course, travel, draw := Stride(w, mode, course, travel, pos, w0);
      WalkNext(start, mode, draws, draw);
      draws := draws + [draw];
    }
    WalkStaysWithin(w0, pos, cell.motion.vx, cell.motion.vy, first, mode, draws);
    ghost var all := DrawsForWalk(w0, pos, cell.motion.vx, cell.motion.vy, first, mode, draws);
    d' := d.(first := first, walk := all);
  }

  lemma NextIsNear(course: Course, pos: CellPos, here: CellPos)
    requires course.Sane() && course.Going() && Distance(pos, here) + course.remaining <= MAX_TRAVEL
    ensures course.Next(here) != here && Near(pos, here, MAX_TRAVEL) && Near(pos, course.Next(here), MAX_TRAVEL)
    ensures course.Sign() == 1 || course.Sign() == -1
  {
  }

  // Tries the next cell: changes places with what is there, or waits for a cell that has
  // already moved, or is blocked.
  method Stride(w: SimWindow, mode: Mode, course: Course, travel: Travelled, ghost pos: CellPos, ghost w0: Window)
    returns (course': Course, travel': Travelled, ghost draw: Draw)
    requires Room(w0, pos) && Carried(w0, w.View(), pos, travel.pos) && course.Going()
    requires OnCourse(Stage(w.View(), course, travel), pos, MAX_TRAVEL)
    requires -1 <= travel.blockedX <= 1 && -1 <= travel.blockedY <= 1
    modifies w
    ensures Stage(w.View(), course', travel') == Strode(Stage(old(w.View()), course, travel), mode, draw)
    ensures Carried(w0, w.View(), pos, travel'.pos)
    ensures -1 <= travel'.blockedX <= 1 && -1 <= travel'.blockedY <= 1
  {
    ghost var w1 := w.View();
    MovesKeepsHolds(w0, w1, pos, SPEED_OF_LIGHT);
    NextIsNear(course, pos, travel.pos);
    var next := course.Next(travel.pos);
    var sign, horizontal := course.Sign(), course.Axis() == 0;
    assert Near(pos, next, SPEED_OF_LIGHT) && w1.At(next).Some? && w1.At(travel.pos).Some?;
    draw := NO_DRAW;
    var entry := Enter(w, mode, if horizontal then 0 else sign, next);
    match entry {
      case Open =>
        var control: Revector;
        ghost var right: bool;
        control, right := SwapAhead(w, mode, travel.pos, next, pos);
        MovesTransitive(w0, w1, w.View(), pos, SPEED_OF_LIGHT - 1);
        if control.Revector? {
          ghost var fx: Fraction, fy: Fraction;
          var stepsX: int, stepsY: int;
          stepsX, fx := DrawSteps(control.vx);
          stepsY, fy := DrawSteps(control.vy);
          draw := Draw(right, fx, fy);
          course' := Course((stepsX, stepsY), (0, 0), course.remaining - 1);
          travel' := Travelled(next, 0, 0);
        } else {
          course' := course.Stepped();
          travel' := travel.(pos := next);
        }
      case Busy =>
        MarkCell(w, travel.pos, pos);
        MovesTransitive(w0, w1, w.View(), pos, SPEED_OF_LIGHT - 1);
        course', travel' := course.Stopped(), travel;
      case Blocked =>
        travel' := if horizontal then travel.(blockedX := sign) else travel.(blockedY := sign);
        course' := course.Stopped();
    }
  }

  method Enter(w: SimWindow, mode: Mode, dy: int, target: CellPos) returns (entry: Entry)
    requires w.View().Inside(target)
    ensures entry == EntryOf(w.View(), mode, dy, target)
  {
    var cell := w.Get(target);
    if cell.None? {
      return Blocked;
    }
    var admitted := match mode
      case Grain(material) => Admits(material, dy, cell.value)
      case Fluid => Yields(cell.value);
    if !admitted {
      return Blocked;
    }
    entry := if !cell.value.IsAir() && cell.value.moved then Busy else Open;
  }

  // ------------------------------------------------------------ after the travel

  method WriteVelocity(
    w: SimWindow, here: CellPos, cell: Cell, vx: int, vy: int, settled: bool, ghost center: CellPos)
    requires Room(w.View(), center) && Loose(w.View(), here) && Near(center, here, SPEED_OF_LIGHT - 1)
    requires w.View().At(here) == Some(cell)
    modifies w
    ensures Moves(old(w.View()), w.View(), center, SPEED_OF_LIGHT - 1)
    ensures w.View() == Slowed(old(w.View()), here, cell, vx, vy, settled)
    ensures w.View().At(here) == Some(cell.WithVelocity(
      WrittenVelocity(vx, vy, settled).0, WrittenVelocity(vx, vy, settled).1))
    ensures forall p: CellPos | p != here :: w.View().At(p) == old(w.View()).At(p)
  {
    var x, y := vx, vy;
    if settled && VectorLength(x, y) < SETTLE {
      x, y := 0, 0;
    }
    x := Clamp(x, -MAX_COMPONENT_RAW, MAX_COMPONENT_RAW);
    y := Clamp(y, -MAX_COMPONENT_RAW, MAX_COMPONENT_RAW);
    if cell.motion != Velocity(x, y) {
      Rewrite(w, here, cell.WithVelocity(x, y), center);
    } else if x != 0 || y != 0 {
      MarkCell(w, here, center);
    } else {
      MovesReflexive(w.View(), center, SPEED_OF_LIGHT - 1);
    }
  }

  // The mover keeps its velocity unless it closes in on the blocker, which then takes part
  // of it. Returns the mover's new velocity along the direction.
  method TransferMomentum(
    w: SimWindow, mover: MaterialId, target: CellPos, dx: int, dy: int, velocity: int, restitution: nat,
    ghost center: CellPos)
    returns (kept: int)
    requires Room(w.View(), center) && Loose(w.View(), target) && Near(center, target, SPEED_OF_LIGHT - 1)
    modifies w
    ensures Moves(old(w.View()), w.View(), center, SPEED_OF_LIGHT - 1)
    ensures (w.View(), kept) == Transferred(old(w.View()), mover, target, dx, dy, velocity, restitution)
    ensures Impacts.Unit(dx, dy) ==>
      Impacts.Rebounds(old(w.View()), w.View(), mover, target, dx, dy, velocity, kept, restitution)
    ensures forall p: CellPos | p != target :: w.View().At(p) == old(w.View()).At(p)
  {
    assert w.View().At(target).Some?;
    RoomSurrounds(w.View(), center, target);
    if Impacts.Unit(dx, dy) {
      Impacts.TransferRebounds(w.View(), mover, target, dx, dy, velocity, restitution);
    }
    var blocker := w.Get(target);
    var closing := ClosingSpeed(blocker.value, dx, dy, velocity);
    if closing <= 0 {
      MovesReflexive(w.View(), center, SPEED_OF_LIGHT - 1);
      return velocity;
    }
    var deltas := TransferDeltas(mover, blocker.value.material, closing, restitution);
    Rewrite(w, target, Pushed(blocker.value, dx, dy, deltas.1), center);
    kept := velocity - AlongOf(dx, dy) * deltas.0;
  }

  // What a mover does to one neighbour it runs into: it strikes a body, pushes a cell that
  // can move, or bounces. Returns its new velocity along the direction.
  method Collide(
    w: SimWindow, cell: Cell, here: CellPos, dx: int, dy: int, velocity: int, ghost center: CellPos)
    returns (kept: int)
    requires Room(w.View(), center) && Near(center, here, MAX_TRAVEL)
    requires (dx == 0) != (dy == 0) && -1 <= dx <= 1 && -1 <= dy <= 1
    modifies w
    ensures Moves(old(w.View()), w.View(), center, SPEED_OF_LIGHT - 1)
    ensures (w.View(), kept) == Collided(old(w.View()), cell, here, dx, dy, velocity)
    ensures forall p: CellPos | p != here.Translated(dx, dy) :: w.View().At(p) == old(w.View()).At(p)
  {
    ghost var w0 := w.View();
    var target := here.Translated(dx, dy);
    assert Near(center, target, SPEED_OF_LIGHT) && w0.At(target).Some?;
    var blocker := w.Get(target);
    var struck := w.StruckBody(cell, here, target);
    MovesStruck(w0, w.View(), center);
    if struck {
      return velocity;
    }
    var phase := blocker.value.Phase();
    if phase == Powder || phase == Liquid || phase == Gas {
      kept := TransferMomentum(
        w, cell.material, target, dx, dy, velocity, CONTENT.restitution(cell.material), center);
    } else if phase == cell.Phase() {
      kept := TruncateDiv(velocity, 2);
    } else {
      kept := -ApplyQ16(CONTENT.restitution(cell.material), velocity);
    }
  }

  lemma MovesStruck(w: Window, v: Window, center: CellPos)
    requires v == w.(impulses := v.impulses) && Impelled(w, v)
    ensures Moves(w, v, center, SPEED_OF_LIGHT - 1) && forall p: CellPos :: v.At(p) == w.At(p)
  {
  }

  // One of the four neighbours.
  method CollideWith(w: SimWindow, cell: Cell, here: CellPos, vx: int, vy: int, i: nat, ghost center: CellPos)
    returns (keptX: int, keptY: int)
    requires Room(w.View(), center) && Near(center, here, MAX_TRAVEL) && i < |NEIGHBOURS|
    modifies w
    ensures Moves(old(w.View()), w.View(), center, SPEED_OF_LIGHT - 1)
    ensures w.View().At(here) == old(w.View()).At(here)
    ensures Bump(w.View(), keptX, keptY) == Bumped(Bump(old(w.View()), vx, vy), cell, here, i)
  {
    keptX, keptY := vx, vy;
    var (dx, dy) := NEIGHBOURS[i];
    var incoming := if dx != 0 then keptX * dx > 0 else keptY * dy > 0;
    var target := here.Translated(dx, dy);
    assert Near(center, target, SPEED_OF_LIGHT) && w.View().At(target).Some?;
    var admitted := Enters(w, cell.material, dy, target);
    if incoming && !admitted {
      var kept := Collide(w, cell, here, dx, dy, if dx != 0 then keptX else keptY, center);
      if dx != 0 {
        keptX := kept;
      } else {
        keptY := kept;
      }
    } else {
      MovesReflexive(w.View(), center, SPEED_OF_LIGHT - 1);
    }
  }

  // All four neighbours in turn, each with the velocity the ones before have left.
  method CollideAll(w: SimWindow, cell: Cell, here: CellPos, vx: int, vy: int, ghost center: CellPos)
    returns (keptX: int, keptY: int)
    requires Room(w.View(), center) && Near(center, here, MAX_TRAVEL)
    modifies w
    ensures Moves(old(w.View()), w.View(), center, SPEED_OF_LIGHT - 1)
    ensures w.View().At(here) == old(w.View()).At(here)
    ensures Bump(w.View(), keptX, keptY) == BumpedAll(Bump(old(w.View()), vx, vy), cell, here, |NEIGHBOURS|)
  {
    ghost var w0 := w.View();
    keptX, keptY := vx, vy;
    MovesReflexive(w0, center, SPEED_OF_LIGHT - 1);
    for i := 0 to |NEIGHBOURS|
      invariant Moves(w0, w.View(), center, SPEED_OF_LIGHT - 1)
      invariant w.View().At(here) == w0.At(here)
      invariant Bump(w.View(), keptX, keptY) == BumpedAll(Bump(w0, vx, vy), cell, here, i)
    {
      ghost var w1 := w.View();
      MovesKeepsHolds(w0, w1, center, SPEED_OF_LIGHT);
      keptX, keptY := CollideWith(w, cell, here, keptX, keptY, i, center);
      MovesTransitive(w0, w1, w.View(), center, SPEED_OF_LIGHT - 1);
    }
  }

  // motion::move_cell: a grain (or a gas that has speed) travels, collides with what stops
  // it, and is left with a velocity it can keep.
  method MoveGrain(w: SimWindow, pos: CellPos, cell: Cell, ghost d: Draws) returns (ghost d': Draws)
    requires Room(w.View(), pos) && w.View().At(pos) == Some(cell) && cell.motion.Velocity?
    modifies w
    ensures Moves(old(w.View()), w.View(), pos, SPEED_OF_LIGHT - 1)
    ensures w.View() == GrainMoved(old(w.View()), pos, cell, d')
    ensures var rest := Walked(old(w.View()), pos, cell, Grain(cell.material), d').travel.pos;
      Carried(old(w.View()), w.View(), pos, rest) && AtRest(w.View(), rest)
  {
    ghost var w0 := w.View();
    var travel: Travelled;
    travel, d' := Traverse(w, pos, cell, Grain(cell.material), d);
    ghost var w1 := w.View();
    MovesKeepsHolds(w0, w1, pos, SPEED_OF_LIGHT);
    var current := w.Get(travel.pos);
    var vx, vy := CollideAll(w, cell, travel.pos, current.value.motion.vx, current.value.motion.vy, pos);
    ghost var w2 := w.View();
    MovesTransitive(w0, w1, w2, pos, SPEED_OF_LIGHT - 1);
    MovesKeepsHolds(w1, w2, pos, SPEED_OF_LIGHT);
    ComeToRest(w, cell, travel.pos, vx, vy, pos);
    MovesTransitive(w0, w2, w.View(), pos, SPEED_OF_LIGHT - 1);
  }

  // A cell is settled when it cannot go on in the direction its weight takes it.
  method ComeToRest(w: SimWindow, cell: Cell, here: CellPos, vx: int, vy: int, ghost center: CellPos)
    requires Room(w.View(), center) && Loose(w.View(), here) && Near(center, here, MAX_TRAVEL)
    modifies w
    ensures Moves(old(w.View()), w.View(), center, SPEED_OF_LIGHT - 1)
    ensures w.View() == Rested(old(w.View()), cell, here, vx, vy)
    ensures AtRest(w.View(), here) && w.View().At(here).value.Visible() == old(w.View()).At(here).value.Visible()
  {
    var down := if cell.Phase() == Gas then 1 else -1;
    var support := here.Translated(0, down);
    assert Near(center, support, SPEED_OF_LIGHT) && w.View().At(support).Some?;
    var admitted := Enters(w, cell.material, down, support);
    var current := w.Get(here);
    WriteVelocity(w, here, current.value, vx, vy, !admitted, center);
  }

  // The speed a cell is left with is at most 31 cells a tick along each axis.
  ghost predicate AtRest(w: Window, pos: CellPos) {
    && Loose(w, pos)
    && Abs(w.At(pos).value.motion.vx) <= MAX_COMPONENT_RAW && Abs(w.At(pos).value.motion.vy) <= MAX_COMPONENT_RAW
  }

  method Enters(w: SimWindow, mover: MaterialId, dy: int, target: CellPos) returns (admitted: bool)
    requires w.View().Inside(target)
    ensures admitted == CanEnter(w.View(), mover, dy, target)
  {
    var cell := w.Get(target);
    admitted := cell.Some? && Admits(mover, dy, cell.value);
  }
}
