// Where liquids and gases at rest go, read off the window
// (crates/fallingsand_sim/src/liquid.rs and gas.rs).
module Settling {
  import opened Wrappers
  import opened Materials
  import opened Cells
  import opened Coords
  import opened Windows
  import opened Numbers
  import opened Motion
  import opened Courses
  import opened Travel
  import opened Fluids

  // Air, liquid or gas that no body holds, less dense than `cell`.
  predicate Lighter(w: Window, cell: Cell, q: CellPos) {
    && w.At(q).Some? && w.At(q).value.motion.Velocity?
    && w.At(q).value.Phase() != Solid && w.At(q).value.Phase() != Powder
    && CONTENT.densityMilli(w.At(q).value.material) < CONTENT.densityMilli(cell.material)
  }

  predicate Under(pos: CellPos, q: CellPos) {
    q.y == pos.y - 1 && pos.x - 1 <= q.x <= pos.x + 1
  }

  predicate Beside(pos: CellPos, q: CellPos) {
    q.y == pos.y && (q.x == pos.x - 1 || q.x == pos.x + 1)
  }

  // Free to be entered now: air, or a cell that has not moved yet.
  predicate Free(w: Window, q: CellPos) {
    w.At(q).Some? && (w.At(q).value.IsAir() || !w.At(q).value.moved)
  }

  ghost predicate Still(w: Window, v: Window) {
    forall p: CellPos :: v.At(p) == w.At(p)
  }

  // The two cells have changed places, and no other has changed.
  ghost predicate TradedPlaces(w: Window, v: Window, pos: CellPos, q: CellPos) {
    && w.At(pos).Some? && w.At(q).Some? && Loose(v, pos) && Loose(v, q)
    && v.At(q).value.Visible() == w.At(pos).value.Visible() && v.At(pos).value.Visible() == w.At(q).value.Visible()
    && forall p: CellPos | p != pos && p != q :: v.At(p) == w.At(p)
  }

  lemma WrittenPlaces(w: Window, v: Window, pos: CellPos, q: CellPos, cell: Cell)
    requires TradedPlaces(w, v, pos, q) && pos != q && v.Surrounded(q) && cell.motion.Velocity?
    requires cell.Visible() == w.At(pos).value.Visible()
    ensures TradedPlaces(w, v.Set(q, cell), pos, q)
  {
    SetGives(v, q, cell);
  }

  lemma SwappedPlaces(w: Window, pos: CellPos, q: CellPos)
    requires w.Surrounded(pos) && w.Surrounded(q) && pos != q && Loose(w, pos) && Loose(w, q)
    ensures TradedPlaces(w, w.Swap(pos, q), pos, q)
  {
    SwapGives(w, pos, q);
  }

  lemma StillSurrounded(w: Window, center: CellPos, p: CellPos, v: Window)
    requires Room(w, center) && Near(center, p, SPEED_OF_LIGHT - 1) && v.origin == w.origin
    requires v.At(p).Some?
    ensures v.Surrounded(p)
  {
    RoomSurrounds(w, center, p);
    forall k | 0 <= k < 9
      ensures v.Inside(Neighbour(p, k))
    {
      assert w.Inside(Neighbour(p, k));
    }
  }

  // An exchange with a liquid trades places too.
  lemma ThroughTrades(w: Window, pos: CellPos, q: CellPos, side: int)
    requires Room(w, pos) && Near(pos, q, 1) && pos != q && Loose(w, pos) && Loose(w, q)
    ensures TradedPlaces(w, Through(w, pos, q, side), pos, q)
  {
    var mover, displaced := w.At(pos).value, w.At(q).value;
    var after := Exchanged(mover, displaced, side, q.y < pos.y);
    ThroughWrites(
      w, pos, q, mover.WithVelocity(after.moverX, after.moverY),
      displaced.WithVelocity(after.displacedX, after.displacedY));
  }

  lemma ThroughWrites(w: Window, pos: CellPos, q: CellPos, mover: Cell, displaced: Cell)
    requires Room(w, pos) && Near(pos, q, 1) && pos != q && Loose(w, pos) && Loose(w, q)
    requires mover.motion.Velocity? && displaced.motion.Velocity?
    requires mover.Visible() == w.At(pos).value.Visible() && displaced.Visible() == w.At(q).value.Visible()
    ensures TradedPlaces(w, Traded(Wrote(Wrote(w, pos, mover), q, displaced), pos, q), pos, q)
  {
    RoomSurrounds(w, pos, pos);
    var once := w.Set(pos, mover);
    SetGives(w, pos, mover);
    StillSurrounded(w, pos, q, once);
    var twice := once.Set(q, displaced);
    SetGives(once, q, displaced);
    StillSurrounded(w, pos, pos, twice);
    StillSurrounded(w, pos, q, twice);
    SwappedPlaces(twice, pos, q);
  }

  // Flowing downhill trades places with the cell below, whatever it is.
  lemma DownhillTrades(w: Window, pos: CellPos, cell: Cell, q: CellPos, right: bool)
    requires Room(w, pos) && w.At(pos) == Some(cell) && cell.motion.Velocity? && Under(pos, q) && Loose(w, q)
    ensures TradedPlaces(w, FlowedDownhill(w, pos, cell, q, right), pos, q)
  {
    assert Near(pos, q, 1);
    var displaced := w.At(q).value;
    if displaced.Phase() == Liquid && displaced.material != cell.material {
      ThroughTrades(w, pos, q, if right then 1 else -1);
    } else {
      RoomSurrounds(w, pos, pos);
      RoomSurrounds(w, pos, q);
      SwapGives(w, pos, q);
      SwappedPlaces(w, pos, q);
      var v := w.Swap(pos, q);
      StillSurrounded(w, pos, q, v);
      WrittenPlaces(w, v, pos, q, cell.WithVelocity((q.x - pos.x) * DOWNHILL_LAUNCH, 0));
    }
  }

  lemma MarkedStill(w: Window, pos: CellPos)
    requires Room(w, pos) && w.At(pos).Some?
    ensures Still(w, Marked(w, pos)) && (ProperSims(w) ==> Awake(Marked(w, pos), pos))
  {
    RoomAround(w, pos, pos);
    MarkKeepsCells(w, pos);
    SameCellsSameAt(w, w.Mark(pos));
    if ProperSims(w) {
      MarkWakes(w, pos, pos);
    }
  }

  // The place that is chosen is lighter and below; none is chosen exactly when none is.
  lemma DownhillIsLighter(w: Window, pos: CellPos, cell: Cell, side: int)
    requires side == 1 || side == -1
    ensures var target := DownhillOf(w, pos, cell, side);
      && (target.Some? ==> Under(pos, target.value) && Lighter(w, cell, target.value))
      && (target.None? ==> forall q | Under(pos, q) :: !Lighter(w, cell, q))
  {
    forall q
      ensures SinksAt(w, cell, q) <==> Lighter(w, cell, q)
    {
    }
    var target := DownhillOf(w, pos, cell, side);
    if target.None? {
      forall q | Under(pos, q)
        ensures !Lighter(w, cell, q)
      {
        assert q == pos.Translated(0, -1) || q == pos.Translated(side, -1) || q == pos.Translated(-side, -1);
      }
    }
  }

  // Straight down comes first, then the side that is preferred.
  lemma DownhillIsSteepest(w: Window, pos: CellPos, cell: Cell, side: int)
    requires side == 1 || side == -1
    ensures var target, (below, beside) := DownhillOf(w, pos, cell, side), (pos.Translated(0, -1), pos.Translated(side, -1));
      && (Lighter(w, cell, below) ==> target == Some(below))
      && (!Lighter(w, cell, below) && Lighter(w, cell, beside) ==> target == Some(beside))
  {
  }

  // Down a slope it is launched to that side.
  lemma SlopeLaunches(w: Window, pos: CellPos, cell: Cell, q: CellPos, right: bool)
    requires Room(w, pos) && w.At(pos) == Some(cell) && cell.motion.Velocity? && Under(pos, q) && Loose(w, q)
    requires q.x != pos.x && (w.At(q).value.Phase() == Liquid ==> w.At(q).value.material == cell.material)
    ensures var v := FlowedDownhill(w, pos, cell, q, right);
      && Loose(v, q)
      && var launch := v.At(q).value.motion;
         launch.vy == 0 && Abs(launch.vx) == DOWNHILL_LAUNCH && (launch.vx > 0 <==> q.x > pos.x)
  {
    LaunchedAt(w, pos, cell, q, right);
    LaunchIsAFall();
    LaunchGoes(cell, q.x - pos.x, DOWNHILL_LAUNCH);
  }

  lemma LaunchedAt(w: Window, pos: CellPos, cell: Cell, q: CellPos, right: bool)
    requires Room(w, pos) && w.At(pos) == Some(cell) && cell.motion.Velocity? && Under(pos, q) && Loose(w, q)
    requires q.x != pos.x && (w.At(q).value.Phase() == Liquid ==> w.At(q).value.material == cell.material)
    ensures FlowedDownhill(w, pos, cell, q, right).At(q) == Some(cell.WithVelocity((q.x - pos.x) * DOWNHILL_LAUNCH, 0))
  {
    assert Near(pos, q, 1);
    RoomSurrounds(w, pos, pos);
    RoomSurrounds(w, pos, q);
    SwapGives(w, pos, q);
    StillSurrounded(w, pos, q, w.Swap(pos, q));
    LaunchWritten(w.Swap(pos, q), q, cell.WithVelocity((q.x - pos.x) * DOWNHILL_LAUNCH, 0));
  }

  lemma LaunchWritten(u: Window, q: CellPos, launched: Cell)
    requires u.Surrounded(q)
    ensures Wrote(u, q, launched).At(q) == Some(launched)
  {
    SetGives(u, q, launched);
  }

  lemma LaunchGoes(cell: Cell, dx: int, launch: nat)
    requires cell.motion.Velocity? && (dx == 1 || dx == -1) && 0 < launch < 0x8000
    ensures var motion := cell.WithVelocity(dx * launch, 0).motion;
      motion.Velocity? && motion.vy == 0 && Abs(motion.vx) == launch && (motion.vx > 0 <==> dx == 1)
  {
  }

  // The speed of a fall by one cell.
  lemma LaunchIsAFall()
    ensures 0 < DOWNHILL_LAUNCH < 0x8000
    ensures DOWNHILL_LAUNCH * DOWNHILL_LAUNCH <= 2 * GRAVITY_DV * SUBCELL_UNITS_PER_CELL
      < (DOWNHILL_LAUNCH + 1) * (DOWNHILL_LAUNCH + 1)
  {
  }

  // The surface of a liquid drifts one way all along a row, and the other way in the next row.
  lemma SurfacesDriftByRow(cell: Cell, pos: CellPos, dx: int)
    ensures InterfaceDirection(cell, pos.Translated(dx, 0)) == InterfaceDirection(cell, pos)
    ensures InterfaceDirection(cell, pos.Translated(dx, 1)) == -InterfaceDirection(cell, pos)
    ensures pos.y % 2 == cell.material % 2 ==> InterfaceDirection(cell, pos) == 1
  {
  }

  // A liquid at rest under which something lighter is changes places with such a cell below it, or
  // stays where it is and awake; when it draws to flow and what is below is free, it flows. With
  // nothing lighter below it keeps to its row, and there only goes into something lighter.
  lemma RestingLiquidSinks(w: Window, pos: CellPos, cell: Cell, d: Draws)
    requires Room(w, pos) && w.At(pos) == Some(cell) && cell.motion.Velocity?
    ensures var v := Relaxed(w, pos, cell, d);
      if exists q :: Under(pos, q) && Lighter(w, cell, q) then
        && (|| (exists q | Under(pos, q) && Lighter(w, cell, q) :: TradedPlaces(w, v, pos, q))
            || (Still(w, v) && (ProperSims(w) ==> Awake(v, pos))))
        && (d.flows && (forall q | Under(pos, q) && Lighter(w, cell, q) :: Free(w, q)) ==>
              exists q | Under(pos, q) && Lighter(w, cell, q) :: TradedPlaces(w, v, pos, q))
      else
        || Still(w, v)
        || exists q | Beside(pos, q) && Lighter(w, cell, q) :: TradedPlaces(w, v, pos, q)
  {
    DownhillIsLighter(w, pos, cell, d.Side());
    var target := DownhillOf(w, pos, cell, d.Side());
    if target.None? {
      CreepsSideways(w, pos, cell, d.flows);
    } else {
      var q := target.value;
      assert Under(pos, q) && Lighter(w, cell, q);
      MarkedStill(w, pos);
      DownhillTrades(w, pos, cell, q, d.first.right);
    }
  }

  lemma CreepsSideways(w: Window, pos: CellPos, cell: Cell, flows: bool)
    requires Room(w, pos) && w.At(pos) == Some(cell) && cell.motion.Velocity?
    ensures var v := InterfaceRelaxed(w, pos, cell, flows);
      Still(w, v) || exists q | Beside(pos, q) && Lighter(w, cell, q) :: TradedPlaces(w, v, pos, q)
  {
    var q := pos.Translated(InterfaceDirection(cell, pos), 0);
    MarkedStill(w, pos);
    if SinksAt(w, cell, q) {
      assert Beside(pos, q) && Lighter(w, cell, q) && Near(pos, q, 1);
      RoomSurrounds(w, pos, pos);
      RoomSurrounds(w, pos, q);
      SwappedPlaces(w, pos, q);
    }
  }

  // Somewhere a gas may go: no body's, neither solid nor powder, of another density than its own.
  predicate Airy(w: Window, cell: Cell, q: CellPos) {
    && w.At(q).Some? && w.At(q).value.motion.Velocity?
    && w.At(q).value.Phase() != Solid && w.At(q).value.Phase() != Powder
    && CONTENT.densityMilli(w.At(q).value.material) != CONTENT.densityMilli(cell.material)
  }

  // A gas at rest rises into what is free above it, and waits, awake, for what has just moved there;
  // it never goes down.
  lemma RestingGasRises(w: Window, pos: CellPos, cell: Cell, d: Draws)
    requires Room(w, pos) && w.At(pos) == Some(cell) && cell.motion.Velocity?
    ensures var v, above := Flowed(w, pos, cell, d), pos.Translated(0, 1);
      && (Airy(w, cell, above) && Free(w, above) ==> TradedPlaces(w, v, pos, above))
      && (Airy(w, cell, above) && !Free(w, above) ==> Still(w, v) && (ProperSims(w) ==> Awake(v, pos)))
      && (!Airy(w, cell, above) ==>
            || Still(w, v)
            || exists q | Near(pos, q, 1) && pos.x != q.x && q.y >= pos.y :: TradedPlaces(w, v, pos, q))
  {
    var above := pos.Translated(0, 1);
    assert Near(pos, above, 1);
    MarkedStill(w, pos);
    RoomSurrounds(w, pos, pos);
    RoomAround(w, pos, above);
    RoomSurrounds(w, pos, above);
    assert EntryOf(w, Grain(cell.material), 1, above) == Blocked <==> !Airy(w, cell, above);
    if Airy(w, cell, above) {
      SwappedPlaces(w, pos, above);
    } else {
      GasSpreads(w, pos, cell, d);
    }
  }

  lemma GasSpreads(w: Window, pos: CellPos, cell: Cell, d: Draws)
    requires Room(w, pos) && w.At(pos) == Some(cell) && cell.motion.Velocity?
    requires EntryOf(w, Grain(cell.material), 1, pos.Translated(0, 1)) == Blocked
    ensures var v := Flowed(w, pos, cell, d);
      Still(w, v) || exists q | Near(pos, q, 1) && pos.x != q.x && q.y >= pos.y :: TradedPlaces(w, v, pos, q)
  {
    var side := d.Side();
    var first := SpreadTo(w, pos, cell, side, d.flows);
    SpreadsTo(w, pos, cell, side, d.flows);
    if !SideOpen(w, pos, cell, side) {
      RoomKept(w, first, pos);
      SpreadsTo(first, pos, cell, -side, d.flows);
      TradedAfterStill(w, first, Flowed(w, pos, cell, d), pos);
    }
  }

  lemma RoomKept(w: Window, v: Window, pos: CellPos)
    requires Room(w, pos) && Still(w, v) && v.origin == w.origin
    ensures Room(v, pos)
  {
    forall p: CellPos | Near(pos, p, SPEED_OF_LIGHT)
      ensures v.At(p).Some?
    {
      assert w.At(p).Some?;
    }
  }

  lemma TradedAfterStill(w: Window, u: Window, v: Window, pos: CellPos)
    requires Still(w, u)
    requires Still(u, v) || exists q | Near(pos, q, 1) && pos.x != q.x && q.y >= pos.y :: TradedPlaces(u, v, pos, q)
    ensures Still(w, v) || exists q | Near(pos, q, 1) && pos.x != q.x && q.y >= pos.y :: TradedPlaces(w, v, pos, q)
  {
    if !Still(u, v) {
      var q :| Near(pos, q, 1) && pos.x != q.x && q.y >= pos.y && TradedPlaces(u, v, pos, q);
      assert TradedPlaces(w, v, pos, q);
    }
  }

  lemma SpreadsTo(w: Window, pos: CellPos, cell: Cell, side: int, flows: bool)
    requires Room(w, pos) && w.At(pos) == Some(cell) && cell.motion.Velocity? && (side == 1 || side == -1)
    ensures var v := SpreadTo(w, pos, cell, side, flows);
      && v.origin == w.origin && (!SideOpen(w, pos, cell, side) ==> Still(w, v))
      && (Still(w, v) || exists q | Near(pos, q, 1) && pos.x != q.x && q.y >= pos.y :: TradedPlaces(w, v, pos, q))
  {
    MarkedStill(w, pos);
    if SideOpen(w, pos, cell, side) && flows {
      var q := SideTarget(w, pos, cell, side);
      assert Near(pos, q, 1) && pos.x != q.x && q.y >= pos.y && Loose(w, q);
      RoomSurrounds(w, pos, pos);
      RoomSurrounds(w, pos, q);
      SwapGives(w, pos, q);
      SwappedPlaces(w, pos, q);
    }
  }
}
