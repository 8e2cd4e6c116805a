// Liquids and gases (crates/fallingsand_sim/src/liquid.rs and gas.rs), and the dispatch
// of the movement pass over them (rules.rs, move_cell). What each method leaves is a function
// of the window and of the draws it made.
module Fluids {
  import opened Wrappers
  import opened Materials
  import opened Cells
  import opened Coords
  import opened Windows
  import opened Motion
  import opened Numbers
  import opened Courses
  import opened Travel

  // isqrt(2 * GRAVITY_DV * SUBCELL_UNITS_PER_CELL)
  const DOWNHILL_LAUNCH: int := Isqrt(2 * GRAVITY_DV * SUBCELL_UNITS_PER_CELL)

  // The window within one cell of a position can be read.
  lemma RoomAround(w: Window, center: CellPos, p: CellPos)
    requires Room(w, center) && Near(center, p, SPEED_OF_LIGHT)
    ensures w.At(p).Some? && w.Inside(p)
  {
  }

  // ------------------------------------------------------------------- liquids

  predicate FallsInto(mover: Cell, target: Cell) {
    && Yields(target) && target.Phase() != Liquid
    && CONTENT.densityMilli(mover.material) > CONTENT.densityMilli(target.material)
  }

  predicate SinksInto(mover: Cell, target: Cell) {
    Yields(target) && CONTENT.densityMilli(mover.material) > CONTENT.densityMilli(target.material)
  }

  predicate Rests(mover: Cell, below: Cell) {
    !Yields(below) || CONTENT.densityMilli(below.material) >= CONTENT.densityMilli(mover.material)
  }

  function Preferred(vx: int, right: bool): int {
    if vx == 0 then (if right then 1 else -1) else Signum(vx)
  }

  method PreferSide(vx: int) returns (side: int, ghost right: bool)
    ensures side == Preferred(vx, right)
  {
    var bit: bool := *;
    right := bit;
    side := if vx == 0 then (if bit then 1 else -1) else Signum(vx);
  }

  // The first open side, the preferred one first; 0 when neither is open.
  function OpenSideOf(w: Window, pos: CellPos, preferred: int): int {
    if EntryOf(w, Fluid, 0, pos.Translated(preferred, 0)) == Open then preferred
    else if EntryOf(w, Fluid, 0, pos.Translated(-preferred, 0)) == Open then -preferred
    else 0
  }

  // Sideways, at the speed of the impact, into the first open side; at rest if neither is.
  function Redirected(w: Window, pos: CellPos, vx: int, vy: int, keep: nat, right: bool): (int, int) {
    (OpenSideOf(w, pos, Preferred(vx, right)) * ApplyQ16(keep, VectorLength(vx, vy)), 0)
  }

  method RedirectImpact(w: SimWindow, pos: CellPos, vx: int, vy: int, keep: nat)
    returns (newX: int, newY: int, ghost right: bool)
    requires w.View().Inside(pos.Translated(1, 0)) && w.View().Inside(pos.Translated(-1, 0))
    ensures (newX, newY) == Redirected(w.View(), pos, vx, vy, keep, right)
  {
    var speed := ApplyQ16(keep, VectorLength(vx, vy));
    var preferred: int;
    preferred, right := PreferSide(vx);
    var first := Enter(w, Fluid, 0, pos.Translated(preferred, 0));
    if first == Open {
      return preferred * speed, 0, right;
    }
    var second := Enter(w, Fluid, 0, pos.Translated(-preferred, 0));
    newX := if second == Open then -preferred * speed else 0;
    newY := 0;
  }

  // A body is struck; a floor turns the cell sideways, a ceiling stops it, a wall throws it back.
  ghost function FloorHit(b: Bump, cell: Cell, travel: Travelled, right: bool): Bump {
    var floor := travel.pos.Translated(0, -1);
    if b.window.Tagged(floor) then b.(window := Struck(b.window, cell, travel.pos, floor))
    else
      var (vx, vy) := Redirected(b.window, travel.pos, b.vx, b.vy, CONTENT.liquidImpact(cell.material), right);
      b.(vx := vx, vy := vy)
  }

  ghost function CeilingHit(b: Bump, cell: Cell, travel: Travelled): Bump {
    var ceiling := travel.pos.Translated(0, 1);
    if travel.blockedY <= 0 then b
    else if b.window.Tagged(ceiling) then b.(window := Struck(b.window, cell, travel.pos, ceiling))
    else b.(vy := 0)
  }

  ghost function WallHit(b: Bump, cell: Cell, travel: Travelled): Bump {
    var wall := travel.pos.Translated(travel.blockedX, 0);
    if travel.blockedX == 0 then b
    else if b.window.Tagged(wall) then b.(window := Struck(b.window, cell, travel.pos, wall))
    else b.(vx := -ApplyQ16(CONTENT.liquidImpact(cell.material), b.vx))
  }

  // The velocity after what blocked the travel.
  ghost function Impacted(b: Bump, cell: Cell, travel: Travelled, right: bool): Bump {
    if travel.blockedY < 0 then FloorHit(b, cell, travel, right) else WallHit(CeilingHit(b, cell, travel), cell, travel)
  }

  method HitFloor(w: SimWindow, cell: Cell, vx: int, vy: int, travel: Travelled, ghost pos: CellPos)
    returns (newX: int, newY: int, ghost right: bool)
    requires Room(w.View(), pos) && Near(pos, travel.pos, MAX_TRAVEL)
    modifies w`impulses
    ensures w.View() == old(w.View()).(impulses := w.impulses) && Impelled(old(w.View()), w.View())
    ensures Bump(w.View(), newX, newY) == FloorHit(Bump(old(w.View()), vx, vy), cell, travel, right)
  {
    RoomAround(w.View(), pos, travel.pos.Translated(0, -1));
    RoomAround(w.View(), pos, travel.pos.Translated(1, 0));
    RoomAround(w.View(), pos, travel.pos.Translated(-1, 0));
    newX, newY, right := vx, vy, true;
    var struck := w.StruckBody(cell, travel.pos, travel.pos.Translated(0, -1));
    if !struck {
      newX, newY, right := RedirectImpact(w, travel.pos, vx, vy, CONTENT.liquidImpact(cell.material));
    }
  }

  method HitCeiling(w: SimWindow, cell: Cell, vx: int, vy: int, travel: Travelled, ghost pos: CellPos) returns (newY: int)
    requires Room(w.View(), pos) && Near(pos, travel.pos, MAX_TRAVEL)
    modifies w`impulses
    ensures w.View() == old(w.View()).(impulses := w.impulses) && Impelled(old(w.View()), w.View())
    ensures Bump(w.View(), vx, newY) == CeilingHit(Bump(old(w.View()), vx, vy), cell, travel)
  {
    newY := vy;
    if travel.blockedY > 0 {
      RoomAround(w.View(), pos, travel.pos.Translated(0, 1));
      var struck := w.StruckBody(cell, travel.pos, travel.pos.Translated(0, 1));
      if !struck {
        newY := 0;
      }
    }
  }

  method HitWall(w: SimWindow, cell: Cell, vx: int, vy: int, travel: Travelled, ghost pos: CellPos) returns (newX: int)
    requires Room(w.View(), pos) && Near(pos, travel.pos, MAX_TRAVEL) && -1 <= travel.blockedX <= 1
    modifies w`impulses
    ensures w.View() == old(w.View()).(impulses := w.impulses) && Impelled(old(w.View()), w.View())
    ensures Bump(w.View(), newX, vy) == WallHit(Bump(old(w.View()), vx, vy), cell, travel)
  {
    newX := vx;
    if travel.blockedX != 0 {
      RoomAround(w.View(), pos, travel.pos.Translated(travel.blockedX, 0));
      var struck := w.StruckBody(cell, travel.pos, travel.pos.Translated(travel.blockedX, 0));
      if !struck {
        newX := -ApplyQ16(CONTENT.liquidImpact(cell.material), vx);
      }
    }
  }

  method AfterImpact(w: SimWindow, cell: Cell, current: Cell, travel: Travelled, ghost pos: CellPos)
    returns (vx: int, vy: int, ghost right: bool)
    requires Room(w.View(), pos) && Near(pos, travel.pos, MAX_TRAVEL) && current.motion.Velocity?
    requires -1 <= travel.blockedX <= 1 && -1 <= travel.blockedY <= 1
    modifies w`impulses
    ensures Moves(old(w.View()), w.View(), pos, SPEED_OF_LIGHT - 1)
    ensures forall p: CellPos :: w.View().At(p) == old(w.View()).At(p)
    ensures Bump(w.View(), vx, vy)
      == Impacted(Bump(old(w.View()), current.motion.vx, current.motion.vy), cell, travel, right)
  {
    ghost var w0 := w.View();
    vx, vy, right := current.motion.vx, current.motion.vy, true;
    if travel.blockedY < 0 {
      vx, vy, right := HitFloor(w, cell, vx, vy, travel, pos);
    } else {
      vy := HitCeiling(w, cell, vx, vy, travel, pos);
      ghost var w1 := w.View();
      MovesStruck(w0, w1, pos);
      vx := HitWall(w, cell, vx, vy, travel, pos);
      ImpelledTransitive(w0, w1, w.View());
    }
    MovesStruck(w0, w.View(), pos);
  }

  // A liquid with speed: it travels, then what blocked it turns or stops it.
  ghost function LiquidMoved(w: Window, pos: CellPos, cell: Cell, d: Draws): Window
    requires cell.motion.Velocity?
  {
    var s := Walked(w, pos, cell, Fluid, d);
    if !Loose(s.window, s.travel.pos) then s.window
    else
      var current := s.window.At(s.travel.pos).value;
      var b := Impacted(Bump(s.window, current.motion.vx, current.motion.vy), cell, s.travel, d.right);
      var below := b.window.At(s.travel.pos.Translated(0, -1));
      Slowed(b.window, s.travel.pos, current, b.vx, b.vy, !(below.Some? && FallsInto(current, below.value)))
  }

  method MoveLiquid(w: SimWindow, pos: CellPos, cell: Cell, ghost d: Draws) returns (ghost d': Draws)
    requires Room(w.View(), pos) && w.View().At(pos) == Some(cell) && cell.motion.Velocity?
    modifies w
    ensures Moves(old(w.View()), w.View(), pos, SPEED_OF_LIGHT - 1)
    ensures w.View() == LiquidStepped(old(w.View()), pos, cell, d')
  {
    if cell.motion.vx == 0 && cell.motion.vy == 0 {
      d' := Relax(w, pos, cell, d);
      return;
    }
    ghost var w0 := w.View();
    var travel: Travelled;
    travel, d' := Traverse(w, pos, cell, Fluid, d);
    ghost var w1 := w.View();
    MovesKeepsHolds(w0, w1, pos, SPEED_OF_LIGHT);
    var current := w.Get(travel.pos);
    var vx: int, vy: int;
    ghost var right: bool;
    vx, vy, right := AfterImpact(w, cell, current.value, travel, pos);
    d' := d'.(right := right);
    ghost var w2 := w.View();
    MovesTransitive(w0, w1, w2, pos, SPEED_OF_LIGHT - 1);
    MovesKeepsHolds(w1, w2, pos, SPEED_OF_LIGHT);
    RoomAround(w2, pos, travel.pos.Translated(0, -1));
    var below := w.Get(travel.pos.Translated(0, -1));
    WriteVelocity(w, travel.pos, current.value, vx, vy, !FallsInto(current.value, below.value), pos);
    MovesTransitive(w0, w2, w.View(), pos, SPEED_OF_LIGHT - 1);
  }

  ghost function LiquidStepped(w: Window, pos: CellPos, cell: Cell, d: Draws): Window
    requires cell.motion.Velocity?
  {
    if cell.motion.vx == 0 && cell.motion.vy == 0 then Relaxed(w, pos, cell, d) else LiquidMoved(w, pos, cell, d)
  }

  // The first place below that is lighter: straight down, then to the preferred side.
  function DownhillOf(w: Window, pos: CellPos, cell: Cell, side: int): Option<CellPos> {
    if SinksAt(w, cell, pos.Translated(0, -1)) then Some(pos.Translated(0, -1))
    else if SinksAt(w, cell, pos.Translated(side, -1)) then Some(pos.Translated(side, -1))
    else if SinksAt(w, cell, pos.Translated(-side, -1)) then Some(pos.Translated(-side, -1))
    else None
  }

  predicate SinksAt(w: Window, cell: Cell, target: CellPos) {
    w.At(target).Some? && SinksInto(cell, w.At(target).value)
  }

  method FindDownhill(w: SimWindow, pos: CellPos, cell: Cell, side: int) returns (target: Option<CellPos>)
    requires Room(w.View(), pos) && (side == 1 || side == -1)
    ensures target == DownhillOf(w.View(), pos, cell, side)
    ensures target.Some? ==> Near(pos, target.value, 1) && target.value != pos && SinksAt(w.View(), cell, target.value)
  {
    for i := 0 to 3
      invariant i >= 1 ==> !SinksAt(w.View(), cell, pos.Translated(0, -1))
      invariant i >= 2 ==> !SinksAt(w.View(), cell, pos.Translated(side, -1))
      invariant i >= 3 ==> !SinksAt(w.View(), cell, pos.Translated(-side, -1))
    {
      var dx := if i == 0 then 0 else if i == 1 then side else -side;
      RoomAround(w.View(), pos, pos.Translated(dx, -1));
      var below := w.Get(pos.Translated(dx, -1));
      if SinksInto(cell, below.value) {
        return Some(pos.Translated(dx, -1));
      }
    }
    target := None;
  }

  // Into another liquid by an exchange, into anything else by a swap; sideways moves start
  // with the launch speed, written over the cell as it was before the swap.
  ghost function FlowedDownhill(w: Window, pos: CellPos, cell: Cell, target: CellPos, right: bool): Window
    requires cell.motion.Velocity? && w.At(target).Some?
  {
    var displaced := w.At(target).value;
    if displaced.Phase() == Liquid && displaced.material != cell.material then
      Through(w, pos, target, if right then 1 else -1)
    else if target.x == pos.x then Traded(w, pos, target)
    else Wrote(Traded(w, pos, target), target, cell.WithVelocity((target.x - pos.x) * DOWNHILL_LAUNCH, 0))
  }

  method FlowDownhill(w: SimWindow, pos: CellPos, cell: Cell, target: CellPos) returns (ghost right: bool)
    requires Room(w.View(), pos) && w.View().At(pos) == Some(cell) && cell.motion.Velocity?
    requires Loose(w.View(), target) && Near(pos, target, 1) && target != pos
    modifies w
    ensures Moves(old(w.View()), w.View(), pos, SPEED_OF_LIGHT - 1)
    ensures w.View() == FlowedDownhill(old(w.View()), pos, cell, target, right)
    ensures Loose(w.View(), target) && w.View().At(target).value.Visible() == cell.Visible()
    ensures Loose(w.View(), pos) && w.View().At(pos).value.Visible() == old(w.View()).At(target).value.Visible()
  {
    ghost var w0 := w.View();
    RoomAround(w0, pos, target);
    right := true;
    var displaced := w.Get(target);
    if displaced.value.Phase() == Liquid && displaced.value.material != cell.material {
      var _, over := SwapThroughLiquid(w, pos, target, pos);
      right := over;
    } else {
      SwapCells(w, pos, target, pos);
      if target.x != pos.x {
        ghost var w1 := w.View();
        MovesKeepsHolds(w0, w1, pos, SPEED_OF_LIGHT);
        var launched := cell.WithVelocity((target.x - pos.x) * DOWNHILL_LAUNCH, 0);
        Rewrite(w, target, launched, pos);
        MovesTransitive(w0, w1, w.View(), pos, SPEED_OF_LIGHT - 1);
      }
    }
  }

  // A liquid at rest flows into the first place below it that is lighter. It draws the side it
  // prefers, whether it flows now, and a side for an exchange.
  ghost function Relaxed(w: Window, pos: CellPos, cell: Cell, d: Draws): Window
    requires cell.motion.Velocity?
  {
    var target := DownhillOf(w, pos, cell, d.Side());
    if target.None? then InterfaceRelaxed(w, pos, cell, d.flows)
    else
      match EntryOf(w, Fluid, 0, target.value)
      case Open => if d.flows then FlowedDownhill(w, pos, cell, target.value, d.first.right) else Marked(w, pos)
      case Busy => Marked(w, pos)
      case Blocked => w
  }

  method Relax(w: SimWindow, pos: CellPos, cell: Cell, ghost d: Draws) returns (ghost d': Draws)
    requires Room(w.View(), pos) && w.View().At(pos) == Some(cell) && cell.motion.Velocity?
    modifies w
    ensures Moves(old(w.View()), w.View(), pos, SPEED_OF_LIGHT - 1)
    ensures w.View() == Relaxed(old(w.View()), pos, cell, d')
  {
    var side: int;
    ghost var right: bool;
    side, right := PreferSide(0);
    d' := d.(right := right);
    var target := FindDownhill(w, pos, cell, side);
    if target.None? {
      ghost var flows := RelaxInterface(w, pos, cell);
      d' := d'.(flows := flows);
      return;
    }
    var entry := Enter(w, Fluid, 0, target.value);
    var drawn: bool := *;
    d' := d'.(flows := drawn);
    match entry {
      case Open =>
        if drawn {
          ghost var over := FlowDownhill(w, pos, cell, target.value);
          d' := d'.(first := d'.first.(right := over));
        } else {
          MarkCell(w, pos, pos);
        }
      case Busy => MarkCell(w, pos, pos);
      case Blocked => MovesReflexive(w.View(), pos, SPEED_OF_LIGHT - 1);
    }
  }

  // The side a liquid's surface drifts to, by the parity of its row and material.
  function InterfaceDirection(cell: Cell, pos: CellPos): int {
    if pos.y % 2 == cell.material % 2 then 1 else -1
  }

  // An exposed liquid at rest may creep sideways along a supported surface.
  ghost function InterfaceRelaxed(w: Window, pos: CellPos, cell: Cell, flows: bool): Window {
    var target := pos.Translated(InterfaceDirection(cell, pos), 0);
    var below := w.At(target.Translated(0, -1));
    if !SinksAt(w, cell, pos.Translated(0, 1)) || !SinksAt(w, cell, target) || below.None? || !Rests(cell, below.value) then w
    else
      match EntryOf(w, Fluid, 0, target)
      case Open => if flows then Traded(w, pos, target) else Marked(w, pos)
      case Busy => Marked(w, pos)
      case Blocked => w
  }

  method RelaxInterface(w: SimWindow, pos: CellPos, cell: Cell) returns (ghost flows: bool)
    requires Room(w.View(), pos) && w.View().At(pos) == Some(cell) && cell.motion.Velocity?
    modifies w
    ensures Moves(old(w.View()), w.View(), pos, SPEED_OF_LIGHT - 1)
    ensures w.View() == InterfaceRelaxed(old(w.View()), pos, cell, flows)
  {
    MovesReflexive(w.View(), pos, SPEED_OF_LIGHT - 1);
    var target := pos.Translated(InterfaceDirection(cell, pos), 0);
    RoomAround(w.View(), pos, pos.Translated(0, 1));
    RoomAround(w.View(), pos, target);
    RoomAround(w.View(), pos, target.Translated(0, -1));
    var drawn: bool := *;
    flows := drawn;
    var above := w.Get(pos.Translated(0, 1));
    if !SinksInto(cell, above.value) {
      return;
    }
    var displaced := w.Get(target);
    var below := w.Get(target.Translated(0, -1));
    if !SinksInto(cell, displaced.value) || !Rests(cell, below.value) {
      return;
    }
    var entry := Enter(w, Fluid, 0, target);
    match entry {
      case Open =>
        if drawn {
          SwapCells(w, pos, target, pos);
        } else {
          MarkCell(w, pos, pos);
        }
      case Busy => MarkCell(w, pos, pos);
      case Blocked =>
    }
  }

  // --------------------------------------------------------------------- gases

  ghost function GasStepped(w: Window, pos: CellPos, cell: Cell, d: Draws): Window
    requires cell.motion.Velocity?
  {
    if cell.motion.vx != 0 || cell.motion.vy != 0 then GrainMoved(w, pos, cell, d) else Flowed(w, pos, cell, d)
  }

  method MoveGas(w: SimWindow, pos: CellPos, cell: Cell, ghost d: Draws) returns (ghost d': Draws)
    requires Room(w.View(), pos) && w.View().At(pos) == Some(cell) && cell.motion.Velocity?
    modifies w
    ensures Moves(old(w.View()), w.View(), pos, SPEED_OF_LIGHT - 1)
    ensures w.View() == GasStepped(old(w.View()), pos, cell, d')
  {
    if cell.motion.vx != 0 || cell.motion.vy != 0 {
      d' := MoveGrain(w, pos, cell, d);
    } else {
      d' := Flow(w, pos, cell, d);
    }
  }

  // Whether a gas at rest gets the chance to move to a side, and where to: the diagonal first.
  predicate SideOpen(w: Window, pos: CellPos, cell: Cell, side: int) {
    && EntryOf(w, Grain(cell.material), 0, pos.Translated(side, 0)) == Open
    && EntryOf(w, Grain(cell.material), 1, pos.Translated(side, 1)) != Busy
  }

  function SideTarget(w: Window, pos: CellPos, cell: Cell, side: int): CellPos {
    if EntryOf(w, Grain(cell.material), 1, pos.Translated(side, 1)) == Open then pos.Translated(side, 1)
    else pos.Translated(side, 0)
  }

  // One side: taken if it is open; the cell stays awake if it has to wait for it.
  ghost function SpreadTo(w: Window, pos: CellPos, cell: Cell, side: int, flows: bool): Window {
    match EntryOf(w, Grain(cell.material), 0, pos.Translated(side, 0))
    case Blocked => w
    case Busy => Marked(w, pos)
    case Open =>
      if SideOpen(w, pos, cell, side) && flows then Traded(w, pos, SideTarget(w, pos, cell, side)) else Marked(w, pos)
  }

  // A gas at rest rises, or spreads sideways.
  ghost function Flowed(w: Window, pos: CellPos, cell: Cell, d: Draws): Window {
    var above := pos.Translated(0, 1);
    match EntryOf(w, Grain(cell.material), 1, above)
    case Open => Traded(w, pos, above)
    case Busy => Marked(w, pos)
    case Blocked =>
      var first := SpreadTo(w, pos, cell, d.Side(), d.flows);
      if SideOpen(w, pos, cell, d.Side()) then first else SpreadTo(first, pos, cell, -d.Side(), d.flows)
  }

  method Flow(w: SimWindow, pos: CellPos, cell: Cell, ghost d: Draws) returns (ghost d': Draws)
    requires Room(w.View(), pos) && w.View().At(pos) == Some(cell) && cell.motion.Velocity?
    modifies w
    ensures Moves(old(w.View()), w.View(), pos, SPEED_OF_LIGHT - 1)
    ensures w.View() == Flowed(old(w.View()), pos, cell, d')
  {
    ghost var w0 := w.View();
    d' := d;
    var above := pos.Translated(0, 1);
    RoomAround(w0, pos, above);
    var entry := Enter(w, Grain(cell.material), 1, above);
    match entry {
      case Open => SwapCells(w, pos, above, pos); return;
      case Busy => MarkCell(w, pos, pos); return;
      case Blocked =>
    }
    var preferred: int, drawn: bool := 0, *;
    ghost var right: bool;
    preferred, right := PreferSide(0);
    d' := d.(right := right, flows := drawn);
    var done := Spread(w, pos, cell, preferred, drawn);
    if !done {
      ghost var w1 := w.View();
      MovesKeepsHolds(w0, w1, pos, SPEED_OF_LIGHT);
      done := Spread(w, pos, cell, -preferred, drawn);
      MovesTransitive(w0, w1, w.View(), pos, SPEED_OF_LIGHT - 1);
    }
  }

  // One side of a gas at rest; done when it had the chance to move there.
  method Spread(w: SimWindow, pos: CellPos, cell: Cell, side: int, drawn: bool) returns (done: bool)
    requires Room(w.View(), pos) && Loose(w.View(), pos) && (side == 1 || side == -1)
    modifies w
    ensures Moves(old(w.View()), w.View(), pos, SPEED_OF_LIGHT - 1)
    ensures Loose(w.View(), pos)
    ensures done == SideOpen(old(w.View()), pos, cell, side)
    ensures w.View() == SpreadTo(old(w.View()), pos, cell, side, drawn)
  {
    var mode := Grain(cell.material);
    var beside, diagonal := pos.Translated(side, 0), pos.Translated(side, 1);
    RoomAround(w.View(), pos, beside);
    RoomAround(w.View(), pos, diagonal);
    MovesReflexive(w.View(), pos, SPEED_OF_LIGHT - 1);
    var level := Enter(w, mode, 0, beside);
    match level {
      case Open =>
      case Busy => MarkCell(w, pos, pos); return false;
      case Blocked => return false;
    }
    var target := beside;
    var upper := Enter(w, mode, 1, diagonal);
    match upper {
      case Open => target := diagonal;
      case Busy => MarkCell(w, pos, pos); return false;
      case Blocked =>
    }
    if drawn {
      SwapCells(w, pos, target, pos);
    } else {
      MarkCell(w, pos, pos);
    }
    done := true;
  }

  // ------------------------------------------------------------------ dispatch

  // The movement pass on one cell. Body cells are never moved, a cell that already moved only
  // stays awake, and only grains, liquids and gases move.
  ghost function CellMoved(w: Window, pos: CellPos, d: Draws): Window {
    if !Loose(w, pos) then w
    else
      var cell := w.At(pos).value;
      if cell.moved then Marked(w, pos)
      else
        match cell.Phase()
        case Powder => if cell.motion.vx != 0 || cell.motion.vy != 0 then GrainMoved(w, pos, cell, d) else w
        case Liquid => LiquidStepped(w, pos, cell, d)
        case Gas => GasStepped(w, pos, cell, d)
        case Empty => w
        case Solid => w
  }

  const NO_DRAWS: Draws := Draws(NO_DRAW, seq(LONGEST_WALK, _ => NO_DRAW), true, true)

  method MoveCell(w: SimWindow, pos: CellPos) returns (ghost d: Draws)
    requires Room(w.View(), pos)
    modifies w
    ensures Moves(old(w.View()), w.View(), pos, SPEED_OF_LIGHT - 1)
    ensures w.View() == CellMoved(old(w.View()), pos, d)
  {
    d := NO_DRAWS;
    RoomAround(w.View(), pos, pos);
    var found := w.Get(pos);
    var cell := found.value;
    MovesReflexive(w.View(), pos, SPEED_OF_LIGHT - 1);
    if cell.motion.Body? {
      return;
    }
    if cell.moved {
      MarkCell(w, pos, pos);
      return;
    }
    match cell.Phase() {
      case Powder =>
        if cell.motion.vx != 0 || cell.motion.vy != 0 {
          d := MoveGrain(w, pos, cell, d);
        }
      case Liquid => d := MoveLiquid(w, pos, cell, d);
      case Gas => d := MoveGas(w, pos, cell, d);
      case Empty =>
      case Solid =>
    }
  }
}
