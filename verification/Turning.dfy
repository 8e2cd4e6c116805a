// Which turns bring every body back onto its own cells
// (crates/fallingsand_sim/src/body/state.rs and crates/fallingsand_sim/src/body/rotation.rs together).
module Turning {
  import opened Cells
  import opened Coords
  import opened Materials
  import opened Numbers
  import opened BodyState
  import Rotation

  // -------------------------------------------------- which turns come back

  // Turned and turned the rest of the way round, every cell of the body is where it was.
  ghost predicate ComesBack(b: Body, step: Rotation.Step) {
    forall i | 0 <= i < |b.slots| ::
      Rotation.TurnsBack(Rotation.SHEARS, step, AsPoint(b.inertia.localCom), AsPoint(b.slots[i].local))
  }

  ghost predicate Distinct(cells: seq<CellPos>) {
    forall i, j | 0 <= i < j < |cells| :: cells[i] != cells[j]
  }

  // Two rows of 2n cells, from x == -n, each on its side of the axis.
  function Bar(n: int, low: int): (cells: seq<CellPos>)
    requires n >= 0
    ensures |cells| == 4 * n
    ensures forall i | 0 <= i < |cells| :: -n <= cells[i].x < n && low <= cells[i].y <= low + 1
    ensures n > 0 ==> cells[4 * n - 4] == CellPos(n - 1, low) && cells[4 * n - 2] == CellPos(n - 1, low + 1)
  {
    if n == 0 then []
    else Bar(n - 1, low) + [CellPos(n - 1, low), CellPos(-n, low), CellPos(n - 1, low + 1), CellPos(-n, low + 1)]
  }

  lemma {:induction false} BarIsDistinct(n: int, low: int)
    requires n >= 0
    ensures Distinct(Bar(n, low))
  {
    if n > 0 {
      BarIsDistinct(n - 1, low);
    }
  }

  // A cell and its four neighbours.
  const CROSS: seq<CellPos> := [CellPos(0, 0), CellPos(1, 0), CellPos(-1, 0), CellPos(0, 1), CellPos(0, -1)]

  function SumX(cells: seq<CellPos>): int {
    if cells == [] then 0 else SumX(cells[..|cells| - 1]) + cells[|cells| - 1].x
  }

  function SumY(cells: seq<CellPos>): int {
    if cells == [] then 0 else SumY(cells[..|cells| - 1]) + cells[|cells| - 1].y
  }

  lemma AddingFour(cells: seq<CellPos>, a: CellPos, b: CellPos, c: CellPos, d: CellPos)
    ensures SumX(cells + [a, b, c, d]) == SumX(cells) + a.x + b.x + c.x + d.x
    ensures SumY(cells + [a, b, c, d]) == SumY(cells) + a.y + b.y + c.y + d.y
  {
    AddingOne(cells, a);
    AddingOne(cells + [a], b);
    AddingOne(cells + [a] + [b], c);
    AddingOne(cells + [a] + [b] + [c], d);
    assert cells + [a, b, c, d] == cells + [a] + [b] + [c] + [d];
  }

  lemma AddingOne(cells: seq<CellPos>, c: CellPos)
    ensures SumX(cells + [c]) == SumX(cells) + c.x && SumY(cells + [c]) == SumY(cells) + c.y
  {
    assert (cells + [c])[..|cells|] == cells;
  }

  lemma {:induction false} BarSums(n: int, low: int)
    requires n >= 0
    ensures SumX(Bar(n, low)) == -2 * n && SumY(Bar(n, low)) == 2 * n * (2 * low + 1)
  {
    if n > 0 {
      BarSums(n - 1, low);
      AddingFour(Bar(n - 1, low), CellPos(n - 1, low), CellPos(-n, low), CellPos(n - 1, low + 1), CellPos(-n, low + 1));
    }
  }

  // Cells of one material, each of its own.
  ghost predicate MadeOf(body: Body, m: MaterialId) {
    && |body.slots| == |body.raster| && body.slots != [] && Distinct(body.raster)
    && forall i | 0 <= i < |body.slots| :: body.slots[i].material == m
  }

  function Plain(m: MaterialId, cells: seq<CellPos>): (body: Body)
    requires cells != [] && Distinct(cells)
    ensures body.raster == cells && MadeOf(body, m)
  {
    NewBody(0, seq(|cells|, i => Slot((0, 0), m)), cells)
  }

  lemma {:induction false} PlainSums(m: MaterialId, slots: seq<Slot>, cells: seq<CellPos>)
    requires |slots| == |cells| && forall i | 0 <= i < |slots| :: slots[i].material == m
    ensures var absolute := SlotsAt(slots, cells, CellPos(0, 0));
      && MassOf(absolute) == Heaviness(m) * |cells|
      && WeightedX(absolute) == Heaviness(m) * SumX(cells)
      && WeightedY(absolute) == Heaviness(m) * SumY(cells)
  {
    if slots != [] {
      var n := |slots| - 1;
      PlainSums(m, slots[..n], cells[..n]);
      PosedInit(slots, cells, CellPos(0, 0));
      OneMore(Heaviness(m), n, 1);
      OneMore(Heaviness(m), SumX(cells[..n]), cells[n].x);
      OneMore(Heaviness(m), SumY(cells[..n]), cells[n].y);
    }
  }

  lemma OneMore(h: int, sum: int, last: int)
    ensures h * sum + h * last == h * (sum + last)
  {
  }

  // Where the anchor is along one axis, and the centre with respect to it, when the mean of the
  // cells is `halves` halves: a half is rounded away from zero.
  lemma MeanOfHalves(sum: int, mass: int, halves: int)
    requires mass > 0 && 2 * sum == mass * halves && -1 <= halves <= 1
    ensures RoundDiv(sum, mass) == halves
    ensures RoundDiv((sum - mass * halves) * CELL, mass) == -512 * halves
  {
    if halves == 1 {
      assert -(sum - mass) * CELL == 512 * mass;
      Half(sum, mass);
    } else if halves == -1 {
      assert (sum + mass) * CELL == 512 * mass;
      Half(-sum, mass);
    }
  }

  lemma Half(half: int, mass: int)
    requires mass > 0 && 2 * half == mass
    ensures (half + mass / 2) / mass == 1 && (512 * mass + mass / 2) / mass == 512
  {
    assert mass / 2 == half;
    Quotient(512, half, mass);
  }

  lemma Quotient(q: int, rest: int, d: int)
    requires 0 <= rest < d
    ensures (q * d + rest) / d == q
  {
    var k := (q * d + rest) / d;
    assert q * d + rest == d * k + (q * d + rest) % d;
    MultipleIsLarge(d, q - k);
    assert d * (q - k) == q * d - d * k;
  }

  lemma PlainPose(m: MaterialId, body: Body, hx: int, hy: int)
    requires MadeOf(body, m) && -1 <= hx <= 1 && -1 <= hy <= 1
    requires 2 * SumX(body.raster) == |body.raster| * hx && 2 * SumY(body.raster) == |body.raster| * hy
    ensures var b := RebasedPose(body);
      b.anchor == CellPos(hx, hy) && b.inertia.localCom == (-512 * hx, -512 * hy)
  {
    var n, h, b := |body.raster|, Heaviness(m), RebasedPose(body);
    PlainSums(m, body.slots, body.raster);
    PosedSums(body.slots, body.raster, b.anchor);
    Scaled(h, SumX(body.raster), n, hx);
    Scaled(h, SumY(body.raster), n, hy);
    MeanOfHalves(h * SumX(body.raster), h * n, hx);
    MeanOfHalves(h * SumY(body.raster), h * n, hy);
  }

  lemma Scaled(h: int, sum: int, n: int, halves: int)
    requires h > 0 && n > 0 && 2 * sum == n * halves
    ensures h * n > 0 && 2 * (h * sum) == (h * n) * halves
  {
    assert 2 * (h * sum) == h * (2 * sum) && h * (n * halves) == (h * n) * halves;
  }

  // The cell at the end of the bar is the one that a turn moves.
  lemma BarStaysAway(m: MaterialId, step: Rotation.Step, n: int, body: Body)
    requires !Rotation.Reversible(step) && step % Rotation.QUARTER != 32
    requires n > 0 && Rotation.AwayPoint(step) == Rotation.Point(n, 0)
    requires body.raster == Bar(n, if Rotation.Decompose(step).0 == 1 then 0 else -1) && MadeOf(body, m)
    ensures !ComesBack(RebasedPose(body), step)
  {
    var flipped := Rotation.Decompose(step).0 == 1;
    BarPose(m, n, flipped, body);
    assert AsPoint(RebasedPose(body).inertia.localCom) == Rotation.AwayCentre(step);
    Rotation.StaysAway(step);
  }

  lemma BarPose(m: MaterialId, n: int, flipped: bool, body: Body)
    requires n > 0 && body.raster == Bar(n, if flipped then 0 else -1) && MadeOf(body, m)
    ensures var b := RebasedPose(body);
      && b.inertia.localCom == (512, if flipped then -512 else 512)
      && b.slots[if flipped then 4 * n - 2 else 4 * n - 4].local == (n, 0)
  {
    var low, hy := if flipped then 0 else -1, if flipped then 1 else -1;
    BarSums(n, low);
    assert 2 * SumY(body.raster) == 4 * n * hy;
    PlainPose(m, body, -1, hy);
    SlotIsAt(body, if flipped then 4 * n - 2 else 4 * n - 4);
  }

  lemma SlotIsAt(body: Body, i: nat)
    requires |body.slots| == |body.raster| && i < |body.slots|
    ensures var b := RebasedPose(body);
      b.slots[i].local == (body.raster[i].x - b.anchor.x, body.raster[i].y - b.anchor.y)
  {
  }

  lemma CrossStaysAway(m: MaterialId, step: Rotation.Step, body: Body)
    requires !Rotation.Reversible(step) && step % Rotation.QUARTER == 32 && body.raster == CROSS && MadeOf(body, m)
    ensures !ComesBack(RebasedPose(body), step)
  {
    AddingFour([CellPos(0, 0)], CellPos(1, 0), CellPos(-1, 0), CellPos(0, 1), CellPos(0, -1));
    assert CROSS == [CellPos(0, 0)] + [CellPos(1, 0), CellPos(-1, 0), CellPos(0, 1), CellPos(0, -1)];
    PlainPose(m, body, 0, 0);
    var b := RebasedPose(body);
    var i := if step == 32 || step == 160 then 1 else 3;
    assert AsPoint(b.slots[i].local) == Rotation.AwayPoint(step);
    Rotation.StaysAway(step);
  }

  // The steps that bring every body back are the small ones and the whole quarters. For each other
  // step and each material there is a body at its reference pose, a bar or a cross of that material,
  // with a cell that lands elsewhere.
  lemma ComingBackIsExact(step: Rotation.Step, m: MaterialId)
    ensures Rotation.Reversible(step) <==> forall body: Body | MadeOf(body, m) :: ComesBack(RebasedPose(body), step)
  {
    if Rotation.Reversible(step) {
      forall body: Body | MadeOf(body, m)
        ensures ComesBack(RebasedPose(body), step)
      {
        ReversibleComesBack(RebasedPose(body), step);
      }
    } else if step % Rotation.QUARTER == 32 {
      var body := Plain(m, CROSS);
      CrossStaysAway(m, step, body);
    } else {
      var n := Rotation.AwayPoint(step).x;
      AwayPointIsOut(step);
      var low := if Rotation.Decompose(step).0 == 1 then 0 else -1;
      BarIsDistinct(n, low);
      var body := Plain(m, Bar(n, low));
      BarStaysAway(m, step, n, body);
    }
  }

  lemma AwayPointIsOut(step: Rotation.Step)
    requires !Rotation.Reversible(step) && step % Rotation.QUARTER != 32
    ensures Rotation.AwayPoint(step).x > 0 && Rotation.AwayPoint(step).y == 0
  {
    Rotation.TurnsAddUp(step);
    var k := Rotation.Decompose(step).1 + Rotation.SHEAR_CENTER;
    Rotation.TableIsSteep(k);
    Rotation.EdgeIsSharp(Rotation.SHEARS[k].1);
  }

  lemma ReversibleComesBack(b: Body, step: Rotation.Step)
    requires Rotation.Reversible(step)
    ensures ComesBack(b, step)
  {
    forall i | 0 <= i < |b.slots|
      ensures Rotation.TurnsBack(Rotation.SHEARS, step, AsPoint(b.inertia.localCom), AsPoint(b.slots[i].local))
    {
      Rotation.RotationComesBack(step, AsPoint(b.inertia.localCom), AsPoint(b.slots[i].local));
    }
  }
}
