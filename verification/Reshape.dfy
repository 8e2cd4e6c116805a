// Giving a body a new shape, with the liquids and gases in its way moved to homes of their
// own (reshape and surface_spot of crates/fallingsand_sim/src/body/mod.rs).
module Reshape {
  import opened Wrappers
  import opened Rows
  import opened Materials
  import opened Cells
  import opened Coords
  import opened Chunks
  import opened Worlds
  import opened Loose
  import opened BodyState
  import opened Reconcile

  const SURFACE_PROBE: nat := 64

  datatype ShapeCell = ShapeCell(pos: CellPos, material: MaterialId, shade: U8)
  datatype Evicted = Evicted(pos: CellPos, cell: Cell)

  predicate Fluid(cell: Cell) {
    cell.Phase() == Liquid || cell.Phase() == Gas
  }

  // A cell the new shape cannot have: unloaded, a body's, or standing in its way.
  predicate Blocked(w: World, p: CellPos) {
    w.At(p).None? || w.Tagged(p) || Obstructs(w.At(p).value.material)
  }

  // The fluids in the way: every claimed cell the body does not hold that has one, once.
  ghost predicate Evicts(w: World, claimed: set<CellPos>, held: set<CellPos>, evicted: seq<Evicted>) {
    && (forall i | 0 <= i < |evicted| ::
          evicted[i].pos in claimed - held && w.At(evicted[i].pos) == Some(evicted[i].cell) && Fluid(evicted[i].cell)
          && !w.Tagged(evicted[i].pos))
    && (forall i, j | 0 <= i < j < |evicted| :: evicted[i].pos != evicted[j].pos)
    && (forall p | p in claimed - held && w.At(p).Some? && Fluid(w.At(p).value) && !w.Tagged(p) ::
          exists i | 0 <= i < |evicted| :: evicted[i].pos == p)
  }

  method FindEvicted(world: CellWorld, claimed: set<CellPos>, held: set<CellPos>) returns (found: Option<seq<Evicted>>)
    ensures found.None? <==> exists p | p in claimed - held :: Blocked(world.View(), p)
    ensures found.Some? ==> Evicts(world.View(), claimed, held, found.value)
  {
    var evicted: seq<Evicted> := [];
    var rest := claimed;
    while rest != {}
      invariant rest <= claimed && forall p | p in claimed - rest && p !in held :: !Blocked(world.View(), p)
      invariant Evicts(world.View(), claimed - rest, held, evicted)
    {
      var p :| p in rest;
      assert claimed - (rest - {p}) == (claimed - rest) + {p};
      rest := rest - {p};
      if p in held {
        continue;
      }
      var cell := world.GetCell(p);
      if cell.None? || cell.value.motion.Body? || Obstructs(cell.value.material) {
        assert Blocked(world.View(), p);
        return None;
      }
      if Fluid(cell.value) {
        EvictOne(world.View(), claimed - (rest + {p}), held, evicted, p);
        evicted := evicted + [Evicted(p, cell.value)];
      }
    }
    assert claimed - {} == claimed;
    found := Some(evicted);
  }

  lemma EvictOne(w: World, done: set<CellPos>, held: set<CellPos>, evicted: seq<Evicted>, p: CellPos)
    requires Evicts(w, done, held, evicted) && p !in done && p !in held
    requires w.At(p).Some? && Fluid(w.At(p).value) && !w.Tagged(p)
    ensures Evicts(w, done + {p}, held, evicted + [Evicted(p, w.At(p).value)])
  {
    var more := evicted + [Evicted(p, w.At(p).value)];
    assert more[|evicted|].pos == p;
    forall q | q in done + {p} - held && w.At(q).Some? && Fluid(w.At(q).value) && !w.Tagged(q)
      ensures exists i | 0 <= i < |more| :: more[i].pos == q
    {
      if q != p {
        var i :| 0 <= i < |evicted| && evicted[i].pos == q;
        assert more[i].pos == q;
      }
    }
  }

  // Heavier fluids first, then in row order.
  function EvictionRow(e: Evicted): Row {
    Row(-CONTENT.densityMilli(e.cell.material), e.pos.y, e.pos.x)
  }

  lemma SortedStillEvicts(w: World, claimed: set<CellPos>, held: set<CellPos>, evicted: seq<Evicted>, sorted: seq<Evicted>)
    requires Evicts(w, claimed, held, evicted) && multiset(sorted) == multiset(evicted)
    ensures Evicts(w, claimed, held, sorted)
  {
    forall i | 0 <= i < |sorted|
      ensures sorted[i] in evicted
    {
      assert sorted[i] in multiset(sorted);
    }
    forall i, j | 0 <= i < j < |sorted|
      ensures sorted[i].pos != sorted[j].pos
    {
      if sorted[i].pos == sorted[j].pos {
        assert sorted[i] == sorted[j];
        SortingAddsNoRepeats(evicted, sorted, i, j);
      }
    }
    forall p | p in claimed - held && w.At(p).Some? && Fluid(w.At(p).value) && !w.Tagged(p)
      ensures exists i | 0 <= i < |sorted| :: sorted[i].pos == p
    {
      var k :| 0 <= k < |evicted| && evicted[k].pos == p;
      assert evicted[k] in multiset(evicted);
      var i :| 0 <= i < |sorted| && sorted[i] == evicted[k];
    }
  }

  lemma SortingAddsNoRepeats(a: seq<Evicted>, b: seq<Evicted>, i: nat, j: nat)
    requires multiset(a) == multiset(b) && i < j < |b| && forall k, l | 0 <= k < l < |a| :: a[k].pos != a[l].pos
    ensures b[i] != b[j]
  {
    var e := b[j];
    assert b == b[..j] + [e] + b[j + 1..];
    CountOnce(a, e);
    assert multiset(b)[e] == multiset(b[..j])[e] + 1 + multiset(b[j + 1..])[e];
    assert e !in b[..j];
    assert b[i] in b[..j];
  }

  lemma {:induction false} CountOnce(a: seq<Evicted>, e: Evicted)
    requires forall k, l | 0 <= k < l < |a| :: a[k].pos != a[l].pos
    ensures multiset(a)[e] <= 1
  {
    if a != [] {
      CountOnce(a[1..], e);
      assert a == [a[0]] + a[1..];
      if a[0] == e {
        assert e !in a[1..];
      }
    }
  }

  // -------------------------------------------------------------- the homes

  // A place to put a fluid above `from`: the first air that is neither claimed nor taken,
  // with nothing but claimed cells, fluids and taken air on the way.
  function SurfaceSpot(w: World, claimed: set<CellPos>, taken: seq<CellPos>, from: CellPos, probes: nat): Option<CellPos>
    decreases probes
  {
    if probes == 0 then None
    else
      var pos := from.Translated(0, 1);
      if pos in claimed then SurfaceSpot(w, claimed, taken, pos, probes - 1)
      else if w.At(pos).None? || w.Tagged(pos) then None
      else if w.At(pos).value.Phase() == Empty && pos !in taken then Some(pos)
      else if Obstructs(w.At(pos).value.material) then None
      else SurfaceSpot(w, claimed, taken, pos, probes - 1)
  }

  // A cell free to take a fluid.
  predicate Vacant(w: World, p: CellPos) {
    w.At(p).Some? && !w.Tagged(p) && w.At(p).value.IsAir()
  }

  lemma {:induction false} SpotsAreVacant(w: World, claimed: set<CellPos>, taken: seq<CellPos>, from: CellPos, probes: nat)
    ensures SurfaceSpot(w, claimed, taken, from, probes).Some? ==>
      var spot := SurfaceSpot(w, claimed, taken, from, probes).value;
      Vacant(w, spot) && spot !in claimed && spot !in taken && spot.x == from.x && from.y < spot.y <= from.y + probes
    decreases probes
  {
    if probes > 0 {
      SpotsAreVacant(w, claimed, taken, from.Translated(0, 1), probes - 1);
    }
  }

  // Air that can take a fluid: free, and neither claimed nor taken.
  predicate Open(w: World, claimed: set<CellPos>, taken: seq<CellPos>, p: CellPos) {
    Vacant(w, p) && p !in claimed && p !in taken
  }

  // What the search for a spot goes past: claimed cells, and loaded ones that are nobody's and do not
  // stand in the way.
  predicate Passed(w: World, claimed: set<CellPos>, p: CellPos) {
    p in claimed || (w.At(p).Some? && !w.Tagged(p) && !Obstructs(w.At(p).value.material))
  }

  // The d-th cell above is the first that is open, and everything below it is passed.
  ghost predicate FirstOpen(w: World, claimed: set<CellPos>, taken: seq<CellPos>, from: CellPos, d: nat) {
    && Open(w, claimed, taken, from.Translated(0, d))
    && forall e: nat | 1 <= e < d ::
         Passed(w, claimed, from.Translated(0, e)) && !Open(w, claimed, taken, from.Translated(0, e))
  }

  // The search finds the first open cell above, if it can be reached, and nothing else.
  lemma {:induction false} SpotIsFirst(w: World, claimed: set<CellPos>, taken: seq<CellPos>, from: CellPos, probes: nat)
    ensures SurfaceSpot(w, claimed, taken, from, probes).Some? <==>
      exists d: nat | 1 <= d <= probes :: FirstOpen(w, claimed, taken, from, d)
    ensures forall d: nat | 1 <= d <= probes && FirstOpen(w, claimed, taken, from, d) ::
      SurfaceSpot(w, claimed, taken, from, probes) == Some(from.Translated(0, d))
    decreases probes
  {
    if probes > 0 {
      var pos := from.Translated(0, 1);
      assert forall e: nat :: pos.Translated(0, e) == from.Translated(0, e + 1);
      SpotIsFirst(w, claimed, taken, pos, probes - 1);
      if !Open(w, claimed, taken, pos) && Passed(w, claimed, pos) {
        assert SurfaceSpot(w, claimed, taken, from, probes) == SurfaceSpot(w, claimed, taken, pos, probes - 1);
        forall d: nat | 1 <= d < probes
          ensures FirstOpen(w, claimed, taken, from, d + 1) <==> FirstOpen(w, claimed, taken, pos, d)
        {
          OneFurther(w, claimed, taken, from, d);
        }
        if d: nat :| 1 <= d <= probes - 1 && FirstOpen(w, claimed, taken, pos, d) {
          assert FirstOpen(w, claimed, taken, from, d + 1);
        }
        if d: nat :| 1 <= d <= probes && FirstOpen(w, claimed, taken, from, d) {
          assert d != 1 && FirstOpen(w, claimed, taken, pos, d - 1);
        }
        forall d: nat | 1 <= d <= probes && FirstOpen(w, claimed, taken, from, d)
          ensures SurfaceSpot(w, claimed, taken, from, probes) == Some(from.Translated(0, d))
        {
          assert d != 1 && FirstOpen(w, claimed, taken, pos, d - 1);
        }
      } else {
        if Open(w, claimed, taken, pos) {
          assert FirstOpen(w, claimed, taken, from, 1);
        }
        assert forall d: nat | 2 <= d <= probes :: !FirstOpen(w, claimed, taken, from, d);
      }
    }
  }

  lemma OneFurther(w: World, claimed: set<CellPos>, taken: seq<CellPos>, from: CellPos, d: nat)
    requires d >= 1 && Passed(w, claimed, from.Translated(0, 1)) && !Open(w, claimed, taken, from.Translated(0, 1))
    ensures FirstOpen(w, claimed, taken, from, d + 1) <==> FirstOpen(w, claimed, taken, from.Translated(0, 1), d)
  {
    var pos := from.Translated(0, 1);
    assert forall e: nat :: pos.Translated(0, e) == from.Translated(0, e + 1);
    if FirstOpen(w, claimed, taken, from, d + 1) {
      forall e: nat | 1 <= e < d
        ensures Passed(w, claimed, pos.Translated(0, e)) && !Open(w, claimed, taken, pos.Translated(0, e))
      {
        assert pos.Translated(0, e) == from.Translated(0, e + 1);
      }
    }
    if FirstOpen(w, claimed, taken, pos, d) {
      forall e: nat | 1 <= e < d + 1
        ensures Passed(w, claimed, from.Translated(0, e)) && !Open(w, claimed, taken, from.Translated(0, e))
      {
        if e > 1 {
          assert pos.Translated(0, e - 1) == from.Translated(0, e);
        }
      }
    }
  }

  method FindSpot(world: CellWorld, claimed: set<CellPos>, taken: seq<CellPos>, from: CellPos) returns (spot: Option<CellPos>)
    ensures spot == SurfaceSpot(world.View(), claimed, taken, from, SURFACE_PROBE)
  {
    var pos := from;
    for i := 0 to SURFACE_PROBE
      invariant SurfaceSpot(world.View(), claimed, taken, from, SURFACE_PROBE)
        == SurfaceSpot(world.View(), claimed, taken, pos, SURFACE_PROBE - i)
    {
      pos := pos.Translated(0, 1);
      if pos in claimed {
        continue;
      }
      var cell := world.GetCell(pos);
      if cell.None? || cell.value.motion.Body? {
        return None;
      }
      if cell.value.Phase() == Empty && pos !in taken {
        return Some(pos);
      }
      if Obstructs(cell.value.material) {
        return None;
      }
    }
    spot := None;
  }

  // Every evicted fluid has a home of its own: first the places the body leaves, in row
  // order, then vacant air above.
  ghost predicate Homes(w: World, claimed: set<CellPos>, vacated: seq<CellPos>, evicted: seq<Evicted>, homes: seq<CellPos>) {
    && |homes| <= |evicted|
    && (forall i | 0 <= i < |homes| && i < |vacated| :: homes[i] == vacated[i])
    && (forall i | |vacated| <= i < |homes| ::
          Vacant(w, homes[i]) && homes[i] !in claimed && homes[i] !in vacated
          && homes[i].x == evicted[i].pos.x && evicted[i].pos.y < homes[i].y <= evicted[i].pos.y + SURFACE_PROBE)
    && (forall i, j | 0 <= i < j < |homes| :: homes[i] != homes[j])
  }

  // The next fluid's home: the next place the body leaves, or else a spot above the fluid
  // that no fluid before it has taken.
  function NextHome(w: World, claimed: set<CellPos>, vacated: seq<CellPos>, evicted: seq<Evicted>, homes: seq<CellPos>)
    : Option<CellPos>
    requires |homes| < |evicted|
  {
    if |homes| < |vacated| then Some(vacated[|homes|])
    else SurfaceSpot(w, claimed, vacated + homes[|vacated|..], evicted[|homes|].pos, SURFACE_PROBE)
  }

  // The homes of the first n fluids; None as soon as one finds no home.
  function HomesFor(w: World, claimed: set<CellPos>, vacated: seq<CellPos>, evicted: seq<Evicted>, n: nat)
    : (homes: Option<seq<CellPos>>)
    requires n <= |evicted|
    ensures homes.Some? ==> |homes.value| == n
  {
    if n == 0 then Some([])
    else
      match HomesFor(w, claimed, vacated, evicted, n - 1)
      case None => None
      case Some(before) =>
        match NextHome(w, claimed, vacated, evicted, before)
        case None => None
        case Some(home) => Some(before + [home])
  }

  lemma {:induction false} NoHomeStays(
    w: World, claimed: set<CellPos>, vacated: seq<CellPos>, evicted: seq<Evicted>, n: nat, more: nat)
    requires n <= more <= |evicted| && HomesFor(w, claimed, vacated, evicted, n).None?
    ensures HomesFor(w, claimed, vacated, evicted, more).None?
    decreases more
  {
    if n < more {
      NoHomeStays(w, claimed, vacated, evicted, n, more - 1);
    }
  }

  // Whatever homes are found are sound: different, free, and above the fluid they are for.
  lemma {:induction false} HomesForAreHomes(w: World, claimed: set<CellPos>, vacated: seq<CellPos>, evicted: seq<Evicted>, n: nat)
    requires n <= |evicted| && NoRepeats(vacated)
    ensures var homes := HomesFor(w, claimed, vacated, evicted, n);
      homes.Some? ==> Homes(w, claimed, vacated, evicted, homes.value)
  {
    if n > 0 && HomesFor(w, claimed, vacated, evicted, n).Some? {
      HomesForAreHomes(w, claimed, vacated, evicted, n - 1);
      var before := HomesFor(w, claimed, vacated, evicted, n - 1).value;
      if n - 1 >= |vacated| {
        var taken := vacated + before[|vacated|..];
        SpotsAreVacant(w, claimed, taken, evicted[n - 1].pos, SURFACE_PROBE);
        HomeAdds(w, claimed, vacated, evicted, before, NextHome(w, claimed, vacated, evicted, before).value);
      }
    }
  }

  lemma HomeAdds(
    w: World, claimed: set<CellPos>, vacated: seq<CellPos>, evicted: seq<Evicted>, homes: seq<CellPos>, spot: CellPos)
    requires Homes(w, claimed, vacated, evicted, homes) && |vacated| <= |homes| < |evicted|
    requires Vacant(w, spot) && spot !in claimed && spot !in vacated + homes[|vacated|..]
    requires var from := evicted[|homes|].pos; spot.x == from.x && from.y < spot.y <= from.y + SURFACE_PROBE
    ensures Homes(w, claimed, vacated, evicted, homes + [spot])
  {
    var taken := vacated + homes[|vacated|..];
    forall i | 0 <= i < |homes|
      ensures homes[i] != spot
    {
      assert taken[i] == homes[i];
    }
  }

  // The places left and the spots already found.
  function Taken(vacated: seq<CellPos>, found: seq<CellPos>): seq<CellPos> {
    if |found| <= |vacated| then vacated else vacated + found[|vacated|..]
  }

  lemma TakenGrows(vacated: seq<CellPos>, found: seq<CellPos>)
    requires |vacated| <= |found|
    ensures Taken(vacated, found) == vacated + found[|vacated|..]
    ensures forall spot :: Taken(vacated, found + [spot]) == Taken(vacated, found) + [spot]
  {
    forall spot
      ensures Taken(vacated, found + [spot]) == Taken(vacated, found) + [spot]
    {
      assert (found + [spot])[|vacated|..] == found[|vacated|..] + [spot];
    }
  }

  lemma NextFound(w: World, claimed: set<CellPos>, vacated: seq<CellPos>, evicted: seq<Evicted>, found: seq<CellPos>)
    requires |found| < |evicted| && HomesFor(w, claimed, vacated, evicted, |found|) == Some(found)
    ensures match NextHome(w, claimed, vacated, evicted, found)
      case None => HomesFor(w, claimed, vacated, evicted, |evicted|).None?
      case Some(home) => HomesFor(w, claimed, vacated, evicted, |found| + 1) == Some(found + [home])
  {
    if NextHome(w, claimed, vacated, evicted, found).None? {
      NoHomeStays(w, claimed, vacated, evicted, |found| + 1, |evicted|);
    }
  }

  method FindHomes(world: CellWorld, claimed: set<CellPos>, vacated: seq<CellPos>, evicted: seq<Evicted>)
    returns (homes: Option<seq<CellPos>>)
    ensures homes == HomesFor(world.View(), claimed, vacated, evicted, |evicted|)
  {
    var found: seq<CellPos> := [];
    var taken := vacated;
    for i := 0 to |evicted|
      invariant |found| == i && HomesFor(world.View(), claimed, vacated, evicted, i) == Some(found)
      invariant taken == Taken(vacated, found)
    {
      NextFound(world.View(), claimed, vacated, evicted, found);
      if i < |vacated| {
        found := found + [vacated[i]];
      } else {
        TakenGrows(vacated, found);
        var spot := FindSpot(world, claimed, taken, evicted[i].pos);
        if spot.None? {
          return None;
        }
        taken := taken + [spot.value];
        found := found + [spot.value];
      }
    }
    homes := Some(found);
  }

  // ------------------------------------------------------- rewriting the world

  // Each place of the list gets its cell, where a chunk is loaded; the rest stays.
  ghost predicate Wrote(w: World, v: World, places: seq<CellPos>, cells: seq<Cell>)
    requires |cells| == |places|
  {
    && v.chunks.Keys == w.chunks.Keys
    && (forall i | 0 <= i < |places| :: w.At(places[i]).Some? ==> v.At(places[i]) == Some(cells[i].ClearMoved()))
    && (forall p: CellPos | p !in places :: v.At(p) == w.At(p))
  }

  method WriteAll(world: CellWorld, places: seq<CellPos>, cells: seq<Cell>)
    requires |cells| == |places| && forall i, j | 0 <= i < j < |places| :: places[i] != places[j]
    modifies world`chunks, world`unseated
    ensures Wrote(old(world.View()), world.View(), places, cells)
  {
    ghost var w := world.View();
    for n := 0 to |places|
      invariant Wrote(w, world.View(), places[..n], cells[..n])
    {
      ghost var before := world.View();
      SetGives(before, places[n], cells[n]);
      world.Set(places[n], cells[n]);
      WroteOneMore(w, before, world.View(), places, cells, n);
    }
    assert places[..|places|] == places && cells[..|cells|] == cells;
  }

  lemma WroteOneMore(w: World, b: World, v: World, places: seq<CellPos>, cells: seq<Cell>, n: nat)
    requires |cells| == |places| && n < |places| && forall i, j | 0 <= i < j < |places| :: places[i] != places[j]
    requires Wrote(w, b, places[..n], cells[..n]) && v == b.Set(places[n], cells[n])
    ensures Wrote(w, v, places[..n + 1], cells[..n + 1])
  {
    SetGives(b, places[n], cells[n]);
    var more := places[..n + 1];
    assert more == places[..n] + [places[n]];
    forall i | 0 <= i < n + 1 && w.At(more[i]).Some?
      ensures v.At(more[i]) == Some(cells[..n + 1][i].ClearMoved())
    {
      if i < n {
        assert places[..n][i] == more[i] && cells[..n][i] == cells[i];
        assert more[i] != places[n];
      } else {
        assert b.At(places[n]).Some? == w.At(places[n]).Some?;
      }
    }
    forall p: CellPos | p !in more
      ensures v.At(p) == w.At(p)
    {
      assert p !in places[..n] && p != places[n];
    }
  }

  ghost predicate Cleared(w: World, v: World, held: set<CellPos>, id: BodyId) {
    forall p: CellPos :: v.At(p) == if p in held && TaggedBy(w, p, id) then Some(AIR) else w.At(p)
  }

  // The body's own cells become air.
  method ClearHeld(world: CellWorld, held: set<CellPos>, id: BodyId)
    modifies world`chunks, world`unseated
    ensures world.View().chunks.Keys == old(world.View()).chunks.Keys
    ensures Cleared(old(world.View()), world.View(), held, id)
  {
    ghost var w := world.View();
    var rest := held;
    while rest != {}
      invariant rest <= held && world.View().chunks.Keys == w.chunks.Keys
      invariant Cleared(w, world.View(), held - rest, id)
    {
      var p :| p in rest;
      rest := rest - {p};
      var cell := world.GetCell(p);
      if cell.Some? && cell.value.motion == Motion.Body(id) {
        SetGives(world.View(), p, AIR);
        world.Set(p, AIR);
      }
    }
  }

  // ------------------------------------------------------------ what comes of it

  // The world after a reshape: the new shape, the fluids in their homes, air where the body
  // was, and everything else as before.
  ghost predicate Reshaped(
    w: World, v: World, id: BodyId, shape: seq<ShapeCell>, held: set<CellPos>, evicted: seq<Evicted>, homes: seq<CellPos>)
    requires |homes| == |evicted|
  {
    && v.chunks.Keys == w.chunks.Keys
    && (forall i | 0 <= i < |shape| ::
          v.At(shape[i].pos) == Some(NewCell(shape[i].material, shape[i].shade).WithBody(id)))
    && (forall i | 0 <= i < |evicted| && w.At(homes[i]).Some? :: v.At(homes[i]) == Some(evicted[i].cell.ClearMoved()))
    && (forall p | p in held && p !in ShapePlaces(shape) && p !in homes && w.At(p).Some? :: v.At(p) == Some(AIR))
    && (forall p: CellPos | p !in held && p !in ShapePlaces(shape) && p !in homes :: v.At(p) == w.At(p))
  }

  function ShapePlaces(shape: seq<ShapeCell>): set<CellPos> {
    set i | 0 <= i < |shape| :: shape[i].pos
  }

  function EvictedPlaces(evicted: seq<Evicted>): seq<CellPos> {
    seq(|evicted|, i requires 0 <= i < |evicted| => evicted[i].pos)
  }

  ghost predicate LoadedPlaces(w: World, places: set<CellPos>) {
    forall p | p in places :: w.At(p).Some?
  }

  // Before: what is loose among the touched places is what the body's places hold loose,
  // and the fluids evicted.
  lemma LooseBefore(
    w: World, claimed: set<CellPos>, held: set<CellPos>, vacated: seq<CellPos>, evicted: seq<Evicted>, homes: seq<CellPos>,
    m: Matter)
    requires Evicts(w, claimed, held, evicted) && !(exists p | p in claimed - held :: Blocked(w, p))
    requires |homes| == |evicted| && Homes(w, claimed, vacated, evicted, homes) && Places(vacated) == held - claimed
    ensures SumOver(claimed + held + Places(homes), LooseAt(w, m))
      == SumOver(held, LooseAt(w, m)) + SumOver(Places(EvictedPlaces(evicted)), LooseAt(w, m))
  {
    var f := LooseAt(w, m);
    var out := Places(EvictedPlaces(evicted));
    var quiet := claimed + held + Places(homes) - held - out;
    assert out <= claimed - held by {
      forall p | p in out
        ensures p in claimed - held
      {
        var i :| 0 <= i < |evicted| && EvictedPlaces(evicted)[i] == p;
      }
    }
    forall p | p in claimed - held && w.At(p).Some? && Fluid(w.At(p).value)
      ensures p in out
    {
      var i :| 0 <= i < |evicted| && evicted[i].pos == p;
      assert EvictedPlaces(evicted)[i] == p;
    }
    forall i | 0 <= i < |homes| && i < |vacated|
      ensures homes[i] in held
    {
      assert vacated[i] in Places(vacated);
    }
    forall p | p in quiet
      ensures f(p) == 0
    {
      if p in claimed {
        assert !Blocked(w, p);
      } else {
        var i :| 0 <= i < |homes| && homes[i] == p;
        assert Vacant(w, homes[i]);
      }
    }
    NothingLoose(quiet, f);
    assert claimed + held + Places(homes) == held + out + quiet;
    SumUnion(held + out, quiet, f);
    SumUnion(held, out, f);
  }

  // After: the loose cells among the touched places are the fluids in their homes.
  lemma LooseAfter(
    w: World, v: World, id: BodyId, shape: seq<ShapeCell>, held: set<CellPos>, evicted: seq<Evicted>, homes: seq<CellPos>,
    m: Matter)
    requires |homes| == |evicted| && Reshaped(w, v, id, shape, held, evicted, homes)
    ensures SumOver(ShapePlaces(shape) + held + Places(homes), LooseAt(v, m)) == SumOver(Places(homes), LooseAt(v, m))
  {
    var f := LooseAt(v, m);
    var quiet := ShapePlaces(shape) + held + Places(homes) - Places(homes);
    forall p | p in quiet
      ensures f(p) == 0
    {
      if p in ShapePlaces(shape) {
        var i :| 0 <= i < |shape| && shape[i].pos == p;
      } else {
        assert p !in homes;
        assert w.At(p).Some? ==> v.At(p) == Some(AIR);
      }
    }
    NothingLoose(quiet, f);
    assert ShapePlaces(shape) + held + Places(homes) == Places(homes) + quiet;
    SumUnion(Places(homes), quiet, f);
  }

  // The fluids whose home is where no chunk is loaded: the write there is dropped.
  function Stranded(w: World, evicted: seq<Evicted>, homes: seq<CellPos>): set<CellPos>
    requires |homes| == |evicted|
  {
    set i | 0 <= i < |homes| && w.At(homes[i]).None? :: evicted[i].pos
  }

  // The whole account of a reshape: what is lost is the loose matter that lay on the body's own
  // places, and the fluids that were given an unloaded home.
  lemma ReshapeAccounts(
    w: World, v: World, id: BodyId, shape: seq<ShapeCell>, held: set<CellPos>, vacated: seq<CellPos>, evicted: seq<Evicted>,
    homes: seq<CellPos>, m: Matter)
    requires |homes| == |evicted| && Reshaped(w, v, id, shape, held, evicted, homes)
    requires Evicts(w, ShapePlaces(shape), held, evicted) && !(exists p | p in ShapePlaces(shape) - held :: Blocked(w, p))
    requires Homes(w, ShapePlaces(shape), vacated, evicted, homes) && Places(vacated) == held - ShapePlaces(shape)
    ensures LooseTally(v, m) + SumOver(held, LooseAt(w, m)) + SumOver(Stranded(w, evicted, homes), LooseAt(w, m))
      == LooseTally(w, m)
  {
    var claimed := ShapePlaces(shape);
    ElsewhereAsBefore(w, v, id, shape, held, evicted, homes);
    OverwritingCounts(w, v, claimed + held + Places(homes), m);
    LooseBefore(w, claimed, held, vacated, evicted, homes, m);
    LooseAfter(w, v, id, shape, held, evicted, homes, m);
    FluidsArrive(w, v, id, shape, held, evicted, homes, m);
  }

  lemma ElsewhereAsBefore(
    w: World, v: World, id: BodyId, shape: seq<ShapeCell>, held: set<CellPos>, evicted: seq<Evicted>, homes: seq<CellPos>)
    requires |homes| == |evicted| && Reshaped(w, v, id, shape, held, evicted, homes)
    ensures forall p: CellPos | p !in ShapePlaces(shape) + held + Places(homes) :: v.At(p) == w.At(p)
  {
    forall p: CellPos | p !in ShapePlaces(shape) + held + Places(homes)
      ensures v.At(p) == w.At(p)
    {
      assert p !in homes;
    }
  }

  // Every fluid is in its home, or stranded.
  lemma FluidsArrive(
    w: World, v: World, id: BodyId, shape: seq<ShapeCell>, held: set<CellPos>, evicted: seq<Evicted>, homes: seq<CellPos>,
    m: Matter)
    requires |homes| == |evicted| && Reshaped(w, v, id, shape, held, evicted, homes)
    requires forall i | 0 <= i < |evicted| :: w.At(evicted[i].pos) == Some(evicted[i].cell)
    requires forall i, j | 0 <= i < j < |evicted| :: evicted[i].pos != evicted[j].pos && homes[i] != homes[j]
    ensures SumOver(Places(homes), LooseAt(v, m)) + SumOver(Stranded(w, evicted, homes), LooseAt(w, m))
      == SumOver(Places(EvictedPlaces(evicted)), LooseAt(w, m))
  {
    var stranded, out := Stranded(w, evicted, homes), Places(EvictedPlaces(evicted));
    var kept := KeptAt(w, stranded, m);
    forall i | 0 <= i < |homes|
      ensures LooseAt(v, m)(homes[i]) == kept(EvictedPlaces(evicted)[i])
    {
      FluidArrives(w, v, id, shape, held, evicted, homes, m, i);
    }
    MatchedSums(homes, EvictedPlaces(evicted), LooseAt(v, m), kept);
    forall i | 0 <= i < |homes|
      ensures evicted[i].pos in out
    {
      assert EvictedPlaces(evicted)[i] == evicted[i].pos;
    }
    WithoutThese(out, stranded, LooseAt(w, m), kept);
  }

  function KeptAt(w: World, stranded: set<CellPos>, m: Matter): CellPos -> nat {
    p => if p !in stranded && w.At(p).Some? then LooseIs(w.At(p).value, m) else 0
  }

  lemma FluidArrives(
    w: World, v: World, id: BodyId, shape: seq<ShapeCell>, held: set<CellPos>, evicted: seq<Evicted>, homes: seq<CellPos>,
    m: Matter, i: nat)
    requires |homes| == |evicted| && i < |homes| && Reshaped(w, v, id, shape, held, evicted, homes)
    requires w.At(evicted[i].pos) == Some(evicted[i].cell)
    requires forall j, k | 0 <= j < k < |evicted| :: evicted[j].pos != evicted[k].pos
    ensures LooseAt(v, m)(homes[i]) == KeptAt(w, Stranded(w, evicted, homes), m)(evicted[i].pos)
  {
    var stranded := Stranded(w, evicted, homes);
    if w.At(homes[i]).None? {
      assert evicted[i].pos in stranded;
    } else {
      assert evicted[i].pos !in stranded;
      assert v.At(homes[i]) == Some(evicted[i].cell.ClearMoved());
    }
  }

  lemma WithoutThese(all: set<CellPos>, these: set<CellPos>, f: CellPos -> nat, g: CellPos -> nat)
    requires these <= all && forall p | p in all :: g(p) == if p in these then 0 else f(p)
    ensures SumOver(all, g) + SumOver(these, f) == SumOver(all, f)
  {
    var rest := all - these;
    assert all == rest + these;
    SumUnion(rest, these, f);
    SumUnion(rest, these, g);
    SumAgrees(rest, f, g);
    NothingLoose(these, g);
  }

  // A body that owns its cells has nothing loose on its places.
  lemma OwnedHoldsNothingLoose(w: World, b: Body, m: Matter)
    requires |b.slots| == |b.raster| && Owned(w, b)
    ensures SumOver(Places(b.raster), LooseAt(w, m)) == 0 && LoadedPlaces(w, Places(b.raster))
  {
    forall p | p in Places(b.raster)
      ensures LooseAt(w, m)(p) == 0 && w.At(p).Some?
    {
      var i :| 0 <= i < |b.raster| && b.raster[i] == p;
      assert Holds(w, b, i);
    }
    NothingLoose(Places(b.raster), LooseAt(w, m));
  }

  // ---------------------------------------------------------------- reshape

  // by_id names every body's place in the list.
  ghost predicate Indexed(bodies: seq<Body>, byId: map<BodyId, nat>) {
    && (forall id | id in byId :: byId[id] < |bodies| && bodies[byId[id]].id == id)
    && (forall i | 0 <= i < |bodies| :: bodies[i].id in byId)
  }

  method RebuildIndex(bodies: seq<Body>) returns (byId: map<BodyId, nat>)
    requires forall i, j | 0 <= i < j < |bodies| :: bodies[i].id != bodies[j].id
    ensures Indexed(bodies, byId)
  {
    byId := map[];
    for i := 0 to |bodies|
      invariant forall id | id in byId :: byId[id] < i && bodies[byId[id]].id == id
      invariant forall j | 0 <= j < i :: bodies[j].id in byId
    {
      byId := byId[bodies[i].id := i];
    }
  }

  lemma {:induction false} PlacesAtMost(shape: seq<ShapeCell>)
    ensures |ShapePlaces(shape)| <= |shape|
  {
    if shape == [] {
      assert ShapePlaces(shape) == {};
    } else {
      var last := |shape| - 1;
      PlacesAtMost(shape[..last]);
      assert ShapePlaces(shape) == ShapePlaces(shape[..last]) + {shape[last].pos};
    }
  }

  lemma RepeatedPlace(shape: seq<ShapeCell>, i: nat)
    requires i < |shape| - 1
    ensures shape[i].pos == shape[|shape| - 1].pos ==> ShapePlaces(shape) == ShapePlaces(shape[..|shape| - 1])
  {
    var last := |shape| - 1;
    assert shape[..last][i] == shape[i];
    assert ShapePlaces(shape) == ShapePlaces(shape[..last]) + {shape[last].pos};
  }

  // As many places as cells means that no place is named twice.
  lemma {:induction false} AsManyPlaces(shape: seq<ShapeCell>)
    requires |ShapePlaces(shape)| == |shape|
    ensures forall i, j | 0 <= i < j < |shape| :: shape[i].pos != shape[j].pos
  {
    if shape != [] {
      var last := |shape| - 1;
      assert ShapePlaces(shape) == ShapePlaces(shape[..last]) + {shape[last].pos};
      PlacesAtMost(shape[..last]);
      AsManyPlaces(shape[..last]);
      forall i | 0 <= i < last
        ensures shape[i].pos != shape[last].pos
      {
        RepeatedPlace(shape, i);
      }
    }
  }

  function PosOf(shape: seq<ShapeCell>): seq<CellPos> {
    seq(|shape|, i requires 0 <= i < |shape| => shape[i].pos)
  }

  function CellsOf(shape: seq<ShapeCell>): seq<Cell> {
    seq(|shape|, i requires 0 <= i < |shape| => NewCell(shape[i].material, shape[i].shade))
  }

  function FluidsOf(evicted: seq<Evicted>): seq<Cell> {
    seq(|evicted|, i requires 0 <= i < |evicted| => evicted[i].cell)
  }

  // All the writes of a reshape, one after the other.
  method Rewrite(
    world: CellWorld, id: BodyId, shape: seq<ShapeCell>, held: set<CellPos>, vacated: seq<CellPos>,
    evicted: seq<Evicted>, homes: seq<CellPos>)
    returns (body: Body)
    requires shape != [] && forall i, j | 0 <= i < j < |shape| :: shape[i].pos != shape[j].pos
    requires LoadedPlaces(world.View(), ShapePlaces(shape)) && Places(vacated) == held - ShapePlaces(shape)
    requires forall i, j | 0 <= i < j < |vacated| :: vacated[i] != vacated[j]
    requires |homes| == |evicted| && Homes(world.View(), ShapePlaces(shape), vacated, evicted, homes)
    modifies world`chunks, world`unseated
    ensures Reshaped(old(world.View()), world.View(), id, shape, held, evicted, homes)
    ensures body.id == id && body.raster == PosOf(shape) && WellFormed(body) && body.inertia.mass > 0 && AtReference(body)
    ensures forall i | 0 <= i < |shape| :: body.slots[i].material == shape[i].material
  {
    ghost var w0 := world.View();
    ClearHeld(world, held, id);
    ghost var w1 := world.View();
    WriteAll(world, homes, FluidsOf(evicted));
    ghost var w2 := world.View();
    var leftovers := if |evicted| < |vacated| then vacated[|evicted|..] else [];
    WriteAll(world, leftovers, seq(|leftovers|, _ => AIR));
    ghost var w3 := world.View();
    WriteAll(world, PosOf(shape), CellsOf(shape));
    ghost var w4 := world.View();
    ShapeWritten(w0, w1, w2, w3, w4, id, shape, held, vacated, evicted, homes, leftovers);
    body := Capture(world, id, PosOf(shape));
    CaptureReshapes(w0, w4, world.View(), id, shape, held, evicted, homes);
  }

  // The places the body leaves that no fluid takes become air; homes are not overwritten.
  ghost predicate HomesAndAir(w: World, v: World, held: set<CellPos>, claimed: set<CellPos>, evicted: seq<Evicted>, homes: seq<CellPos>)
    requires |homes| == |evicted|
  {
    && (forall i | 0 <= i < |homes| && w.At(homes[i]).Some? :: v.At(homes[i]) == Some(evicted[i].cell.ClearMoved()))
    && (forall p | p in held && p !in claimed && p !in homes && w.At(p).Some? :: v.At(p) == Some(AIR))
    && (forall p: CellPos | p !in held && p !in claimed && p !in homes :: v.At(p) == w.At(p))
  }

  lemma LeftoversWritten(
    w0: World, w1: World, w2: World, w3: World, id: BodyId, claimed: set<CellPos>, held: set<CellPos>,
    vacated: seq<CellPos>, evicted: seq<Evicted>, homes: seq<CellPos>, leftovers: seq<CellPos>)
    requires |homes| == |evicted| && Homes(w0, claimed, vacated, evicted, homes) && Places(vacated) == held - claimed
    requires forall i, j | 0 <= i < j < |vacated| :: vacated[i] != vacated[j]
    requires leftovers == if |evicted| < |vacated| then vacated[|evicted|..] else []
    requires Cleared(w0, w1, held, id)
    requires Wrote(w1, w2, homes, FluidsOf(evicted)) && Wrote(w2, w3, leftovers, seq(|leftovers|, _ => AIR))
    ensures HomesAndAir(w0, w3, held, claimed, evicted, homes)
  {
    assert forall k | 0 <= k < |evicted| && k < |vacated| :: homes[k] == vacated[k];
    forall j | 0 <= j < |leftovers|
      ensures leftovers[j] == vacated[|evicted| + j] && leftovers[j] in held
    {
      assert vacated[|evicted| + j] in Places(vacated);
    }
    forall i, j | 0 <= i < |homes| && 0 <= j < |leftovers|
      ensures homes[i] != leftovers[j]
    {
      assert homes[i] == vacated[i];
    }
    forall p | p in held && p !in claimed && p !in homes && w0.At(p).Some?
      ensures w3.At(p) == Some(AIR)
    {
      assert p in Places(vacated);
      var k :| 0 <= k < |vacated| && vacated[k] == p;
      assert k >= |evicted|;
      assert leftovers[k - |evicted|] == p;
      assert w2.At(p).Some?;
    }
    forall p: CellPos | p !in held && p !in claimed && p !in homes
      ensures w3.At(p) == w0.At(p)
    {
      assert p !in leftovers;
    }
  }

  lemma ShapeWritten(
    w0: World, w1: World, w2: World, w3: World, w4: World, id: BodyId, shape: seq<ShapeCell>, held: set<CellPos>,
    vacated: seq<CellPos>, evicted: seq<Evicted>, homes: seq<CellPos>, leftovers: seq<CellPos>)
    requires LoadedPlaces(w0, ShapePlaces(shape)) && w1.chunks.Keys == w0.chunks.Keys
    requires |homes| == |evicted| && Homes(w0, ShapePlaces(shape), vacated, evicted, homes)
    requires Places(vacated) == held - ShapePlaces(shape) && forall i, j | 0 <= i < j < |vacated| :: vacated[i] != vacated[j]
    requires leftovers == if |evicted| < |vacated| then vacated[|evicted|..] else []
    requires Cleared(w0, w1, held, id)
    requires Wrote(w1, w2, homes, FluidsOf(evicted)) && Wrote(w2, w3, leftovers, seq(|leftovers|, _ => AIR))
    requires Wrote(w3, w4, PosOf(shape), CellsOf(shape))
    ensures HomesAndAir(w0, w4, held, ShapePlaces(shape), evicted, homes) && w4.chunks.Keys == w0.chunks.Keys
    ensures forall i | 0 <= i < |shape| :: w4.At(shape[i].pos) == Some(NewCell(shape[i].material, shape[i].shade))
  {
    LeftoversWritten(w0, w1, w2, w3, id, ShapePlaces(shape), held, vacated, evicted, homes, leftovers);
    forall i | 0 <= i < |homes|
      ensures homes[i] !in ShapePlaces(shape)
    {
      if i < |vacated| {
        assert homes[i] in Places(vacated);
      }
    }
    forall p
      ensures p in PosOf(shape) <==> p in ShapePlaces(shape)
    {
      if p in ShapePlaces(shape) {
        var i :| 0 <= i < |shape| && shape[i].pos == p;
        assert PosOf(shape)[i] == p;
      }
    }
    forall i | 0 <= i < |shape|
      ensures w4.At(shape[i].pos) == Some(NewCell(shape[i].material, shape[i].shade))
    {
      assert PosOf(shape)[i] == shape[i].pos && shape[i].pos in ShapePlaces(shape);
      assert w3.At(shape[i].pos).Some?;
    }
  }

  lemma CaptureReshapes(
    w: World, b: World, v: World, id: BodyId, shape: seq<ShapeCell>, held: set<CellPos>, evicted: seq<Evicted>,
    homes: seq<CellPos>)
    requires |homes| == |evicted| && HomesAndAir(w, b, held, ShapePlaces(shape), evicted, homes)
    requires b.chunks.Keys == w.chunks.Keys && v.chunks.Keys == b.chunks.Keys
    requires forall i | 0 <= i < |shape| :: b.At(shape[i].pos) == Some(NewCell(shape[i].material, shape[i].shade))
    requires forall i | 0 <= i < |shape| :: v.At(PosOf(shape)[i]) == Some(b.At(PosOf(shape)[i]).value.WithBody(id).ClearMoved())
    requires forall p: CellPos | p !in PosOf(shape) :: v.At(p) == b.At(p)
    requires forall i | 0 <= i < |homes| :: homes[i] !in ShapePlaces(shape)
    ensures Reshaped(w, v, id, shape, held, evicted, homes)
  {
    forall p
      ensures p in PosOf(shape) <==> p in ShapePlaces(shape)
    {
      if p in ShapePlaces(shape) {
        var i :| 0 <= i < |shape| && shape[i].pos == p;
        assert PosOf(shape)[i] == p;
      }
    }
    forall i | 0 <= i < |shape|
      ensures v.At(shape[i].pos) == Some(NewCell(shape[i].material, shape[i].shade).WithBody(id))
    {
      assert PosOf(shape)[i] == shape[i].pos;
    }
  }

  // What a shape must be, whatever the world holds.
  ghost predicate Shapely(shape: seq<ShapeCell>) {
    && shape != [] && (forall i | 0 <= i < |shape| :: Bondable(shape[i].material))
    && forall i, j | 0 <= i < j < |shape| :: shape[i].pos != shape[j].pos
  }

  method CheckShape(shape: seq<ShapeCell>, claimed: set<CellPos>) returns (fits: bool)
    requires claimed == ShapePlaces(shape)
    ensures fits <==> Shapely(shape)
  {
    DistinctAreAsMany(shape);
    if shape == [] || |claimed| != |shape| {
      return false;
    }
    AsManyPlaces(shape);
    for i := 0 to |shape|
      invariant forall j | 0 <= j < i :: Bondable(shape[j].material)
    {
      if !Bondable(shape[i].material) {
        return false;
      }
    }
    fits := true;
  }

  lemma {:induction false} DistinctAreAsMany(shape: seq<ShapeCell>)
    ensures (forall i, j | 0 <= i < j < |shape| :: shape[i].pos != shape[j].pos) ==> |ShapePlaces(shape)| == |shape|
  {
    if shape == [] {
      assert ShapePlaces(shape) == {};
    } else if forall i, j | 0 <= i < j < |shape| :: shape[i].pos != shape[j].pos {
      var last := |shape| - 1;
      DistinctAreAsMany(shape[..last]);
      assert shape[last].pos !in ShapePlaces(shape[..last]);
      assert ShapePlaces(shape) == ShapePlaces(shape[..last]) + {shape[last].pos};
    }
  }

  // The plan of a reshape, made before anything is written: None when it cannot be done.
  datatype Plan = Plan(evicted: seq<Evicted>, vacated: seq<CellPos>, homes: seq<CellPos>)

  // The fluids in the way and the places left, both in the order in which they are matched.
  ghost predicate Lists(w: World, claimed: set<CellPos>, held: set<CellPos>, evicted: seq<Evicted>, vacated: seq<CellPos>) {
    && Evicts(w, claimed, held, evicted) && InRowOrder(evicted, EvictionRow)
    && Places(vacated) == held - claimed && InRowOrder(vacated, PlaceRow) && NoRepeats(vacated)
  }

  ghost predicate Sound(w: World, claimed: set<CellPos>, held: set<CellPos>, plan: Plan) {
    && !(exists p | p in claimed - held :: Blocked(w, p))
    && Lists(w, claimed, held, plan.evicted, plan.vacated)
    && HomesFor(w, claimed, plan.vacated, plan.evicted, |plan.evicted|) == Some(plan.homes)
    && |plan.homes| == |plan.evicted| && Homes(w, claimed, plan.vacated, plan.evicted, plan.homes)
  }

  // What stands against a reshape: a cell it cannot have, or a fluid that finds no home.
  ghost predicate Refused(w: World, claimed: set<CellPos>, held: set<CellPos>) {
    || (exists p | p in claimed - held :: Blocked(w, p))
    || (exists evicted, vacated | Lists(w, claimed, held, evicted, vacated) :: Homeless(w, claimed, evicted, vacated))
  }

  ghost predicate Homeless(w: World, claimed: set<CellPos>, evicted: seq<Evicted>, vacated: seq<CellPos>) {
    HomesFor(w, claimed, vacated, evicted, |evicted|).None?
  }

  function PlaceRow(p: CellPos): Row {
    p.RowKey()
  }

  lemma ListsAreUnique(
    w: World, claimed: set<CellPos>, held: set<CellPos>, evicted: seq<Evicted>, vacated: seq<CellPos>,
    evicted': seq<Evicted>, vacated': seq<CellPos>)
    requires Lists(w, claimed, held, evicted, vacated) && Lists(w, claimed, held, evicted', vacated')
    ensures evicted == evicted' && vacated == vacated'
  {
    EvictedAgree(w, claimed, held, evicted, evicted');
    EvictedAgree(w, claimed, held, evicted', evicted);
    OrderIsUnique(evicted, evicted', EvictionRow);
    forall p
      ensures p in vacated <==> p in vacated'
    {
      assert p in vacated <==> p in Places(vacated);
      assert p in vacated' <==> p in Places(vacated');
    }
    OrderIsUnique(vacated, vacated', PlaceRow);
  }

  lemma EvictedAgree(w: World, claimed: set<CellPos>, held: set<CellPos>, evicted: seq<Evicted>, evicted': seq<Evicted>)
    requires Evicts(w, claimed, held, evicted) && Evicts(w, claimed, held, evicted')
    ensures NoRepeats(evicted) && forall e | e in evicted :: e in evicted'
    ensures forall e, d | e in evicted && d in evicted && EvictionRow(e) == EvictionRow(d) :: e == d
  {
    forall e | e in evicted
      ensures e in evicted'
    {
      var i :| 0 <= i < |evicted'| && evicted'[i].pos == e.pos;
      assert evicted'[i] == e;
    }
  }

  // The denser fluids get the lower of the places the body leaves.
  lemma DenserGoLower(w: World, claimed: set<CellPos>, held: set<CellPos>, plan: Plan, i: nat, j: nat)
    requires Sound(w, claimed, held, plan) && i < j < |plan.evicted|
    ensures CONTENT.densityMilli(plan.evicted[i].cell.material) >= CONTENT.densityMilli(plan.evicted[j].cell.material)
    ensures j < |plan.vacated| ==> plan.homes[i].y <= plan.homes[j].y
  {
    assert !RowBefore(EvictionRow(plan.evicted[j]), EvictionRow(plan.evicted[i]));
    if j < |plan.vacated| {
      assert !RowBefore(PlaceRow(plan.vacated[j]), PlaceRow(plan.vacated[i]));
    }
  }

  // Once these are full, a fluid goes to the first open cell above it that none before it has taken.
  lemma {:induction false} HomeIsFirst(
    w: World, claimed: set<CellPos>, vacated: seq<CellPos>, evicted: seq<Evicted>, n: nat, i: nat)
    requires |vacated| <= i < n <= |evicted| && HomesFor(w, claimed, vacated, evicted, n).Some?
    ensures var homes := HomesFor(w, claimed, vacated, evicted, n).value;
      exists d: nat | 1 <= d <= SURFACE_PROBE ::
        && homes[i] == evicted[i].pos.Translated(0, d)
        && FirstOpen(w, claimed, vacated + homes[|vacated|..i], evicted[i].pos, d)
    decreases n
  {
    var before := HomesFor(w, claimed, vacated, evicted, n - 1).value;
    var homes := HomesFor(w, claimed, vacated, evicted, n).value;
    assert homes[..n - 1] == before && homes[|vacated|..i] == before[|vacated|..i];
    if i < n - 1 {
      HomeIsFirst(w, claimed, vacated, evicted, n - 1, i);
    } else {
      assert before[|vacated|..i] == before[|vacated|..];
      SpotIsFirst(w, claimed, vacated + before[|vacated|..], evicted[i].pos, SURFACE_PROBE);
    }
  }

  // A reshape is planned exactly if nothing stands against it.
  lemma SoundIsNotRefused(w: World, claimed: set<CellPos>, held: set<CellPos>, plan: Plan)
    requires Sound(w, claimed, held, plan)
    ensures !Refused(w, claimed, held)
  {
    forall evicted, vacated | Lists(w, claimed, held, evicted, vacated)
      ensures !Homeless(w, claimed, evicted, vacated)
    {
      ListsAreUnique(w, claimed, held, evicted, vacated, plan.evicted, plan.vacated);
    }
  }

  method MakePlan(world: CellWorld, claimed: set<CellPos>, held: set<CellPos>) returns (plan: Option<Plan>)
    ensures plan.Some? ==> Sound(world.View(), claimed, held, plan.value)
    ensures plan.None? <==> Refused(world.View(), claimed, held)
  {
    var found := FindEvicted(world, claimed, held);
    if found.None? {
      return None;
    }
    var evicted := SortByRow(found.value, EvictionRow);
    SortedStillEvicts(world.View(), claimed, held, found.value, evicted);
    var vacated := RowOrder(held - claimed, PlaceRow);
    assert Places(vacated) == held - claimed;
    assert Lists(world.View(), claimed, held, evicted, vacated);
    var homes := FindHomes(world, claimed, vacated, evicted);
    HomesForAreHomes(world.View(), claimed, vacated, evicted, |evicted|);
    if homes.None? {
      assert Homeless(world.View(), claimed, evicted, vacated);
      return None;
    }
    SoundIsNotRefused(world.View(), claimed, held, Plan(evicted, vacated, homes.value));
    plan := Some(Plan(evicted, vacated, homes.value));
  }

  // The new body keeps the policy and the motion of the old one.
  function Continued(next: Body, b: Body): Body {
    next.(
      turns := b.turns, settles := b.settles, assists := b.assists, parked := b.parked, weight := b.weight,
      vx := b.vx, vy := b.vy, spin := b.spin, carried := b.carried, accX := b.accX, accY := b.accY, accTurn := b.accTurn)
  }

  lemma ContinuedIsAtReference(next: Body, b: Body)
    requires AtReference(next)
    ensures AtReference(Continued(next, b))
  {
    forall i | 0 <= i < |next.slots|
      ensures SlotOnRaster(Continued(next, b), i)
    {
      assert SlotOnRaster(next, i);
    }
  }

  lemma ContinuedSucceeds(bodies: seq<Body>, index: nat, next: Body)
    requires index < |bodies| && next.id == bodies[index].id
    ensures Succeeds(
      bodies, bodies[..index] + bodies[index + 1..] + [Continued(next, bodies[index])], index, next.raster)
  {
    var after := bodies[..index] + bodies[index + 1..] + [Continued(next, bodies[index])];
    assert after[..|after| - 1] == bodies[..index] + bodies[index + 1..];
  }

  // A reshape done: the world is rewritten to plan, and the body is last in the list, on its new
  // cells, which it owns.
  ghost predicate Done(
    w: World, v: World, before: seq<Body>, after: seq<Body>, index: nat, shape: seq<ShapeCell>, held: set<CellPos>,
    plan: Plan, next: BodyId)
    requires index < |before|
  {
    match plan
    case Plan(evicted, _, homes) =>
      && |homes| == |evicted| && Reshaped(w, v, before[index].id, shape, held, evicted, homes)
      && Sane(after, next) && Succeeds(before, after, index, PosOf(shape)) && Owned(v, after[|after| - 1])
      && AtReference(after[|after| - 1])
  }

  lemma ReshapeIsDone(
    w: World, v: World, bodies: seq<Body>, index: nat, shape: seq<ShapeCell>, held: set<CellPos>, plan: Plan, next: BodyId,
    body: Body)
    requires Sane(bodies, next) && index < |bodies| && Shapely(shape) && |plan.homes| == |plan.evicted|
    requires Reshaped(w, v, bodies[index].id, shape, held, plan.evicted, plan.homes)
    requires WellFormed(body) && body.inertia.mass > 0 && AtReference(body)
    requires body.id == bodies[index].id && body.raster == PosOf(shape) && |body.slots| == |shape|
    requires forall i | 0 <= i < |shape| :: body.slots[i].material == shape[i].material
    ensures var after := bodies[..index] + bodies[index + 1..] + [Continued(body, bodies[index])];
      Done(w, v, bodies, after, index, shape, held, plan, next)
  {
    var b := bodies[index];
    NewShapeIsOwned(w, v, b.id, shape, held, plan.evicted, plan.homes, body);
    ContinuedIsAtReference(body, b);
    ReplacedKeepsSane(bodies, index, Continued(body, b), next);
    ContinuedSucceeds(bodies, index, body);
  }

  // A reshape that has a sound plan is carried out: everything is written, and the body comes
  // back at the end of the list.
  method CarryOut(
    owner: Bodies, world: CellWorld, index: nat, shape: seq<ShapeCell>, held: set<CellPos>, plan: Plan, ghost next: BodyId)
    requires Sane(owner.bodies, next) && index < |owner.bodies| && Shapely(shape)
    requires LoadedPlaces(world.View(), ShapePlaces(shape)) && Sound(world.View(), ShapePlaces(shape), held, plan)
    modifies owner`bodies, world`chunks, world`unseated
    ensures Done(old(world.View()), world.View(), old(owner.bodies), owner.bodies, index, shape, held, plan, next)
  {
    var b := owner.bodies[index];
    ghost var w := world.View();
    var body := Rewrite(world, b.id, shape, held, plan.vacated, plan.evicted, plan.homes);
    ReshapeIsDone(w, world.View(), owner.bodies, index, shape, held, plan, next, body);
    owner.bodies := owner.bodies[..index] + owner.bodies[index + 1..] + [Continued(body, b)];
  }

  // The reshaped body is last, on its new cells, with its old policy and motion.
  ghost predicate Succeeds(before: seq<Body>, after: seq<Body>, index: nat, raster: seq<CellPos>) {
    && index < |before| && |after| == |before|
    && after[..|after| - 1] == before[..index] + before[index + 1..]
    && var last := after[|after| - 1];
       last.id == before[index].id && last.raster == raster && SamePolicy(last, before[index])
       && SameMotion(last, before[index])
  }

  ghost predicate SamePolicy(b: Body, c: Body) {
    b.turns == c.turns && b.settles == c.settles && b.assists == c.assists && b.parked == c.parked && b.weight == c.weight
  }

  ghost predicate SameMotion(b: Body, c: Body) {
    && b.vx == c.vx && b.vy == c.vy && b.spin == c.spin && b.carried == c.carried
    && b.accX == c.accX && b.accY == c.accY && b.accTurn == c.accTurn
  }

  // When a body takes the shape: it is known, the shape is one, and nothing stands against it.
  ghost predicate Granted(w: World, bodies: seq<Body>, byId: map<BodyId, nat>, id: BodyId, shape: seq<ShapeCell>)
    requires Indexed(bodies, byId)
  {
    id in byId && Shapely(shape) && !Refused(w, ShapePlaces(shape), Places(bodies[byId[id]].raster))
  }

  // A refused reshape changes nothing. One that is done leaves the body owning its new shape,
  // gives every fluid in its way a home of its own, and accounts for all of the loose matter.
  method Reshape(owner: Bodies, world: CellWorld, id: BodyId, shape: seq<ShapeCell>, ghost next: BodyId)
    returns (ok: bool, ghost plan: Plan, ghost held: set<CellPos>)
    requires Sane(owner.bodies, next) && Indexed(owner.bodies, owner.byId)
    requires id in owner.byId ==>
      LoadedPlaces(world.View(), Places(owner.bodies[owner.byId[id]].raster) * ShapePlaces(shape))
    modifies owner`bodies, owner`byId, world`chunks, world`unseated
    ensures Indexed(owner.bodies, owner.byId)
    ensures !ok ==> world.View() == old(world.View()) && owner.bodies == old(owner.bodies) && owner.byId == old(owner.byId)
    ensures ok <==> Granted(old(world.View()), old(owner.bodies), old(owner.byId), id, shape)
    ensures ok ==> held == Places(old(owner.bodies)[old(owner.byId)[id]].raster)
    ensures ok ==> Sound(old(world.View()), ShapePlaces(shape), held, plan)
    ensures ok ==>
      Done(old(world.View()), world.View(), old(owner.bodies), owner.bodies, old(owner.byId)[id], shape, held, plan, next)
    ensures ok ==> Accounts(old(world.View()), world.View(), held, plan)
  {
    var made, places := Prepare(owner, world, id, shape);
    held := places;
    plan := if made.Some? then made.value else Plan([], [], []);
    ok := made.Some?;
    if ok {
      ghost var w := world.View();
      Commit(owner, world, id, shape, places, made.value, next);
      assert Done(w, world.View(), old(owner.bodies), owner.bodies, old(owner.byId)[id], shape, held, plan, next);
      Accounted(w, world.View(), id, shape, held, plan);
    }
  }

  // The whole effect of a granted reshape, the index rebuilt.
  method Commit(owner: Bodies, world: CellWorld, id: BodyId, shape: seq<ShapeCell>, held: set<CellPos>, plan: Plan, ghost next: BodyId)
    requires Sane(owner.bodies, next) && Indexed(owner.bodies, owner.byId) && id in owner.byId && Shapely(shape)
    requires LoadedPlaces(world.View(), ShapePlaces(shape)) && Sound(world.View(), ShapePlaces(shape), held, plan)
    modifies owner`bodies, owner`byId, world`chunks, world`unseated
    ensures Indexed(owner.bodies, owner.byId)
    ensures Done(old(world.View()), world.View(), old(owner.bodies), owner.bodies, old(owner.byId)[id], shape, held, plan, next)
  {
    CarryOut(owner, world, owner.byId[id], shape, held, plan, next);
    ghost var v, bodies := world.View(), owner.bodies;
    Reindex(owner, next);
    assert world.View() == v && owner.bodies == bodies;
  }

  method Reindex(owner: Bodies, ghost next: BodyId)
    requires Sane(owner.bodies, next)
    modifies owner`byId
    ensures Indexed(owner.bodies, owner.byId)
  {
    var byId := RebuildIndex(owner.bodies);
    owner.byId := byId;
  }

  // Everything that can refuse a reshape, before anything is written.
  method Prepare(owner: Bodies, world: CellWorld, id: BodyId, shape: seq<ShapeCell>)
    returns (plan: Option<Plan>, held: set<CellPos>)
    requires Indexed(owner.bodies, owner.byId)
    requires id in owner.byId ==>
      LoadedPlaces(world.View(), Places(owner.bodies[owner.byId[id]].raster) * ShapePlaces(shape))
    ensures plan.Some? <==> Granted(world.View(), owner.bodies, owner.byId, id, shape)
    ensures plan.Some? ==> held == Places(owner.bodies[owner.byId[id]].raster)
    ensures plan.Some? ==> Sound(world.View(), ShapePlaces(shape), held, plan.value)
    ensures plan.Some? ==> LoadedPlaces(world.View(), ShapePlaces(shape))
  {
    held := {};
    if id !in owner.byId {
      return None, held;
    }
    var claimed := set i | 0 <= i < |shape| :: shape[i].pos;
    var fits := CheckShape(shape, claimed);
    if !fits {
      return None, held;
    }
    held := set p | p in owner.bodies[owner.byId[id]].raster;
    plan := MakePlan(world, claimed, held);
    if plan.Some? {
      ClaimedIsLoaded(world.View(), claimed, held, plan.value);
    }
  }

  lemma ClaimedIsLoaded(w: World, claimed: set<CellPos>, held: set<CellPos>, plan: Plan)
    requires Sound(w, claimed, held, plan) && LoadedPlaces(w, held * claimed)
    ensures LoadedPlaces(w, claimed)
  {
    forall p | p in claimed
      ensures w.At(p).Some?
    {
      if p !in held {
        assert !Blocked(w, p);
      }
    }
  }

  lemma NewShapeIsOwned(
    w: World, v: World, id: BodyId, shape: seq<ShapeCell>, held: set<CellPos>, evicted: seq<Evicted>, homes: seq<CellPos>,
    body: Body)
    requires |homes| == |evicted| && Reshaped(w, v, id, shape, held, evicted, homes) && Shapely(shape)
    requires body.id == id && body.raster == PosOf(shape) && |body.slots| == |shape|
    requires forall i | 0 <= i < |shape| :: body.slots[i].material == shape[i].material
    ensures Owned(v, body)
  {
    forall i | 0 <= i < |body.raster|
      ensures Holds(v, body, i)
    {
      assert v.At(shape[i].pos) == Some(NewCell(shape[i].material, shape[i].shade).WithBody(id));
    }
  }

  lemma ReplacedKeepsSane(bodies: seq<Body>, index: nat, body: Body, next: BodyId)
    requires Sane(bodies, next) && index < |bodies|
    requires WellFormed(body) && body.inertia.mass > 0 && body.id == bodies[index].id
    ensures Sane(bodies[..index] + bodies[index + 1..] + [body], next)
  {
  }

  // All of the loose matter is still there but what lay on the places the body already held, and
  // the fluids that were given an unloaded home.
  ghost predicate Accounts(w: World, v: World, held: set<CellPos>, plan: Plan)
    requires |plan.homes| == |plan.evicted|
  {
    forall m: Matter ::
      LooseTally(v, m) + SumOver(held, LooseAt(w, m)) + SumOver(Stranded(w, plan.evicted, plan.homes), LooseAt(w, m))
        == LooseTally(w, m)
  }

  lemma Accounted(w: World, v: World, id: BodyId, shape: seq<ShapeCell>, held: set<CellPos>, plan: Plan)
    requires Sound(w, ShapePlaces(shape), held, plan)
    requires Reshaped(w, v, id, shape, held, plan.evicted, plan.homes)
    ensures Accounts(w, v, held, plan)
  {
    forall m: Matter
      ensures LooseTally(v, m) + SumOver(held, LooseAt(w, m)) + SumOver(Stranded(w, plan.evicted, plan.homes), LooseAt(w, m))
        == LooseTally(w, m)
    {
      ReshapeAccounts(w, v, id, shape, held, plan.vacated, plan.evicted, plan.homes, m);
    }
  }

  // Nothing is lost, whatever it looks like, exactly if the body's places hold nothing loose and
  // every place left that takes a fluid is loaded.
  ghost predicate NothingToLose(w: World, held: set<CellPos>, vacated: seq<CellPos>, evicted: seq<Evicted>) {
    && (forall p | p in held && w.At(p).Some? :: w.Tagged(p) || w.At(p).value.IsAir())
    && (forall i | 0 <= i < |vacated| && i < |evicted| :: w.At(vacated[i]).Some?)
  }

  lemma ReshapeConservesExactly(w: World, v: World, id: BodyId, shape: seq<ShapeCell>, held: set<CellPos>, plan: Plan)
    requires Sound(w, ShapePlaces(shape), held, plan) && Reshaped(w, v, id, shape, held, plan.evicted, plan.homes)
    ensures (forall m: Matter :: LooseTally(v, m) == LooseTally(w, m)) <==> NothingToLose(w, held, plan.vacated, plan.evicted)
  {
    Accounted(w, v, id, shape, held, plan);
    if NothingToLose(w, held, plan.vacated, plan.evicted) {
      NothingStranded(w, ShapePlaces(shape), plan.vacated, plan.evicted, plan.homes);
      forall m: Matter
        ensures LooseTally(v, m) == LooseTally(w, m)
      {
        NothingLoose(held, LooseAt(w, m));
        assert SumOver(Stranded(w, plan.evicted, plan.homes), LooseAt(w, m)) == 0;
      }
    } else {
      var m := SomethingLost(w, ShapePlaces(shape), held, plan);
      assert LooseTally(v, m) < LooseTally(w, m);
    }
  }

  lemma NothingStranded(w: World, claimed: set<CellPos>, vacated: seq<CellPos>, evicted: seq<Evicted>, homes: seq<CellPos>)
    requires |homes| == |evicted| && Homes(w, claimed, vacated, evicted, homes)
    requires forall i | 0 <= i < |vacated| && i < |evicted| :: w.At(vacated[i]).Some?
    ensures Stranded(w, evicted, homes) == {}
  {
    forall i | 0 <= i < |homes|
      ensures w.At(homes[i]).Some?
    {
      if i < |vacated| {
        assert homes[i] == vacated[i];
      }
    }
  }

  lemma SomethingLost(w: World, claimed: set<CellPos>, held: set<CellPos>, plan: Plan) returns (m: Matter)
    requires Sound(w, claimed, held, plan) && !NothingToLose(w, held, plan.vacated, plan.evicted)
    ensures SumOver(held, LooseAt(w, m)) > 0 || SumOver(Stranded(w, plan.evicted, plan.homes), LooseAt(w, m)) > 0
  {
    if p :| p in held && w.At(p).Some? && !w.Tagged(p) && !w.At(p).value.IsAir() {
      m := w.At(p).value.Visible();
      SumSplits(held, LooseAt(w, m), p);
    } else {
      var i :| 0 <= i < |plan.vacated| && i < |plan.evicted| && w.At(plan.vacated[i]).None?;
      m := plan.evicted[i].cell.Visible();
      assert plan.homes[i] == plan.vacated[i];
      SumSplits(Stranded(w, plan.evicted, plan.homes), LooseAt(w, m), plan.evicted[i].pos);
    }
  }

  // When the body owns its cells, no loose matter is lost at all: the reshape conserves it.
  lemma OwnedReshapeConserves(w: World, v: World, b: Body, shape: seq<ShapeCell>, plan: Plan, m: Matter)
    requires |b.slots| == |b.raster| && Owned(w, b) && Sound(w, ShapePlaces(shape), Places(b.raster), plan)
    requires Accounts(w, v, Places(b.raster), plan)
    ensures LooseTally(v, m) == LooseTally(w, m)
  {
    OwnedHoldsNothingLoose(w, b, m);
    forall i | 0 <= i < |plan.vacated|
      ensures w.At(plan.vacated[i]).Some?
    {
      assert plan.vacated[i] in Places(plan.vacated);
    }
    NothingStranded(w, ShapePlaces(shape), plan.vacated, plan.evicted, plan.homes);
  }

  // ------------------------------------------------ what a reshape can lose

  // One loaded chunk of air, but for one cell.
  function OneCell(at: CellPos, cell: Cell): (w: World)
    ensures w.At(at) == Some(cell)
    ensures forall p: CellPos | p != at :: w.At(p) == if p.Chunk() == at.Chunk() then Some(AIR) else None
  {
    var w := World(map[at.Chunk() := NewChunk()], []);
    PutGives(w, at, cell);
    w.Put(at, cell)
  }

  // A reshape that is granted and loses one cell of this matter.
  ghost predicate LosesOne(w: World, b: Body, shape: seq<ShapeCell>, plan: Plan, m: Matter) {
    && WellFormed(b) && Granted(w, [b], map[b.id := 0], b.id, shape)
    && Sound(w, ShapePlaces(shape), Places(b.raster), plan)
    && forall v: World | Reshaped(w, v, b.id, shape, Places(b.raster), plan.evicted, plan.homes) ::
         LooseTally(v, m) + 1 == LooseTally(w, m)
  }

  lemma SoundLosesOne(w: World, b: Body, shape: seq<ShapeCell>, plan: Plan, m: Matter)
    requires WellFormed(b) && Shapely(shape) && Sound(w, ShapePlaces(shape), Places(b.raster), plan)
    requires SumOver(Places(b.raster), LooseAt(w, m)) + SumOver(Stranded(w, plan.evicted, plan.homes), LooseAt(w, m)) == 1
    ensures LosesOne(w, b, shape, plan, m)
  {
    SoundIsNotRefused(w, ShapePlaces(shape), Places(b.raster), plan);
    forall v: World | Reshaped(w, v, b.id, shape, Places(b.raster), plan.evicted, plan.homes)
      ensures LooseTally(v, m) + 1 == LooseTally(w, m)
    {
      ReshapeAccounts(w, v, b.id, shape, Places(b.raster), plan.vacated, plan.evicted, plan.homes, m);
    }
  }

  // A step aside, from a place that holds a grain that is not the body's.
  lemma SteppingOffAGrain(w: World, b: Body, from: CellPos, to: ShapeCell, grain: Cell)
    requires WellFormed(b) && b.raster == [from] && from != to.pos && Bondable(to.material)
    requires w.At(from) == Some(grain) && w.At(to.pos) == Some(AIR) && grain.motion.Velocity? && !grain.IsAir()
    ensures LosesOne(w, b, [to], Plan([], [from], []), grain.Visible())
  {
    var plan, m := Plan([], [from], []), grain.Visible();
    PlacesOfOne(from, to);
    assert HomesFor(w, {to.pos}, plan.vacated, plan.evicted, 0) == Some([]);
    SumOfOne(from, LooseAt(w, m));
    SumOfNone(Stranded(w, plan.evicted, plan.homes), LooseAt(w, m));
    SoundLosesOne(w, b, [to], plan, m);
  }

  // A step over a fluid, from a place where no chunk is loaded.
  lemma SteppingInFromTheEdge(w: World, b: Body, from: CellPos, to: ShapeCell, fluid: Cell)
    requires WellFormed(b) && b.raster == [from] && from != to.pos && Bondable(to.material)
    requires w.At(from) == None && w.At(to.pos) == Some(fluid) && fluid.motion.Velocity? && Fluid(fluid)
    ensures LosesOne(w, b, [to], Plan([Evicted(to.pos, fluid)], [from], [from]), fluid.Visible())
  {
    var plan, m := Plan([Evicted(to.pos, fluid)], [from], [from]), fluid.Visible();
    PlacesOfOne(from, to);
    OneEvicted(w, from, to.pos, fluid);
    OneHome(w, {to.pos}, from, plan.evicted);
    SumOfOne(from, LooseAt(w, m));
    OneStranded(w, plan.evicted[0], from);
    SumOfOne(to.pos, LooseAt(w, m));
    SoundLosesOne(w, b, [to], plan, m);
  }

  lemma PlacesOfOne(from: CellPos, to: ShapeCell)
    ensures ShapePlaces([to]) == {to.pos} && Places([from]) == {from}
  {
    assert [to][0] == to && [from][0] == from;
  }

  lemma OneEvicted(w: World, from: CellPos, to: CellPos, fluid: Cell)
    requires from != to && w.At(to) == Some(fluid) && fluid.motion.Velocity? && Fluid(fluid)
    ensures Evicts(w, {to}, {from}, [Evicted(to, fluid)]) && !Blocked(w, to)
  {
    var evicted := [Evicted(to, fluid)];
    assert evicted[0].pos == to;
  }

  lemma OneHome(w: World, claimed: set<CellPos>, home: CellPos, evicted: seq<Evicted>)
    requires |evicted| == 1
    ensures HomesFor(w, claimed, [home], evicted, 1) == Some([home])
  {
    assert HomesFor(w, claimed, [home], evicted, 0) == Some([]);
    assert [] + [[home][0]] == [home];
  }

  lemma OneStranded(w: World, e: Evicted, home: CellPos)
    requires w.At(home).None?
    ensures Stranded(w, [e], [home]) == {e.pos}
  {
    assert [e][0].pos in Stranded(w, [e], [home]);
  }

  lemma SumOfOne(p: CellPos, f: CellPos -> nat)
    ensures SumOver({p}, f) == f(p)
  {
    SumSplits({p}, f, p);
    assert {p} - {p} == {};
  }

  lemma SumOfNone(places: set<CellPos>, f: CellPos -> nat)
    requires places == {}
    ensures SumOver(places, f) == 0
  {
  }

  function OneCellBody(stone: MaterialId, at: CellPos): (b: Body)
    ensures WellFormed(b) && b.raster == [at]
  {
    NewBody(1, [Slot((0, 0), stone)], [at])
  }

  // A grain lies where a body is that does not own its cell: once the body has stepped aside, the
  // grain is gone.
  lemma GrainUnderABodyIsLost(stone: MaterialId, grain: Cell, from: CellPos, to: CellPos)
    requires Bondable(stone) && grain.motion.Velocity? && !grain.IsAir() && from != to && from.Chunk() == to.Chunk()
    ensures LosesOne(
      OneCell(from, grain), OneCellBody(stone, from), [ShapeCell(to, stone, 0)], Plan([], [from], []), grain.Visible())
  {
    SteppingOffAGrain(OneCell(from, grain), OneCellBody(stone, from), from, ShapeCell(to, stone, 0), grain);
  }

  // A body beyond the edge of the loaded world steps over a fluid, and leaves it a home where no
  // chunk is loaded: the fluid is gone.
  lemma FluidAtTheEdgeIsLost(stone: MaterialId, fluid: Cell, from: CellPos, to: CellPos)
    requires Bondable(stone) && fluid.motion.Velocity? && Fluid(fluid) && from.Chunk() != to.Chunk()
    ensures LosesOne(
      OneCell(to, fluid), OneCellBody(stone, from), [ShapeCell(to, stone, 0)], Plan([Evicted(to, fluid)], [from], [from]),
      fluid.Visible())
  {
    SteppingInFromTheEdge(OneCell(to, fluid), OneCellBody(stone, from), from, ShapeCell(to, stone, 0), fluid);
  }
}
