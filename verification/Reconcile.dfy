// Bringing the bodies back in line with the cells they still have (reconcile,
// reconcile_body and derive_part of crates/fallingsand_sim/src/body/mod.rs).
module Reconcile {
  import opened Wrappers
  import opened Materials
  import opened Cells
  import opened Coords
  import opened Worlds
  import opened Numbers
  import opened BodyState
  import opened Parts
  import Rotation

  // ------------------------------------------------------------- the survivors

  predicate Survives(w: World, b: Body, i: nat)
    requires i < |b.raster|
  {
    TaggedBy(w, b.raster[i], b.id) && Bondable(w.At(b.raster[i]).value.material)
  }

  function Survivors(w: World, b: Body, n: nat): seq<nat>
    requires n <= |b.raster|
  {
    if n == 0 then [] else Survivors(w, b, n - 1) + if Survives(w, b, n - 1) then [n - 1] else []
  }

  lemma {:induction false} SurvivorsAreThose(w: World, b: Body, n: nat)
    requires n <= |b.raster|
    ensures forall m | 0 <= m < |Survivors(w, b, n)| :: Survivors(w, b, n)[m] < n && Survives(w, b, Survivors(w, b, n)[m])
    ensures forall i | 0 <= i < n && Survives(w, b, i) :: i in Survivors(w, b, n)
    ensures forall l, m | 0 <= l < m < |Survivors(w, b, n)| :: Survivors(w, b, n)[l] < Survivors(w, b, n)[m]
  {
    if n > 0 {
      SurvivorsAreThose(w, b, n - 1);
    }
  }

  // The slots of the survivors, with the materials the world has now, and their places.
  function SurvivorSlots(w: World, b: Body, n: nat): seq<Slot>
    requires n <= |b.raster| && |b.slots| == |b.raster|
  {
    if n == 0 then []
    else if Survives(w, b, n - 1) then
      SurvivorSlots(w, b, n - 1) + [Slot(b.slots[n - 1].local, w.At(b.raster[n - 1]).value.material)]
    else SurvivorSlots(w, b, n - 1)
  }

  function SurvivorPlaces(w: World, b: Body, n: nat): seq<CellPos>
    requires n <= |b.raster|
  {
    if n == 0 then []
    else if Survives(w, b, n - 1) then SurvivorPlaces(w, b, n - 1) + [b.raster[n - 1]]
    else SurvivorPlaces(w, b, n - 1)
  }

  lemma {:induction false} SurvivorsCorrespond(w: World, b: Body, n: nat)
    requires n <= |b.raster| && |b.slots| == |b.raster|
    ensures |SurvivorSlots(w, b, n)| == |SurvivorPlaces(w, b, n)| == |Survivors(w, b, n)|
    ensures forall m | 0 <= m < |Survivors(w, b, n)| ::
      var k := Survivors(w, b, n)[m];
      && k < n && Survives(w, b, k) && SurvivorPlaces(w, b, n)[m] == b.raster[k]
      && SurvivorSlots(w, b, n)[m] == Slot(b.slots[k].local, w.At(b.raster[k]).value.material)
  {
    if n > 0 {
      SurvivorsCorrespond(w, b, n - 1);
      var before, after := Survivors(w, b, n - 1), Survivors(w, b, n);
      forall m | 0 <= m < |after|
        ensures Corresponds(w, b, n, m)
      {
        if m < |before| {
          assert Corresponds(w, b, n - 1, m);
          assert after[m] == before[m] && SurvivorPlaces(w, b, n)[m] == SurvivorPlaces(w, b, n - 1)[m];
        }
      }
    }
  }

  ghost predicate Corresponds(w: World, b: Body, n: nat, m: nat)
    requires n <= |b.raster| && |b.slots| == |b.raster| && m < |Survivors(w, b, n)|
    requires |SurvivorSlots(w, b, n)| == |SurvivorPlaces(w, b, n)| == |Survivors(w, b, n)|
  {
    var k := Survivors(w, b, n)[m];
    && k < n && Survives(w, b, k) && SurvivorPlaces(w, b, n)[m] == b.raster[k]
    && SurvivorSlots(w, b, n)[m] == Slot(b.slots[k].local, w.At(b.raster[k]).value.material)
  }

  predicate Changed(w: World, b: Body, n: nat)
    requires n <= |b.raster| && |b.slots| == |b.raster|
  {
    n > 0 && (Changed(w, b, n - 1) || !Holds(w, b, n - 1))
  }

  lemma {:induction false} ChangedMeansNotOwned(w: World, b: Body, n: nat)
    requires n <= |b.raster| && |b.slots| == |b.raster|
    ensures Changed(w, b, n) <==> exists i | 0 <= i < n :: !Holds(w, b, i)
  {
    if n > 0 {
      ChangedMeansNotOwned(w, b, n - 1);
      if Changed(w, b, n - 1) {
        var i :| 0 <= i < n - 1 && !Holds(w, b, i);
        assert 0 <= i < n;
      }
    }
  }

  datatype Survey = Missing(chunk: ChunkPos) | Found(survivors: seq<Slot>, places: seq<CellPos>, changed: bool)

  // The world while the first n cells have been surveyed.
  ghost predicate Surveyed(w: World, v: World, b: Body, n: nat)
    requires n <= |b.raster|
  {
    && Releases(w, v, b.id)
    && (forall i | n <= i < |b.raster| :: w.Tagged(b.raster[i]) ==> v.At(b.raster[i]) == w.At(b.raster[i]))
  }

  // A look at one cell: gone, freed because its material no longer bonds, or kept.
  method SurveyCell(world: CellWorld, b: Body, n: nat, ghost w: World)
    returns (kept: Option<Cell>)
    requires n < |b.raster| && Surveyed(w, world.View(), b, n) && w.At(b.raster[n]).Some?
    requires forall i, j | 0 <= i < j < |b.raster| :: b.raster[i] != b.raster[j]
    modifies world`chunks, world`unseated
    ensures Surveyed(w, world.View(), b, n + 1)
    ensures kept.Some? <==> Survives(w, b, n)
    ensures kept.Some? ==> kept == w.At(b.raster[n]) && world.View() == old(world.View())
  {
    ghost var before := world.View();
    SameMatterSameLoaded(w, before, b.raster[n]);
    var cell := world.GetCell(b.raster[n]);
    if cell.value.motion != Motion.Body(b.id) {
      return None;
    }
    if !Bondable(cell.value.material) {
      Release(world, b.id, b.raster[n]);
      ReleasesTransitive(w, before, world.View(), b.id);
      return None;
    }
    kept := cell;
  }

  // The first n cells looked at, with what was found.
  ghost predicate Surveying(
    w: World, v: World, b: Body, n: nat, survivors: seq<Slot>, places: seq<CellPos>, changed: bool)
    requires n <= |b.raster| && |b.slots| == |b.raster|
  {
    match w
    case World(_, _) =>
      && Surveyed(w, v, b, n) && survivors == SurvivorSlots(w, b, n) && places == SurvivorPlaces(w, b, n)
      && changed == Changed(w, b, n) && (!changed ==> v == w)
  }

  // The survey of the first n cells taken one cell further.
  method SurveyNext(
    world: CellWorld, b: Body, n: nat, ghost w: World, survivors: seq<Slot>, places: seq<CellPos>, changed: bool)
    returns (survivors': seq<Slot>, places': seq<CellPos>, changed': bool)
    requires |b.slots| == |b.raster| && forall i, j | 0 <= i < j < |b.raster| :: b.raster[i] != b.raster[j]
    requires n < |b.raster| && w.At(b.raster[n]).Some?
    requires Surveying(w, world.View(), b, n, survivors, places, changed)
    modifies world`chunks, world`unseated
    ensures Surveying(w, world.View(), b, n + 1, survivors', places', changed')
  {
    survivors', places', changed' := survivors, places, changed;
    var kept := SurveyCell(world, b, n, w);
    if kept.None? || kept.value.material != b.slots[n].material {
      changed' := true;
    }
    if kept.Some? {
      survivors' := survivors + [Slot(b.slots[n].local, kept.value.material)];
      places' := places + [b.raster[n]];
    }
  }

  method SurveyBody(world: CellWorld, b: Body) returns (survey: Survey)
    requires |b.slots| == |b.raster| && forall i, j | 0 <= i < j < |b.raster| :: b.raster[i] != b.raster[j]
    modifies world`chunks, world`unseated
    ensures Releases(old(world.View()), world.View(), b.id)
    ensures survey.Missing? <==> !FullyLoaded(old(world.View()), b)
    ensures survey.Missing? ==> exists i | 0 <= i < |b.raster| ::
      old(world.View()).At(b.raster[i]).None? && survey.chunk == b.raster[i].Chunk()
    ensures survey.Found? ==> survey.survivors == SurvivorSlots(old(world.View()), b, |b.raster|)
    ensures survey.Found? ==> survey.places == SurvivorPlaces(old(world.View()), b, |b.raster|)
    ensures survey.Found? ==> (survey.changed <==> !Owned(old(world.View()), b))
    ensures survey.Found? && !survey.changed ==> world.View() == old(world.View())
  {
    ghost var w := world.View();
    var survivors: seq<Slot>, places: seq<CellPos>, changed := [], [], false;
    ReleasesReflexive(w, b.id);
    for n := 0 to |b.raster|
      invariant Surveying(w, world.View(), b, n, survivors, places, changed)
      invariant forall i | 0 <= i < n :: w.At(b.raster[i]).Some?
    {
      var loaded := world.GetCell(b.raster[n]);
      SameMatterSameLoaded(w, world.View(), b.raster[n]);
      if loaded.None? {
        return Missing(b.raster[n].Chunk());
      }
      survivors, places, changed := SurveyNext(world, b, n, w, survivors, places, changed);
    }
    ChangedMeansNotOwned(w, b, |b.raster|);
    survey := Found(survivors, places, changed);
  }

  // ------------------------------------------------------------- derived parts

  // Spin::speed_at
  function SpeedAt(spin: int, lever: int): int {
    RoundDiv(710 * spin * lever, 0x10_0000 * 113)
  }

  function RotatedSum(slots: seq<Slot>, step: Rotation.Step, com: (int, int)): (int, int) {
    if slots == [] then (0, 0)
    else
      var last := slots[|slots| - 1];
      var before := RotatedSum(slots[..|slots| - 1], step, com);
      var at := Rotation.RotatedBy(
        Rotation.SHEARS, step, Rotation.Point(com.0, com.1), Rotation.Point(last.local.0, last.local.1));
      (before.0 + Heaviness(last.material) * at.x, before.1 + Heaviness(last.material) * at.y)
  }

  // The centre of mass in the world, from the cells as they are rotated.
  function Center(slots: seq<Slot>, step: Rotation.Step, anchor: CellPos, inertia: Inertia): (int, int)
    requires inertia.mass > 0
  {
    var sum := RotatedSum(slots, step, inertia.localCom);
    (anchor.x * CELL + CELL / 2 + RoundDiv(sum.0 * CELL, inertia.mass),
     anchor.y * CELL + CELL / 2 + RoundDiv(sum.1 * CELL, inertia.mass))
  }

  function Com(b: Body): (int, int)
    requires b.inertia.mass > 0
  {
    Center(b.slots, b.step, b.anchor, b.inertia)
  }

  // A part is at its reference pose and moves on as the whole did at the place where its centre of
  // mass is; it turns on if it can turn, and only the part with the old id keeps what had accumulated.
  ghost predicate MovesAlong(part: Body, source: Body, com: (int, int))
    requires part.inertia.mass > 0
  {
    && AtReference(part) && GoesOn(part, source)
    && part.vx == source.vx - SpeedAt(source.spin, Com(part).1 - com.1)
    && part.vy == source.vy + SpeedAt(source.spin, Com(part).0 - com.0)
  }

  ghost predicate GoesOn(part: Body, source: Body) {
    && part.spin == (if CanTurn(part) then source.spin else 0)
    && (part.accX, part.accY) == (if part.id == source.id then (source.accX, source.accY) else (0, 0))
    && part.accTurn == (if part.id == source.id && CanTurn(part) then source.accTurn else 0)
    && part.carried == source.carried && part.weight == source.weight && !part.parked
    && part.settles == source.settles && part.assists == source.assists && part.turns == source.turns
  }

  predicate CanTurn(b: Body) {
    b.turns && |b.slots| > 1
  }

  method RebasePart(source: Body, id: BodyId, slots: seq<Slot>, raster: seq<CellPos>) returns (part: Body)
    requires |slots| == |raster| && slots != []
    requires forall i, j | 0 <= i < j < |raster| :: raster[i] != raster[j]
    ensures WellFormed(part) && part.id == id && part.raster == raster && AtReference(part)
    ensures forall i | 0 <= i < |slots| :: part.slots[i].material == slots[i].material
    ensures part.inertia.mass == MassOf(slots) && |part.slots| == |slots|
    ensures GoesOn(part, source)
  {
    var own := id == source.id;
    part := source.(
      id := id, slots := slots, raster := raster, parked := false,
      accX := if own then source.accX else 0,
      accY := if own then source.accY else 0,
      accTurn := if own then source.accTurn else 0);
    RebasedIsWellFormed(part);
    RebasedIsAtReference(part);
    part := RebasedPose(part);
    PosingKeepsMass(part.slots, slots);
  }

  method DerivePart(source: Body, com: (int, int), id: BodyId, slots: seq<Slot>, raster: seq<CellPos>)
    returns (part: Body)
    requires |slots| == |raster| && slots != []
    requires forall i, j | 0 <= i < j < |raster| :: raster[i] != raster[j]
    ensures WellFormed(part) && part.id == id && part.raster == raster
    ensures forall i | 0 <= i < |slots| :: part.slots[i].material == slots[i].material
    ensures part.inertia.mass == MassOf(slots) && MovesAlong(part, source, com)
  {
    var rebased := RebasePart(source, id, slots, raster);
    var center := Com(rebased);
    var vx := source.vx - SpeedAt(source.spin, center.1 - com.1);
    var vy := source.vy + SpeedAt(source.spin, center.0 - com.0);
    part := rebased.(vx := vx, vy := vy);
    FasterInPlace(rebased, vx, vy);
    assert GoesOn(part, source);
  }

  lemma FasterInPlace(b: Body, vx: int, vy: int)
    requires AtReference(b) && WellFormed(b)
    ensures var c := b.(vx := vx, vy := vy);
      AtReference(c) && WellFormed(c) && c.inertia.mass == b.inertia.mass && (b.inertia.mass > 0 ==> Com(c) == Com(b))
  {
    var c := b.(vx := vx, vy := vy);
    forall i | 0 <= i < |c.slots|
      ensures SlotOnRaster(c, i)
    {
      assert SlotOnRaster(b, i);
    }
  }

  // ------------------------------------------------------- one body reconciled

  class BodyIds {
    var next: BodyId

    constructor (first: BodyId)
      ensures next == first
    {
      next := first;
    }

    method Allocate() returns (id: BodyId)
      modifies this
      ensures id == old(next) && next == old(next) + 1
    {
      id := next;
      next := next + 1;
    }
  }

  datatype Reconciled = Intact | Parked(chunk: ChunkPos) | Gone | Parts(parts: seq<Body>)

  // The parts are the bonded components of the survivors, each with its cells and mass.
  ghost predicate PartsOf(parts: seq<Body>, slots: seq<Slot>, places: seq<CellPos>, labels: Labels)
    requires |labels| == |slots| == |places|
  {
    forall k | 0 <= k < |parts| :: PartIs(parts[k], slots, places, labels, k)
  }

  ghost predicate PartIs(part: Body, slots: seq<Slot>, places: seq<CellPos>, labels: Labels, k: nat)
    requires |labels| == |slots| == |places|
  {
    MembersAreThose(labels, k);
    && WellFormed(part) && !part.parked
    && part.raster == Pick(places, Members(labels, k))
    && part.inertia.mass == PartMass(slots, labels, k)
    && |part.slots| == |Members(labels, k)|
    && forall n | 0 <= n < |part.slots| :: part.slots[n].material == slots[Members(labels, k)[n]].material
  }

  // Ids of the parts: the body keeps its own for the first, the others get fresh ones.
  ghost predicate PartIds(parts: seq<Body>, id: BodyId, first: BodyId) {
    forall k | 0 <= k < |parts| :: parts[k].id == if k == 0 then id else first + k - 1
  }

  // The body's survivors, split exactly.
  ghost predicate SplitOf(w: World, b: Body, parts: seq<Body>, labels: Labels)
    requires |b.slots| == |b.raster|
  {
    SurvivorsCorrespond(w, b, |b.raster|);
    var slots, places := SurvivorSlots(w, b, |b.raster|), SurvivorPlaces(w, b, |b.raster|);
    && RightLabels(slots, labels, |parts|) && labels != [] && labels[0] == Some(0)
    && PartsOf(parts, slots, places, labels)
  }

  method CollectPart(survivors: seq<Slot>, places: seq<CellPos>, labels: Labels, part: nat)
    returns (slots: seq<Slot>, raster: seq<CellPos>)
    requires |labels| == |survivors| == |places|
    ensures |slots| == |raster| == |Members(labels, part)|
    ensures forall n | 0 <= n < |Members(labels, part)| ::
      Members(labels, part)[n] < |survivors|
      && slots[n] == survivors[Members(labels, part)[n]] && raster[n] == places[Members(labels, part)[n]]
  {
    slots, raster := [], [];
    for i := 0 to |survivors|
      invariant |slots| == |raster| == |Members(labels[..i], part)|
      invariant forall n | 0 <= n < |slots| ::
        Members(labels[..i], part)[n] < i
        && slots[n] == survivors[Members(labels[..i], part)[n]] && raster[n] == places[Members(labels[..i], part)[n]]
    {
      assert labels[..i + 1][..i] == labels[..i];
      if labels[i] == Some(part) {
        slots := slots + [survivors[i]];
        raster := raster + [places[i]];
      }
    }
    assert labels[..|survivors|] == labels;
  }

  method BuildPart(
    b: Body, com: (int, int), id: BodyId, survivors: seq<Slot>, places: seq<CellPos>, labels: Labels, parts: nat, k: nat)
    returns (part: Body)
    requires |labels| == |survivors| == |places| && RightLabels(survivors, labels, parts) && k < parts
    requires forall i, j | 0 <= i < j < |places| :: places[i] != places[j]
    ensures PartIs(part, survivors, places, labels, k) && part.id == id
    ensures part.inertia.mass > 0 && MovesAlong(part, b, com)
  {
    var slots, raster := CollectPart(survivors, places, labels, k);
    MembersAreThose(labels, k);
    PartWeighsItsMembers(survivors, labels, k);
    assert slots == SlotsOf(survivors, labels, k);
    assert raster == Pick(places, Members(labels, k));
    var i :| 0 <= i < |labels| && labels[i] == Some(k);
    assert i in Members(labels, k);
    part := DerivePart(b, com, id, slots, raster);
  }

  lemma PlacesAreDistinct(w: World, b: Body)
    requires |b.slots| == |b.raster| && forall i, j | 0 <= i < j < |b.raster| :: b.raster[i] != b.raster[j]
    ensures forall i, j | 0 <= i < j < |SurvivorPlaces(w, b, |b.raster|)| ::
      SurvivorPlaces(w, b, |b.raster|)[i] != SurvivorPlaces(w, b, |b.raster|)[j]
  {
    SurvivorsCorrespond(w, b, |b.raster|);
    SurvivorsAreThose(w, b, |b.raster|);
  }

  lemma SlotPlacesAreDistinct(w: World, b: Body)
    requires WellFormed(b)
    ensures DistinctPlaces(SurvivorSlots(w, b, |b.raster|))
  {
    SurvivorsCorrespond(w, b, |b.raster|);
    SurvivorsAreThose(w, b, |b.raster|);
  }

  method BuildParts(b: Body, ids: BodyIds, survivors: seq<Slot>, places: seq<CellPos>)
    returns (parts: seq<Body>, ghost labels: Labels)
    requires b.inertia.mass > 0 && |survivors| == |places| && survivors != [] && DistinctPlaces(survivors)
    requires forall i, j | 0 <= i < j < |places| :: places[i] != places[j]
    modifies ids
    ensures parts != [] && |labels| == |survivors| && RightLabels(survivors, labels, |parts|) && labels[0] == Some(0)
    ensures PartsOf(parts, survivors, places, labels)
    ensures PartIds(parts, b.id, old(ids.next)) && ids.next == old(ids.next) + |parts| - 1
    ensures forall k | 0 <= k < |parts| :: parts[k].inertia.mass > 0 && MovesAlong(parts[k], b, Com(b))
  {
    var found, count := LabelParts(survivors);
    labels := found;
    var com := Com(b);
    parts := [];
    for k := 0 to count
      invariant |parts| == k && Derived(b, parts, survivors, places, found, old(ids.next))
      invariant ids.next == old(ids.next) + if k == 0 then 0 else k - 1
    {
      var id := b.id;
      if k > 0 {
        id := ids.Allocate();
      }
      var part := BuildPart(b, com, id, survivors, places, found, count, k);
      DerivedNext(b, parts, part, survivors, places, found, old(ids.next));
      parts := parts + [part];
    }
  }

  // The first parts of b, as they are built.
  ghost predicate Derived(
    b: Body, parts: seq<Body>, slots: seq<Slot>, places: seq<CellPos>, labels: Labels, first: BodyId)
    requires |labels| == |slots| == |places| && b.inertia.mass > 0
  {
    match b.anchor
    case CellPos(_, _) =>
      && PartsOf(parts, slots, places, labels) && PartIds(parts, b.id, first)
      && forall k | 0 <= k < |parts| :: parts[k].inertia.mass > 0 && MovesAlong(parts[k], b, Com(b))
  }

  lemma DerivedNext(
    b: Body, parts: seq<Body>, part: Body, slots: seq<Slot>, places: seq<CellPos>, labels: Labels, first: BodyId)
    requires |labels| == |slots| == |places| && b.inertia.mass > 0 && Derived(b, parts, slots, places, labels, first)
    requires PartIs(part, slots, places, labels, |parts|) && part.inertia.mass > 0 && MovesAlong(part, b, Com(b))
    requires part.id == if parts == [] then b.id else first + |parts| - 1
    ensures Derived(b, parts + [part], slots, places, labels, first)
  {
  }

  method ReconcileBody(world: CellWorld, b: Body, ids: BodyIds) returns (r: Reconciled, ghost labels: Labels)
    requires WellFormed(b) && b.inertia.mass > 0
    modifies world`chunks, world`unseated, ids
    ensures Releases(old(world.View()), world.View(), b.id)
    ensures r.Parked? <==> !FullyLoaded(old(world.View()), b)
    ensures r.Intact? <==> Owned(old(world.View()), b)
    ensures r.Intact? ==> world.View() == old(world.View())
    ensures r.Gone? <==> FullyLoaded(old(world.View()), b) && Survivors(old(world.View()), b, |b.raster|) == []
    ensures r.Parts? ==> r.parts != [] && SplitOf(old(world.View()), b, r.parts, labels)
    ensures r.Parts? ==> TotalMass(r.parts) == MassOf(SurvivorSlots(old(world.View()), b, |b.raster|))
    ensures r.Parts? ==> PartIds(r.parts, b.id, old(ids.next)) && ids.next == old(ids.next) + |r.parts| - 1
    ensures !r.Parts? ==> ids.next == old(ids.next)
    ensures r.Parts? ==> forall k | 0 <= k < |r.parts| :: r.parts[k].inertia.mass > 0 && MovesAlong(r.parts[k], b, Com(b))
  {
    ghost var w := world.View();
    labels := [];
    var survey := SurveyBody(world, b);
    SurvivorsCorrespond(w, b, |b.raster|);
    match survey {
      case Missing(chunk) =>
        r := Parked(chunk);
        OwnedIsLoaded(w, b);
      case Found(survivors, places, changed) =>
        if survivors == [] {
          r := Reconciled.Gone;
          NoSurvivorsNotOwned(w, b);
        } else if !changed {
          r := Intact;
        } else {
          PlacesAreDistinct(w, b);
          SlotPlacesAreDistinct(w, b);
          var parts;
          parts, labels := BuildParts(b, ids, survivors, places);
          SplitKeepsMass(w, b, parts, labels);
          r := Parts(parts);
        }
    }
  }

  lemma OwnedIsLoaded(w: World, b: Body)
    requires |b.slots| == |b.raster|
    ensures Owned(w, b) ==> FullyLoaded(w, b)
  {
    if Owned(w, b) {
      forall i | 0 <= i < |b.raster|
        ensures w.At(b.raster[i]).Some?
      {
        assert Holds(w, b, i);
      }
    }
  }

  lemma NoSurvivorsNotOwned(w: World, b: Body)
    requires WellFormed(b) && Survivors(w, b, |b.raster|) == []
    ensures !Owned(w, b)
  {
    SurvivorsAreThose(w, b, |b.raster|);
    assert !Survives(w, b, 0);
    assert !Holds(w, b, 0);
  }

  // -------------------------------------------------------------- all bodies

  datatype Fracture = Fracture(source: BodyId, anchor: CellPos, parts: seq<BodyId>)

  // Bodies as the simulation keeps them: sound, with distinct ids below the next one.
  ghost predicate Sane(bodies: seq<Body>, next: BodyId) {
    && (forall i | 0 <= i < |bodies| :: WellFormed(bodies[i]) && bodies[i].inertia.mass > 0 && bodies[i].id < next)
    && (forall i, j | 0 <= i < j < |bodies| :: bodies[i].id != bodies[j].id)
  }

  // The promise of reconcile: a body all of whose cells are loaded owns all of them.
  ghost predicate Settled(w: World, b: Body)
    requires |b.slots| == |b.raster|
  {
    FullyLoaded(w, b) ==> Owned(w, b)
  }

  // What reconciling body `id` leaves alone: the cells of every other body.
  ghost predicate Spares(w: World, v: World, id: BodyId) {
    && SameMatter(w, v)
    && forall p: CellPos :: w.Tagged(p) && !TaggedBy(w, p, id) ==> v.At(p) == w.At(p)
  }

  // Tags that are new are of bodies that are new.
  ghost predicate NewTags(w: World, v: World, first: BodyId) {
    forall p: CellPos :: v.Tagged(p) && v.At(p) != w.At(p) ==> v.At(p).value.motion.id >= first
  }

  // The cells of body `id` are the same in both worlds.
  ghost predicate Untouched(w: World, v: World, id: BodyId) {
    && v.chunks.Keys == w.chunks.Keys
    && forall p: CellPos :: TaggedBy(w, p, id) || TaggedBy(v, p, id) ==> v.At(p) == w.At(p)
  }

  lemma UntouchedStep(w0: World, w: World, v: World, id: BodyId, other: BodyId, first: BodyId)
    requires Untouched(w0, w, id) && Spares(w, v, other) && NewTags(w, v, first) && other != id && id < first
    ensures Untouched(w0, v, id)
  {
    forall p: CellPos | TaggedBy(w0, p, id) || TaggedBy(v, p, id)
      ensures v.At(p) == w0.At(p)
    {
      assert TaggedBy(w, p, id);
    }
  }

  lemma {:induction false} UntouchedSurvivors(w: World, v: World, b: Body, n: nat)
    requires Untouched(w, v, b.id) && n <= |b.raster| && |b.slots| == |b.raster|
    ensures Survivors(v, b, n) == Survivors(w, b, n) && SurvivorPlaces(v, b, n) == SurvivorPlaces(w, b, n)
    ensures SurvivorSlots(v, b, n) == SurvivorSlots(w, b, n)
  {
    if n > 0 {
      UntouchedSurvivors(w, v, b, n - 1);
    }
  }

  // What becomes of a body: it stays as it is, is noted as parked, is gone, or is split.
  datatype Fate = Kept | Noted | Gone | Split(parts: seq<Body>, labels: Labels)

  function TotalMass(bodies: seq<Body>): int {
    if bodies == [] then 0 else TotalMass(bodies[..|bodies| - 1]) + bodies[|bodies| - 1].inertia.mass
  }

  lemma {:induction false} PartsWeighTheirLabels(
    parts: seq<Body>, slots: seq<Slot>, places: seq<CellPos>, labels: Labels, n: nat)
    requires |labels| == |slots| == |places| && PartsOf(parts, slots, places, labels) && n <= |parts|
    ensures TotalMass(parts[..n]) == MassOfParts(slots, labels, n)
  {
    if n > 0 {
      PartsWeighTheirLabels(parts, slots, places, labels, n - 1);
      assert parts[..n][..n - 1] == parts[..n - 1];
      assert PartIs(parts[n - 1], slots, places, labels, n - 1);
    }
  }

  // The parts of a split weigh together what the survivors weigh.
  lemma SplitKeepsMass(w: World, b: Body, parts: seq<Body>, labels: Labels)
    requires |b.slots| == |b.raster| && SplitOf(w, b, parts, labels)
    ensures TotalMass(parts) == MassOf(SurvivorSlots(w, b, |b.raster|))
  {
    SurvivorsCorrespond(w, b, |b.raster|);
    var slots, places := SurvivorSlots(w, b, |b.raster|), SurvivorPlaces(w, b, |b.raster|);
    PartsWeighTheirLabels(parts, slots, places, labels, |parts|);
    PartsWeighTheWhole(slots, labels, |parts|);
    assert parts[..|parts|] == parts;
  }

  // The fate that is right for a body in a world.
  ghost predicate RightFate(w: World, b: Body, fate: Fate)
    requires |b.slots| == |b.raster| && b.inertia.mass > 0
  {
    match fate
    case Kept => Owned(w, b)
    case Noted => !FullyLoaded(w, b)
    case Gone => FullyLoaded(w, b) && Survivors(w, b, |b.raster|) == []
    case Split(parts, labels) =>
      && FullyLoaded(w, b) && !Owned(w, b) && SplitOf(w, b, parts, labels)
      && parts != [] && parts[0].id == b.id && TotalMass(parts) == MassOf(SurvivorSlots(w, b, |b.raster|))
      && forall k | 0 <= k < |parts| :: parts[k].inertia.mass > 0 && MovesAlong(parts[k], b, Com(b))
  }

  lemma FateCarries(w: World, v: World, b: Body, fate: Fate)
    requires |b.slots| == |b.raster| && b.inertia.mass > 0 && Untouched(w, v, b.id) && RightFate(v, b, fate)
    ensures RightFate(w, b, fate)
  {
    UntouchedSurvivors(w, v, b, |b.raster|);
    forall i | 0 <= i < |b.raster|
      ensures Holds(w, b, i) <==> Holds(v, b, i)
      ensures w.At(b.raster[i]).Some? <==> v.At(b.raster[i]).Some?
    {
    }
    assert Owned(w, b) <==> Owned(v, b) by {
      if Owned(v, b) {
        assert forall i | 0 <= i < |b.raster| :: Holds(v, b, i);
      }
      if Owned(w, b) {
        assert forall i | 0 <= i < |b.raster| :: Holds(w, b, i);
      }
    }
  }

  // What stands in a body's place afterwards, what is appended, and what is reported.
  function Stands(b: Body, fate: Fate): seq<Body> {
    match fate
    case Kept => [b]
    case Noted => [b.(parked := true)]
    case Gone => []
    case Split(parts, _) => if parts == [] then [] else [parts[0]]
  }

  function Extra(fate: Fate): seq<Body> {
    if fate.Split? && fate.parts != [] then fate.parts[1..] else []
  }

  function Report(b: Body, fate: Fate): seq<Fracture> {
    match fate
    case Kept => []
    case Noted => []
    case Gone => [Fracture(b.id, b.anchor, [])]
    case Split(parts, _) => [Fracture(b.id, b.anchor, IdsOf(parts))]
  }

  function InPlace(bodies: seq<Body>, fates: seq<Fate>): seq<Body>
    requires |fates| == |bodies|
  {
    if bodies == [] then []
    else
      var last := |bodies| - 1;
      InPlace(bodies[..last], fates[..last]) + Stands(bodies[last], fates[last])
  }

  function Extras(fates: seq<Fate>): seq<Body> {
    if fates == [] then [] else Extras(fates[..|fates| - 1]) + Extra(fates[|fates| - 1])
  }

  function Reports(bodies: seq<Body>, fates: seq<Fate>): seq<Fracture>
    requires |fates| == |bodies|
  {
    if bodies == [] then []
    else
      var last := |bodies| - 1;
      Reports(bodies[..last], fates[..last]) + Report(bodies[last], fates[last])
  }

  // The list when the first of the bodies have met their fates.
  function Assembled(bodies: seq<Body>, fates: seq<Fate>): seq<Body>
    requires |fates| <= |bodies|
  {
    InPlace(bodies[..|fates|], fates) + bodies[|fates|..] + Extras(fates)
  }

  lemma AssembledNext(bodies: seq<Body>, fates: seq<Fate>, fate: Fate, now: seq<Body>, index: nat)
    requires |fates| < |bodies| && now == Assembled(bodies, fates) && index == |InPlace(bodies[..|fates|], fates)|
    ensures index < |now| && now[index] == bodies[|fates|]
    ensures Assembled(bodies, fates + [fate])
      == now[..index] + Stands(bodies[|fates|], fate) + now[index + 1..] + Extra(fate)
    ensures |InPlace(bodies[..|fates| + 1], fates + [fate])| == index + |Stands(bodies[|fates|], fate)|
    ensures Reports(bodies[..|fates| + 1], fates + [fate]) == Reports(bodies[..|fates|], fates) + Report(bodies[|fates|], fate)
  {
    var k := |fates|;
    var more := fates + [fate];
    assert more[..k] == fates && bodies[..k + 1][..k] == bodies[..k];
    var front, back := InPlace(bodies[..k], fates), Extras(fates);
    assert now[..index] == front && now[index] == bodies[k];
    assert now[index + 1..] == bodies[k + 1..] + back;
    Rearranged(front, Stands(bodies[k], fate), bodies[k + 1..], back, Extra(fate));
  }

  lemma Rearranged(a: seq<Body>, b: seq<Body>, c: seq<Body>, d: seq<Body>, e: seq<Body>)
    ensures (a + b) + c + (d + e) == a + b + (c + d) + e
  {
  }

  lemma SparedBodiesStaySettled(w: World, v: World, id: BodyId, b: Body)
    requires Spares(w, v, id) && b.id != id && |b.slots| == |b.raster|
    ensures Owned(w, b) ==> Owned(v, b)
    ensures Settled(w, b) ==> Settled(v, b)
    ensures FullyLoaded(w, b) <==> FullyLoaded(v, b)
  {
    forall i | 0 <= i < |b.raster|
      ensures Holds(w, b, i) ==> Holds(v, b, i)
      ensures w.At(b.raster[i]).Some? <==> v.At(b.raster[i]).Some?
    {
      SameMatterSameLoaded(w, v, b.raster[i]);
    }
    if Owned(w, b) {
      forall i | 0 <= i < |b.raster|
        ensures Holds(v, b, i)
      {
        assert Holds(w, b, i);
      }
    }
  }

  lemma ReleasesSpares(w: World, v: World, id: BodyId)
    requires Releases(w, v, id)
    ensures Spares(w, v, id)
  {
  }

  lemma NewTagsTransitive(a: World, b: World, c: World, first: BodyId)
    requires NewTags(a, b, first) && NewTags(b, c, first)
    ensures NewTags(a, c, first)
  {
  }

  lemma SparesTransitive(a: World, b: World, c: World, id: BodyId)
    requires Spares(a, b, id) && Spares(b, c, id)
    ensures Spares(a, c, id)
  {
    forall p: CellPos | a.Tagged(p) && !TaggedBy(a, p, id)
      ensures c.At(p) == a.At(p)
    {
      assert b.At(p) == a.At(p) && b.Tagged(p);
    }
  }

  // The part's cells as the world has them, still under the old body's id.
  ghost predicate Held(w: World, part: Body, id: BodyId)
    requires |part.slots| == |part.raster|
  {
    forall i | 0 <= i < |part.raster| ::
      TaggedBy(w, part.raster[i], id) && Bondable(w.At(part.raster[i]).value.material)
      && w.At(part.raster[i]).value.material == part.slots[i].material
  }

  // After the survey every part holds its cells under the old id.
  lemma PartsAreHeld(w: World, v: World, b: Body, parts: seq<Body>, labels: Labels, k: nat)
    requires |b.slots| == |b.raster| && SplitOf(w, b, parts, labels) && Releases(w, v, b.id) && k < |parts|
    ensures |parts[k].slots| == |parts[k].raster| && Held(v, parts[k], b.id)
  {
    SurvivorsCorrespond(w, b, |b.raster|);
    SurvivorsAreThose(w, b, |b.raster|);
    MembersAreThose(labels, k);
    var slots, places := SurvivorSlots(w, b, |b.raster|), SurvivorPlaces(w, b, |b.raster|);
    assert PartIs(parts[k], slots, places, labels, k);
    forall n | 0 <= n < |parts[k].raster|
      ensures TaggedBy(v, parts[k].raster[n], b.id) && Bondable(v.At(parts[k].raster[n]).value.material)
      ensures v.At(parts[k].raster[n]).value.material == parts[k].slots[n].material
    {
      var m := Members(labels, k)[n];
      var i := Survivors(w, b, |b.raster|)[m];
      assert Survives(w, b, i) && places[m] == b.raster[i] && parts[k].raster[n] == places[m];
    }
  }

  // Two parts share no cell.
  lemma PartsAreApart(w: World, b: Body, parts: seq<Body>, labels: Labels, k: nat, l: nat, m: nat, n: nat)
    requires WellFormed(b) && SplitOf(w, b, parts, labels) && k < |parts| && l < |parts| && k != l
    requires m < |parts[k].raster| && n < |parts[l].raster|
    ensures parts[k].raster[m] != parts[l].raster[n]
  {
    SurvivorsCorrespond(w, b, |b.raster|);
    PlacesAreDistinct(w, b);
    MembersAreThose(labels, k);
    MembersAreThose(labels, l);
    var slots, places := SurvivorSlots(w, b, |b.raster|), SurvivorPlaces(w, b, |b.raster|);
    assert PartIs(parts[k], slots, places, labels, k) && PartIs(parts[l], slots, places, labels, l);
    var i, j := Members(labels, k)[m], Members(labels, l)[n];
    assert labels[i] == Some(k) && labels[j] == Some(l);
    assert i != j && places[i] != places[j];
  }

  // Gives the cells of a part that splits off to the part.
  method RetagPart(world: CellWorld, part: Body, retained: BodyId)
    requires WellFormed(part) && Held(world.View(), part, retained) && part.id != retained
    modifies world`chunks, world`unseated
    ensures Spares(old(world.View()), world.View(), retained) && NewTags(old(world.View()), world.View(), part.id)
    ensures Owned(world.View(), part)
    ensures forall p: CellPos | p !in part.raster :: world.View().At(p) == old(world.View()).At(p)
  {
    ghost var w := world.View();
    for n := 0 to |part.raster|
      invariant RetaggedTo(w, world.View(), part, retained, n)
    {
      RetagNext(world, part, retained, n, w);
    }
  }

  // The first n cells have gone to the part, the others are as they were.
  ghost predicate RetaggedTo(w: World, v: World, part: Body, retained: BodyId, n: nat)
    requires WellFormed(part) && n <= |part.raster|
  {
    && Spares(w, v, retained) && NewTags(w, v, part.id)
    && (forall i | 0 <= i < n :: Holds(v, part, i))
    && (forall i | n <= i < |part.raster| :: v.At(part.raster[i]) == w.At(part.raster[i]))
    && (forall p: CellPos | p !in part.raster :: v.At(p) == w.At(p))
  }

  method RetagNext(world: CellWorld, part: Body, retained: BodyId, n: nat, ghost w: World)
    requires WellFormed(part) && Held(w, part, retained) && part.id != retained && n < |part.raster|
    requires RetaggedTo(w, world.View(), part, retained, n)
    modifies world`chunks, world`unseated
    ensures RetaggedTo(w, world.View(), part, retained, n + 1)
  {
    ghost var before := world.View();
    var pos := part.raster[n];
    assert TaggedBy(w, pos, retained);
    var cell := world.GetCell(pos);
    if cell.Some? && cell.value.motion == Motion.Body(retained) {
      Retag(world, pos, cell.value.WithBody(part.id));
      SparesTransitive(w, before, world.View(), retained);
      forall i | 0 <= i < n
        ensures Holds(world.View(), part, i)
      {
        assert Holds(before, part, i) && part.raster[i] != pos;
      }
    }
  }

  class Bodies {
    var bodies: seq<Body>
    var byId: map<BodyId, nat>
    var fractures: seq<Fracture>

    constructor ()
      ensures bodies == [] && byId == map[] && fractures == []
    {
      bodies, byId, fractures := [], map[], [];
    }

    // The parts of a split take the place of the body: the one that keeps its id in place,
    // the others, with their cells, at the end.
    method ReplaceByParts(
      world: CellWorld, index: nat, parts: seq<Body>, ghost w: World, ghost labels: Labels, ghost first: BodyId)
      requires index < |bodies| && Sane(bodies, first) && parts != []
      requires SplitOf(w, bodies[index], parts, labels) && Releases(w, world.View(), bodies[index].id)
      requires PartIds(parts, bodies[index].id, first)
      modifies this`bodies, world`chunks, world`unseated
      ensures bodies == old(bodies)[..index] + [parts[0]] + old(bodies)[index + 1..] + parts[1..]
      ensures Spares(w, world.View(), old(bodies)[index].id) && NewTags(w, world.View(), first)
      ensures forall k | 0 <= k < |parts| :: |parts[k].slots| == |parts[k].raster| && Owned(world.View(), parts[k])
    {
      var b := bodies[index];
      var rest := bodies[..index] + bodies[index + 1..];
      ghost var start := world.View();
      SplitBegins(w, start, b, parts, labels, first);
      bodies := rest;
      for k := 0 to |parts|
        invariant Giving(start, world.View(), parts, b.id, first, k)
        invariant bodies == Replaced(rest, index, parts, k)
      {
        ReplacedNext(rest, index, parts, k);
        if parts[k].id == b.id {
          bodies := bodies[..index] + [parts[k]] + bodies[index..];
        } else {
          GivePart(world, b, parts, k, w, labels, start, first);
          bodies := bodies + [parts[k]];
        }
      }
      AllGiven(w, start, world.View(), parts, b.id, first);
      ReplacedAll(bodies, old(bodies), index, parts);
    }

    method Dissolve(index: nat, ghost w: World, ghost v: World, ghost first: BodyId)
      requires index < |bodies| && Sane(bodies, first)
      requires RightFate(w, bodies[index], Fate.Gone) && Spares(w, v, bodies[index].id) && NewTags(w, v, first)
      modifies this`bodies, this`fractures
      ensures Sane(bodies, first) && Met(w, v, old(bodies), bodies, index, Fate.Gone, first)
      ensures fractures == old(fractures) + Report(old(bodies)[index], Fate.Gone)
    {
      MetGone(w, v, bodies, index, first);
      fractures := fractures + [Fracture(bodies[index].id, bodies[index].anchor, [])];
      bodies := bodies[..index] + bodies[index + 1..];
    }

    method Park(index: nat, ghost w: World, ghost v: World, ghost first: BodyId)
      requires index < |bodies| && Sane(bodies, first)
      requires !FullyLoaded(w, bodies[index]) && Releases(w, v, bodies[index].id)
      modifies this`bodies
      ensures Sane(bodies, first) && Met(w, v, old(bodies), bodies, index, Noted, first)
    {
      MetNoted(w, v, bodies, index, first);
      NotedKeepsSane(bodies, index, first);
      bodies := bodies[index := bodies[index].(parked := true)];
    }

    method Break(world: CellWorld, index: nat, parts: seq<Body>, ghost w: World, ghost labels: Labels, ghost first: BodyId)
      requires index < |bodies| && Sane(bodies, first) && parts != []
      requires RightFate(w, bodies[index], Split(parts, labels)) && Releases(w, world.View(), bodies[index].id)
      requires PartIds(parts, bodies[index].id, first)
      modifies this`bodies, this`fractures, world`chunks, world`unseated
      ensures Sane(bodies, first + |parts| - 1)
      ensures Met(w, world.View(), old(bodies), bodies, index, Split(parts, labels), first)
      ensures fractures == old(fractures) + Report(old(bodies)[index], Split(parts, labels))
    {
      ghost var before := bodies;
      PartsShape(w, bodies[index], parts, labels);
      fractures := fractures + [Fracture(bodies[index].id, bodies[index].anchor, IdsOf(parts))];
      ReplaceByParts(world, index, parts, w, labels, first);
      SplitKeepsSane(before, index, parts, first);
      MetSplit(w, world.View(), before, bodies, index, Split(parts, labels), first);
    }

    // What is to be done with a body that has been looked at.
    method Carry(
      world: CellWorld, index: nat, r: Reconciled, ghost w: World, ghost labels: Labels, ghost first: BodyId, ghost next: BodyId)
      returns (advance: nat, ghost fate: Fate)
      requires index < |bodies| && Sane(bodies, first)
      requires Judged(w, world.View(), bodies[index], r, labels, first, next)
      modifies this, world`chunks, world`unseated
      ensures Sane(bodies, next) && next >= first
      ensures Met(w, world.View(), old(bodies), bodies, index, fate, first)
      ensures advance == |Stands(old(bodies)[index], fate)|
      ensures fractures == old(fractures) + Report(old(bodies)[index], fate)
    {
      match r {
        case Intact =>
          advance, fate := 1, Kept;
          MetKept(w, bodies, index, first);
        case Parked(_) =>
          Park(index, w, world.View(), first);
          advance, fate := 1, Noted;
        case Gone =>
          ReleasesSpares(w, world.View(), bodies[index].id);
          Dissolve(index, w, world.View(), first);
          advance, fate := 0, Fate.Gone;
        case Parts(parts) =>
          Break(world, index, parts, w, labels, first);
          advance, fate := 1, Split(parts, labels);
      }
    }

    // One body: kept as it is, noted as parked, dissolved, or replaced by its parts. It is
    // reported with the ids of its parts if it did not stay as it was.
    method ReconcileAt(world: CellWorld, ids: BodyIds, index: nat) returns (advance: nat, ghost fate: Fate)
      requires index < |bodies| && Sane(bodies, ids.next)
      modifies this, world`chunks, world`unseated, ids
      ensures Sane(bodies, ids.next) && ids.next >= old(ids.next)
      ensures Met(old(world.View()), world.View(), old(bodies), bodies, index, fate, old(ids.next))
      ensures advance == |Stands(old(bodies)[index], fate)|
      ensures fractures == old(fractures) + Report(old(bodies)[index], fate)
    {
      ghost var w, first := world.View(), ids.next;
      var r, labels := ReconcileBody(world, bodies[index], ids);
      JudgedRightly(w, world.View(), bodies[index], r, labels, first, ids.next);
      advance, fate := Carry(world, index, r, w, labels, first, ids.next);
    }

    // One turn of the loop below.
    method ReconcileNext(
      world: CellWorld, ids: BodyIds, index: nat, ghost w0: World, ghost began: seq<Body>, ghost fates: seq<Fate>,
      ghost news: seq<Fracture>, ghost left: nat, ghost next: BodyId)
      returns (advance: nat, ghost fates': seq<Fate>, ghost left': nat)
      requires index < |bodies| && InHand(bodies, next, ids.next)
      requires Underway(w0, world.View(), began, fates, bodies, news, fractures, index, left, next)
      modifies this, world`chunks, world`unseated, ids
      ensures InHand(bodies, next, ids.next)
      ensures Underway(w0, world.View(), began, fates', bodies, news, fractures, index + advance, left', next)
      ensures left' < left || (left' == left && advance == 1 && bodies == old(bodies))
    {
      ghost var w, before, reported, first := world.View(), bodies, fractures, ids.next;
      ghost var fate: Fate;
      FatedBody(w0, w, began, fates, before, index, left, next);
      advance, fate := ReconcileAt(world, ids, index);
      fates' := UnderwayStep(w0, w, world.View(), began, fates, before, bodies, news, reported, index, left, next, fate, first);
      left' := if left == 0 then 0 else left - 1;
      if left == 0 {
        OwnedIsKept(w, before[index], fate);
        KeptChangesNothing(before, index);
      }
    }

    // Ownership is restored: the loop ends, although it appends the parts it splits off, and
    // then every body whose cells are all loaded owns them all. Every body met the fate that was
    // right for it in the world as it was, each has its place, and no matter is made or lost.
    method ReconcileAll(world: CellWorld, ids: BodyIds) returns (ghost fates: seq<Fate>)
      requires Sane(bodies, ids.next)
      modifies this, world`chunks, world`unseated, ids
      ensures Sane(bodies, ids.next)
      ensures |fates| == |old(bodies)| && forall i | 0 <= i < |fates| :: RightFate(old(world.View()), old(bodies)[i], fates[i])
      ensures bodies == InPlace(old(bodies), fates) + Extras(fates)
      ensures fractures == old(fractures) + Reports(old(bodies), fates)
      ensures AllSettled(world.View(), bodies) && AllApart(world.View(), bodies)
      ensures SameMatter(old(world.View()), world.View())
    {
      fates := ReconcileEach(world, ids);
      SettledAreApart(world.View(), bodies);
    }

    method ReconcileEach(world: CellWorld, ids: BodyIds) returns (ghost fates: seq<Fate>)
      requires Sane(bodies, ids.next)
      modifies this, world`chunks, world`unseated, ids
      ensures Sane(bodies, ids.next)
      ensures AllMet(old(world.View()), world.View(), old(bodies), bodies, old(fractures), fractures, fates)
    {
      ghost var w0, began, news, next := world.View(), bodies, fractures, ids.next;
      var index: nat := 0;
      ghost var left: nat := |bodies|;
      fates := [];
      UnderwayStart(w0, began, news, next);
      while index < |bodies|
        invariant InHand(bodies, next, ids.next)
        invariant Underway(w0, world.View(), began, fates, bodies, news, fractures, index, left, next)
        decreases left, |bodies| - index
      {
        var advance: nat;
        advance, fates, left := ReconcileNext(world, ids, index, w0, began, fates, news, left, next);
        index := index + advance;
      }
      UnderwayDone(w0, world.View(), began, fates, bodies, news, fractures, index, left, next);
    }
  }

  ghost predicate AllMet(
    w: World, v: World, began: seq<Body>, bodies: seq<Body>, news: seq<Fracture>, fractures: seq<Fracture>, fates: seq<Fate>)
  {
    match w
    case World(_, _) =>
      && |fates| == |began|
      && (forall i | 0 <= i < |fates| ::
            WellFormed(began[i]) && began[i].inertia.mass > 0 && RightFate(w, began[i], fates[i]))
      && bodies == InPlace(began, fates) + Extras(fates) && fractures == news + Reports(began, fates)
      && AllSettled(v, bodies) && SameMatter(w, v)
  }

  // The bodies are sound, with all ids given out since the loop began.
  ghost predicate InHand(bodies: seq<Body>, began: BodyId, next: BodyId) {
    Sane(bodies, next) && next >= began
  }

  ghost predicate Underway(
    w0: World, w: World, began: seq<Body>, fates: seq<Fate>, bodies: seq<Body>, news: seq<Fracture>, fractures: seq<Fracture>,
    index: nat, left: nat, next: BodyId)
  {
    match w0
    case World(_, _) =>
    && SameMatter(w0, w) && (forall i | 0 <= i < |bodies| :: |bodies[i].slots| == |bodies[i].raster|)
    && index + left <= |bodies| && Progress(w, bodies, index, left) && Fated(w0, w, began, fates, bodies, index, left, next)
    && fractures == news + Reports(began[..|fates|], fates)
  }

  lemma UnderwayStep(
    w0: World, w: World, v: World, began: seq<Body>, fates: seq<Fate>, before: seq<Body>, after: seq<Body>,
    news: seq<Fracture>, reported: seq<Fracture>, index: nat, left: nat, next: BodyId, fate: Fate, first: BodyId)
    returns (fates': seq<Fate>)
    requires Underway(w0, w, began, fates, before, news, reported, index, left, next)
    requires Sane(before, first) && index < |before| && first >= next && Met(w, v, before, after, index, fate, first)
    requires forall i | 0 <= i < |after| :: |after[i].slots| == |after[i].raster|
    ensures Underway(
      w0, v, began, fates', after, news, reported + Report(before[index], fate),
      index + |Stands(before[index], fate)|, if left == 0 then 0 else left - 1, next)
  {
    MetProgress(w, v, before, after, index, left, fate, first);
    FatedBody(w0, w, began, fates, before, index, left, next);
    if left > 0 {
      FatedStep(w0, w, v, began, fates, before, after, index, left, next, fate, first);
      AssembledNext(began, fates, fate, before, index);
      ReportsGrouped(news, Reports(began[..|fates|], fates), Report(before[index], fate));
      fates' := fates + [fate];
    } else {
      OwnedIsKept(w, before[index], fate);
      KeptChangesNothing(before, index);
      assert reported + [] == reported;
      fates' := fates;
    }
  }

  lemma ReportsGrouped(a: seq<Fracture>, b: seq<Fracture>, c: seq<Fracture>)
    ensures a + b + c == a + (b + c)
  {
  }

  ghost predicate AllSettled(w: World, bodies: seq<Body>) {
    forall i | 0 <= i < |bodies| :: |bodies[i].slots| == |bodies[i].raster| && Settled(w, bodies[i])
  }

  predicate Apart(a: Body, b: Body) {
    forall m, n | 0 <= m < |a.raster| && 0 <= n < |b.raster| :: a.raster[m] != b.raster[n]
  }

  ghost predicate AllApart(w: World, bodies: seq<Body>) {
    forall i, j | 0 <= i < j < |bodies| && FullyLoaded(w, bodies[i]) && FullyLoaded(w, bodies[j]) :: Apart(bodies[i], bodies[j])
  }

  lemma SettledAreApart(w: World, bodies: seq<Body>)
    requires AllSettled(w, bodies) && forall i, j | 0 <= i < j < |bodies| :: bodies[i].id != bodies[j].id
    ensures AllApart(w, bodies)
  {
    forall i, j | 0 <= i < j < |bodies| && FullyLoaded(w, bodies[i]) && FullyLoaded(w, bodies[j])
      ensures Apart(bodies[i], bodies[j])
    {
      forall m, n | 0 <= m < |bodies[i].raster| && 0 <= n < |bodies[j].raster|
        ensures bodies[i].raster[m] != bodies[j].raster[n]
      {
        OwnersAreDisjoint(w, bodies[i], bodies[j], m, n);
      }
    }
  }

  // When the loop ends all is settled.
  lemma UnderwayDone(
    w0: World, w: World, began: seq<Body>, fates: seq<Fate>, bodies: seq<Body>, news: seq<Fracture>, fractures: seq<Fracture>,
    index: nat, left: nat, next: BodyId)
    requires Underway(w0, w, began, fates, bodies, news, fractures, index, left, next) && index >= |bodies|
    ensures AllMet(w0, w, began, bodies, news, fractures, fates)
  {
    assert left == 0 && |fates| == |began|;
    AssembledAll(began, fates);
    assert Settles(w, bodies);
  }

  ghost predicate Settles(w: World, bodies: seq<Body>)
    requires forall i | 0 <= i < |bodies| :: |bodies[i].slots| == |bodies[i].raster|
  {
    forall i | 0 <= i < |bodies| :: Settled(w, bodies[i])
  }

  lemma AssembledAll(began: seq<Body>, fates: seq<Fate>)
    requires |fates| == |began|
    ensures Assembled(began, fates) == InPlace(began, fates) + Extras(fates)
    ensures Reports(began[..|fates|], fates) == Reports(began, fates)
  {
    assert began[..|fates|] == began && began[|fates|..] == [];
    assert InPlace(began, fates) + [] == InPlace(began, fates);
  }

  lemma UnderwayStart(w: World, bodies: seq<Body>, fractures: seq<Fracture>, next: BodyId)
    requires Sane(bodies, next)
    ensures Underway(w, w, bodies, [], bodies, fractures, fractures, 0, |bodies|, next)
  {
    assert bodies[..0] == [] && bodies[0..] == bodies;
    assert Assembled(bodies, []) == [] + bodies + [] == bodies;
    assert fractures + [] == fractures;
  }

  // The body at index has met its fate: only its own cells changed, and the list has what stands
  // for it, settled, and behind all others what split off, on cells of its own.
  ghost predicate Met(
    w: World, v: World, before: seq<Body>, after: seq<Body>, index: nat, fate: Fate, first: BodyId)
    requires index < |before| && WellFormed(before[index]) && before[index].inertia.mass > 0
  {
    match w
    case World(_, _) =>
    var b := before[index];
    && Spares(w, v, b.id) && NewTags(w, v, first) && RightFate(w, b, fate)
    && after == before[..index] + Stands(b, fate) + before[index + 1..] + Extra(fate)
    && (forall k | 0 <= k < |Stands(b, fate)| ::
          |Stands(b, fate)[k].slots| == |Stands(b, fate)[k].raster| && Settled(v, Stands(b, fate)[k]))
    && (forall k | 0 <= k < |Extra(fate)| ::
          |Extra(fate)[k].slots| == |Extra(fate)[k].raster| && Owned(v, Extra(fate)[k]))
  }

  // What reconcile_body found, with the world it left.
  ghost predicate Judged(
    w: World, v: World, b: Body, r: Reconciled, labels: Labels, first: BodyId, next: BodyId)
    requires |b.slots| == |b.raster| && b.inertia.mass > 0
  {
    match r
    case Intact => v == w && next == first && Owned(w, b)
    case Parked(_) => Releases(w, v, b.id) && next == first && !FullyLoaded(w, b)
    case Gone => Releases(w, v, b.id) && next == first && RightFate(w, b, Fate.Gone)
    case Parts(parts) =>
      Releases(w, v, b.id) && parts != [] && PartIds(parts, b.id, first) && next == first + |parts| - 1
      && RightFate(w, b, Split(parts, labels))
  }

  lemma JudgedRightly(w: World, v: World, b: Body, r: Reconciled, labels: Labels, first: BodyId, next: BodyId)
    requires WellFormed(b) && b.inertia.mass > 0 && Releases(w, v, b.id)
    requires (r.Parked? <==> !FullyLoaded(w, b)) && (r.Intact? <==> Owned(w, b)) && (r.Intact? ==> v == w)
    requires r.Gone? <==> FullyLoaded(w, b) && Survivors(w, b, |b.raster|) == []
    requires r.Parts? ==> r.parts != [] && SplitOf(w, b, r.parts, labels)
    requires r.Parts? ==> TotalMass(r.parts) == MassOf(SurvivorSlots(w, b, |b.raster|))
    requires r.Parts? ==> PartIds(r.parts, b.id, first) && next == first + |r.parts| - 1
    requires !r.Parts? ==> next == first
    requires r.Parts? ==> forall k | 0 <= k < |r.parts| :: r.parts[k].inertia.mass > 0 && MovesAlong(r.parts[k], b, Com(b))
    ensures Judged(w, v, b, r, labels, first, next)
  {
    OwnedIsLoaded(w, b);
  }

  lemma MetKept(w: World, before: seq<Body>, index: nat, first: BodyId)
    requires index < |before| && WellFormed(before[index]) && before[index].inertia.mass > 0 && Owned(w, before[index])
    ensures Met(w, w, before, before, index, Kept, first)
  {
    assert before == before[..index] + [before[index]] + before[index + 1..] + [];
  }

  lemma MetNoted(w: World, v: World, before: seq<Body>, index: nat, first: BodyId)
    requires index < |before| && WellFormed(before[index]) && before[index].inertia.mass > 0
    requires !FullyLoaded(w, before[index]) && Releases(w, v, before[index].id)
    ensures Met(w, v, before, before[index := before[index].(parked := true)], index, Noted, first)
  {
    var b := before[index].(parked := true);
    UnloadedStaysUnloaded(w, v, before[index]);
    assert !FullyLoaded(v, b);
    assert before[index := b] == before[..index] + [b] + before[index + 1..] + [];
  }

  lemma MetGone(w: World, v: World, before: seq<Body>, index: nat, first: BodyId)
    requires index < |before| && WellFormed(before[index]) && before[index].inertia.mass > 0
    requires RightFate(w, before[index], Fate.Gone) && Spares(w, v, before[index].id) && NewTags(w, v, first)
    ensures Met(w, v, before, before[..index] + before[index + 1..], index, Fate.Gone, first)
  {
    assert before[..index] + before[index + 1..] == before[..index] + [] + before[index + 1..] + [];
  }

  lemma NotedKeepsSane(bodies: seq<Body>, index: nat, next: BodyId)
    requires Sane(bodies, next) && index < |bodies|
    ensures Sane(bodies[index := bodies[index].(parked := true)], next)
  {
  }

  lemma MetSplit(
    w: World, v: World, before: seq<Body>, after: seq<Body>, index: nat, fate: Fate, first: BodyId)
    requires index < |before| && WellFormed(before[index]) && before[index].inertia.mass > 0
    requires fate.Split? && RightFate(w, before[index], fate) && Spares(w, v, before[index].id) && NewTags(w, v, first)
    requires after == before[..index] + [fate.parts[0]] + before[index + 1..] + fate.parts[1..]
    requires forall k | 0 <= k < |fate.parts| :: |fate.parts[k].slots| == |fate.parts[k].raster| && Owned(v, fate.parts[k])
    ensures Met(w, v, before, after, index, fate, first)
  {
    assert forall k | 0 <= k < |Extra(fate)| :: Extra(fate)[k] == fate.parts[k + 1];
  }

  lemma ListShape(before: seq<Body>, stands: seq<Body>, extra: seq<Body>, index: nat, after: seq<Body>)
    requires index < |before| && |stands| <= 1 && after == before[..index] + stands + before[index + 1..] + extra
    ensures After(before, after, index, |stands|) && (|stands| == 1 ==> after[index] == stands[0])
    ensures |after| == |before| - 1 + |stands| + |extra|
    ensures forall j | |before| - 1 + |stands| <= j < |after| :: after[j] == extra[j - (|before| - 1 + |stands|)]
  {
    forall j | index < j < |before|
      ensures after[j - 1 + |stands|] == before[j]
    {
      assert after[j - 1 + |stands|] == before[index + 1..][j - index - 1];
    }
  }

  lemma KeptChangesNothing(before: seq<Body>, index: nat)
    requires index < |before|
    ensures before[..index] + [before[index]] + before[index + 1..] + [] == before
  {
  }

  // What a fate met does for the loop.
  lemma MetProgress(
    w: World, v: World, before: seq<Body>, after: seq<Body>, index: nat, left: nat, fate: Fate, first: BodyId)
    requires Sane(before, first) && index < |before| && index + left <= |before|
    requires forall i | 0 <= i < |after| :: |after[i].slots| == |after[i].raster|
    requires Progress(w, before, index, left) && Met(w, v, before, after, index, fate, first)
    ensures Progress(v, after, index + |Stands(before[index], fate)|, if left == 0 then 0 else left - 1)
  {
    MetSettles(w, v, before, after, index, fate, first);
    MetKeepsOwned(w, v, before, after, index, fate, first);
    ProgressStep(w, v, before, after, index, left, |Stands(before[index], fate)|, first);
  }

  lemma MetSettles(w: World, v: World, before: seq<Body>, after: seq<Body>, index: nat, fate: Fate, first: BodyId)
    requires index < |before| && WellFormed(before[index]) && before[index].inertia.mass > 0
    requires Met(w, v, before, after, index, fate, first)
    ensures var advance := |Stands(before[index], fate)|;
      && Spares(w, v, before[index].id) && After(before, after, index, advance)
      && (advance == 1 ==> |after[index].slots| == |after[index].raster| && Settled(v, after[index]))
      && forall j | |before| - 1 + advance <= j < |after| :: |after[j].slots| == |after[j].raster| && Owned(v, after[j])
  {
    ListSettles(v, before, Stands(before[index], fate), Extra(fate), index, after);
  }

  lemma ListSettles(v: World, before: seq<Body>, stands: seq<Body>, extra: seq<Body>, index: nat, after: seq<Body>)
    requires index < |before| && |stands| <= 1 && after == before[..index] + stands + before[index + 1..] + extra
    requires forall k | 0 <= k < |stands| :: |stands[k].slots| == |stands[k].raster| && Settled(v, stands[k])
    requires forall k | 0 <= k < |extra| :: |extra[k].slots| == |extra[k].raster| && Owned(v, extra[k])
    ensures After(before, after, index, |stands|)
    ensures |stands| == 1 ==> |after[index].slots| == |after[index].raster| && Settled(v, after[index])
    ensures forall j | |before| - 1 + |stands| <= j < |after| :: |after[j].slots| == |after[j].raster| && Owned(v, after[j])
  {
    ListShape(before, stands, extra, index, after);
    AppendedAreOwned(v, after, extra, |before| - 1 + |stands|);
  }

  lemma MetKeepsOwned(w: World, v: World, before: seq<Body>, after: seq<Body>, index: nat, fate: Fate, first: BodyId)
    requires index < |before| && WellFormed(before[index]) && before[index].inertia.mass > 0
    requires Met(w, v, before, after, index, fate, first)
    ensures Owned(w, before[index]) ==> after == before
  {
    if Owned(w, before[index]) {
      OwnedIsKept(w, before[index], fate);
      KeptChangesNothing(before, index);
    }
  }

  lemma AppendedAreOwned(v: World, bodies: seq<Body>, extra: seq<Body>, n: nat)
    requires |bodies| == n + |extra|
    requires forall j | n <= j < |bodies| :: bodies[j] == extra[j - n]
    requires forall k | 0 <= k < |extra| :: |extra[k].slots| == |extra[k].raster| && Owned(v, extra[k])
    ensures forall j | n <= j < |bodies| :: |bodies[j].slots| == |bodies[j].raster| && Owned(v, bodies[j])
  {
  }

  // How far the loop has come: the first bodies have met their fates, and the cells of the
  // others are still as they were.
  ghost predicate Fated(
    w0: World, w: World, began: seq<Body>, fates: seq<Fate>, bodies: seq<Body>, index: nat, left: nat, next: BodyId)
  {
    && Sane(began, next) && |fates| + left == |began| && bodies == Assembled(began, fates)
    && (left > 0 ==> index == |InPlace(began[..|fates|], fates)|)
    && (forall i | 0 <= i < |fates| :: RightFate(w0, began[i], fates[i]))
    && (forall i | |fates| <= i < |began| :: Untouched(w0, w, began[i].id))
  }

  lemma FatedBody(
    w0: World, w: World, began: seq<Body>, fates: seq<Fate>, bodies: seq<Body>, index: nat, left: nat, next: BodyId)
    requires Fated(w0, w, began, fates, bodies, index, left, next)
    ensures left > 0 ==> index < |bodies| && bodies[index] == began[|fates|]
  {
    if left > 0 {
      AssembledNext(began, fates, Kept, bodies, index);
    }
  }

  lemma FatedStep(
    w0: World, w: World, v: World, began: seq<Body>, fates: seq<Fate>, before: seq<Body>, after: seq<Body>,
    index: nat, left: nat, next: BodyId, fate: Fate, first: BodyId)
    requires Fated(w0, w, began, fates, before, index, left, next) && left > 0 && first >= next
    requires index < |before| && before[index] == began[|fates|] && Met(w, v, before, after, index, fate, first)
    ensures Fated(w0, v, began, fates + [fate], after, index + |Stands(began[|fates|], fate)|, left - 1, next)
  {
    FatedStepBy(w0, w, v, began, fates, before, after, index, left, next, fate, first);
  }

  lemma FatedStepBy(
    w0: World, w: World, v: World, began: seq<Body>, fates: seq<Fate>, before: seq<Body>, after: seq<Body>,
    index: nat, left: nat, next: BodyId, fate: Fate, first: BodyId)
    requires Fated(w0, w, began, fates, before, index, left, next) && left > 0 && first >= next
    requires Spares(w, v, began[|fates|].id) && NewTags(w, v, first) && RightFate(w, began[|fates|], fate)
    requires index < |before|
    requires after == before[..index] + Stands(began[|fates|], fate) + before[index + 1..] + Extra(fate)
    ensures Fated(w0, v, began, fates + [fate], after, index + |Stands(began[|fates|], fate)|, left - 1, next)
  {
    var k := |fates|;
    AssembledNext(began, fates, fate, before, index);
    FateCarries(w0, w, began[k], fate);
    UntouchedRest(w0, w, v, began, k, next, first);
  }

  lemma UntouchedRest(w0: World, w: World, v: World, began: seq<Body>, k: nat, next: BodyId, first: BodyId)
    requires Sane(began, next) && k < |began| && first >= next && Spares(w, v, began[k].id) && NewTags(w, v, first)
    requires forall i | k <= i < |began| :: Untouched(w0, w, began[i].id)
    ensures forall i | k + 1 <= i < |began| :: Untouched(w0, v, began[i].id)
  {
    forall i | k + 1 <= i < |began|
      ensures Untouched(w0, v, began[i].id)
    {
      UntouchedStep(w0, w, v, began[i].id, began[k].id, first);
    }
  }

  lemma OwnedIsKept(w: World, b: Body, fate: Fate)
    requires WellFormed(b) && b.inertia.mass > 0 && Owned(w, b) && RightFate(w, b, fate)
    ensures fate == Kept
  {
    OwnedIsLoaded(w, b);
    SurvivorsAreThose(w, b, |b.raster|);
    assert Holds(w, b, 0) && Survives(w, b, 0);
  }

  function IdsOf(bodies: seq<Body>): seq<BodyId> {
    seq(|bodies|, i requires 0 <= i < |bodies| => bodies[i].id)
  }

  // The list after one body: those before it untouched, those behind it in their order, and
  // behind them what was split off.
  ghost predicate After(before: seq<Body>, after: seq<Body>, index: nat, advance: nat) {
    && index < |before| && advance <= 1 && |before| - 1 + advance <= |after|
    && (forall i | 0 <= i < index :: after[i] == before[i])
    && (forall j | index < j < |before| :: after[j - 1 + advance] == before[j])
  }

  lemma UnloadedStaysUnloaded(w: World, v: World, b: Body)
    requires SameMatter(w, v) && !FullyLoaded(w, b)
    ensures !FullyLoaded(v, b)
  {
    var i :| 0 <= i < |b.raster| && w.At(b.raster[i]).None?;
    SameMatterSameLoaded(w, v, b.raster[i]);
  }

  lemma SplitKeepsSane(before: seq<Body>, index: nat, parts: seq<Body>, first: BodyId)
    requires Sane(before, first) && index < |before| && parts != []
    requires PartIds(parts, before[index].id, first)
    requires forall k | 0 <= k < |parts| :: WellFormed(parts[k]) && parts[k].inertia.mass > 0
    ensures var after := before[..index] + [parts[0]] + before[index + 1..] + parts[1..];
      Sane(after, first + |parts| - 1) && After(before, after, index, 1)
  {
    var after := before[..index] + [parts[0]] + before[index + 1..] + parts[1..];
    assert forall i | 0 <= i < |before| :: after[i] == if i == index then parts[0] else before[i];
    assert forall i | |before| <= i < |after| :: after[i] == parts[i - |before| + 1];
  }

  // How far the loop has come: `left` of the bodies it began with are still to be visited,
  // and what was appended behind them is in order already.
  ghost predicate Progress(w: World, bodies: seq<Body>, index: nat, left: nat)
    requires forall i | 0 <= i < |bodies| :: |bodies[i].slots| == |bodies[i].raster|
  {
    && (forall i | 0 <= i < index && i < |bodies| :: Settled(w, bodies[i]))
    && (forall i | index + left <= i < |bodies| :: Owned(w, bodies[i]))
  }

  lemma ProgressStep(
    w: World, v: World, before: seq<Body>, after: seq<Body>, index: nat, left: nat, advance: nat, first: BodyId)
    requires Sane(before, first) && index < |before| && index + left <= |before|
    requires forall i | 0 <= i < |after| :: |after[i].slots| == |after[i].raster|
    requires Progress(w, before, index, left) && Spares(w, v, before[index].id) && After(before, after, index, advance)
    requires advance == 1 ==> Settled(v, after[index])
    requires forall j | |before| - 1 + advance <= j < |after| :: Owned(v, after[j])
    requires Owned(w, before[index]) ==> after == before
    ensures Progress(v, after, index + advance, if left == 0 then 0 else left - 1)
  {
    forall i | 0 <= i < |before| && i != index
      ensures Settled(w, before[i]) ==> Settled(v, before[i])
      ensures Owned(w, before[i]) ==> Owned(v, before[i])
    {
      SparedBodiesStaySettled(w, v, before[index].id, before[i]);
    }
    var more := if left == 0 then 0 else left - 1;
    forall i | index + advance + more <= i < |after|
      ensures Owned(v, after[i])
    {
      if i < |before| - 1 + advance {
        assert after[i] == before[i + 1 - advance];
      }
    }
  }

  // The first k parts have their cells: the first under the old id, the others retagged.
  ghost predicate Giving(start: World, v: World, parts: seq<Body>, id: BodyId, first: BodyId, k: nat)
    requires forall l | 0 <= l < |parts| :: |parts[l].slots| == |parts[l].raster|
  {
    && Spares(start, v, id) && NewTags(start, v, first)
    && (forall l | 0 < l < k && l < |parts| :: Owned(v, parts[l]))
    && (forall l | (l == 0 || k <= l) && l < |parts| :: Held(v, parts[l], id))
  }

  lemma NothingGivenYet(w: World, start: World, b: Body, parts: seq<Body>, labels: Labels)
    requires |b.slots| == |b.raster| && SplitOf(w, b, parts, labels) && Releases(w, start, b.id)
    requires forall l | 0 <= l < |parts| :: |parts[l].slots| == |parts[l].raster|
    ensures forall first: BodyId :: Giving(start, start, parts, b.id, first, 0)
  {
    forall k | 0 <= k < |parts|
      ensures Held(start, parts[k], b.id)
    {
      PartsAreHeld(w, start, b, parts, labels, k);
    }
  }

  method GivePart(world: CellWorld, b: Body, parts: seq<Body>, k: nat, ghost w: World, ghost labels: Labels, ghost start: World,
      ghost first: BodyId)
    requires WellFormed(b) && SplitOf(w, b, parts, labels) && forall l | 0 <= l < |parts| :: WellFormed(parts[l])
    requires 0 < k < |parts| && parts[k].id != b.id && parts[k].id >= first
    requires Giving(start, world.View(), parts, b.id, first, k)
    modifies world`chunks, world`unseated
    ensures Giving(start, world.View(), parts, b.id, first, k + 1)
  {
    ghost var before := world.View();
    RetagPart(world, parts[k], b.id);
    SparesTransitive(start, before, world.View(), b.id);
    NewTagsTransitive(start, before, world.View(), first);
    OthersKeepTheirs(w, b, parts, labels, k, before, world.View());
  }

  function Replaced(rest: seq<Body>, index: nat, parts: seq<Body>, k: nat): seq<Body>
    requires index <= |rest| && k <= |parts|
  {
    if k == 0 then rest else rest[..index] + [parts[0]] + rest[index..] + parts[1..k]
  }

  lemma ReplacedNext(rest: seq<Body>, index: nat, parts: seq<Body>, k: nat)
    requires index <= |rest| && k < |parts|
    ensures k == 0 ==> Replaced(rest, index, parts, 1) == rest[..index] + [parts[0]] + rest[index..]
    ensures k > 0 ==> Replaced(rest, index, parts, k + 1) == Replaced(rest, index, parts, k) + [parts[k]]
  {
    if k > 0 {
      SliceGrows(parts, k);
    }
  }

  lemma ReplacedAll(bodies: seq<Body>, before: seq<Body>, index: nat, parts: seq<Body>)
    requires index < |before| && parts != []
    requires bodies == Replaced(before[..index] + before[index + 1..], index, parts, |parts|)
    ensures bodies == before[..index] + [parts[0]] + before[index + 1..] + parts[1..]
  {
    var rest := before[..index] + before[index + 1..];
    assert rest[..index] == before[..index] && rest[index..] == before[index + 1..];
    assert parts[1..|parts|] == parts[1..];
  }

  lemma SliceGrows(parts: seq<Body>, k: nat)
    requires 1 <= k < |parts|
    ensures parts[1..k + 1] == parts[1..k] + [parts[k]]
  {
  }

  lemma PartsShape(w: World, b: Body, parts: seq<Body>, labels: Labels)
    requires |b.slots| == |b.raster| && SplitOf(w, b, parts, labels)
    ensures forall k | 0 <= k < |parts| :: WellFormed(parts[k]) && !parts[k].parked
  {
    SurvivorsCorrespond(w, b, |b.raster|);
    forall k | 0 <= k < |parts|
      ensures WellFormed(parts[k]) && !parts[k].parked
    {
      assert PartIs(parts[k], SurvivorSlots(w, b, |b.raster|), SurvivorPlaces(w, b, |b.raster|), labels, k);
    }
  }

  lemma SplitBegins(w: World, start: World, b: Body, parts: seq<Body>, labels: Labels, first: BodyId)
    requires |b.slots| == |b.raster| && SplitOf(w, b, parts, labels) && Releases(w, start, b.id)
    ensures forall k | 0 <= k < |parts| :: WellFormed(parts[k])
    ensures Spares(w, start, b.id) && Giving(start, start, parts, b.id, first, 0)
  {
    ReleasesSpares(w, start, b.id);
    PartsShape(w, b, parts, labels);
    NothingGivenYet(w, start, b, parts, labels);
  }

  // Once every part has its cells, the first one keeping the body's, all own theirs.
  lemma AllGiven(w: World, start: World, v: World, parts: seq<Body>, id: BodyId, first: BodyId)
    requires parts != [] && WellFormed(parts[0]) && parts[0].id == id
    requires forall l | 0 <= l < |parts| :: |parts[l].slots| == |parts[l].raster|
    requires Spares(w, start, id) && NewTags(w, start, first) && Giving(start, v, parts, id, first, |parts|)
    ensures Spares(w, v, id) && NewTags(w, v, first)
    ensures forall k | 0 <= k < |parts| :: Owned(v, parts[k])
  {
    SparesTransitive(w, start, v, id);
    NewTagsTransitive(w, start, v, first);
    FirstPartOwns(v, parts[0], id);
  }

  lemma FirstPartOwns(w: World, part: Body, id: BodyId)
    requires WellFormed(part) && part.id == id && Held(w, part, id)
    ensures Owned(w, part)
  {
  }

  // Retagging one part changes no cell of another.
  lemma OthersKeepTheirs(w: World, b: Body, parts: seq<Body>, labels: Labels, k: nat, before: World, after: World)
    requires WellFormed(b) && SplitOf(w, b, parts, labels) && k < |parts|
    requires forall l | 0 <= l < |parts| :: |parts[l].slots| == |parts[l].raster|
    requires forall p: CellPos | p !in parts[k].raster :: after.At(p) == before.At(p)
    ensures forall l | 0 <= l < |parts| && l != k :: Held(before, parts[l], b.id) ==> Held(after, parts[l], b.id)
    ensures forall l | 0 <= l < |parts| && l != k :: Owned(before, parts[l]) ==> Owned(after, parts[l])
  {
    forall l, n | 0 <= l < |parts| && l != k && 0 <= n < |parts[l].raster|
      ensures after.At(parts[l].raster[n]) == before.At(parts[l].raster[n])
    {
      if parts[l].raster[n] in parts[k].raster {
        var m :| 0 <= m < |parts[k].raster| && parts[k].raster[m] == parts[l].raster[n];
        PartsAreApart(w, b, parts, labels, k, l, m, n);
      }
    }
    forall l | 0 <= l < |parts| && l != k && Owned(before, parts[l])
      ensures Owned(after, parts[l])
    {
      forall n | 0 <= n < |parts[l].raster|
        ensures Holds(after, parts[l], n)
      {
        assert Holds(before, parts[l], n);
      }
    }
  }
}
