// Splitting the surviving cells of a body into its bonded parts (the flood fill of
// reconcile_body, crates/fallingsand_sim/src/body/mod.rs).
module Parts {
  import opened Wrappers
  import opened Materials
  import opened Components
  import opened BodyState

  predicate NextTo(a: (int, int), b: (int, int)) {
    (a.0 == b.0 && (b.1 == a.1 - 1 || b.1 == a.1 + 1)) || (a.1 == b.1 && (b.0 == a.0 - 1 || b.0 == a.0 + 1))
  }

  // Two survivors hold together: side by side in the body's own coordinates, and bonded.
  predicate Holding(slots: seq<Slot>, i: int, j: int) {
    && 0 <= i < |slots| && 0 <= j < |slots|
    && NextTo(slots[i].local, slots[j].local) && Bonds(slots[i].material, slots[j].material)
  }

  function Hold(slots: seq<Slot>): (int, int) -> bool {
    (i, j) => Holding(slots, i, j)
  }

  lemma HoldIsSymmetric(slots: seq<Slot>)
    ensures Symmetric<int>(Hold(slots))
  {
  }

  type Labels = seq<Option<nat>>

  // CARDINAL_NEIGHBORS
  const CARDINALS: seq<(int, int)> := [(0, -1), (-1, 0), (1, 0), (0, 1)]

  function Beside(local: (int, int), k: nat): (int, int)
    requires k < 4
  {
    (local.0 + CARDINALS[k].0, local.1 + CARDINALS[k].1)
  }

  lemma NextToIsBeside(a: (int, int), b: (int, int))
    ensures NextTo(a, b) <==> exists k | 0 <= k < 4 :: Beside(a, k) == b
  {
    assert Beside(a, 0) == (a.0, a.1 - 1) && Beside(a, 1) == (a.0 - 1, a.1);
    assert Beside(a, 2) == (a.0 + 1, a.1) && Beside(a, 3) == (a.0, a.1 + 1);
  }

  // Which survivor is at each place.
  ghost predicate Index(slots: seq<Slot>, byLocal: map<(int, int), nat>) {
    && (forall i | 0 <= i < |slots| :: slots[i].local in byLocal && byLocal[slots[i].local] == i)
    && (forall p | p in byLocal :: byLocal[p] < |slots| && slots[byLocal[p]].local == p)
  }

  ghost predicate DistinctPlaces(slots: seq<Slot>) {
    forall i, j | 0 <= i < j < |slots| :: slots[i].local != slots[j].local
  }

  method IndexPlaces(slots: seq<Slot>) returns (byLocal: map<(int, int), nat>)
    requires DistinctPlaces(slots)
    ensures Index(slots, byLocal)
  {
    byLocal := map[];
    for n := 0 to |slots|
      invariant forall i | 0 <= i < n :: slots[i].local in byLocal && byLocal[slots[i].local] == i
      invariant forall p | p in byLocal :: byLocal[p] < n && slots[byLocal[p]].local == p
    {
      byLocal := byLocal[slots[n].local := n];
    }
  }

  // The labelling is exact: two survivors share a label if and only if they are connected,
  // and labels count up from 0 in the order of each part's first survivor.
  ghost predicate RightLabels(slots: seq<Slot>, labels: Labels, parts: nat) {
    && |labels| == |slots|
    && (forall i | 0 <= i < |labels| :: labels[i].Some? && labels[i].value < parts)
    && (forall i, j | 0 <= i < |labels| && 0 <= j < |labels| :: labels[i] == labels[j] <==> Connected<int>(Hold(slots), i, j))
    && (forall k | 0 <= k < parts :: exists i | 0 <= i < |labels| :: labels[i] == Some(k))
  }

  // The fill so far. Each label has a root its survivors are connected to, and a labelled
  // survivor that waits in no queue has passed its label on to all it holds.
  ghost predicate Labelling(slots: seq<Slot>, labels: Labels, roots: seq<nat>, waiting: seq<nat>) {
    && |labels| == |slots|
    && (forall k | 0 <= k < |roots| :: roots[k] < |slots| && labels[roots[k]] == Some(k))
    && (forall i | 0 <= i < |labels| && labels[i].Some? ::
          labels[i].value < |roots| && Connected<int>(Hold(slots), roots[labels[i].value], i))
    && (forall n | 0 <= n < |waiting| :: waiting[n] < |labels| && labels[waiting[n]] == Some(|roots| - 1))
    && (forall i | 0 <= i < |labels| && labels[i].Some? && i !in waiting :: Passed(slots, labels, i))
  }

  ghost predicate Passed(slots: seq<Slot>, labels: Labels, i: nat)
    requires |labels| == |slots| && i < |labels|
  {
    forall j | 0 <= j < |slots| && Holding(slots, i, j) :: labels[j] == labels[i]
  }

  lemma LabelsConnect(slots: seq<Slot>, labels: Labels, roots: seq<nat>, i: nat, j: nat)
    requires Labelling(slots, labels, roots, []) && i < |labels| && j < |labels|
    requires labels[i].Some? && labels[j].Some?
    ensures labels[i] == labels[j] <==> Connected<int>(Hold(slots), i, j)
  {
    HoldIsSymmetric(slots);
    if labels[i] == labels[j] {
      ConnectedBack<int>(Hold(slots), roots[labels[i].value], i);
      ConnectedTransitive<int>(Hold(slots), i, roots[labels[i].value], j);
    }
    if Connected<int>(Hold(slots), i, j) {
      var same := iset k: int | 0 <= k < |labels| && labels[k] == labels[i] :: k;
      forall p, q | p in same && Hold(slots)(p, q)
        ensures q in same
      {
        assert Passed(slots, labels, p);
      }
      ClosedHoldsConnected<int>(Hold(slots), same, i, j);
    }
  }

  lemma AllLabelled(slots: seq<Slot>, labels: Labels, roots: seq<nat>)
    requires Labelling(slots, labels, roots, []) && forall i | 0 <= i < |labels| :: labels[i].Some?
    ensures RightLabels(slots, labels, |roots|)
  {
    forall i, j | 0 <= i < |labels| && 0 <= j < |labels|
      ensures labels[i] == labels[j] <==> Connected<int>(Hold(slots), i, j)
    {
      LabelsConnect(slots, labels, roots, i, j);
    }
    forall k | 0 <= k < |roots|
      ensures exists i | 0 <= i < |labels| :: labels[i] == Some(k)
    {
      assert labels[roots[k]] == Some(k);
    }
    assert forall i | 0 <= i < |labels| :: labels[i].Some? && labels[i].value < |roots|;
    assert forall i, j | 0 <= i < |labels| && 0 <= j < |labels| :: labels[i] == labels[j] <==> Connected<int>(Hold(slots), i, j);
    assert forall k | 0 <= k < |roots| :: exists i | 0 <= i < |labels| :: labels[i] == Some(k);
  }

  lemma NewRoot(slots: seq<Slot>, labels: Labels, roots: seq<nat>, start: nat)
    requires Labelling(slots, labels, roots, []) && start < |labels| && labels[start].None?
    ensures Labelling(slots, labels[start := Some(|roots|)], roots + [start], [start])
  {
    ConnectedSelf<int>(Hold(slots), start);
    var after := labels[start := Some(|roots|)];
    forall i | 0 <= i < |after| && after[i].Some? && i !in [start]
      ensures Passed(slots, after, i)
    {
      assert Passed(slots, labels, i);
      assert i != start by {
        assert start in [start];
      }
    }
  }

  ghost function Unclaimed(labels: Labels): set<nat> {
    set i: nat | i < |labels| && labels[i].None?
  }

  // The neighbours of `current` that the first k looks have claimed.
  ghost predicate LookedAt(slots: seq<Slot>, labels: Labels, current: nat, k: nat)
    requires k <= 4 && |labels| == |slots| && current < |slots|
  {
    forall j, n | 0 <= j < |slots| && 0 <= n < k && Holding(slots, current, j) && slots[j].local == Beside(slots[current].local, n) ::
      labels[j].Some?
  }

  // Claiming an unlabelled survivor for the part of `current`.
  lemma Claiming(slots: seq<Slot>, labels: Labels, roots: seq<nat>, waiting: seq<nat>, current: nat, next: nat)
    requires Labelling(slots, labels, roots, waiting) && current in waiting && roots != []
    requires next < |labels| && labels[next].None? && Holding(slots, current, next)
    ensures Labelling(slots, labels[next := Some(|roots| - 1)], roots, waiting + [next])
  {
    var after := labels[next := Some(|roots| - 1)];
    ConnectedStep<int>(Hold(slots), roots[|roots| - 1], current, next);
    forall i | 0 <= i < |after| && after[i].Some? && i !in waiting + [next]
      ensures Passed(slots, after, i)
    {
      assert next in waiting + [next];
      assert labels[i].Some? && i !in waiting;
      assert Passed(slots, labels, i);
    }
  }

  // The head of the queue has passed its label on to all it holds.
  lemma HeadDone(slots: seq<Slot>, labels: Labels, roots: seq<nat>, waiting: seq<nat>)
    requires Labelling(slots, labels, roots, waiting) && waiting != []
    requires LookedAt(slots, labels, waiting[0], 4)
    ensures Labelling(slots, labels, roots, waiting[1..])
  {
    var current := waiting[0];
    HoldIsSymmetric(slots);
    forall j | 0 <= j < |slots| && Holding(slots, current, j)
      ensures labels[j] == labels[current]
    {
      NextToIsBeside(slots[current].local, slots[j].local);
      assert labels[j].Some?;
      if j in waiting {
      } else {
        assert Passed(slots, labels, j);
        assert Holding(slots, j, current);
      }
    }
    forall i | 0 <= i < |labels| && labels[i].Some? && i !in waiting[1..]
      ensures Passed(slots, labels, i)
    {
      assert waiting == [current] + waiting[1..];
      assert i == current || i !in waiting;
    }
  }

  method Spread(slots: seq<Slot>, byLocal: map<(int, int), nat>, labels: Labels, ghost roots: seq<nat>, queue: seq<nat>, part: nat)
    returns (labels': Labels, queue': seq<nat>)
    requires Index(slots, byLocal) && queue != [] && roots != [] && part == |roots| - 1
    requires Labelling(slots, labels, roots, queue)
    ensures Labelling(slots, labels', roots, queue')
    ensures Unclaimed(labels') <= Unclaimed(labels)
    ensures Unclaimed(labels') == Unclaimed(labels) ==> queue' == queue[1..]
    ensures forall i | 0 <= i < |labels| && labels[i].Some? :: labels'[i] == labels[i]
  {
    var current := queue[0];
    assert current in queue;
    labels' := labels;
    queue' := queue;
    for k := 0 to 4
      invariant Labelling(slots, labels', roots, queue') && queue <= queue'
      invariant LookedAt(slots, labels', current, k)
      invariant Unclaimed(labels') <= Unclaimed(labels)
      invariant Unclaimed(labels') == Unclaimed(labels) ==> queue' == queue
      invariant forall i | 0 <= i < |labels| && labels[i].Some? :: labels'[i] == labels[i]
    {
      var place := Beside(slots[current].local, k);
      if place in byLocal {
        var next := byLocal[place];
        NextToIsBeside(slots[current].local, slots[next].local);
        if labels'[next].None? && Bonds(slots[current].material, slots[next].material) {
          assert queue'[0] == current && current in queue';
          Claiming(slots, labels', roots, queue', current, next);
          assert next in Unclaimed(labels) && next !in Unclaimed(labels'[next := Some(part)]);
          labels' := labels'[next := Some(part)];
          queue' := queue' + [next];
        }
      }
    }
    assert queue'[0] == current;
    HeadDone(slots, labels', roots, queue');
    queue' := queue'[1..];
  }

  // One part: everything connected to its first survivor.
  method FillPart(slots: seq<Slot>, byLocal: map<(int, int), nat>, labels: Labels, ghost roots: seq<nat>, start: nat, part: nat)
    returns (labels': Labels)
    requires Index(slots, byLocal) && Labelling(slots, labels, roots, [])
    requires start < |slots| && labels[start].None? && part == |roots|
    ensures Labelling(slots, labels', roots + [start], [])
    ensures forall i | 0 <= i < |labels| && labels[i].Some? :: labels'[i] == labels[i]
    ensures labels'[start] == Some(part)
  {
    NewRoot(slots, labels, roots, start);
    labels' := labels[start := Some(part)];
    var queue := [start];
    while queue != []
      invariant Labelling(slots, labels', roots + [start], queue)
      invariant forall i | 0 <= i < |labels| && labels[i].Some? :: labels'[i] == labels[i]
      invariant labels'[start] == Some(part)
      decreases Unclaimed(labels'), |queue|
    {
      labels', queue := Spread(slots, byLocal, labels', roots + [start], queue, part);
    }
  }

  method LabelParts(slots: seq<Slot>) returns (labels: Labels, parts: nat)
    requires DistinctPlaces(slots)
    ensures RightLabels(slots, labels, parts)
    ensures slots != [] ==> labels[0] == Some(0)
  {
    var byLocal := IndexPlaces(slots);
    labels := seq(|slots|, _ => None);
    parts := 0;
    ghost var roots: seq<nat> := [];
    for start := 0 to |slots|
      invariant Labelling(slots, labels, roots, []) && parts == |roots|
      invariant forall i | 0 <= i < start :: labels[i].Some?
      invariant if start == 0 then parts == 0 else labels[0] == Some(0)
    {
      if labels[start].None? {
        labels := FillPart(slots, byLocal, labels, roots, start, parts);
        roots := roots + [start];
        parts := parts + 1;
      }
    }
    AllLabelled(slots, labels, roots);
  }

  // ---------------------------------------------------- the members of a part

  function Members(labels: Labels, part: nat): seq<nat> {
    if labels == [] then []
    else Members(labels[..|labels| - 1], part) + if labels[|labels| - 1] == Some(part) then [|labels| - 1] else []
  }

  lemma {:induction false} MembersAreThose(labels: Labels, part: nat)
    ensures forall n | 0 <= n < |Members(labels, part)| ::
      Members(labels, part)[n] < |labels| && labels[Members(labels, part)[n]] == Some(part)
    ensures forall i | 0 <= i < |labels| && labels[i] == Some(part) :: i in Members(labels, part)
    ensures forall m, n | 0 <= m < n < |Members(labels, part)| :: Members(labels, part)[m] < Members(labels, part)[n]
  {
    if labels != [] {
      MembersAreThose(labels[..|labels| - 1], part);
    }
  }

  function Pick<T>(items: seq<T>, members: seq<nat>): seq<T>
    requires forall n | 0 <= n < |members| :: members[n] < |items|
  {
    seq(|members|, n requires 0 <= n < |members| => items[members[n]])
  }

  function SlotsOf(slots: seq<Slot>, labels: Labels, part: nat): seq<Slot>
    requires |labels| == |slots|
  {
    MembersAreThose(labels, part);
    Pick(slots, Members(labels, part))
  }

  // The mass of the survivors with one label.
  function PartMass(slots: seq<Slot>, labels: Labels, part: nat): int
    requires |labels| == |slots|
  {
    if slots == [] then 0
    else
      var last := |slots| - 1;
      PartMass(slots[..last], labels[..last], part)
        + if labels[last] == Some(part) then Heaviness(slots[last].material) else 0
  }

  lemma {:induction false} PartWeighsItsMembers(slots: seq<Slot>, labels: Labels, part: nat)
    requires |labels| == |slots|
    ensures MassOf(SlotsOf(slots, labels, part)) == PartMass(slots, labels, part)
  {
    if slots == [] {
      assert SlotsOf(slots, labels, part) == [];
    } else {
      var last := |slots| - 1;
      PartWeighsItsMembers(slots[..last], labels[..last], part);
      SlotsOfLast(slots, labels, part);
      var fewer := SlotsOf(slots[..last], labels[..last], part);
      assert (fewer + [slots[last]])[..|fewer|] == fewer && fewer + [] == fewer;
    }
  }

  lemma SlotsOfLast(slots: seq<Slot>, labels: Labels, part: nat)
    requires |labels| == |slots| > 0
    ensures var last := |slots| - 1;
      SlotsOf(slots, labels, part)
      == SlotsOf(slots[..last], labels[..last], part) + if labels[last] == Some(part) then [slots[last]] else []
  {
    var last := |slots| - 1;
    MembersAreThose(labels[..last], part);
    PickFirst(slots, last, Members(labels[..last], part));
    if labels[last] == Some(part) {
      PickLast(slots, Members(labels[..last], part), last);
    }
  }

  lemma PickFirst<T>(items: seq<T>, last: nat, members: seq<nat>)
    requires last < |items| && forall n | 0 <= n < |members| :: members[n] < last
    ensures Pick(items[..last], members) == Pick(items, members)
  {
  }

  lemma PickLast<T>(items: seq<T>, members: seq<nat>, i: nat)
    requires i < |items| && forall n | 0 <= n < |members| :: members[n] < |items|
    ensures Pick(items, members + [i]) == Pick(items, members) + [items[i]]
  {
  }

  function MassOfParts(slots: seq<Slot>, labels: Labels, parts: nat): int
    requires |labels| == |slots|
  {
    if parts == 0 then 0 else MassOfParts(slots, labels, parts - 1) + PartMass(slots, labels, parts - 1)
  }

  lemma {:induction false} DroppingLast(slots: seq<Slot>, labels: Labels, parts: nat)
    requires |labels| == |slots| && slots != [] && labels[|slots| - 1].Some?
    ensures MassOfParts(slots, labels, parts)
      == MassOfParts(slots[..|slots| - 1], labels[..|slots| - 1], parts)
         + if labels[|slots| - 1].value < parts then Heaviness(slots[|slots| - 1].material) else 0
  {
    if parts > 0 {
      DroppingLast(slots, labels, parts - 1);
    }
  }

  // Nothing is lost in a split: the parts weigh what the survivors weighed.
  lemma {:induction false} PartsWeighTheWhole(slots: seq<Slot>, labels: Labels, parts: nat)
    requires |labels| == |slots| && forall i | 0 <= i < |labels| :: labels[i].Some? && labels[i].value < parts
    ensures MassOfParts(slots, labels, parts) == MassOf(slots)
  {
    if slots == [] {
      NoSlotsNoMass(labels, parts);
    } else {
      DroppingLast(slots, labels, parts);
      PartsWeighTheWhole(slots[..|slots| - 1], labels[..|slots| - 1], parts);
    }
  }

  lemma {:induction false} NoSlotsNoMass(labels: Labels, parts: nat)
    requires labels == []
    ensures MassOfParts([], labels, parts) == 0
  {
    if parts > 0 {
      NoSlotsNoMass(labels, parts - 1);
    }
  }
}
