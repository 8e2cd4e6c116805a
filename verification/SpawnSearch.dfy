// The search for a place to spawn (SpawnSearch of crates/fallingsand_server/src/player.rs):
// ring after ring of a diamond around the origin, in 32-bit coordinates.
module SpawnSearch {
  import opened Wrappers
  import opened Numbers
  import opened Coords

  const I32_MAX: int := 0x7fff_ffff
  const I32_MIN: int := -0x8000_0000

  type I32 = n: int | -0x8000_0000 <= n < 0x8000_0000

  predicate InI32(v: int) {
    I32_MIN <= v <= I32_MAX
  }

  // A place in the diamond: the ring, the row in it, and the side of that row.
  datatype Place = Place(radius: int, dy: int, right: bool) {
    predicate Valid() {
      radius >= 0 && Abs(dy) <= radius && (right ==> Dx() != 0)
    }

    function Dx(): int {
      radius - Abs(dy)
    }

    function X(): int {
      if right then Dx() else -Dx()
    }

    predicate Last() {
      (Dx() == 0 || right) && dy == -radius
    }

    function Next(): Place {
      if Dx() != 0 && !right then this.(right := true)
      else if dy > -radius then Place(radius, dy - 1, false)
      else Place(radius + 1, radius + 1, false)
    }

    // How many places of this ring come before this one.
    function Offset(): int {
      if radius == 0 || dy == radius then 0 else 2 * (radius - dy) - 1 + if right then 1 else 0
    }

    // How many places come before this one.
    function Index(): int
      requires radius >= 0
    {
      Rings(radius) + Offset()
    }
  }

  // How many places the rings below this one hold.
  function Rings(radius: nat): nat {
    if radius == 0 then 0 else Rings(radius - 1) + RingSize(radius - 1)
  }

  function RingSize(radius: nat): nat {
    if radius == 0 then 1 else 4 * radius
  }

  const START: Place := Place(0, 0, false)

  function PlaceAt(x: int, y: int): (p: Place)
    ensures p.Valid() && p.X() == x && p.dy == y
  {
    Place(Abs(x) + Abs(y), y, x > 0)
  }

  // A place is known by its offset: each offset is found at one place only.
  lemma PlaceOfOffset(p: Place)
    requires p.Valid()
    ensures PlaceAt(p.X(), p.dy) == p && p.radius == Abs(p.X()) + Abs(p.dy)
  {
  }

  lemma NextIsNext(p: Place)
    requires p.Valid()
    ensures p.Next().Valid() && p.Next().Index() == p.Index() + 1
    ensures p.radius <= p.Next().radius <= p.radius + 1
    ensures p.Next().radius > p.radius <==> p.Last()
  {
  }

  // The place after n steps from the origin.
  function Nth(n: nat): (p: Place)
    ensures p.Valid()
  {
    if n == 0 then START
    else
      NextIsNext(Nth(n - 1));
      Nth(n - 1).Next()
  }

  lemma {:induction false} NthIndex(n: nat)
    ensures Nth(n).Index() == n
  {
    if n > 0 {
      NthIndex(n - 1);
      NextIsNext(Nth(n - 1));
    }
  }

  lemma OffsetInRing(p: Place)
    requires p.Valid()
    ensures 0 <= p.Offset() < RingSize(p.radius)
  {
  }

  lemma {:induction false} RingsAscend(r: nat, s: nat)
    requires r < s
    ensures Rings(r) + RingSize(r) <= Rings(s)
    decreases s
  {
    if s > r + 1 {
      RingsAscend(r, s - 1);
    }
  }

  lemma IndexDecides(p: Place, q: Place)
    requires p.Valid() && q.Valid() && p.Index() == q.Index()
    ensures p == q
  {
    OffsetInRing(p);
    OffsetInRing(q);
    if p.radius < q.radius {
      RingsAscend(p.radius, q.radius);
    } else if q.radius < p.radius {
      RingsAscend(q.radius, p.radius);
    }
  }

  // The search goes through the whole plane: every offset comes up, once, and no sooner than
  // any that is nearer.
  lemma EveryOffsetOnce(x: int, y: int, n: nat)
    ensures PlaceAt(x, y).Index() >= 0
    ensures Nth(n).X() == x && Nth(n).dy == y <==> n == PlaceAt(x, y).Index()
  {
    var p := PlaceAt(x, y);
    OffsetInRing(p);
    NthIndex(n);
    PlaceOfOffset(Nth(n));
    if n == p.Index() {
      IndexDecides(Nth(n), p);
    }
  }

  lemma {:induction false} NearerComesFirst(m: nat, n: nat)
    requires m <= n
    ensures Abs(Nth(m).X()) + Abs(Nth(m).dy) <= Abs(Nth(n).X()) + Abs(Nth(n).dy)
    decreases n - m
  {
    PlaceOfOffset(Nth(m));
    PlaceOfOffset(Nth(n));
    if m < n {
      NearerComesFirst(m + 1, n);
      NextIsNext(Nth(m));
      PlaceOfOffset(Nth(m + 1));
    }
  }

  // The position at a place, if the ring has a 32-bit radius and the position 32-bit coordinates.
  function CandidateAt(origin: CellPos, p: Place): Option<CellPos> {
    if InI32(p.radius) && InI32(origin.x + p.X()) && InI32(origin.y + p.dy) then Some(origin.Translated(p.X(), p.dy)) else None
  }

  ghost predicate IsCandidate(origin: CellPos, n: nat, pos: CellPos) {
    CandidateAt(origin, Nth(n)) == Some(pos)
  }

  // The list holds the candidates of the first places, in order.
  ghost predicate Enumerates(origin: CellPos, found: seq<CellPos>) {
    forall n | 0 <= n < |found| :: IsCandidate(origin, n, found[n])
  }

  lemma EnumeratesOneMore(origin: CellPos, found: seq<CellPos>, next: CellPos)
    requires Enumerates(origin, found) && IsCandidate(origin, |found|, next)
    ensures Enumerates(origin, found + [next])
  {
    var longer := found + [next];
    forall n | 0 <= n < |longer|
      ensures IsCandidate(origin, n, longer[n])
    {
      if n < |found| {
        assert IsCandidate(origin, n, found[n]);
      }
    }
  }

  class SpawnSearch {
    const origin: CellPos
    var radius: I32
    var dy: I32
    var right: bool

    constructor (origin: CellPos)
      requires InI32(origin.x) && InI32(origin.y)
      ensures this.origin == origin && View() == START && Valid()
    {
      this.origin := origin;
      radius, dy, right := 0, 0, false;
    }

    function View(): Place
      reads this
    {
      Place(radius, dy, right)
    }

    ghost predicate Valid()
      reads this
    {
      View().Valid() && InI32(origin.x) && InI32(origin.y)
    }

    method Candidate() returns (pos: Option<CellPos>)
      requires Valid()
      ensures pos == CandidateAt(origin, View())
    {
      var dx := radius - Abs(dy);
      var signedDx := if right then dx else -dx;
      if !InI32(origin.x + signedDx) || !InI32(origin.y + dy) {
        return None;
      }
      pos := Some(CellPos(origin.x + signedDx, origin.y + dy));
    }

    // One place further; false when its position cannot be represented, or no ring is left.
    method Advance() returns (more: bool)
      requires Valid()
      modifies this
      ensures Valid()
      ensures old(View()).Last() && old(radius) == I32_MAX ==> !more && View() == old(View())
      ensures !(old(View()).Last() && old(radius) == I32_MAX) ==>
        View() == old(View()).Next() && more == CandidateAt(origin, View()).Some?
    {
      NextIsNext(View());
      var dx := radius - Abs(dy);
      if dx != 0 && !right {
        right := true;
      } else if dy > -radius {
        dy := dy - 1;
        right := false;
      } else {
        if radius == I32_MAX {
          return false;
        }
        radius := radius + 1;
        dy := radius;
        right := false;
      }
      var candidate := Candidate();
      more := candidate.Some?;
    }

    // A search that goes on while it can: step by step through the plane, up to the first
    // position that cannot be represented.
    method Enumerate(steps: nat) returns (found: seq<CellPos>)
      requires Valid() && View() == START
      modifies this
      ensures |found| <= steps + 1 && found != []
      ensures Enumerates(origin, found)
      ensures |found| < steps + 1 ==> CandidateAt(origin, Nth(|found|)).None?
    {
      var first := Candidate();
      found := [first.value];
      while |found| < steps + 1
        invariant Valid() && View() == Nth(|found| - 1) && 1 <= |found| <= steps + 1
        invariant Enumerates(origin, found)
        decreases steps + 1 - |found|
      {
        var more := Advance();
        assert Nth(|found|) == Nth(|found| - 1).Next();
        if !more {
          return;
        }
        var next := Candidate();
        EnumeratesOneMore(origin, found, next.value);
        found := found + [next.value];
      }
    }
  }

  // All positions nearer to the origin than the edge of the coordinates can be represented.
  lemma NearPositionsAreCandidates(origin: CellPos, n: nat, margin: nat)
    requires I32_MIN + margin <= origin.x <= I32_MAX - margin && I32_MIN + margin <= origin.y <= I32_MAX - margin
    requires Nth(n).radius <= margin
    ensures CandidateAt(origin, Nth(n)).Some?
  {
    PlaceOfOffset(Nth(n));
  }
}
