// Row order, the key of the source's sorts: (y, x) ascending, behind a layer where one sort
// puts heavier cells first.
module Rows {
  datatype Row = Row(layer: int, y: int, x: int)

  predicate RowBefore(a: Row, b: Row) {
    a.layer < b.layer || (a.layer == b.layer && (a.y < b.y || (a.y == b.y && a.x < b.x)))
  }

  function InsertBy<T>(sorted: seq<T>, item: T, key: T -> Row): seq<T> {
    if sorted == [] || RowBefore(key(item), key(sorted[0])) then [item] + sorted
    else [sorted[0]] + InsertBy(sorted[1..], item, key)
  }

  ghost predicate InRowOrder<T>(items: seq<T>, key: T -> Row) {
    forall i, j | 0 <= i < j < |items| :: !RowBefore(key(items[j]), key(items[i]))
  }

  lemma {:induction false} InsertByAdds<T>(sorted: seq<T>, item: T, key: T -> Row)
    ensures multiset(InsertBy(sorted, item, key)) == multiset(sorted) + multiset{item}
  {
    if sorted != [] && !RowBefore(key(item), key(sorted[0])) {
      InsertByAdds(sorted[1..], item, key);
      assert sorted == [sorted[0]] + sorted[1..];
    }
  }

  lemma PrependKeepsOrder<T>(first: T, rest: seq<T>, key: T -> Row)
    requires InRowOrder(rest, key)
    requires forall j | 0 <= j < |rest| :: !RowBefore(key(rest[j]), key(first))
    ensures InRowOrder([first] + rest, key)
  {
  }

  lemma {:induction false} InsertByKeepsOrder<T>(sorted: seq<T>, item: T, key: T -> Row)
    requires InRowOrder(sorted, key)
    ensures InRowOrder(InsertBy(sorted, item, key), key)
  {
    if sorted == [] {
    } else if RowBefore(key(item), key(sorted[0])) {
      PrependKeepsOrder(item, sorted, key);
    } else {
      var rest := InsertBy(sorted[1..], item, key);
      InsertByKeepsOrder(sorted[1..], item, key);
      InsertByAdds(sorted[1..], item, key);
      forall j | 0 <= j < |rest|
        ensures !RowBefore(key(rest[j]), key(sorted[0]))
      {
        assert rest[j] in multiset(rest);
        if rest[j] != item {
          assert rest[j] in multiset(sorted[1..]);
        }
      }
      PrependKeepsOrder(sorted[0], rest, key);
    }
  }

  method SortByRow<T(==)>(items: seq<T>, key: T -> Row) returns (sorted: seq<T>)
    ensures multiset(sorted) == multiset(items) && InRowOrder(sorted, key)
  {
    sorted := [];
    for i := 0 to |items|
      invariant multiset(sorted) == multiset(items[..i]) && InRowOrder(sorted, key)
    {
      InsertByAdds(sorted, items[i], key);
      InsertByKeepsOrder(sorted, items[i], key);
      sorted := InsertBy(sorted, items[i], key);
      assert items[..i + 1] == items[..i] + [items[i]];
    }
    assert items[..|items|] == items;
  }

  lemma SetHasNoRepeats<T>(positions: seq<T>, i: nat, j: nat)
    requires i < j < |positions| && forall p :: multiset(positions)[p] <= 1
    ensures positions[i] != positions[j]
  {
    var p := positions[j];
    assert positions == positions[..j] + [p] + positions[j + 1..];
    assert multiset(positions)[p] == multiset(positions[..j])[p] + 1 + multiset(positions[j + 1..])[p];
    assert p !in positions[..j];
    assert positions[i] in positions[..j];
  }

  // The items of a set, each once, in row order.
  method RowOrder<T(==)>(positions: set<T>, key: T -> Row) returns (sorted: seq<T>)
    ensures InRowOrder(sorted, key)
    ensures forall p :: p in sorted <==> p in positions
    ensures forall i, j | 0 <= i < j < |sorted| :: sorted[i] != sorted[j]
  {
    sorted := [];
    var rest := positions;
    while rest != {}
      invariant rest <= positions
      invariant multiset(sorted) == multiset(positions - rest) && InRowOrder(sorted, key)
    {
      var pos :| pos in rest;
      InsertByAdds(sorted, pos, key);
      InsertByKeepsOrder(sorted, pos, key);
      sorted := InsertBy(sorted, pos, key);
      rest := rest - {pos};
    }
    forall p
      ensures p in sorted <==> p in positions
    {
      assert p in multiset(sorted) <==> p in multiset(positions);
    }
    forall i, j | 0 <= i < j < |sorted|
      ensures sorted[i] != sorted[j]
    {
      SetHasNoRepeats(sorted, i, j);
    }
  }

  ghost predicate NoRepeats<T(!new)>(items: seq<T>) {
    forall i, j | 0 <= i < j < |items| :: items[i] != items[j]
  }

  lemma SameTails<T(!new)>(a: seq<T>, b: seq<T>)
    requires a != [] && b != [] && a[0] == b[0] && NoRepeats(a) && NoRepeats(b) && forall p :: p in a <==> p in b
    ensures NoRepeats(a[1..]) && NoRepeats(b[1..]) && forall p :: p in a[1..] <==> p in b[1..]
  {
    forall p
      ensures p in a[1..] <==> p in b[1..]
    {
      TailMembers(a, p);
      TailMembers(b, p);
    }
  }

  lemma TailMembers<T(!new)>(a: seq<T>, p: T)
    requires a != [] && NoRepeats(a)
    ensures p in a[1..] <==> p in a && p != a[0]
  {
    assert a == [a[0]] + a[1..];
    if p in a[1..] {
      var i :| 0 <= i < |a| - 1 && a[1..][i] == p;
      assert a[0] != a[i + 1];
    }
  }

  lemma FirstIsMember<T(!new)>(a: seq<T>)
    ensures a != [] ==> exists p :: p in a
  {
    if a != [] {
      assert a[0] in a;
    }
  }

  lemma FirstIsFirst<T(!new)>(a: seq<T>, p: T, key: T -> Row)
    requires InRowOrder(a, key) && p in a
    ensures !RowBefore(key(p), key(a[0]))
  {
    var i :| 0 <= i < |a| && a[i] == p;
    assert i > 0 ==> !RowBefore(key(a[i]), key(a[0]));
  }

  // There is one way only to put different items of different rows in order.
  lemma {:induction false} OrderIsUnique<T(!new)>(a: seq<T>, b: seq<T>, key: T -> Row)
    requires NoRepeats(a) && NoRepeats(b) && (forall p :: p in a <==> p in b)
    requires InRowOrder(a, key) && InRowOrder(b, key)
    requires forall p, q | p in a && q in a && key(p) == key(q) :: p == q
    ensures a == b
  {
    if a == [] {
      FirstIsMember(b);
    } else {
      assert a[0] in b && b[0] in a;
      FirstIsFirst(a, b[0], key);
      FirstIsFirst(b, a[0], key);
      assert key(a[0]) == key(b[0]);
      SameTails(a, b);
      assert a == [a[0]] + a[1..] && b == [b[0]] + b[1..];
      OrderIsUnique(a[1..], b[1..], key);
    }
  }
}
