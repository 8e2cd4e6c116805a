// Reachability along a link relation, for the two flood fills of the body code: a
// component is everything reachable from one of its members.
module Components {
  ghost predicate IsPath<T(!new)>(link: (T, T) -> bool, path: seq<T>) {
    path != [] && forall i | 0 <= i < |path| - 1 :: link(path[i], path[i + 1])
  }

  ghost predicate Joins<T(!new)>(link: (T, T) -> bool, path: seq<T>, a: T, b: T) {
    IsPath(link, path) && path[0] == a && path[|path| - 1] == b
  }

  ghost predicate Connected<T(!new)>(link: (T, T) -> bool, a: T, b: T) {
    exists path :: Joins(link, path, a, b)
  }

  lemma ConnectedSelf<T(!new)>(link: (T, T) -> bool, a: T)
    ensures Connected(link, a, a)
  {
    assert Joins(link, [a], a, a);
  }

  lemma ConnectedStep<T(!new)>(link: (T, T) -> bool, a: T, b: T, c: T)
    requires Connected(link, a, b) && link(b, c)
    ensures Connected(link, a, c)
  {
    var path :| Joins(link, path, a, b);
    assert Joins(link, path + [c], a, c);
  }

  lemma ConnectedTransitive<T(!new)>(link: (T, T) -> bool, a: T, b: T, c: T)
    requires Connected(link, a, b) && Connected(link, b, c)
    ensures Connected(link, a, c)
  {
    var p :| Joins(link, p, a, b);
    var q :| Joins(link, q, b, c);
    var path := p + q[1..];
    forall i | 0 <= i < |path| - 1
      ensures link(path[i], path[i + 1])
    {
      if i >= |p| - 1 {
        assert path[i] == q[i - |p| + 1] && path[i + 1] == q[i - |p| + 2];
      }
    }
    assert Joins(link, path, a, c);
  }

  ghost predicate Symmetric<T(!new)>(link: (T, T) -> bool) {
    forall a, b :: link(a, b) ==> link(b, a)
  }

  lemma ConnectedBack<T(!new)>(link: (T, T) -> bool, a: T, b: T)
    requires Symmetric(link) && Connected(link, a, b)
    ensures Connected(link, b, a)
  {
    var path :| Joins(link, path, a, b);
    var back := seq(|path|, i requires 0 <= i < |path| => path[|path| - 1 - i]);
    forall i | 0 <= i < |back| - 1
      ensures link(back[i], back[i + 1])
    {
      var j := |path| - 2 - i;
      assert link(path[j], path[j + 1]);
    }
    assert Joins(link, back, b, a);
  }

  // A set closed under the links holds all of the component of each of its members.
  lemma ClosedHoldsConnected<T(!new)>(link: (T, T) -> bool, s: iset<T>, a: T, b: T)
    requires a in s && (forall p, q | p in s && link(p, q) :: q in s) && Connected(link, a, b)
    ensures b in s
  {
    var path :| Joins(link, path, a, b);
    PathStays(link, s, path, |path| - 1);
  }

  lemma {:induction false} PathStays<T(!new)>(link: (T, T) -> bool, s: iset<T>, path: seq<T>, i: nat)
    requires IsPath(link, path) && i < |path| && path[0] in s && forall p, q | p in s && link(p, q) :: q in s
    ensures path[i] in s
  {
    if i > 0 {
      PathStays(link, s, path, i - 1);
    }
  }
}
