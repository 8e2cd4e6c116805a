// A step taken over and over, and what survives it.
module Iteration {
  // x after the steps numbered 0 up to n.
  ghost function Iterate<S(!new)>(step: (S, nat) -> S, x: S, n: nat): S
  {
    if n == 0 then x else step(Iterate(step, x, n - 1), n - 1)
  }

  // What every step keeps, any number of steps keeps.
  lemma {:induction false} IterateKeeps<S(!new)>(step: (S, nat) -> S, keeps: S -> bool, x: S, n: nat)
    requires keeps(x) && forall s, i: nat | keeps(s) && i < n :: keeps(step(s, i))
    ensures keeps(Iterate(step, x, n))
    decreases n
  {
    if n > 0 {
      IterateKeeps(step, keeps, x, n - 1);
    }
  }

  // Steps of any kind, each of which must be possible when it is taken.
  predicate Follows<S(!new), T(!new)>(can: (S, T) -> bool, next: (S, T) -> S, s: S, steps: seq<T>)
    decreases |steps|
  {
    steps == [] || (can(s, steps[0]) && Follows(can, next, next(s, steps[0]), steps[1..]))
  }

  function Leads<S(!new), T(!new)>(next: (S, T) -> S, s: S, steps: seq<T>): S
    decreases |steps|
  {
    if steps == [] then s else Leads(next, next(s, steps[0]), steps[1..])
  }

  lemma {:induction false} FollowsConcat<S(!new), T(!new)>(
    can: (S, T) -> bool, next: (S, T) -> S, s: S, a: seq<T>, b: seq<T>)
    ensures Follows(can, next, s, a + b) <==> Follows(can, next, s, a) && Follows(can, next, Leads(next, s, a), b)
    ensures Leads(next, s, a + b) == Leads(next, Leads(next, s, a), b)
    decreases |a|
  {
    if a == [] {
      assert a + b == b;
    } else {
      assert (a + b)[0] == a[0] && (a + b)[1..] == a[1..] + b;
      FollowsConcat(can, next, next(s, a[0]), a[1..], b);
    }
  }
}
