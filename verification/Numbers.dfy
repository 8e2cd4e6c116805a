// Integer arithmetic of the source's operators and of crates/fallingsand_math/src/lib.rs.
module Numbers {
  function Abs(v: int): nat {
    if v < 0 then -v else v
  }

  function Signum(v: int): int {
    if v > 0 then 1 else if v < 0 then -1 else 0
  }

  function Clamp(v: int, lo: int, hi: int): int {
    if v < lo then lo else if v > hi then hi else v
  }

  // Division that rounds towards zero, as the source's `/` does.
  function TruncateDiv(n: int, d: nat): int
    requires d > 0
  {
    if n < 0 then -(-n / d) else n / d
  }

  lemma MultipleIsLarge(d: nat, k: int)
    requires d > 0
    ensures k > 0 ==> d * k >= d
    ensures k < 0 ==> d * k + d <= 0
  {
  }

  // Rounds to the nearest, halves away from zero.
  function RoundDiv(n: int, d: int): int
    requires d > 0
  {
    if n >= 0 then (n + d / 2) / d else -((-n + d / 2) / d)
  }

  // It is nearest.
  lemma NearestQuotient(n: int, d: nat)
    requires d > 0
    ensures 2 * Abs(n - d * RoundDiv(n, d)) <= d
  {
    var q := (Abs(n) + d / 2) / d;
    assert Abs(n) + d / 2 == d * q + (Abs(n) + d / 2) % d;
    if n < 0 {
      assert d * RoundDiv(n, d) == -(d * q);
    }
  }

  // Floor square root.
  function Isqrt(n: nat): (r: nat)
    ensures r * r <= n < (r + 1) * (r + 1)
  {
    if n == 0 then 0
    else
      var r := Isqrt(n - 1);
      if (r + 1) * (r + 1) <= n then r + 1 else r
  }
}
