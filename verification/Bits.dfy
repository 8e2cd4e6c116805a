// Numbers as their bits, least significant first. Packing is the concatenation of bits:
// the bytes of a payload and the palette indices in it are two groupings of one sequence.
module Bits {
  import opened Numbers

  type Bit = b: nat | b < 2

  function Pow2(n: nat): (p: nat)
    ensures p > 0
  {
    if n == 0 then 1 else 2 * Pow2(n - 1)
  }

  // The low n bits of v.
  function BitsOf(v: nat, n: nat): (s: seq<Bit>)
    ensures |s| == n
  {
    if n == 0 then [] else [v % 2] + BitsOf(v / 2, n - 1)
  }

  function ValueOf(s: seq<Bit>): nat {
    if s == [] then 0 else s[0] + 2 * ValueOf(s[1..])
  }

  lemma {:induction false} BitsReadBack(v: nat, n: nat)
    requires v < Pow2(n)
    ensures ValueOf(BitsOf(v, n)) == v
    decreases n
  {
    if n > 0 {
      BitsReadBack(v / 2, n - 1);
      assert BitsOf(v, n)[1..] == BitsOf(v / 2, n - 1);
    }
  }

  // v shifted left by n.
  function Shift(v: nat, n: nat): nat {
    if n == 0 then v else 2 * Shift(v, n - 1)
  }

  lemma {:induction false} ShiftIsProduct(v: nat, n: nat)
    ensures Shift(v, n) == v * Pow2(n)
  {
    if n > 0 {
      ShiftIsProduct(v, n - 1);
      assert 2 * (v * Pow2(n - 1)) == v * (2 * Pow2(n - 1));
    }
  }

  lemma {:induction false} ShiftFits(low: nat, v: nat, n: nat, m: nat)
    requires low < Pow2(n) && v < Pow2(m)
    ensures low + Shift(v, n) < Pow2(n + m)
    decreases n
  {
    if n > 0 {
      ShiftFits(low / 2, v, n - 1, m);
    }
  }

  // Setting bits above a number that stays below them appends them.
  lemma {:induction false} BitsAppend(low: nat, high: nat, n: nat, m: nat)
    requires low < Pow2(n)
    ensures BitsOf(low + Shift(high, n), n + m) == BitsOf(low, n) + BitsOf(high, m)
    decreases n
  {
    if n > 0 {
      var v := low + Shift(high, n);
      assert v % 2 == low % 2 && v / 2 == low / 2 + Shift(high, n - 1);
      BitsAppend(low / 2, high, n - 1, m);
    }
  }

  // The low n bits of v as a number, and what is above them.
  function Low(v: nat, n: nat): nat
    decreases n
  {
    if n == 0 then 0 else v % 2 + 2 * Low(v / 2, n - 1)
  }

  function High(v: nat, n: nat): nat
    decreases n
  {
    if n == 0 then v else High(v / 2, n - 1)
  }

  // Taking a number apart at bit n takes its bits apart there.
  lemma {:induction false} BitsSplit(v: nat, n: nat, m: nat)
    ensures BitsOf(v, n + m) == BitsOf(Low(v, n), n) + BitsOf(High(v, n), m)
    decreases n
  {
    if n > 0 {
      BitsSplit(v / 2, n - 1, m);
    }
  }

  // They are remainder and quotient by the power of two: a mask and a shift.
  lemma {:induction false} LowAndHigh(v: nat, n: nat)
    ensures v == Pow2(n) * High(v, n) + Low(v, n) && Low(v, n) < Pow2(n)
    ensures v % Pow2(n) == Low(v, n) && v / Pow2(n) == High(v, n)
    decreases n
  {
    if n > 0 {
      LowAndHigh(v / 2, n - 1);
      assert v == 2 * (Pow2(n - 1) * High(v, n)) + Low(v, n);
      assert 2 * (Pow2(n - 1) * High(v, n)) == Pow2(n) * High(v, n);
    }
    QuotientIs(v, Pow2(n), High(v, n), Low(v, n));
  }

  lemma {:induction false} HighFits(v: nat, n: nat, m: nat)
    requires v < Pow2(n + m)
    ensures High(v, n) < Pow2(m)
    decreases n
  {
    if n > 0 {
      assert v / 2 < Pow2(n - 1 + m);
      HighFits(v / 2, n - 1, m);
    }
  }

  lemma QuotientIs(v: nat, d: nat, q: nat, r: nat)
    requires d > 0 && v == d * q + r && r < d
    ensures v / d == q && v % d == r
  {
    var q', r' := v / d, v % d;
    assert v == d * q' + r';
    assert d * (q' - q) == d * q' - d * q;
    MultipleIsLarge(d, q' - q);
  }

  function BitLength(v: nat): nat {
    if v == 0 then 0 else 1 + BitLength(v / 2)
  }

  lemma {:induction false} BitLengthFits(v: nat)
    ensures v < Pow2(BitLength(v))
  {
    if v > 0 {
      BitLengthFits(v / 2);
    }
  }

  lemma {:induction false} BitLengthIsLeast(v: nat, b: nat)
    requires v < Pow2(b)
    ensures BitLength(v) <= b
  {
    if v > 0 {
      assert v / 2 < Pow2(b - 1);
      BitLengthIsLeast(v / 2, b - 1);
    }
  }

  // The numbers one after the other, `width` bits each.
  function Packed(numbers: seq<nat>, width: nat): seq<Bit> {
    if numbers == [] then [] else Packed(numbers[..|numbers| - 1], width) + BitsOf(numbers[|numbers| - 1], width)
  }

  lemma PackedNext(numbers: seq<nat>, n: nat, width: nat)
    ensures Packed(numbers + [n], width) == Packed(numbers, width) + BitsOf(n, width)
  {
    assert (numbers + [n])[..|numbers|] == numbers;
  }

  lemma {:induction false} NoBits(n: nat)
    ensures ValueOf(BitsOf(0, n)) == 0
  {
    if n > 0 {
      NoBits(n - 1);
      assert BitsOf(0, n)[1..] == BitsOf(0, n - 1);
    }
  }
}
