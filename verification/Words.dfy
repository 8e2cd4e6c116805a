// Machine words read as numbers, bit by bit, and the source's or-and-shift step on them.
module Words {
  import opened Bits

  // The number in the low n bits of a word.
  function Reading(v: bv64, n: nat): nat {
    if n == 0 then 0 else (if v & 1 == 1 then 1 else 0) + 2 * Reading(v >> 1, n - 1)
  }

  lemma ReadingHalves(v: bv64, width: nat)
    requires width > 0
    ensures Reading(v, width) % 2 == (if v & 1 == 1 then 1 else 0)
    ensures Reading(v, width) / 2 == Reading(v >> 1, width - 1)
  {
  }

  // A shift amount as a number.
  function Count(shift: bv6): nat
    decreases shift
  {
    if shift == 0 then 0 else 1 + Count(shift - 1)
  }

  // The bits of `word` are those of acc below `shift`, and from there on those of v.
  predicate Above(word: bv64, acc: bv64, v: bv64, shift: bv6)
    decreases shift
  {
    if shift == 0 then word == v
    else word & 1 == acc & 1 && Above(word >> 1, acc >> 1, v, shift - 1)
  }

  lemma OrShifts(acc: bv64, v: bv64, shift: bv6, word: bv64)
    requires 0 < shift < 8 && acc < (1 << shift) && v < 256 && word == acc | (v << shift)
    ensures word & 1 == acc & 1 && word >> 1 == (acc >> 1) | (v << (shift - 1))
    ensures acc >> 1 < (1 << (shift - 1))
  {
  }

  lemma {:induction false} OrSetsAbove(acc: bv64, v: bv64, shift: bv6, word: bv64)
    requires shift < 8 && acc < (1 << shift) && v < 256 && word == acc | (v << shift)
    ensures Above(word, acc, v, shift)
    decreases shift
  {
    if shift > 0 {
      OrShifts(acc, v, shift, word);
      OrSetsAbove(acc >> 1, v, shift - 1, word >> 1);
    }
  }

  lemma {:induction false} AboveReads(word: bv64, acc: bv64, v: bv64, shift: bv6)
    requires Above(word, acc, v, shift)
    ensures Reading(word, Count(shift) + 8) == Reading(acc, Count(shift)) + Shift(Reading(v, 8), Count(shift))
    decreases shift
  {
    if shift > 0 {
      AboveReads(word >> 1, acc >> 1, v, shift - 1);
      assert Reading(word, Count(shift) + 8)
          == (if word & 1 == 1 then 1 else 0) + 2 * Reading(word >> 1, Count(shift) + 7);
    }
  }

  // A byte or-ed into an accumulator above its filled bits is the addition of a shifted
  // number: what both loops of the cell codec rely on.
  lemma OrIsPlus(acc: bv64, v: bv64, filled: bv6, word: bv64)
    requires filled < 8 && acc < (1 << filled) && v < 256 && word == acc | (v << filled)
    ensures Reading(word, Count(filled) + 8) == Reading(acc, Count(filled)) + Shift(Reading(v, 8), Count(filled))
  {
    OrSetsAbove(acc, v, filled, word);
    AboveReads(word, acc, v, filled);
  }

  // The codec's accumulators of 32 bits compute the same, and never use more than 15 bits.
  lemma NarrowOrIsEnough(acc: bv32, v: bv32, filled: bv6, word: bv32)
    requires filled < 8 && acc < (1 << filled) && v < 256 && word == acc | (v << filled)
    ensures word as bv64 == acc as bv64 | (v as bv64 << filled) && word < 0x8000
    ensures acc as bv64 < (1 << filled) && v as bv64 < 256
  {
  }
}
