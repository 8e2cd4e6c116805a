// The database key of a region (crates/fallingsand_core/src/coords.rs, zorder_key
// and interleave): the 32-bit images of both coordinates, their bits interleaved.
module ZOrder {
  import opened Bits
  import opened Coords
  import opened Words

  // interleave, with the source's masks and shifts.
  function Interleave(v: bv32): bv64 {
    Stretch(v as bv64)
  }

  function Stretch(x: bv64): bv64 {
    var x1 := (x | (x << 16)) & 0x0000_FFFF_0000_FFFF;
    var x2 := (x1 | (x1 << 8)) & 0x00FF_00FF_00FF_00FF;
    var x3 := (x2 | (x2 << 4)) & 0x0F0F_0F0F_0F0F_0F0F;
    var x4 := (x3 | (x3 << 2)) & 0x3333_3333_3333_3333;
    (x4 | (x4 << 1)) & 0x5555_5555_5555_5555
  }

  // zorder_key, of the coordinates' words.
  function WordKey(x: bv32, y: bv32): bv64 {
    Interleave(x) | (Interleave(y) << 1)
  }

  lemma WordKeysNeverCollide(x: bv32, y: bv32, a: bv32, b: bv32)
    requires WordKey(x, y) == WordKey(a, b)
    ensures x == a && y == b
  {
  }

  // The same key on numbers. The low `width` bits of v, bit i moved to bit 2i:
  function Spread(v: nat, width: nat): nat {
    if width == 0 then 0 else v % 2 + 4 * Spread(v / 2, width - 1)
  }

  function Merged(x: nat, y: nat, width: nat): nat {
    Spread(x, width) + 2 * Spread(y, width)
  }

  // A coordinate cast to u32.
  function AsWord(v: RegionCoord): nat {
    if v < 0 then v + 0x1_0000_0000 else v
  }

  function ZOrderKey(pos: RegionPos): nat {
    Merged(AsWord(pos.x), AsWord(pos.y), 32)
  }

  const ODD_BITS: bv64 := 0xAAAA_AAAA_AAAA_AAAA

  lemma StretchOne(x: bv64)
    requires x & 0xFFFF_FFFF_0000_0000 == 0
    ensures Stretch(x) & ODD_BITS == 0
    ensures Stretch(x) & 1 == x & 1
  {
  }

  lemma StretchRest(x: bv64)
    requires x & 0xFFFF_FFFF_0000_0000 == 0
    ensures (Stretch(x) >> 1) >> 1 == Stretch(x >> 1)
    ensures (x >> 1) & 0xFFFF_FFFF_0000_0000 == 0
  {
  }

  lemma TwoWords(a: bv64, b: bv64)
    requires a & ODD_BITS == 0 && b & ODD_BITS == 0
    ensures (a | (b << 1)) & 1 == a & 1
    ensures ((a | (b << 1)) >> 1) & 1 == b & 1
    ensures ((a | (b << 1)) >> 1) >> 1 == ((a >> 1) >> 1) | (((b >> 1) >> 1) << 1)
  {
  }

  // Bit i of x, i below n, is bit 2i of the key, and bit i of y is the bit above it.
  predicate MergedBits(key: bv64, x: bv64, y: bv64, n: nat)
    decreases n
  {
    n == 0
    || (key & 1 == x & 1 && (key >> 1) & 1 == y & 1 && MergedBits((key >> 1) >> 1, x >> 1, y >> 1, n - 1))
  }

  lemma {:induction false} StretchesMerge(x: bv64, y: bv64, n: nat)
    requires x & 0xFFFF_FFFF_0000_0000 == 0 && y & 0xFFFF_FFFF_0000_0000 == 0
    ensures MergedBits(Stretch(x) | (Stretch(y) << 1), x, y, n)
    decreases n
  {
    if n > 0 {
      StretchOne(x);
      StretchOne(y);
      StretchRest(x);
      StretchRest(y);
      TwoWords(Stretch(x), Stretch(y));
      StretchesMerge(x >> 1, y >> 1, n - 1);
    }
  }

  lemma {:induction false} MergedBitsRead(key: bv64, x: bv64, y: bv64, width: nat)
    requires MergedBits(key, x, y, width)
    ensures Reading(key, 2 * width) == Merged(Reading(x, width), Reading(y, width), width)
    decreases width
  {
    if width > 0 {
      MergedBitsRead((key >> 1) >> 1, x >> 1, y >> 1, width - 1);
      ReadingHalves(x, width);
      ReadingHalves(y, width);
      assert Reading(key >> 1, 2 * width - 1)
          == (if (key >> 1) & 1 == 1 then 1 else 0) + 2 * Reading((key >> 1) >> 1, 2 * width - 2);
    }
  }

  // The machine key, read as a number, is the one above.
  lemma WordKeyIsMerged(x: bv32, y: bv32)
    ensures Reading(WordKey(x, y), 64) == Merged(Reading(x as bv64, 32), Reading(y as bv64, 32), 32)
  {
    StretchesMerge(x as bv64, y as bv64, 32);
    MergedBitsRead(WordKey(x, y), x as bv64, y as bv64, 32);
  }

  lemma {:induction false} MergedSpreadsDecide(x: nat, y: nat, a: nat, b: nat, width: nat)
    requires x < Pow2(width) && y < Pow2(width) && a < Pow2(width) && b < Pow2(width)
    requires Merged(x, y, width) == Merged(a, b, width)
    ensures x == a && y == b
  {
    if width > 0 {
      MergedSpreadsDecide(x / 2, y / 2, a / 2, b / 2, width - 1);
    }
  }

  // No two regions share a database key.
  lemma KeysNeverCollide(p: RegionPos, q: RegionPos)
    requires ZOrderKey(p) == ZOrderKey(q)
    ensures p == q
  {
    assert Pow2(8) == 0x100;
    assert Pow2(16) == 0x1_0000;
    assert Pow2(24) == 0x100_0000;
    assert Pow2(32) == 0x1_0000_0000;
    MergedSpreadsDecide(AsWord(p.x), AsWord(p.y), AsWord(q.x), AsWord(q.y), 32);
  }
}
