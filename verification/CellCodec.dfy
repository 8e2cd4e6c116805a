// The cell payloads of the wire protocol (crates/fallingsand_protocol/src/wire.rs):
// uniform, palette with packed indices, or raw.
module CellCodec {
  import opened Wrappers
  import opened Materials
  import opened Cells
  import opened Bits

  const CELLS_UNIFORM: U8 := 0
  const CELLS_PALETTE: U8 := 1
  const CELLS_RAW: U8 := 2
  const CELL_WIRE_BYTES: nat := 3
  const MAX_PALETTE: nat := 256

  type Bytes = seq<U8>

  datatype WireError = Empty | BadCellPayload(length: nat) | InvalidMaterial(id: MaterialId)

  function CellEntry(look: Matter): Bytes {
    [look.material % 256, look.material / 256, look.shade]
  }

  function EntryCell(entry: Bytes): Result<Cell, WireError>
    requires |entry| == CELL_WIRE_BYTES
  {
    var material: MaterialId := entry[0] as int + 256 * entry[1] as int;
    if material >= CONTENT.count then Err(InvalidMaterial(material)) else Ok(NewCell(material, 0).(shade := entry[2]))
  }

  // The cells of a run of entries, or the first invalid material among them.
  function EntryCells(entries: Bytes): Result<seq<Cell>, WireError>
    requires |entries| % CELL_WIRE_BYTES == 0
  {
    if entries == [] then Ok([])
    else
      match EntryCell(entries[..3])
      case Err(error) => Err(error)
      case Ok(cell) =>
        match EntryCells(entries[3..])
        case Err(error) => Err(error)
        case Ok(cells) => Ok([cell] + cells)
  }

  function Entries(looks: seq<Matter>): (entries: Bytes)
    ensures |entries| == CELL_WIRE_BYTES * |looks|
  {
    if looks == [] then [] else CellEntry(looks[0]) + Entries(looks[1..])
  }

  function Looks(cells: seq<Cell>): seq<Matter> {
    seq(|cells|, i requires 0 <= i < |cells| => cells[i].Visible())
  }

  // The cells as the other side sees them: at rest, without flags.
  function Shown(looks: seq<Matter>): seq<Cell> {
    seq(|looks|, i requires 0 <= i < |looks| => NewCell(looks[i].material, 0).(shade := looks[i].shade))
  }

  predicate Known(looks: seq<Matter>) {
    forall i | 0 <= i < |looks| :: looks[i].material < CONTENT.count
  }

  lemma EntryReadsBack(look: Matter)
    ensures EntryCell(CellEntry(look))
      == if look.material < CONTENT.count then Ok(NewCell(look.material, 0).(shade := look.shade))
         else Err(InvalidMaterial(look.material))
  {
  }

  lemma KnownSplits(looks: seq<Matter>)
    requires looks != []
    ensures Known(looks) <==> looks[0].material < CONTENT.count && Known(looks[1..])
  {
    assert forall i | 1 <= i < |looks| :: looks[i] == looks[1..][i - 1];
  }

  // The first unknown material.
  function FirstUnknown(looks: seq<Matter>): MaterialId
    requires !Known(looks)
  {
    if looks[0].material >= CONTENT.count then looks[0].material
    else
      KnownSplits(looks);
      FirstUnknown(looks[1..])
  }

  lemma {:induction false} EntriesReadBack(looks: seq<Matter>)
    ensures EntryCells(Entries(looks)) == if Known(looks) then Ok(Shown(looks)) else Err(InvalidMaterial(FirstUnknown(looks)))
  {
    if looks == [] {
      assert Shown(looks) == [];
    } else {
      var all := Entries(looks);
      assert all[..3] == CellEntry(looks[0]) && all[3..] == Entries(looks[1..]);
      EntryReadsBack(looks[0]);
      EntriesReadBack(looks[1..]);
      KnownSplits(looks);
      if Known(looks) {
        assert Shown(looks) == [NewCell(looks[0].material, 0).(shade := looks[0].shade)] + Shown(looks[1..]);
      } else if looks[0].material < CONTENT.count {
        assert FirstUnknown(looks) == FirstUnknown(looks[1..]);
      } else {
        assert FirstUnknown(looks) == looks[0].material;
      }
    }
  }

  function IndexBits(paletteLen: nat): nat
    requires paletteLen > 0
  {
    BitLength(paletteLen - 1)
  }

  lemma IndexBitsBounds(paletteLen: nat)
    requires 2 <= paletteLen <= MAX_PALETTE
    ensures 1 <= IndexBits(paletteLen) <= 8
    ensures Pow2(IndexBits(paletteLen) - 1) < paletteLen <= Pow2(IndexBits(paletteLen))
  {
    assert Pow2(8) == 256;
    BitLengthFits(paletteLen - 1);
    if paletteLen - 1 < Pow2(IndexBits(paletteLen) - 1) {
      BitLengthIsLeast(paletteLen - 1, IndexBits(paletteLen) - 1);
    }
    BitLengthIsLeast(paletteLen - 1, 8);
  }

  function DivCeil(n: nat, d: nat): nat
    requires d > 0
  {
    (n + d - 1) / d
  }

  // ------------------------------------------------------------------ decoding

  // The palette indices in the bits, `width` bits each, and what is left of the bits.
  function IndexList(s: seq<Bit>, width: nat, count: nat): (seq<nat>, seq<Bit>) {
    if count == 0 then ([], s)
    else
      var (before, rest) := IndexList(s, width, count - 1);
      if |rest| < width then (before, rest) else (before + [ValueOf(rest[..width])], rest[width..])
  }

  function Decode(bytes: Bytes, count: nat): Result<seq<Cell>, WireError> {
    var bad := Err(BadCellPayload(|bytes|));
    if bytes == [] then Err(WireError.Empty)
    else
      var payload := bytes[1..];
      if bytes[0] == CELLS_UNIFORM then
        if |payload| != CELL_WIRE_BYTES then bad
        else
          match EntryCell(payload)
          case Err(error) => Err(error)
          case Ok(cell) => Ok(seq(count, _ => cell))
      else if bytes[0] == CELLS_PALETTE then DecodePalette(payload, count, |bytes|)
      else if bytes[0] == CELLS_RAW then
        if |payload| != count * CELL_WIRE_BYTES then bad else EntryCells(payload)
      else bad
  }

  function DecodePalette(payload: Bytes, count: nat, length: nat): Result<seq<Cell>, WireError> {
    var bad := Err(BadCellPayload(length));
    if payload == [] || payload[0] == 0 || |payload| - 1 < (payload[0] as nat + 1) * CELL_WIRE_BYTES then bad
    else
      var paletteLen := payload[0] as nat + 1;
      var packed := payload[1 + paletteLen * CELL_WIRE_BYTES..];
      var bits := IndexBits(paletteLen);
      if |packed| != DivCeil(count * bits, 8) then bad
      else
        match EntryCells(payload[1..1 + paletteLen * CELL_WIRE_BYTES])
        case Err(error) => Err(error)
        case Ok(palette) => DecodePacked(packed, palette, bits, count, length)
  }

  function ByteBits(bytes: Bytes): seq<Bit> {
    if bytes == [] then [] else BitsOf(bytes[0], 8) + ByteBits(bytes[1..])
  }

  lemma {:induction false} ByteBitsAppend(bytes: Bytes, b: U8)
    ensures ByteBits(bytes + [b]) == ByteBits(bytes) + BitsOf(b, 8)
  {
    if bytes == [] {
      assert bytes + [b] == [b] && [b][1..] == [];
    } else {
      assert (bytes + [b])[1..] == bytes[1..] + [b];
      ByteBitsAppend(bytes[1..], b);
    }
  }

  function DecodePacked(packed: Bytes, palette: seq<Cell>, bits: nat, count: nat, length: nat): Result<seq<Cell>, WireError> {
    var (indices, rest) := IndexList(ByteBits(packed), bits, count);
    if (exists i | 0 <= i < |indices| :: indices[i] >= |palette|) || ValueOf(rest) != 0 then Err(BadCellPayload(length))
    else Ok(Painted(palette, indices))
  }

  function Painted(palette: seq<Cell>, indices: seq<nat>): seq<Cell>
    requires forall i | 0 <= i < |indices| :: indices[i] < |palette|
  {
    seq(|indices|, i requires 0 <= i < |indices| => palette[indices[i]])
  }

  // The bits not yet taken: those in the accumulator, then those of the bytes to come.
  ghost predicate Pending(all: seq<Bit>, bits: nat, k: nat, indices: seq<nat>, acc: nat, filled: nat, rest: Bytes) {
    acc < Pow2(filled) && IndexList(all, bits, k) == (indices, BitsOf(acc, filled) + ByteBits(rest))
  }

  lemma Grouping(a: seq<Bit>, b: seq<Bit>, c: seq<Bit>)
    ensures a + (b + c) == a + b + c
  {
  }

  lemma PendingRead(all: seq<Bit>, bits: nat, k: nat, indices: seq<nat>, acc: nat, filled: nat, rest: Bytes)
    requires Pending(all, bits, k, indices, acc, filled, rest) && rest != []
    ensures Pending(all, bits, k, indices, acc + Shift(rest[0], filled), filled + 8, rest[1..])
  {
    assert Pow2(8) == 256;
    ShiftFits(acc, rest[0], filled, 8);
    BitsAppend(acc, rest[0], filled, 8);
    Grouping(BitsOf(acc, filled), BitsOf(rest[0], 8), ByteBits(rest[1..]));
  }

  lemma PendingTake(all: seq<Bit>, bits: nat, k: nat, indices: seq<nat>, acc: nat, filled: nat, rest: Bytes)
    requires Pending(all, bits, k, indices, acc, filled, rest) && bits <= filled
    ensures Pending(all, bits, k + 1, indices + [Low(acc, bits)], High(acc, bits), filled - bits, rest)
  {
    LowAndHigh(acc, bits);
    HighFits(acc, bits, filled - bits);
    BitsSplit(acc, bits, filled - bits);
    BitsReadBack(Low(acc, bits), bits);
    Grouping(BitsOf(Low(acc, bits), bits), BitsOf(High(acc, bits), filled - bits), ByteBits(rest));
    HeadAndTail(BitsOf(Low(acc, bits), bits), BitsOf(High(acc, bits), filled - bits) + ByteBits(rest));
  }

  lemma HeadAndTail(a: seq<Bit>, b: seq<Bit>)
    ensures (a + b)[..|a|] == a && (a + b)[|a|..] == b
  {
  }

  lemma Monotone(a: nat, b: nat, c: nat)
    requires b <= c
    ensures a * b <= a * c
  {
  }

  // One index off the accumulator, filled up first. It never holds more than 15 bits, and the
  // or of a shifted byte is the addition (Words.OrIsPlus). Its mask and shift are Low and High.
  method TakeIndex(
    packed: Bytes, bits: nat, ghost k: nat, ghost indices: seq<nat>, acc: nat, filled: nat, j: nat, ghost taken: nat)
    returns (index: nat, acc': nat, filled': nat, j': nat)
    requires 1 <= bits <= 8 && filled < 8 && j <= |packed| && 8 * j == taken + filled && taken + bits <= 8 * |packed|
    requires Pending(ByteBits(packed), bits, k, indices, acc, filled, packed[j..])
    ensures filled' < 8 && j' <= |packed| && 8 * j' == taken + bits + filled'
    ensures Pending(ByteBits(packed), bits, k + 1, indices + [index], acc', filled', packed[j'..])
  {
    acc', filled', j' := acc, filled, j;
    while filled' < bits
      invariant filled' < bits + 8 && filled' <= 15 && j' <= |packed| && 8 * j' == taken + filled'
      invariant Pending(ByteBits(packed), bits, k, indices, acc', filled', packed[j'..])
      decreases bits - filled'
    {
      PendingRead(ByteBits(packed), bits, k, indices, acc', filled', packed[j'..]);
      assert packed[j'..][1..] == packed[j' + 1..];
      acc' := acc' + Shift(packed[j'], filled');
      filled' := filled' + 8;
      j' := j' + 1;
    }
    Below15Bits(acc', filled');
    PendingTake(ByteBits(packed), bits, k, indices, acc', filled', packed[j'..]);
    index := Low(acc', bits);
    acc' := High(acc', bits);
    filled' := filled' - bits;
  }

  lemma {:induction false} Below15Bits(acc: nat, filled: nat)
    requires acc < Pow2(filled) && filled <= 15
    ensures acc < 0x8000
  {
    Pow2Grows(filled, 15);
    assert Pow2(5) == 32 && Pow2(10) == 1024 && Pow2(15) == 0x8000;
  }

  lemma {:induction false} Pow2Grows(a: nat, b: nat)
    requires a <= b
    ensures Pow2(a) <= Pow2(b)
  {
    if a < b {
      Pow2Grows(a, b - 1);
    }
  }

  method UnpackCells(packed: Bytes, palette: seq<Cell>, bits: nat, count: nat, length: nat)
    returns (r: Result<seq<Cell>, WireError>)
    requires 1 <= bits <= 8 && |packed| == DivCeil(count * bits, 8)
    ensures r == DecodePacked(packed, palette, bits, count, length)
  {
    var acc: nat, filled: nat, j: nat := 0, 0, 0;
    var cells: seq<Cell> := [];
    ghost var indices: seq<nat>, taken: nat := [], 0;
    ghost var all := ByteBits(packed);
    assert packed[0..] == packed && BitsOf(0, 0) + all == all;
    for k := 0 to count
      invariant filled < 8 && j <= |packed| && taken == bits * k && 8 * j == taken + filled
      invariant Pending(all, bits, k, indices, acc, filled, packed[j..]) && |indices| == |cells| == k
      invariant forall i | 0 <= i < k :: indices[i] < |palette| && cells[i] == palette[indices[i]]
    {
      TakenFits(|packed|, bits, count, k);
      var index;
      index, acc, filled, j := TakeIndex(packed, bits, k, indices, acc, filled, j, taken);
      indices, taken := indices + [index], taken + bits;
      if index >= |palette| {
        BadIndexStays(all, bits, count, k, indices, |palette|);
        return Err(BadCellPayload(length));
      }
      cells := cells + [palette[index]];
    }
    Commutes(count, bits);
    AllRead(packed, bits, count, count * bits, indices, acc, filled, j);
    if acc != 0 {
      return Err(BadCellPayload(length));
    }
    assert cells == Painted(palette, indices);
    r := Ok(cells);
  }

  // The payload has as many bytes as its indices need.
  lemma TakenFits(length: nat, bits: nat, count: nat, k: nat)
    requires length == DivCeil(count * bits, 8) && k < count
    ensures bits * k + bits <= 8 * length && bits * (k + 1) == bits * k + bits
  {
    Monotone(bits, k + 1, count);
    Commutes(count, bits);
  }

  // Indices read so far are part of the whole list.
  lemma {:induction false} BadIndexStays(s: seq<Bit>, width: nat, count: nat, k: nat, indices: seq<nat>, limit: nat)
    requires k < count && IndexList(s, width, k + 1).0 == indices && |indices| == k + 1 && indices[k] >= limit
    ensures exists i | 0 <= i < |IndexList(s, width, count).0| :: IndexList(s, width, count).0[i] >= limit
    decreases count
  {
    if k + 1 == count {
      assert IndexList(s, width, count).0[k] >= limit;
    } else {
      BadIndexStays(s, width, count - 1, k, indices, limit);
      var before := IndexList(s, width, count - 1).0;
      var i :| 0 <= i < |before| && before[i] >= limit;
      assert IndexList(s, width, count).0[i] == before[i];
    }
  }

  lemma Commutes(a: nat, b: nat)
    ensures a * b == b * a
  {
  }

  lemma AllRead(packed: Bytes, bits: nat, count: nat, total: nat, indices: seq<nat>, acc: nat, filled: nat, j: nat)
    requires j <= |packed| && 8 * j == total + filled && filled < 8 && |packed| == DivCeil(total, 8)
    requires Pending(ByteBits(packed), bits, count, indices, acc, filled, packed[j..])
    ensures IndexList(ByteBits(packed), bits, count) == (indices, BitsOf(acc, filled)) && ValueOf(BitsOf(acc, filled)) == acc
  {
    assert j == |packed| && packed[j..] == [];
    assert BitsOf(acc, filled) + [] == BitsOf(acc, filled);
    BitsReadBack(acc, filled);
  }

  // The cells so far, then the rest.
  function Joined(cells: seq<Cell>, rest: Result<seq<Cell>, WireError>): Result<seq<Cell>, WireError> {
    match rest
    case Err(error) => Err(error)
    case Ok(more) => Ok(cells + more)
  }

  lemma JoinedNext(cells: seq<Cell>, cell: Cell, rest: Result<seq<Cell>, WireError>)
    ensures Joined(cells, Joined([cell], rest)) == Joined(cells + [cell], rest)
  {
    if rest.Ok? {
      Grouped(cells, [cell], rest.value);
    }
  }

  lemma Grouped(a: seq<Cell>, b: seq<Cell>, c: seq<Cell>)
    ensures a + (b + c) == a + b + c
  {
  }

  lemma JoinedNothing(rest: Result<seq<Cell>, WireError>)
    ensures Joined([], rest) == rest
  {
    if rest.Ok? {
      assert [] + rest.value == rest.value;
    }
  }

  method DecodeEntries(entries: Bytes) returns (r: Result<seq<Cell>, WireError>)
    requires |entries| % CELL_WIRE_BYTES == 0
    ensures r == EntryCells(entries)
  {
    var cells: seq<Cell> := [];
    var rest := entries;
    JoinedNothing(EntryCells(entries));
    while rest != []
      invariant |rest| % CELL_WIRE_BYTES == 0 && EntryCells(entries) == Joined(cells, EntryCells(rest))
      decreases |rest|
    {
      var cell := EntryCell(rest[..3]);
      if cell.Err? {
        return Err(cell.error);
      }
      JoinedNext(cells, cell.value, EntryCells(rest[3..]));
      cells := cells + [cell.value];
      rest := rest[3..];
    }
    assert cells + [] == cells;
    r := Ok(cells);
  }

  // cells_from_wire
  method CellsFromWire(bytes: Bytes, count: nat) returns (r: Result<seq<Cell>, WireError>)
    ensures r == Decode(bytes, count)
  {
    if bytes == [] {
      return Err(WireError.Empty);
    }
    var payload := bytes[1..];
    if bytes[0] == CELLS_UNIFORM {
      if |payload| != CELL_WIRE_BYTES {
        return Err(BadCellPayload(|bytes|));
      }
      var cell := EntryCell(payload);
      r := if cell.Err? then Err(cell.error) else Ok(seq(count, _ => cell.value));
    } else if bytes[0] == CELLS_PALETTE {
      r := PaletteFromWire(payload, count, |bytes|);
    } else if bytes[0] == CELLS_RAW {
      if |payload| != count * CELL_WIRE_BYTES {
        return Err(BadCellPayload(|bytes|));
      }
      r := DecodeEntries(payload);
    } else {
      r := Err(BadCellPayload(|bytes|));
    }
  }

  method PaletteFromWire(payload: Bytes, count: nat, length: nat) returns (r: Result<seq<Cell>, WireError>)
    ensures r == DecodePalette(payload, count, length)
  {
    if payload == [] {
      return Err(BadCellPayload(length));
    }
    var paletteLen := payload[0] as nat + 1;
    if paletteLen < 2 || |payload| - 1 < paletteLen * CELL_WIRE_BYTES {
      return Err(BadCellPayload(length));
    }
    var packed := payload[1 + paletteLen * CELL_WIRE_BYTES..];
    var bits := IndexBits(paletteLen);
    if |packed| != DivCeil(count * bits, 8) {
      return Err(BadCellPayload(length));
    }
    var palette := DecodeEntries(payload[1..1 + paletteLen * CELL_WIRE_BYTES]);
    if palette.Err? {
      return Err(palette.error);
    }
    IndexBitsBounds(paletteLen);
    r := UnpackCells(packed, palette.value, bits, count, length);
  }

  // ------------------------------------------------------------------ encoding

  // The bits of the indices are those of the bytes written, then those in the accumulator.
  ghost predicate Written(indices: seq<nat>, bits: nat, out: Bytes, acc: nat, filled: nat) {
    acc < Pow2(filled) && ByteBits(out) + BitsOf(acc, filled) == Packed(indices, bits)
  }

  lemma WrittenIndex(indices: seq<nat>, bits: nat, out: Bytes, acc: nat, filled: nat, index: nat)
    requires Written(indices, bits, out, acc, filled) && index < Pow2(bits)
    ensures Written(indices + [index], bits, out, acc + Shift(index, filled), filled + bits)
  {
    ShiftFits(acc, index, filled, bits);
    BitsAppend(acc, index, filled, bits);
    PackedNext(indices, index, bits);
    Grouping(ByteBits(out), BitsOf(acc, filled), BitsOf(index, bits));
  }

  lemma LowByte(acc: nat)
    ensures Low(acc, 8) == acc % 256 && High(acc, 8) == acc / 256
  {
    assert Pow2(4) == 16 && Pow2(8) == 256;
    LowAndHigh(acc, 8);
  }

  lemma WrittenByte(indices: seq<nat>, bits: nat, out: Bytes, acc: nat, filled: nat)
    requires Written(indices, bits, out, acc, filled) && filled >= 8
    ensures Written(indices, bits, out + [acc % 256], acc / 256, filled - 8)
  {
    LowByte(acc);
    HighFits(acc, 8, filled - 8);
    BitsSplit(acc, 8, filled - 8);
    ByteBitsAppend(out, acc % 256);
    Grouping(ByteBits(out), BitsOf(acc % 256, 8), BitsOf(acc / 256, filled - 8));
  }

  // The packing of the indices. The accumulator never holds more than 15 bits, and the or of
  // a shifted index is the addition (Words.OrIsPlus).
  method PackIndices(indices: seq<nat>, bits: nat) returns (out: Bytes)
    requires 1 <= bits <= 8 && forall i | 0 <= i < |indices| :: indices[i] < Pow2(bits)
    ensures |out| == DivCeil(|indices| * bits, 8)
    ensures exists pad | 0 <= pad < 8 :: ByteBits(out) == Packed(indices, bits) + BitsOf(0, pad)
  {
    var acc: nat, filled: nat := 0, 0;
    out := [];
    for i := 0 to |indices|
      invariant filled < 8 && Written(indices[..i], bits, out, acc, filled) && 8 * |out| + filled == i * bits
    {
      assert indices[..i + 1] == indices[..i] + [indices[i]];
      WrittenIndex(indices[..i], bits, out, acc, filled, indices[i]);
      NextTotal(i, bits);
      acc := acc + Shift(indices[i], filled);
      filled := filled + bits;
      Below15Bits(acc, filled);
      while filled >= 8
        invariant filled <= 15 && Written(indices[..i + 1], bits, out, acc, filled) && 8 * |out| + filled == (i + 1) * bits
      {
        WrittenByte(indices[..i + 1], bits, out, acc, filled);
        out := out + [acc % 256];
        acc := acc / 256;
        filled := filled - 8;
      }
    }
    assert indices[..|indices|] == indices;
    if filled > 0 {
      LastByte(indices, bits, out, acc, filled);
      out := out + [acc % 256];
      assert ByteBits(out) == Packed(indices, bits) + BitsOf(0, 8 - filled);
    } else {
      assert ByteBits(out) == Packed(indices, bits) + BitsOf(0, 0);
    }
  }

  lemma NextTotal(i: nat, bits: nat)
    ensures (i + 1) * bits == i * bits + bits
  {
  }

  lemma EightBits()
    ensures Pow2(8) == 256
  {
    assert Pow2(4) == 16;
  }

  lemma PaddedByte(acc: nat, filled: nat)
    requires acc < Pow2(filled) && 0 < filled < 8
    ensures acc < 256 && BitsOf(acc % 256, 8) == BitsOf(acc, filled) + BitsOf(0, 8 - filled)
  {
    EightBits();
    Pow2Grows(filled, 8);
    ShiftIsProduct(0, filled);
    BitsAppend(acc, 0, filled, 8 - filled);
    assert filled + (8 - filled) == 8 && acc % 256 == acc;
  }

  lemma LastByte(indices: seq<nat>, bits: nat, out: Bytes, acc: nat, filled: nat)
    requires Written(indices, bits, out, acc, filled) && 0 < filled < 8
    ensures acc < 256 && ByteBits(out + [acc % 256]) == Packed(indices, bits) + BitsOf(0, 8 - filled)
  {
    PaddedByte(acc, filled);
    ByteBitsAppend(out, acc % 256);
    Grouping(ByteBits(out), BitsOf(acc, filled), BitsOf(0, 8 - filled));
  }

  // Reading what was packed gives the indices back, and only padding is left.
  lemma {:induction false} IndexListReadsBack(indices: seq<nat>, bits: nat, x: seq<Bit>)
    requires forall i | 0 <= i < |indices| :: indices[i] < Pow2(bits)
    ensures IndexList(Packed(indices, bits) + x, bits, |indices|) == (indices, x)
    decreases |indices|
  {
    if indices == [] {
      assert Packed(indices, bits) + x == x;
    } else {
      var last := |indices| - 1;
      var s := BitsOf(indices[last], bits) + x;
      assert Packed(indices, bits) + x == Packed(indices[..last], bits) + s;
      IndexListReadsBack(indices[..last], bits, s);
      assert s[..bits] == BitsOf(indices[last], bits) && s[bits..] == x;
      BitsReadBack(indices[last], bits);
      assert indices == indices[..last] + [indices[last]];
    }
  }

  // The palette: distinct looks in the order they first appear, and each cell's index.
  ghost predicate Palette(looks: seq<Matter>, palette: seq<Matter>, lookup: map<Matter, nat>, indices: seq<nat>) {
    && |indices| == |looks| && |palette| <= MAX_PALETTE
    && (forall i | 0 <= i < |indices| :: indices[i] < |palette| && palette[indices[i]] == looks[i])
    && (forall k | 0 <= k < |palette| :: palette[k] in lookup && lookup[palette[k]] == k && k in indices)
    && (forall look | look in lookup :: lookup[look] < |palette| && palette[lookup[look]] == look)
  }

  // How many different looks there are.
  function Variety(looks: seq<Matter>): nat {
    |set look | look in looks|
  }

  lemma {:induction false} DistinctVariety(looks: seq<Matter>)
    requires forall i, j | 0 <= i < j < |looks| :: looks[i] != looks[j]
    ensures Variety(looks) == |looks|
  {
    if looks == [] {
      assert (set look | look in looks) == {};
    } else {
      var last := |looks| - 1;
      DistinctVariety(looks[..last]);
      assert (set look | look in looks) == (set look | look in looks[..last]) + {looks[last]};
    }
  }

  // A palette has each of the looks once.
  lemma PaletteVariety(looks: seq<Matter>, palette: seq<Matter>, lookup: map<Matter, nat>, indices: seq<nat>)
    requires Palette(looks, palette, lookup, indices)
    ensures |palette| == Variety(looks)
  {
    forall i, j | 0 <= i < j < |palette|
      ensures palette[i] != palette[j]
    {
      assert lookup[palette[i]] == i && lookup[palette[j]] == j;
    }
    DistinctVariety(palette);
    forall look
      ensures look in palette <==> look in looks
    {
      if look in looks {
        var i :| 0 <= i < |looks| && looks[i] == look;
        assert palette[indices[i]] == look;
      }
      if look in palette {
        var k :| 0 <= k < |palette| && palette[k] == look;
        var i :| 0 <= i < |indices| && indices[i] == k;
        assert looks[i] == look;
      }
    }
    assert (set look | look in palette) == (set look | look in looks);
  }

  lemma MoreVariety(some: seq<Matter>, looks: seq<Matter>, look: Matter)
    requires (forall l | l in some :: l in looks) && look in looks && look !in some
    ensures Variety(looks) > Variety(some)
  {
    var a, b := set l | l in some, set l | l in looks;
    assert a + {look} <= b;
    assert b == (a + {look}) + (b - (a + {look}));
  }

  method BuildPalette(looks: seq<Matter>) returns (r: Option<(seq<Matter>, seq<nat>)>)
    ensures r.Some? ==> exists lookup :: Palette(looks, r.value.0, lookup, r.value.1)
    ensures r.None? ==> Variety(looks) > MAX_PALETTE
  {
    var palette: seq<Matter>, lookup: map<Matter, nat>, indices: seq<nat> := [], map[], [];
    for i := 0 to |looks|
      invariant Palette(looks[..i], palette, lookup, indices)
    {
      var look := looks[i];
      assert looks[..i + 1] == looks[..i] + [look];
      if look in lookup {
        indices := indices + [lookup[look]];
      } else {
        if |palette| == MAX_PALETTE {
          PaletteVariety(looks[..i], palette, lookup, indices);
          NewLook(looks, i, palette, lookup, indices);
          MoreVariety(looks[..i], looks, look);
          return None;
        }
        indices := indices + [|palette|];
        lookup := lookup[look := |palette|];
        palette := palette + [look];
      }
    }
    assert looks[..|looks|] == looks;
    r := Some((palette, indices));
  }

  lemma NewLook(looks: seq<Matter>, i: nat, palette: seq<Matter>, lookup: map<Matter, nat>, indices: seq<nat>)
    requires i < |looks| && Palette(looks[..i], palette, lookup, indices) && looks[i] !in lookup
    ensures looks[i] !in looks[..i]
  {
    forall j | 0 <= j < i
      ensures looks[j] in lookup
    {
      assert looks[..i][j] == looks[j] && palette[indices[j]] == looks[j];
    }
  }

  // The length of the shortest of the formats: one look for all, a palette with packed
  // indices, or every cell by itself.
  function WireLength(count: nat, variety: nat): nat {
    var raw := 1 + CELL_WIRE_BYTES * count;
    if variety > MAX_PALETTE then raw
    else if variety <= 1 then 1 + CELL_WIRE_BYTES
    else
      var paletted := 2 + CELL_WIRE_BYTES * variety + DivCeil(count * IndexBits(variety), 8);
      if paletted >= raw then raw else paletted
  }

  method EncodeEntries(looks: seq<Matter>) returns (entries: Bytes)
    ensures entries == Entries(looks)
  {
    entries := [];
    for i := 0 to |looks|
      invariant entries + Entries(looks[i..]) == Entries(looks)
    {
      assert looks[i..][1..] == looks[i + 1..];
      assert entries + (CellEntry(looks[i]) + Entries(looks[i + 1..])) == entries + CellEntry(looks[i]) + Entries(looks[i + 1..]);
      entries := entries + CellEntry(looks[i]);
    }
    assert looks[|looks|..] == [];
  }

  // What the other side makes of a payload for these looks: the same looks, unless one of
  // their materials is unknown to it.
  ghost predicate Conveys(bytes: Bytes, looks: seq<Matter>) {
    if Known(looks) then Decode(bytes, |looks|) == Ok(Shown(looks))
    else Decode(bytes, |looks|).Err? && Decode(bytes, |looks|).error.InvalidMaterial?
  }

  method CellsToWireRaw(looks: seq<Matter>) returns (bytes: Bytes)
    ensures Conveys(bytes, looks) && |bytes| == 1 + CELL_WIRE_BYTES * |looks|
  {
    var entries := EncodeEntries(looks);
    bytes := [CELLS_RAW] + entries;
    assert bytes[1..] == entries;
    EntriesReadBack(looks);
  }

  lemma PaletteKnown(looks: seq<Matter>, palette: seq<Matter>, lookup: map<Matter, nat>, indices: seq<nat>)
    requires Palette(looks, palette, lookup, indices)
    ensures Known(palette) <==> Known(looks)
  {
    if Known(palette) {
      forall i | 0 <= i < |looks|
        ensures looks[i].material < CONTENT.count
      {
        assert palette[indices[i]] == looks[i];
      }
    }
    if Known(looks) {
      forall k | 0 <= k < |palette|
        ensures palette[k].material < CONTENT.count
      {
        assert palette[k] in lookup && k in indices;
        var i :| 0 <= i < |indices| && indices[i] == k;
        assert palette[indices[i]] == looks[i];
      }
    }
  }

  lemma PackedPaletteReadsBack(
    looks: seq<Matter>, palette: seq<Matter>, lookup: map<Matter, nat>, indices: seq<nat>, bits: nat, packed: Bytes, pad: nat,
    length: nat)
    requires Palette(looks, palette, lookup, indices) && |palette| <= Pow2(bits) && Known(palette)
    requires ByteBits(packed) == Packed(indices, bits) + BitsOf(0, pad)
    ensures DecodePacked(packed, Shown(palette), bits, |looks|, length) == Ok(Shown(looks))
  {
    PalettePaints(looks, palette, lookup, indices);
    IndexListReadsBack(indices, bits, BitsOf(0, pad));
    NoBits(pad);
    PaintsList(packed, Shown(palette), bits, length, indices, BitsOf(0, pad));
  }

  lemma PalettePaints(looks: seq<Matter>, palette: seq<Matter>, lookup: map<Matter, nat>, indices: seq<nat>)
    requires Palette(looks, palette, lookup, indices)
    ensures |indices| == |looks| && forall i | 0 <= i < |indices| :: indices[i] < |palette|
    ensures Painted(Shown(palette), indices) == Shown(looks)
  {
  }

  lemma PaintsList(packed: Bytes, palette: seq<Cell>, bits: nat, length: nat, indices: seq<nat>, rest: seq<Bit>)
    requires forall i | 0 <= i < |indices| :: indices[i] < |palette|
    requires IndexList(ByteBits(packed), bits, |indices|) == (indices, rest) && ValueOf(rest) == 0
    ensures DecodePacked(packed, palette, bits, |indices|, length) == Ok(Painted(palette, indices))
  {
  }

  method PaletteToWire(looks: seq<Matter>, palette: seq<Matter>, ghost lookup: map<Matter, nat>, indices: seq<nat>)
    returns (bytes: Bytes)
    requires Palette(looks, palette, lookup, indices) && |palette| >= 2
    ensures Conveys(bytes, looks)
    ensures |bytes| == 2 + CELL_WIRE_BYTES * |palette| + DivCeil(|looks| * IndexBits(|palette|), 8)
  {
    IndexBitsBounds(|palette|);
    var bits := IndexBits(|palette|);
    var entries := EncodeEntries(palette);
    var packed := PackIndices(indices, bits);
    bytes := [CELLS_PALETTE] + ([|palette| - 1] + entries + packed);
    PaletteReadsBack(looks, palette, lookup, indices, packed);
  }

  // What follows the format byte: the size of the palette, its entries, the packed indices.
  function PalettePayload(palette: seq<Matter>, packed: Bytes): (payload: Bytes)
    requires 2 <= |palette| <= MAX_PALETTE
  {
    [|palette| - 1] + Entries(palette) + packed
  }

  lemma PayloadParts(palette: seq<Matter>, packed: Bytes)
    requires 2 <= |palette| <= MAX_PALETTE
    ensures var payload, n := PalettePayload(palette, packed), |palette| * CELL_WIRE_BYTES;
      && |payload| == 1 + n + |packed| && payload[0] == |palette| - 1
      && payload[1..1 + n] == Entries(palette) && payload[1 + n..] == packed
  {
  }

  lemma PaletteDecodes(palette: seq<Matter>, packed: Bytes, count: nat, length: nat)
    requires 2 <= |palette| <= MAX_PALETTE && |packed| == DivCeil(count * IndexBits(|palette|), 8)
    ensures DecodePalette(PalettePayload(palette, packed), count, length)
      == if Known(palette) then DecodePacked(packed, Shown(palette), IndexBits(|palette|), count, length)
         else Err(InvalidMaterial(FirstUnknown(palette)))
  {
    PayloadParts(palette, packed);
    DecodesFromParts(PalettePayload(palette, packed), Entries(palette), packed, |palette|, count, length);
    EntriesReadBack(palette);
  }

  lemma DecodesFromParts(payload: Bytes, entries: Bytes, packed: Bytes, n: nat, count: nat, length: nat)
    requires 2 <= n && |payload| == 1 + n * CELL_WIRE_BYTES + |packed| && payload[0] == n - 1
    requires payload[1..1 + n * CELL_WIRE_BYTES] == entries && payload[1 + n * CELL_WIRE_BYTES..] == packed
    requires |packed| == DivCeil(count * IndexBits(n), 8)
    ensures DecodePalette(payload, count, length)
      == match EntryCells(entries)
         case Err(error) => Err(error)
         case Ok(palette) => DecodePacked(packed, palette, IndexBits(n), count, length)
  {
  }

  lemma PackedReadsBack(
    looks: seq<Matter>, palette: seq<Matter>, lookup: map<Matter, nat>, indices: seq<nat>, packed: Bytes, length: nat)
    requires Palette(looks, palette, lookup, indices) && |palette| >= 2 && Known(palette)
    requires exists pad | 0 <= pad < 8 :: ByteBits(packed) == Packed(indices, IndexBits(|palette|)) + BitsOf(0, pad)
    ensures DecodePacked(packed, Shown(palette), IndexBits(|palette|), |looks|, length) == Ok(Shown(looks))
  {
    IndexBitsBounds(|palette|);
    var pad :| 0 <= pad < 8 && ByteBits(packed) == Packed(indices, IndexBits(|palette|)) + BitsOf(0, pad);
    PackedPaletteReadsBack(looks, palette, lookup, indices, IndexBits(|palette|), packed, pad, length);
  }

  lemma PaletteReadsBack(
    looks: seq<Matter>, palette: seq<Matter>, lookup: map<Matter, nat>, indices: seq<nat>, packed: Bytes)
    requires Palette(looks, palette, lookup, indices) && |palette| >= 2
    requires |packed| == DivCeil(|indices| * IndexBits(|palette|), 8)
    requires exists pad | 0 <= pad < 8 :: ByteBits(packed) == Packed(indices, IndexBits(|palette|)) + BitsOf(0, pad)
    ensures Conveys([CELLS_PALETTE] + PalettePayload(palette, packed), looks)
  {
    var payload := PalettePayload(palette, packed);
    PaletteFormat(payload, |looks|);
    PaletteDecodes(palette, packed, |looks|, 1 + |payload|);
    PaletteKnown(looks, palette, lookup, indices);
    if Known(palette) {
      PackedReadsBack(looks, palette, lookup, indices, packed, 1 + |payload|);
    }
  }

  lemma PaletteFormat(payload: Bytes, count: nat)
    ensures Decode([CELLS_PALETTE] + payload, count) == DecodePalette(payload, count, 1 + |payload|)
  {
    assert ([CELLS_PALETTE] + payload)[1..] == payload;
  }

  lemma UniformReadsBack(looks: seq<Matter>, look: Matter)
    requires forall i | 0 <= i < |looks| :: looks[i] == look
    requires looks == [] ==> look == Matter(AIR_ID, 0)
    ensures Conveys([CELLS_UNIFORM] + CellEntry(look), looks)
  {
    var bytes := [CELLS_UNIFORM] + CellEntry(look);
    assert bytes[1..] == CellEntry(look);
    EntryReadsBack(look);
    if Known(looks) {
      assert looks != [] ==> looks[0] == look;
      assert Decode(bytes, |looks|).Ok?;
      assert Decode(bytes, |looks|).value == Shown(looks);
    }
  }

  // cells_to_wire: whatever format it picks, the other side reads the same material and
  // shade in every cell, and the payload is never longer than the raw one.
  method CellsToWire(cells: seq<Cell>) returns (bytes: Bytes)
    ensures Conveys(bytes, Looks(cells))
    ensures |bytes| == WireLength(|cells|, Variety(Looks(cells)))
    ensures |bytes| <= 1 + CELL_WIRE_BYTES * if cells == [] then 1 else |cells|
  {
    var looks := Looks(cells);
    var built := BuildPalette(looks);
    if built.None? {
      bytes := CellsToWireRaw(looks);
      return;
    }
    var (palette, indices) := built.value;
    ghost var lookup :| Palette(looks, palette, lookup, indices);
    PaletteVariety(looks, palette, lookup, indices);
    if |palette| <= 1 {
      var look := if palette == [] then Matter(AIR_ID, 0) else palette[0];
      bytes := [CELLS_UNIFORM] + CellEntry(look);
      OneLook(looks, palette, lookup, indices);
      return;
    }
    var bits := IndexBits(|palette|);
    var packedLen := DivCeil(|looks| * bits, 8);
    if 2 + |palette| * CELL_WIRE_BYTES + packedLen > |looks| * CELL_WIRE_BYTES {
      bytes := CellsToWireRaw(looks);
      return;
    }
    bytes := PaletteToWire(looks, palette, lookup, indices);
  }

  lemma OneLook(looks: seq<Matter>, palette: seq<Matter>, lookup: map<Matter, nat>, indices: seq<nat>)
    requires Palette(looks, palette, lookup, indices) && |palette| <= 1
    ensures Conveys([CELLS_UNIFORM] + CellEntry(if palette == [] then Matter(AIR_ID, 0) else palette[0]), looks)
  {
    var look := if palette == [] then Matter(AIR_ID, 0) else palette[0];
    forall i | 0 <= i < |looks|
      ensures looks[i] == look
    {
      assert palette[indices[i]] == looks[i];
    }
    EmptyPalette(looks, palette, lookup, indices);
    UniformReadsBack(looks, look);
  }

  lemma EmptyPalette(looks: seq<Matter>, palette: seq<Matter>, lookup: map<Matter, nat>, indices: seq<nat>)
    requires Palette(looks, palette, lookup, indices)
    ensures palette == [] <==> looks == []
  {
    if looks != [] {
      assert indices[0] < |palette|;
    }
    if palette != [] {
      assert 0 in indices;
    }
  }

  // ---------------------------------------------------- how many cells come back

  lemma {:induction false} IndexListLength(s: seq<Bit>, width: nat, count: nat)
    requires |s| >= width * count
    ensures |IndexList(s, width, count).0| == count && |IndexList(s, width, count).1| == |s| - width * count
    decreases count
  {
    if count == 0 {
      assert width * 0 == 0;
    } else {
      assert width * count == width * (count - 1) + width;
      IndexListLength(s, width, count - 1);
    }
  }

  lemma {:induction false} ByteBitsLength(bytes: Bytes)
    ensures |ByteBits(bytes)| == 8 * |bytes|
  {
    if bytes != [] {
      ByteBitsLength(bytes[1..]);
    }
  }

  lemma {:induction false} EntryCellsLength(entries: Bytes)
    requires |entries| % CELL_WIRE_BYTES == 0
    ensures EntryCells(entries).Ok? ==> |EntryCells(entries).value| * CELL_WIRE_BYTES == |entries|
  {
    if entries != [] {
      EntryCellsLength(entries[3..]);
    }
  }

  // A payload that decodes has exactly the cells that were asked for.
  lemma DecodedLength(bytes: Bytes, count: nat)
    ensures Decode(bytes, count).Ok? ==> |Decode(bytes, count).value| == count
  {
    if Decode(bytes, count).Ok? {
      var payload := bytes[1..];
      if bytes[0] == CELLS_RAW {
        EntryCellsLength(payload);
      } else if bytes[0] == CELLS_PALETTE {
        var paletteLen := payload[0] as nat + 1;
        var packed := payload[1 + paletteLen * CELL_WIRE_BYTES..];
        var bits := IndexBits(paletteLen);
        ByteBitsLength(packed);
        Commutes(count, bits);
        IndexListLength(ByteBits(packed), bits, count);
      }
    }
  }
}
