// What cells_from_wire of crates/fallingsand_protocol/src/wire.rs accepts: exactly the payloads
// that are a writing of known looks, in one of the three formats and without a stray bit.
module Payloads {
  import opened Wrappers
  import opened Materials
  import opened Cells
  import opened Bits
  import opened CellCodec

  // One look for all cells.
  ghost predicate WritesUniform(bytes: Bytes, looks: seq<Matter>, look: Matter) {
    && look.material < CONTENT.count && bytes == [CELLS_UNIFORM] + CellEntry(look)
    && forall i | 0 <= i < |looks| :: looks[i] == look
  }

  // Every cell by itself.
  ghost predicate WritesRaw(bytes: Bytes, looks: seq<Matter>) {
    bytes == [CELLS_RAW] + Entries(looks)
  }

  // A palette of known looks, each cell's place in it, and fewer than eight zeros to fill the last byte.
  ghost predicate WritesPalette(
    bytes: Bytes, looks: seq<Matter>, palette: seq<Matter>, indices: seq<nat>, packed: Bytes, pad: nat)
  {
    && 2 <= |palette| <= MAX_PALETTE && Known(palette) && pad < 8 && |indices| == |looks|
    && (forall i | 0 <= i < |indices| :: indices[i] < |palette| && palette[indices[i]] == looks[i])
    && bytes == [CELLS_PALETTE] + PalettePayload(palette, packed)
    && ByteBits(packed) == Packed(indices, IndexBits(|palette|)) + BitsOf(0, pad)
  }

  ghost predicate Writes(bytes: Bytes, looks: seq<Matter>) {
    || (exists look :: WritesUniform(bytes, looks, look))
    || WritesRaw(bytes, looks)
    || (exists palette, indices, packed, pad :: WritesPalette(bytes, looks, palette, indices, packed, pad))
  }

  // ------------------------------------------------------- what is written is read

  lemma UniformIsRead(bytes: Bytes, looks: seq<Matter>, look: Matter)
    requires WritesUniform(bytes, looks, look)
    ensures Decode(bytes, |looks|) == Ok(Shown(looks))
  {
    assert bytes[1..] == CellEntry(look);
    EntryReadsBack(look);
    assert Decode(bytes, |looks|).Ok? && Decode(bytes, |looks|).value == Shown(looks);
  }

  lemma RawIsRead(bytes: Bytes, looks: seq<Matter>)
    requires WritesRaw(bytes, looks) && Known(looks)
    ensures Decode(bytes, |looks|) == Ok(Shown(looks))
  {
    assert bytes[1..] == Entries(looks);
    EntriesReadBack(looks);
  }

  lemma {:induction false} PackedLength(numbers: seq<nat>, width: nat)
    ensures |Packed(numbers, width)| == |numbers| * width
    decreases |numbers|
  {
    if numbers != [] {
      PackedLength(numbers[..|numbers| - 1], width);
      assert (|numbers| - 1) * width + width == |numbers| * width;
    }
  }

  lemma PaletteIsRead(
    bytes: Bytes, looks: seq<Matter>, palette: seq<Matter>, indices: seq<nat>, packed: Bytes, pad: nat)
    requires WritesPalette(bytes, looks, palette, indices, packed, pad)
    ensures Decode(bytes, |looks|) == Ok(Shown(looks))
  {
    var bits := IndexBits(|palette|);
    IndexBitsBounds(|palette|);
    PackedLength(indices, bits);
    ByteBitsLength(packed);
    var payload := PalettePayload(palette, packed);
    PaletteFormat(payload, |looks|);
    PaletteDecodes(palette, packed, |looks|, 1 + |payload|);
    IndexListReadsBack(indices, bits, BitsOf(0, pad));
    NoBits(pad);
    PaintsList(packed, Shown(palette), bits, 1 + |payload|, indices, BitsOf(0, pad));
    assert Painted(Shown(palette), indices) == Shown(looks);
  }

  // ------------------------------------------------------- what is read was written

  lemma EntryWasWritten(entry: Bytes)
    requires |entry| == CELL_WIRE_BYTES && EntryCell(entry).Ok?
    ensures var cell := EntryCell(entry).value;
      && CellEntry(cell.Visible()) == entry && cell.material < CONTENT.count
      && cell == NewCell(cell.material, 0).(shade := cell.shade)
  {
  }

  lemma {:induction false} EntriesWereWritten(entries: Bytes)
    requires |entries| % CELL_WIRE_BYTES == 0 && EntryCells(entries).Ok?
    ensures var cells := EntryCells(entries).value;
      Entries(Looks(cells)) == entries && Known(Looks(cells)) && Shown(Looks(cells)) == cells
  {
    var cells := EntryCells(entries).value;
    if entries == [] {
      assert Looks(cells) == [];
    } else {
      EntryWasWritten(entries[..3]);
      EntriesWereWritten(entries[3..]);
      var rest := EntryCells(entries[3..]).value;
      assert cells == [EntryCell(entries[..3]).value] + rest;
      assert Looks(cells) == [cells[0].Visible()] + Looks(rest);
      KnownSplits(Looks(cells));
      assert Looks(cells)[1..] == Looks(rest);
      assert entries == entries[..3] + entries[3..];
    }
  }

  lemma {:induction false} BitsAreTheValue(s: seq<Bit>)
    ensures BitsOf(ValueOf(s), |s|) == s
  {
    if s != [] {
      BitsAreTheValue(s[1..]);
      assert s == [s[0]] + s[1..];
    }
  }

  lemma {:induction false} ListWasPacked(s: seq<Bit>, width: nat, count: nat)
    requires |s| >= width * count
    ensures var (indices, rest) := IndexList(s, width, count); s == Packed(indices, width) + rest
    decreases count
  {
    if count > 0 {
      assert width * count == width * (count - 1) + width;
      ListWasPacked(s, width, count - 1);
      IndexListLength(s, width, count - 1);
      var (before, rest) := IndexList(s, width, count - 1);
      BitsAreTheValue(rest[..width]);
      PackedNext(before, ValueOf(rest[..width]), width);
      assert rest == rest[..width] + rest[width..];
      Grouping(Packed(before, width), rest[..width], rest[width..]);
    }
  }

  // The looks a palette and a list of places in it stand for.
  function Picked(palette: seq<Matter>, indices: seq<nat>): (looks: seq<Matter>)
    requires forall i | 0 <= i < |indices| :: indices[i] < |palette|
    ensures |looks| == |indices| && forall i | 0 <= i < |indices| :: looks[i] == palette[indices[i]]
  {
    seq(|indices|, i requires 0 <= i < |indices| => palette[indices[i]])
  }

  lemma PickedShows(palette: seq<Matter>, cells: seq<Cell>, indices: seq<nat>)
    requires cells == Shown(palette) && forall i | 0 <= i < |indices| :: indices[i] < |palette|
    ensures Painted(cells, indices) == Shown(Picked(palette, indices))
  {
  }

  lemma PackedWasWritten(packed: Bytes, palette: seq<Cell>, bits: nat, count: nat, length: nat)
    returns (indices: seq<nat>, pad: nat)
    requires |packed| == DivCeil(count * bits, 8) && DecodePacked(packed, palette, bits, count, length).Ok?
    ensures |indices| == count && pad < 8 && forall i | 0 <= i < |indices| :: indices[i] < |palette|
    ensures ByteBits(packed) == Packed(indices, bits) + BitsOf(0, pad)
    ensures DecodePacked(packed, palette, bits, count, length) == Ok(Painted(palette, indices))
  {
    ByteBitsLength(packed);
    Commutes(count, bits);
    IndexListLength(ByteBits(packed), bits, count);
    ListWasPacked(ByteBits(packed), bits, count);
    var rest := IndexList(ByteBits(packed), bits, count).1;
    indices, pad := IndexList(ByteBits(packed), bits, count).0, |rest|;
    BitsAreTheValue(rest);
  }

  lemma PaletteWasWritten(payload: Bytes, count: nat, length: nat) returns (looks: seq<Matter>)
    requires DecodePalette(payload, count, length).Ok?
    ensures |looks| == count && DecodePalette(payload, count, length) == Ok(Shown(looks))
    ensures exists palette, indices, packed, pad :: WritesPalette([CELLS_PALETTE] + payload, looks, palette, indices, packed, pad)
  {
    var n := payload[0] as nat + 1;
    var entries, packed := payload[1..1 + n * CELL_WIRE_BYTES], payload[1 + n * CELL_WIRE_BYTES..];
    var cells := EntryCells(entries).value;
    EntriesWereWritten(entries);
    EntryCellsLength(entries);
    var palette := Looks(cells);
    var indices, pad := PackedWasWritten(packed, cells, IndexBits(n), count, length);
    looks := Picked(palette, indices);
    PickedShows(palette, cells, indices);
    assert payload == PalettePayload(palette, packed);
    assert WritesPalette([CELLS_PALETTE] + payload, looks, palette, indices, packed, pad);
  }

  // Every payload that is accepted is a writing of the looks it is read as, and these are known.
  lemma ReadWasWritten(bytes: Bytes, count: nat) returns (looks: seq<Matter>)
    requires Decode(bytes, count).Ok?
    ensures |looks| == count && Known(looks) && Decode(bytes, count) == Ok(Shown(looks)) && Writes(bytes, looks)
  {
    var payload := bytes[1..];
    assert bytes == [bytes[0]] + payload;
    if bytes[0] == CELLS_UNIFORM {
      EntryWasWritten(payload);
      var cell := EntryCell(payload).value;
      looks := seq(count, _ => cell.Visible());
      assert Shown(looks) == seq(count, _ => cell);
      assert WritesUniform(bytes, looks, cell.Visible());
    } else if bytes[0] == CELLS_PALETTE {
      looks := PaletteWasWritten(payload, count, |bytes|);
      var palette, indices, packed, pad :| WritesPalette(bytes, looks, palette, indices, packed, pad);
      assert forall i | 0 <= i < |looks| :: looks[i] == palette[indices[i]];
    } else {
      EntriesWereWritten(payload);
      EntryCellsLength(payload);
      looks := Looks(EntryCells(payload).value);
    }
  }

  lemma ShownTells(some: seq<Matter>, looks: seq<Matter>)
    requires Shown(some) == Shown(looks)
    ensures some == looks
  {
    assert |Shown(some)| == |some| && |Shown(looks)| == |looks|;
    forall i | 0 <= i < |looks|
      ensures some[i] == looks[i]
    {
      assert Shown(some)[i].Visible() == some[i] && Shown(looks)[i].Visible() == looks[i];
    }
  }

  // The decoder reads a payload as these looks exactly if it is a writing of them.
  lemma ReadsWhatIsWritten(bytes: Bytes, looks: seq<Matter>)
    requires Known(looks)
    ensures Decode(bytes, |looks|) == Ok(Shown(looks)) <==> Writes(bytes, looks)
  {
    if Decode(bytes, |looks|) == Ok(Shown(looks)) {
      var read := ReadWasWritten(bytes, |looks|);
      ShownTells(read, looks);
    }
    if look :| WritesUniform(bytes, looks, look) {
      UniformIsRead(bytes, looks, look);
    } else if WritesRaw(bytes, looks) {
      RawIsRead(bytes, looks);
    } else if palette, indices, packed, pad :| WritesPalette(bytes, looks, palette, indices, packed, pad) {
      PaletteIsRead(bytes, looks, palette, indices, packed, pad);
    }
  }

  // The writer's formats are as short as they can be: no width that tells the palette's entries
  // apart would make the packed form shorter, and what is not packed is no longer than either.
  lemma WireLengthIsLeast(count: nat, variety: nat, width: nat)
    requires variety <= count && variety <= Pow2(width)
    ensures count > 0 ==> WireLength(count, variety) <= 1 + CELL_WIRE_BYTES * count
    ensures 2 <= variety <= MAX_PALETTE ==>
      WireLength(count, variety) <= 2 + CELL_WIRE_BYTES * variety + DivCeil(count * width, 8)
  {
    if 2 <= variety <= MAX_PALETTE {
      BitLengthIsLeast(variety - 1, width);
      Monotone(count, IndexBits(variety), width);
    }
  }
}
