// What a region leaves behind in the database
// (crates/fallingsand_server/src/persistence/region_codec.rs). Serialising and
// compressing are exact inverses, so a blob is a version and a record.
module RegionCodec {
  import opened Wrappers
  import opened Materials
  import opened Cells
  import opened Coords
  import opened Chunks

  const REGION_FORMAT_VERSION: nat := 28

  type Region = r: seq<ChunkData> | |r| == REGION_AREA_CHUNKS
    witness seq(REGION_AREA_CHUNKS, _ => NewChunk())

  // MaterialId values at or above the table's count are what the source calls invalid.
  datatype CellRecord = CellRecord(material: MaterialId, vx: I16, vy: I16, shade: U8)
  datatype ChunkRecord = ChunkRecord(cells: seq<CellRecord>, fog: seq<bool>)
  type RegionRecord = seq<ChunkRecord>

  datatype Blob = Blob(version: nat, record: RegionRecord) | Garbled

  datatype StoreError =
    | Redb
    | CorruptRegion
    | UnsupportedRegion(version: nat)
    | RegionLoadFailed(pos: RegionPos, source: StoreError)
    | WorkerDisconnected
    | WorkerPanicked
    | SaveDesync

  predicate ValidMaterial(m: MaterialId) {
    m < CONTENT.count
  }

  // Body cells lose their tag; those of materials that only bodies wear become air.
  function RecordOfCell(cell: Cell): CellRecord {
    match cell.motion
    case Velocity(vx, vy) => CellRecord(cell.material, vx, vy, cell.shade)
    case Body(_) =>
      if CONTENT.bodyTag(cell.material) then CellRecord(AIR_ID, 0, 0, 0)
      else CellRecord(cell.material, 0, 0, cell.shade)
  }

  function RestoreCell(record: CellRecord): Result<Cell, StoreError> {
    if ValidMaterial(record.material)
    then Ok(Cell(record.material, Velocity(record.vx, record.vy), record.shade, false, false))
    else Err(CorruptRegion)
  }

  function RecordOfChunk(chunk: ChunkData): ChunkRecord {
    ChunkRecord(seq(CHUNK_AREA, i requires 0 <= i < CHUNK_AREA => RecordOfCell(chunk.cells[i])), chunk.fog)
  }

  // The part of a region that survives being stored: the value the protocol must not lose.
  function RecordOf(region: Region): RegionRecord {
    seq(REGION_AREA_CHUNKS, i requires 0 <= i < REGION_AREA_CHUNKS => RecordOfChunk(region[i]))
  }

  predicate ValidCells(cells: seq<CellRecord>) {
    forall i | 0 <= i < |cells| :: ValidMaterial(cells[i].material)
  }

  predicate Storable(record: RegionRecord) {
    forall i | 0 <= i < |record| :: ValidCells(record[i].cells)
  }

  function EncodeRegion(region: Region): Result<Blob, StoreError> {
    if Storable(RecordOf(region)) then Ok(Blob(REGION_FORMAT_VERSION, RecordOf(region)))
    else Err(CorruptRegion)
  }

  predicate WellFormedChunk(record: ChunkRecord) {
    |record.cells| == CHUNK_AREA && ValidCells(record.cells) && |record.fog| == FOG_TEXELS
  }

  // Fresh chunks filled from the record; the whole simulation rectangle is awake.
  function RestoreChunk(record: ChunkRecord): ChunkData
    requires WellFormedChunk(record)
  {
    NewChunk().(
      cells := seq(CHUNK_AREA, i requires 0 <= i < CHUNK_AREA => RestoreCell(record.cells[i]).value),
      fog := record.fog,
      sim := FULL)
  }

  // A chunk from the store starts a run as soundly as a new one.
  lemma RestoredChunkIsSound(record: ChunkRecord)
    requires WellFormedChunk(record)
    ensures Sound(RestoreChunk(record))
  {
  }

  lemma StoredChunkStaysSound(record: ChunkRecord, steps: seq<ChunkStep>)
    requires WellFormedChunk(record)
    ensures Sound(Run(RestoreChunk(record), steps))
  {
    RestoredChunkIsSound(record);
    EveryRunKeepsSound(RestoreChunk(record), steps);
  }

  function DecodeRegion(blob: Blob): Result<Region, StoreError> {
    match blob
    case Garbled => Err(CorruptRegion)
    case Blob(version, record) =>
      if version != REGION_FORMAT_VERSION then Err(UnsupportedRegion(version))
      else if |record| != REGION_AREA_CHUNKS then Err(CorruptRegion)
      else if exists i | 0 <= i < |record| :: !WellFormedChunk(record[i]) then Err(CorruptRegion)
      else Ok(seq(REGION_AREA_CHUNKS, i requires 0 <= i < REGION_AREA_CHUNKS => RestoreChunk(record[i])))
  }

  lemma RestoredChunkRecords(record: ChunkRecord)
    requires WellFormedChunk(record)
    ensures RecordOfChunk(RestoreChunk(record)) == record
  {
    var again := RecordOfChunk(RestoreChunk(record));
    assert forall i | 0 <= i < CHUNK_AREA :: again.cells[i] == record.cells[i];
    assert again.cells == record.cells;
  }

  lemma DecodedRegionRecords(blob: Blob)
    requires DecodeRegion(blob).Ok?
    ensures RecordOf(DecodeRegion(blob).value) == blob.record
  {
    var again := RecordOf(DecodeRegion(blob).value);
    forall i | 0 <= i < REGION_AREA_CHUNKS
      ensures again[i] == blob.record[i]
    {
      RestoredChunkRecords(blob.record[i]);
    }
  }

  // A region reads back with the record it was written with, and can be written
  // exactly when all of its materials are in the table.
  lemma RegionRoundTrip(region: Region)
    ensures EncodeRegion(region).Ok? <==> Storable(RecordOf(region))
    ensures EncodeRegion(region).Ok? ==>
      var back := DecodeRegion(EncodeRegion(region).value);
      back.Ok? && RecordOf(back.value) == RecordOf(region)
  {
    if EncodeRegion(region).Ok? {
      var blob := EncodeRegion(region).value;
      assert forall i | 0 <= i < REGION_AREA_CHUNKS :: WellFormedChunk(blob.record[i]);
      DecodedRegionRecords(blob);
    }
  }

  // What a stored cell comes back as: a loose one as it was, with its velocity; a body's cell at rest
  // and nobody's, or as air if only bodies wear its material.
  ghost predicate ComesBackAs(cell: Cell, back: Cell) {
    && back.motion.Velocity? && !back.moved
    && (cell.motion.Velocity? ==> back.Visible() == cell.Visible() && back.motion == cell.motion)
    && (cell.motion.Body? && !CONTENT.bodyTag(cell.material) ==>
          back.Visible() == cell.Visible() && back.motion == Velocity(0, 0))
    && (cell.motion.Body? && CONTENT.bodyTag(cell.material) ==> back == AIR)
  }

  // Every cell of a stored region comes back, and all of its fog, and it comes back awake.
  lemma RegionComesBack(region: Region, i: nat, o: CellOffset)
    requires EncodeRegion(region).Ok? && i < REGION_AREA_CHUNKS
    ensures var back := DecodeRegion(EncodeRegion(region).value);
      && back.Ok? && ComesBackAs(region[i].Get(o), back.value[i].Get(o))
      && back.value[i].fog == region[i].fog && back.value[i].SimRect().Covers(o)
  {
    RegionRoundTrip(region);
    var record := RecordOf(region)[i];
    assert ValidCells(record.cells);
    assert record.cells[o.Index()] == RecordOfCell(region[i].cells[o.Index()]);
  }
}
