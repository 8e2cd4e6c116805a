// The load and save protocol of the server, as steps on one value
// (crates/fallingsand_server/src/persistence.rs, persistence/worker.rs,
// persistence/store.rs, regions.rs). Regions move between the loaded world, the
// pending maps, the batch in flight, two FIFO channels, the ready list and the
// database. The classes of Persistence.dfy and Regions.dfy perform these steps.
module Protocol {
  import opened Wrappers
  import opened Coords
  import opened RegionCodec
  import opened ZOrder

  type Uuid = nat
  datatype PlayerRecord = PlayerRecord(image: seq<int>)
  datatype WorldMeta = WorldMeta(seed: nat, name: string, worldAge: nat, tick: nat)

  datatype SaveBatch = SaveBatch(
    regions: map<RegionPos, Region>, players: map<Uuid, PlayerRecord>, meta: Option<WorldMeta>)

  datatype Store = Store(
    regions: map<nat, Blob>, players: map<Uuid, PlayerRecord>, meta: Option<WorldMeta>)

  datatype Command =
    | LoadRegion(request: nat, pos: RegionPos)
    | SaveRegions(batch: SaveBatch)
    | Shutdown

  datatype RegionReady = RegionReady(request: nat, pos: RegionPos, result: Result<Region, StoreError>)

  datatype Completion =
    | Ready(ready: RegionReady)
    | SaveComplete
    | SaveFailed(error: StoreError)

  const MAX_PENDING_REGION_LOADS: nat := 64
  const REQUEST_WRAP: nat := 0x1_0000_0000_0000_0000

  // World generation, an arbitrary function of the position.
  const GENERATE: RegionPos -> Region

  // The state one Persistence value owns: pending maps, batch in flight, store and worker.
  datatype Depot = Depot(
    store: Option<Store>,
    running: bool,
    commands: seq<Command>,
    completions: seq<Completion>,
    pendingRegions: map<RegionPos, Region>,
    pendingPlayers: map<Uuid, PlayerRecord>,
    pendingMeta: Option<WorldMeta>,
    inFlight: Option<SaveBatch>,
    nextRequest: nat)

  // The depot beside the loaded world and the region map's request bookkeeping.
  datatype System = System(
    depot: Depot,
    loaded: map<RegionPos, Region>,
    requested: map<RegionPos, nat>,
    ready: seq<RegionReady>)

  // ---------------------------------------------------------------- the store

  function StoredRegion(store: Option<Store>, pos: RegionPos): Result<Region, StoreError> {
    if store.Some? && ZOrderKey(pos) in store.value.regions
    then DecodeRegion(store.value.regions[ZOrderKey(pos)])
    else Ok(GENERATE(pos))
  }

  predicate BatchStorable(batch: SaveBatch) {
    forall pos | pos in batch.regions :: EncodeRegion(batch.regions[pos]).Ok?
  }

  function EncodedRegions(regions: map<RegionPos, Region>): map<nat, Blob>
    requires forall pos | pos in regions :: EncodeRegion(regions[pos]).Ok?
  {
    KeysDistinct();
    map pos | pos in regions :: ZOrderKey(pos) := EncodeRegion(regions[pos]).value
  }

  lemma KeysDistinct()
    ensures forall p: RegionPos, q: RegionPos | ZOrderKey(p) == ZOrderKey(q) :: p == q
  {
    forall p: RegionPos, q: RegionPos | ZOrderKey(p) == ZOrderKey(q)
      ensures p == q
    {
      KeysNeverCollide(p, q);
    }
  }

  // One committed transaction: all of the batch, over what was there.
  function Committed(store: Store, batch: SaveBatch): Store
    requires BatchStorable(batch)
  {
    Store(
      store.regions + EncodedRegions(batch.regions),
      store.players + batch.players,
      if batch.meta.Some? then batch.meta else store.meta)
  }

  // --------------------------------------------------------------- the depot

  function StageRegion(d: Depot, pos: RegionPos, region: Region): Depot {
    d.(pendingRegions := d.pendingRegions[pos := region])
  }

  function StageRegions(d: Depot, regions: map<RegionPos, Region>): Depot {
    d.(pendingRegions := d.pendingRegions + regions)
  }

  function StagePlayers(d: Depot, records: map<Uuid, PlayerRecord>): Depot {
    d.(pendingPlayers := d.pendingPlayers + records)
  }

  function StageMeta(d: Depot, meta: WorldMeta): Depot {
    d.(pendingMeta := Some(meta))
  }

  predicate HasPending(d: Depot) {
    d.pendingRegions != map[] || d.pendingPlayers != map[] || d.pendingMeta.Some?
  }

  predicate WantsSave(d: Depot) {
    d.store.Some? && d.inFlight.None? && HasPending(d)
  }

  // start_save with a worker that takes the batch.
  function StartSave(d: Depot): Depot
    requires WantsSave(d)
  {
    var batch := SaveBatch(d.pendingRegions, d.pendingPlayers, d.pendingMeta);
    d.(pendingRegions := map[], pendingPlayers := map[], pendingMeta := None,
       inFlight := Some(batch), commands := d.commands + [SaveRegions(batch)])
  }

  // What was staged since the batch was taken wins over the batch.
  function RestoreBatch(d: Depot, batch: SaveBatch): Depot {
    d.(pendingRegions := batch.regions + d.pendingRegions,
       pendingPlayers := batch.players + d.pendingPlayers,
       pendingMeta := if d.pendingMeta.Some? then d.pendingMeta else batch.meta)
  }

  function NextRequest(request: nat): nat {
    var next := (request + 1) % REQUEST_WRAP;
    if next == 0 then 1 else next
  }

  // A region that is still in memory, pending or in flight.
  function Retained(d: Depot, pos: RegionPos): Option<Region> {
    if pos in d.pendingRegions then Some(d.pendingRegions[pos])
    else if d.inFlight.Some? && pos in d.inFlight.value.regions then Some(d.inFlight.value.regions[pos])
    else None
  }

  // One turn of worker_main: the first command, its completion appended. `fault` is
  // any failure of the database; a failed transaction changes nothing.
  function LoadOutcome(store: Option<Store>, pos: RegionPos, fault: bool): Result<Region, StoreError> {
    if store.Some? && fault then Err(RegionLoadFailed(pos, Redb))
    else match StoredRegion(store, pos)
      case Ok(region) => Ok(region)
      case Err(error) => Err(RegionLoadFailed(pos, error))
  }

  function SaveOutcome(store: Option<Store>, batch: SaveBatch, fault: bool): (Option<Store>, Completion) {
    if store.None? then (store, SaveComplete)
    else if !BatchStorable(batch) then (store, SaveFailed(CorruptRegion))
    else if fault then (store, SaveFailed(Redb))
    else (Some(Committed(store.value, batch)), SaveComplete)
  }

  function Handle(store: Option<Store>, command: Command, fault: bool): (Option<Store>, seq<Completion>) {
    match command
    case LoadRegion(request, pos) =>
      (store, [Ready(RegionReady(request, pos, LoadOutcome(store, pos, fault)))])
    case SaveRegions(batch) =>
      var (after, completion) := SaveOutcome(store, batch, fault);
      (after, [completion])
    case Shutdown => (store, [])
  }

  function WorkerTurn(d: Depot, fault: bool): Depot
    requires d.running && d.commands != []
  {
    var (store, completion) := Handle(d.store, d.commands[0], fault);
    d.(store := store, commands := d.commands[1..], completions := d.completions + completion,
       running := !d.commands[0].Shutdown?)
  }

  // apply_completion: the batch leaves flight; a failed one goes back to the pending maps.
  function ApplyOutcome(d: Depot, message: Completion): Depot
    requires !message.Ready? && d.inFlight.Some?
  {
    var taken := d.(inFlight := None);
    if message.SaveComplete? then taken else RestoreBatch(taken, d.inFlight.value)
  }

  // The same for the first message of the channel.
  function ApplySave(d: Depot): Depot
    requires d.completions != [] && !d.completions[0].Ready? && d.inFlight.Some?
  {
    ApplyOutcome(d.(completions := d.completions[1..]), d.completions[0])
  }

  // drain_completions over the messages: the loaded regions are handed on, the outcomes
  // of saves applied. None when an outcome arrives with nothing in flight.
  function Drain(d: Depot, regions: seq<RegionReady>): Option<(Depot, seq<RegionReady>)>
    decreases |d.completions|
  {
    if d.completions == [] then Some((d, regions))
    else
      var rest := d.(completions := d.completions[1..]);
      match d.completions[0]
      case Ready(ready) => Drain(rest, regions + [ready])
      case _ => if d.inFlight.None? then None else Drain(ApplySave(d), regions)
  }

  // A depot just opened on a store.
  function Opened(store: Option<Store>): Depot {
    Depot(store, false, [], [], map[], map[], None, None, 1)
  }

  // ------------------------------------------------ the value of a region

  // What loading `pos` would bring back: pending, else in flight, else stored, else generated.
  function Latest(d: Depot, pos: RegionPos): Result<RegionRecord, StoreError> {
    if Retained(d, pos).Some? then Ok(RecordOf(Retained(d, pos).value))
    else match StoredRegion(d.store, pos)
      case Ok(region) => Ok(RecordOf(region))
      case Err(error) => Err(error)
  }

  function LatestPlayer(d: Depot, uuid: Uuid): Option<PlayerRecord> {
    if uuid in d.pendingPlayers then Some(d.pendingPlayers[uuid])
    else if d.inFlight.Some? && uuid in d.inFlight.value.players then Some(d.inFlight.value.players[uuid])
    else if d.store.Some? && uuid in d.store.value.players then Some(d.store.value.players[uuid])
    else None
  }

  function LatestMeta(d: Depot): Option<WorldMeta> {
    if d.pendingMeta.Some? then d.pendingMeta
    else if d.inFlight.Some? && d.inFlight.value.meta.Some? then d.inFlight.value.meta
    else if d.store.Some? then d.store.value.meta
    else None
  }

  // The content of the region at `pos`, wherever it is: the world's own copy while it is loaded.
  function Truth(s: System, pos: RegionPos): Result<RegionRecord, StoreError> {
    if pos in s.loaded then Ok(RecordOf(s.loaded[pos])) else Latest(s.depot, pos)
  }
}
