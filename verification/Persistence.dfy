// The store, the worker thread and the persistence front of the server
// (crates/fallingsand_server/src/persistence.rs, persistence/store.rs and
// persistence/worker.rs) as the objects they are, each proved to perform the steps of
// Protocol.dfy.
module PersistenceObjects {
  import opened Wrappers
  import opened Coords
  import opened RegionCodec
  import opened ZOrder
  import opened Protocol
  import opened ProtocolSafety

  datatype Unit = Unit

  const WORLD_FORMAT_VERSION: nat := 31

  // The errors of reading a stored record: a database fault, bytes that do not parse, and, for
  // the world's meta, another format.
  datatype RecordError = Database | CorruptRecord | UnsupportedWorld(version: nat)

  // ---------------------------------------------------- when a flush succeeds

  function Told(outcome: Completion): Result<Unit, StoreError> {
    if outcome.SaveFailed? then Err(outcome.error) else Ok(Unit)
  }

  // The outcome of a save that waits in the channel.
  function Outcome(completions: seq<Completion>): Option<Completion> {
    if completions == [] then None
    else if !completions[0].Ready? then Some(completions[0])
    else Outcome(completions[1..])
  }

  lemma {:induction false} OutcomeLater(earlier: seq<Completion>, message: Completion)
    requires Outcome(earlier).None?
    ensures Outcome(earlier + [message]) == if message.Ready? then None else Some(message)
  {
    if earlier == [] {
      assert earlier + [message] == [message];
    } else {
      assert (earlier + [message])[1..] == earlier[1..] + [message];
      OutcomeLater(earlier[1..], message);
    }
  }

  lemma {:induction false} NoOutcome(completions: seq<Completion>)
    requires forall i | 0 <= i < |completions| :: completions[i].Ready?
    ensures Outcome(completions).None?
  {
    if completions != [] {
      NoOutcome(completions[1..]);
    }
  }

  // How waiting for the batch in flight ends: with the outcome that has arrived, else with that of
  // the save itself, `fault` being a failure of the database; without a worker there is none.
  function Verdict(d: Depot, fault: bool): Result<Unit, StoreError> {
    if d.inFlight.None? then Ok(Unit)
    else if Outcome(d.completions).Some? then Told(Outcome(d.completions).value)
    else if !d.running then Err(WorkerDisconnected)
    else Told(SaveOutcome(d.store, d.inFlight.value, fault).1)
  }

  // How a flush ends: the batch in flight is waited for, then what is pending is saved. The
  // database may fail in either save.
  function FlushVerdict(d: Depot, first: bool, second: bool): Result<Unit, StoreError> {
    if Verdict(d, first).Err? then Verdict(d, first)
    else if d.store.None? || !HasPending(d) then Ok(Unit)
    else if !d.running then Err(WorkerDisconnected)
    else Told(SaveOutcome(d.store, SaveBatch(d.pendingRegions, d.pendingPlayers, d.pendingMeta), second).1)
  }

  // A flush succeeds exactly if every save it has to make can be made.
  lemma FlushSucceeds(d: Depot, first: bool, second: bool)
    requires Saving(d)
    ensures FlushVerdict(d, first, second).Ok? <==>
      && (d.inFlight.Some? ==>
            SaveComplete in d.completions
            || (d.running && BatchStorable(d.inFlight.value) && !first && forall m | m in d.completions :: m.Ready?))
      && (d.store.Some? && HasPending(d) ==>
            d.running && !second && forall pos | pos in d.pendingRegions :: EncodeRegion(d.pendingRegions[pos]).Ok?)
  {
    if d.inFlight.Some? {
      OutcomeIsTheOnly(d);
      var outcome := Outcome(d.completions);
      assert SaveComplete in d.completions <==> outcome == Some(SaveComplete);
      assert (forall m | m in d.completions :: m.Ready?) <==> outcome.None?;
    }
  }

  lemma {:induction false} OutcomeIsFirst(completions: seq<Completion>)
    ensures Outcome(completions).None? ==> forall m | m in completions :: m.Ready?
    ensures Outcome(completions).Some? ==> Outcome(completions).value in completions && !Outcome(completions).value.Ready?
  {
    if completions != [] {
      OutcomeIsFirst(completions[1..]);
    }
  }

  lemma OutcomeIsTheOnly(d: Depot)
    requires SavesAccounted(d)
    ensures forall m | m in d.completions && !m.Ready? :: Outcome(d.completions) == Some(m)
    ensures Outcome(d.completions).None? ==> forall m | m in d.completions :: m.Ready?
    ensures Outcome(d.completions).Some? ==>
      Outcome(d.completions).value in d.completions && !Outcome(d.completions).value.Ready?
  {
    OutcomeIsFirst(d.completions);
    forall m | m in d.completions && !m.Ready?
      ensures Outcome(d.completions) == Some(m)
    {
      OneOutcome(d.completions, m);
    }
  }

  // Of two different outcomes one would be too many.
  lemma {:induction false} OneOutcome(completions: seq<Completion>, m: Completion)
    requires Count(completions, CompletionToken, SaveToken) <= 1 && m in completions && !m.Ready?
    ensures Outcome(completions) == Some(m)
  {
    if completions[0].Ready? {
      assert m in completions[1..];
      OneOutcome(completions[1..], m);
    } else if completions[0] != m {
      assert m in completions[1..];
      CountedOnce(completions[1..], m);
    }
  }

  lemma {:induction false} CountedOnce(completions: seq<Completion>, m: Completion)
    requires m in completions && !m.Ready?
    ensures Count(completions, CompletionToken, SaveToken) >= 1
  {
    if completions[0] != m {
      CountedOnce(completions[1..], m);
    }
  }

  // The worker's turn does not change how the waiting ends.
  lemma TurnKeepsVerdict(d: Depot, turn: bool, fault: bool)
    requires Saving(d) && d.inFlight.Some? && d.completions == [] && d.running && d.commands != []
    requires !d.commands[0].Shutdown? && (d.commands[0].SaveRegions? ==> turn == fault)
    ensures Verdict(WorkerTurn(d, turn), fault) == Verdict(d, fault)
  {
    var message := Handle(d.store, d.commands[0], turn).1[0];
    assert WorkerTurn(d, turn).completions == [message];
    OutcomeLater([], message);
  }

  class WorldStore {
    var regions: map<nat, Blob>
    var players: map<Uuid, PlayerRecord>
    var meta: Option<WorldMeta>

    constructor ()
      ensures View() == Store(map[], map[], None)
    {
      regions, players, meta := map[], map[], None;
    }

    ghost function View(): Store
      reads this
    {
      Store(regions, players, meta)
    }

    method LoadRegion(pos: RegionPos, fault: bool) returns (r: Result<Option<Region>, StoreError>)
      ensures fault ==> r == Err(Redb)
      ensures !fault ==> match StoredRegion(Some(View()), pos)
        case Err(error) => r == Err(error)
        case Ok(region) => r == Ok(if ZOrderKey(pos) in regions then Some(region) else None)
    {
      if fault {
        return Err(Redb);
      }
      if ZOrderKey(pos) !in regions {
        return Ok(None);
      }
      match DecodeRegion(regions[ZOrderKey(pos)]) {
        case Ok(region) => r := Ok(Some(region));
        case Err(error) => r := Err(error);
      }
    }

    static method EncodeAll(regions: map<RegionPos, Region>) returns (r: Result<map<RegionPos, Blob>, StoreError>)
      ensures r.Ok? <==> forall pos | pos in regions :: EncodeRegion(regions[pos]).Ok?
      ensures r.Err? ==> r.error == CorruptRegion
      ensures r.Ok? ==> r.value.Keys == regions.Keys
      ensures r.Ok? ==> forall pos | pos in regions :: EncodeRegion(regions[pos]) == Ok(r.value[pos])
    {
      var blobs: map<RegionPos, Blob> := map[];
      var rest := regions.Keys;
      while rest != {}
        invariant rest <= regions.Keys && blobs.Keys == regions.Keys - rest
        invariant forall pos | pos in blobs :: EncodeRegion(regions[pos]) == Ok(blobs[pos])
      {
        var pos :| pos in rest;
        match EncodeRegion(regions[pos]) {
          case Err(error) => return Err(error);
          case Ok(blob) => blobs := blobs[pos := blob];
        }
        rest := rest - {pos};
      }
      r := Ok(blobs);
    }

    static method InsertAll(table: map<nat, Blob>, blobs: map<RegionPos, Blob>) returns (after: map<nat, Blob>)
      ensures forall pos | pos in blobs :: ZOrderKey(pos) in after && after[ZOrderKey(pos)] == blobs[pos]
      ensures after.Keys == table.Keys + set pos | pos in blobs :: ZOrderKey(pos)
      ensures forall key | key in table && !(exists pos | pos in blobs :: ZOrderKey(pos) == key) :: after[key] == table[key]
    {
      KeysDistinct();
      after := table;
      var rest := blobs.Keys;
      while rest != {}
        invariant rest <= blobs.Keys
        invariant forall pos | pos in blobs.Keys - rest :: ZOrderKey(pos) in after && after[ZOrderKey(pos)] == blobs[pos]
        invariant after.Keys == table.Keys + set pos | pos in blobs.Keys - rest :: ZOrderKey(pos)
        invariant forall key | key in table && !(exists pos | pos in blobs :: ZOrderKey(pos) == key) :: after[key] == table[key]
      {
        var pos :| pos in rest;
        after := after[ZOrderKey(pos) := blobs[pos]];
        rest := rest - {pos};
      }
    }

    static lemma BlobsAreEncoded(regions: map<RegionPos, Region>, blobs: map<RegionPos, Blob>)
      requires blobs.Keys == regions.Keys
      requires forall pos | pos in regions :: EncodeRegion(regions[pos]) == Ok(blobs[pos])
      ensures EncodedRegions(regions).Keys == set pos | pos in blobs :: ZOrderKey(pos)
      ensures forall pos | pos in blobs :: EncodedRegions(regions)[ZOrderKey(pos)] == blobs[pos]
    {
      KeysDistinct();
      var encoded := EncodedRegions(regions);
      assert encoded.Keys == set pos | pos in blobs :: ZOrderKey(pos);
      forall pos | pos in blobs
        ensures encoded[ZOrderKey(pos)] == blobs[pos]
      {
        assert EncodeRegion(regions[pos]) == Ok(blobs[pos]);
      }
    }

    static lemma InsertedIsCommitted(
      table: map<nat, Blob>, regions: map<RegionPos, Region>, blobs: map<RegionPos, Blob>, after: map<nat, Blob>)
      requires blobs.Keys == regions.Keys
      requires forall pos | pos in regions :: EncodeRegion(regions[pos]) == Ok(blobs[pos])
      requires forall pos | pos in blobs :: ZOrderKey(pos) in after && after[ZOrderKey(pos)] == blobs[pos]
      requires after.Keys == table.Keys + set pos | pos in blobs :: ZOrderKey(pos)
      requires forall key | key in table && !(exists pos | pos in blobs :: ZOrderKey(pos) == key) :: after[key] == table[key]
      ensures after == table + EncodedRegions(regions)
    {
      var encoded := EncodedRegions(regions);
      BlobsAreEncoded(regions, blobs);
      forall key | key in encoded.Keys
        ensures key in after && after[key] == encoded[key]
      {
        var pos :| pos in blobs && ZOrderKey(pos) == key;
      }
      forall key | key in table && key !in encoded.Keys
        ensures after[key] == table[key]
      {
        assert forall pos | pos in blobs :: ZOrderKey(pos) in encoded.Keys;
      }
      Merged(table, encoded, after);
    }

    static lemma Merged(table: map<nat, Blob>, encoded: map<nat, Blob>, after: map<nat, Blob>)
      requires after.Keys == table.Keys + encoded.Keys && forall key | key in encoded.Keys :: after[key] == encoded[key]
      requires forall key | key in table && key !in encoded.Keys :: after[key] == table[key]
      ensures after == table + encoded
    {
    }

    // Encode everything, then write everything in one transaction.
    method SaveBatch(batch: SaveBatch, fault: bool) returns (r: Result<Unit, StoreError>)
      modifies this
      ensures Some(View()) == SaveOutcome(Some(old(View())), batch, fault).0
      ensures SaveOutcome(Some(old(View())), batch, fault).1
        == (match r case Ok(_) => SaveComplete case Err(error) => SaveFailed(error))
    {
      var encoded := EncodeAll(batch.regions);
      if encoded.Err? {
        return Err(encoded.error);
      }
      var table := InsertAll(regions, encoded.value);
      if fault {
        return Err(Redb);
      }
      InsertedIsCommitted(regions, batch.regions, encoded.value, table);
      regions := table;
      players := players + batch.players;
      if batch.meta.Some? {
        meta := batch.meta;
      }
      r := Ok(Unit);
    }
  }

  class PersistenceWorker {
    const store: WorldStore?
    var running: bool
    var commands: seq<Command>
    var completions: seq<Completion>

    constructor (store: WorldStore?)
      ensures this.store == store && running && commands == [] && completions == []
    {
      this.store := store;
      running, commands, completions := true, [], [];
    }

    method Dispatch(command: Command) returns (r: Result<Unit, StoreError>)
      modifies this`commands
      ensures r == if running then Ok(Unit) else Err(WorkerDisconnected)
      ensures commands == if running then old(commands) + [command] else old(commands)
    {
      if !running {
        return Err(WorkerDisconnected);
      }
      commands := commands + [command];
      r := Ok(Unit);
    }

    ghost function StoreView(): Option<Store>
      reads this, store
    {
      if store == null then None else Some(store.View())
    }

    // One turn of the loop of worker_main. `fault` stands for any failure of the database.
    method Turn(fault: bool)
      requires running && commands != []
      modifies this`running, this`commands, this`completions, store
      ensures StoreView() == Handle(old(StoreView()), old(commands[0]), fault).0
      ensures completions == old(completions) + Handle(old(StoreView()), old(commands[0]), fault).1
      ensures commands == old(commands[1..]) && running == !old(commands[0]).Shutdown?
    {
      var command := commands[0];
      commands := commands[1..];
      match command {
        case LoadRegion(request, pos) =>
          var loaded: Result<Option<Region>, StoreError> := Ok(None);
          if store != null {
            loaded := store.LoadRegion(pos, fault);
          }
          var result: Result<Region, StoreError>;
          match loaded {
            case Ok(Some(region)) => result := Ok(region);
            case Ok(None) => result := Ok(GENERATE(pos));
            case Err(source) => result := Err(RegionLoadFailed(pos, source));
          }
          completions := completions + [Ready(RegionReady(request, pos, result))];
        case SaveRegions(batch) =>
          var saved: Result<Unit, StoreError> := Ok(Unit);
          if store != null {
            saved := store.SaveBatch(batch, fault);
          }
          match saved {
            case Ok(_) => completions := completions + [SaveComplete];
            case Err(error) => completions := completions + [SaveFailed(error)];
          }
        case Shutdown =>
          running := false;
      }
    }

    // drain_completions: everything that has arrived; a dead worker is only noticed once
    // the channel is empty, and then what was drained is dropped with the error.
    method DrainCompletions() returns (r: Result<seq<Completion>, StoreError>)
      modifies this`completions
      ensures completions == []
      ensures r == if running then Ok(old(completions)) else Err(WorkerDisconnected)
    {
      var messages := [];
      while completions != []
        invariant messages + completions == old(completions)
        decreases |completions|
      {
        messages := messages + [completions[0]];
        completions := completions[1..];
      }
      assert messages + [] == messages;
      r := if running then Ok(messages) else Err(WorkerDisconnected);
    }
  }

  class Persistence {
    const store: WorldStore?
    var worker: PersistenceWorker?
    var pendingRegions: map<RegionPos, Region>
    var pendingPlayers: map<Uuid, PlayerRecord>
    var pendingMeta: Option<WorldMeta>
    var nextRequest: nat
    var inFlight: Option<SaveBatch>

    constructor (store: WorldStore?)
      ensures Valid() && this.store == store && worker == null
      ensures View() == Opened(StoreView())
    {
      this.store := store;
      worker := null;
      pendingRegions, pendingPlayers, pendingMeta := map[], map[], None;
      nextRequest, inFlight := 1, None;
    }

    ghost predicate Valid()
      reads this, worker
    {
      worker != null ==> worker.store == store && Shutdown !in worker.commands
    }

    ghost function StoreView(): Option<Store>
      reads this, store
    {
      if store == null then None else Some(store.View())
    }

    ghost function View(): Depot
      reads this, store, worker
    {
      Depot(
        StoreView(),
        worker != null && worker.running,
        if worker == null then [] else worker.commands,
        if worker == null then [] else worker.completions,
        pendingRegions, pendingPlayers, pendingMeta, inFlight, nextRequest)
    }

    method StartWorker()
      requires Valid() && worker == null
      modifies this`worker
      ensures Valid() && worker != null && fresh(worker)
      ensures View() == old(View()).(running := true)
    {
      worker := new PersistenceWorker(store);
    }

    method StageMeta(meta: WorldMeta)
      modifies this`pendingMeta
      ensures View() == Protocol.StageMeta(old(View()), meta)
    {
      pendingMeta := Some(meta);
    }

    method StageRegion(pos: RegionPos, region: Region)
      modifies this`pendingRegions
      ensures View() == Protocol.StageRegion(old(View()), pos, region)
    {
      pendingRegions := pendingRegions[pos := region];
    }

    method StageRegions(regions: map<RegionPos, Region>)
      modifies this`pendingRegions
      ensures View() == Protocol.StageRegions(old(View()), regions)
    {
      pendingRegions := pendingRegions + regions;
    }

    // Players whose state cannot be recorded stop the snapshot before anything is staged.
    method StagePlayers(records: Result<map<Uuid, PlayerRecord>, StoreError>) returns (r: Result<Unit, StoreError>)
      modifies this`pendingPlayers
      ensures records.Ok? ==> r == Ok(Unit) && View() == Protocol.StagePlayers(old(View()), records.value)
      ensures records.Err? ==> r == Err(records.error) && View() == old(View())
    {
      if records.Err? {
        return Err(records.error);
      }
      pendingPlayers := pendingPlayers + records.value;
      r := Ok(Unit);
    }

    method RequestRegion(pos: RegionPos) returns (r: Result<(nat, Option<Region>), StoreError>)
      requires Valid()
      modifies this`nextRequest, worker
      ensures Valid()
      ensures Retained(old(View()), pos).Some? ==>
        r == Ok((old(nextRequest), Retained(old(View()), pos)))
        && View() == old(View()).(nextRequest := NextRequest(old(nextRequest)))
      ensures Retained(old(View()), pos).None? && old(View()).running ==>
        r == Ok((old(nextRequest), None))
        && View() == old(View()).(
             nextRequest := NextRequest(old(nextRequest)),
             commands := old(View()).commands + [LoadRegion(old(nextRequest), pos)])
      ensures Retained(old(View()), pos).None? && !old(View()).running ==>
        r == Err(WorkerDisconnected) && View() == old(View()).(nextRequest := NextRequest(old(nextRequest)))
    {
      var request := nextRequest;
      nextRequest := (nextRequest + 1) % REQUEST_WRAP;
      if nextRequest < 1 {
        nextRequest := 1;
      }
      var retained: Option<Region> := None;
      if pos in pendingRegions {
        retained := Some(pendingRegions[pos]);
      } else if inFlight.Some? && pos in inFlight.value.regions {
        retained := Some(inFlight.value.regions[pos]);
      }
      if retained.Some? {
        return Ok((request, retained));
      }
      if worker == null {
        return Err(WorkerDisconnected);
      }
      var sent := worker.Dispatch(LoadRegion(request, pos));
      if sent.Err? {
        return Err(sent.error);
      }
      r := Ok((request, None));
    }

    // The meta is read without a look at the batch in flight: it is the latest one while
    // nothing is in flight, and in flight exactly when the batch brings no newer one. Only the
    // stored record can be at fault.
    method LoadMeta(fault: Option<RecordError>) returns (r: Result<Option<WorldMeta>, RecordError>)
      requires fault.Some? && fault.value.UnsupportedWorld? ==> fault.value.version != WORLD_FORMAT_VERSION
      ensures r.Ok? ==> r.value == MetaRead(View())
      ensures r.Ok? ==> (r.value == LatestMeta(View()) <==>
        inFlight.None? || inFlight.value.meta.None? || pendingMeta.Some?
        || (store != null && store.meta == inFlight.value.meta))
      ensures r.Err? <==>
        fault.Some? && pendingMeta.None? && store != null && (fault.value == Database || store.meta.Some?)
      ensures r.Err? ==> r.error == fault.value
    {
      if pendingMeta.Some? {
        return Ok(pendingMeta);
      }
      if store == null {
        return Ok(None);
      }
      if fault.Some? && (fault.value == Database || store.meta.Some?) {
        return Err(fault.value);
      }
      r := Ok(store.meta);
    }

    // A player's record is the last one staged, whether it is pending, in flight or stored. Only
    // the stored record can be at fault.
    method LoadPlayerRecord(uuid: Uuid, fault: Option<RecordError>) returns (r: Result<Option<PlayerRecord>, RecordError>)
      requires fault.Some? ==> !fault.value.UnsupportedWorld?
      ensures r.Ok? ==> r.value == LatestPlayer(View(), uuid)
      ensures r.Err? <==>
        fault.Some? && store != null && uuid !in pendingPlayers && (inFlight.Some? ==> uuid !in inFlight.value.players)
        && (fault.value == Database || uuid in store.players)
      ensures r.Err? ==> r.error == fault.value
    {
      if uuid in pendingPlayers {
        return Ok(Some(pendingPlayers[uuid]));
      }
      if inFlight.Some? && uuid in inFlight.value.players {
        return Ok(Some(inFlight.value.players[uuid]));
      }
      if store == null {
        return Ok(None);
      }
      if fault.Some? && (fault.value == Database || uuid in store.players) {
        return Err(fault.value);
      }
      r := Ok(if uuid in store.players then Some(store.players[uuid]) else None);
    }

    // Entries of `from` go in only where `into` has none.
    static method FillVacant<K(==), V>(into: map<K, V>, from: map<K, V>) returns (filled: map<K, V>)
      ensures filled == from + into
    {
      filled := into;
      var rest := from.Keys;
      while rest != {}
        invariant rest <= from.Keys
        invariant filled == (map key | key in from.Keys - rest :: from[key]) + into
      {
        var key :| key in rest;
        if key !in filled {
          filled := filled[key := from[key]];
        }
        rest := rest - {key};
      }
    }

    method RestoreBatch(batch: SaveBatch)
      modifies this`pendingRegions, this`pendingPlayers, this`pendingMeta
      ensures View() == Protocol.RestoreBatch(old(View()), batch)
    {
      pendingRegions := FillVacant(pendingRegions, batch.regions);
      pendingPlayers := FillVacant(pendingPlayers, batch.players);
      if pendingMeta.None? {
        pendingMeta := batch.meta;
      }
    }

    // Without a worker the batch that was taken is dropped with the error.
    method StartSave() returns (r: Result<Unit, StoreError>)
      requires Valid()
      modifies this, worker
      ensures Valid() && worker == old(worker)
      ensures !WantsSave(old(View())) ==> r == Ok(Unit) && View() == old(View())
      ensures WantsSave(old(View())) && old(View()).running ==> r == Ok(Unit) && View() == Protocol.StartSave(old(View()))
      ensures WantsSave(old(View())) && !old(View()).running ==> r == Err(WorkerDisconnected)
      ensures WantsSave(old(View())) && !old(View()).running && worker != null ==> View() == old(View())
      ensures WantsSave(old(View())) && worker == null ==>
        View() == old(View()).(pendingRegions := map[], pendingPlayers := map[], pendingMeta := None)
    {
      if store == null || inFlight.Some? || (pendingRegions == map[] && pendingPlayers == map[] && pendingMeta.None?) {
        return Ok(Unit);
      }
      var batch := SaveBatch(pendingRegions, pendingPlayers, pendingMeta);
      pendingRegions, pendingPlayers, pendingMeta := map[], map[], None;
      if worker == null {
        return Err(WorkerDisconnected);
      }
      var sent := worker.Dispatch(SaveRegions(batch));
      if sent.Err? {
        RestoreBatch(batch);
        return Err(sent.error);
      }
      inFlight := Some(batch);
      r := Ok(Unit);
    }

    method TakeInFlight() returns (r: Result<SaveBatch, StoreError>)
      modifies this`inFlight
      ensures r == if old(inFlight).Some? then Ok(old(inFlight).value) else Err(SaveDesync)
      ensures inFlight == None
    {
      r := if inFlight.Some? then Ok(inFlight.value) else Err(SaveDesync);
      inFlight := None;
    }

    method ApplyCompletion(message: Completion, failOnSaveError: bool) returns (r: Result<Option<RegionReady>, StoreError>)
      modifies this
      ensures worker == old(worker)
      ensures message.Ready? ==> r == Ok(Some(message.ready)) && View() == old(View())
      ensures !message.Ready? && old(inFlight).None? ==> r == Err(SaveDesync)
      ensures !message.Ready? && old(inFlight).Some? ==> View() == ApplyOutcome(old(View()), message)
      ensures !message.Ready? && old(inFlight).Some? ==>
        r == if message.SaveFailed? && failOnSaveError then Err(message.error) else Ok(None)
    {
      match message {
        case Ready(ready) => return Ok(Some(ready));
        case SaveComplete =>
          var taken := TakeInFlight();
          if taken.Err? {
            return Err(taken.error);
          }
        case SaveFailed(error) =>
          var taken := TakeInFlight();
          if taken.Err? {
            return Err(taken.error);
          }
          RestoreBatch(taken.value);
          if failOnSaveError {
            return Err(error);
          }
      }
      r := Ok(None);
    }

    static lemma DrainUnfolds(d: Depot, messages: seq<Completion>, regions: seq<RegionReady>)
      requires messages != []
      ensures Drain(d.(completions := messages), regions) ==
        if messages[0].Ready? then Drain(d.(completions := messages[1..]), regions + [messages[0].ready])
        else if d.inFlight.None? then None
        else Drain(ApplyOutcome(d, messages[0]).(completions := messages[1..]), regions)
    {
    }

    method DrainCompletions() returns (r: Result<seq<RegionReady>, StoreError>)
      requires Valid()
      modifies this, worker
      ensures Valid() && worker == old(worker)
      ensures !old(View()).running ==> r == Err(WorkerDisconnected) && View() == old(View()).(completions := [])
      ensures old(View()).running ==> match Drain(old(View()), [])
        case Some((after, regions)) => r == Ok(regions) && View() == after
        case None => r == Err(SaveDesync)
    {
      if worker == null {
        return Err(WorkerDisconnected);
      }
      var messages := worker.DrainCompletions();
      if messages.Err? {
        return Err(messages.error);
      }
      var regions := [];
      var i := 0;
      while i < |messages.value|
        invariant 0 <= i <= |messages.value| && worker == old(worker) && Valid()
        invariant View().completions == []
        invariant Drain(old(View()), []) == Drain(View().(completions := messages.value[i..]), regions)
      {
        DrainUnfolds(View(), messages.value[i..], regions);
        assert messages.value[i..][1..] == messages.value[i + 1..];
        var region := ApplyCompletion(messages.value[i], false);
        if region.Err? {
          return Err(region.error);
        }
        if region.value.Some? {
          regions := regions + [region.value.value];
        }
        i := i + 1;
      }
      r := Ok(regions);
    }

    // recv: blocks until the worker has sent something, or has ended.
    method RecvCompletion(fault: bool) returns (r: Result<Completion, StoreError>)
      requires Valid() && worker != null && Saving(View()) && inFlight.Some?
      modifies worker, store
      ensures Valid() && worker == old(worker)
      ensures pendingRegions == old(pendingRegions) && pendingPlayers == old(pendingPlayers)
        && pendingMeta == old(pendingMeta) && inFlight == old(inFlight)
      ensures worker.running == old(worker.running)
      ensures r.Err? ==> Saving(View()) && SameValues(old(View()), View())
      ensures r.Err? ==> Verdict(old(View()), fault) == Err(r.error)
      ensures r.Ok? ==>
        var before := View().(completions := [r.value] + View().completions);
        Saving(before) && SameValues(old(View()), before) && Verdict(before, fault) == Verdict(old(View()), fault)
        && |before.commands| + |before.completions| <= |old(View()).commands| + |old(View()).completions|
    {
      while worker.completions == [] && worker.running && worker.commands != []
        invariant Valid() && Saving(View()) && SameValues(old(View()), View())
        invariant Verdict(View(), fault) == Verdict(old(View()), fault) && worker.running == old(worker.running)
        invariant |worker.commands| + |worker.completions| <= |old(View()).commands| + |old(View()).completions|
        decreases |worker.commands|
      {
        ghost var before := View();
        var turn: bool := *;
        if worker.commands[0].SaveRegions? {
          turn := fault;
        }
        worker.Turn(turn);
        assert View() == WorkerTurn(before, turn);
        WorkKeepsSaving(before, turn);
        TurnKeepsVerdict(before, turn, fault);
        SameValuesTransitive(old(View()), before, View());
      }
      if worker.completions == [] {
        SaveIsOwed(View());
        return Err(WorkerDisconnected);
      }
      ghost var before := View();
      r := Ok(worker.completions[0]);
      worker.completions := worker.completions[1..];
      assert View().(completions := [r.value] + View().completions) == before;
    }

    // Waits until no batch is in flight; `fault` is a failure of the database in its save.
    method FinishInFlight(fault: bool) returns (r: Result<Unit, StoreError>)
      requires Valid() && Saving(View())
      modifies this, worker, store
      ensures r == Verdict(old(View()), fault)
      ensures View().running == old(View()).running
      ensures Valid() && worker == old(worker) && Saving(View()) && SameValues(old(View()), View())
      ensures r.Ok? ==> inFlight.None? && pendingMeta == old(pendingMeta)
      ensures r.Ok? ==> pendingRegions == old(pendingRegions) && pendingPlayers == old(pendingPlayers)
    {
      while inFlight.Some?
        invariant Valid() && worker == old(worker) && Saving(View()) && SameValues(old(View()), View())
        invariant Verdict(View(), fault) == Verdict(old(View()), fault) && View().running == old(View()).running
        invariant pendingRegions == old(pendingRegions)
          && pendingPlayers == old(pendingPlayers) && pendingMeta == old(pendingMeta)
        decreases |View().commands| + |View().completions|
      {
        if worker == null {
          return Err(WorkerDisconnected);
        }
        ghost var start := View();
        var message := RecvCompletion(fault);
        if message.Err? {
          SameValuesTransitive(old(View()), start, View());
          return Err(message.error);
        }
        ghost var before := View().(completions := [message.value] + View().completions);
        assert before.completions[1..] == View().completions;
        var applied := ApplyCompletion(message.value, true);
        if message.value.Ready? {
          DroppingReadyKeepsSaving(before);
        } else {
          ApplySaveKeepsSaving(before);
        }
        SameValuesTransitive(old(View()), start, before);
        SameValuesTransitive(old(View()), before, View());
        if applied.Err? {
          return Err(applied.error);
        }
      }
      r := Ok(Unit);
    }

    // What is pending is saved and waited for; `fault` is a failure of the database.
    method SavePending(fault: bool) returns (r: Result<Unit, StoreError>)
      requires Valid() && Saving(View()) && inFlight.None?
      modifies this, worker, store
      ensures r == FlushVerdict(old(View()), fault, fault)
      ensures Valid() && worker == old(worker) && Saving(View())
      ensures worker != null ==> SameValues(old(View()), View())
      ensures r.Ok? ==> inFlight.None?
      ensures r.Ok? && store != null ==> !HasPending(View()) && SameValues(old(View()), View())
    {
      ghost var idle := View();
      r := StartSave();
      if r.Err? {
        return;
      }
      ghost var started := View();
      if WantsSave(idle) {
        StartSaveKeepsSaving(idle);
        NothingInFlight(idle);
        NoOutcome(idle.completions);
      }
      r := FinishInFlight(fault);
      SameValuesTransitive(idle, started, View());
    }

    // Durability: after a flush that succeeds nothing is left in memory only, and a
    // server that opens the store finds every latest region, player and meta.
    method Flush(first: bool, second: bool) returns (r: Result<Unit, StoreError>)
      requires Valid() && Saving(View())
      modifies this, worker, store
      ensures r == FlushVerdict(old(View()), first, second)
      ensures Valid() && worker == old(worker) && Saving(View())
      ensures worker != null ==> SameValues(old(View()), View())
      ensures r.Ok? ==> inFlight.None?
      ensures r.Ok? && store != null ==> !HasPending(View()) && SameValues(old(View()), Opened(StoreView()))
    {
      r := FinishInFlight(first);
      if r.Err? {
        return;
      }
      ghost var idle := View();
      r := SavePending(second);
      if worker != null || (r.Ok? && store != null) {
        SameValuesTransitive(old(View()), idle, View());
      }
      if r.Ok? && store != null {
        FlushedStoreHasEverything(View());
        SameValuesTransitive(old(View()), View(), Opened(StoreView()));
      }
    }

    // The thread finishes the command it is on, finds its channel closed and ends.
    method ShutdownWorker(fault: bool, panicked: bool) returns (r: Result<Unit, StoreError>)
      requires Valid() && Saving(View())
      modifies this`worker, worker, store
      ensures worker == null
      ensures inFlight.None? ==> StoreView() == old(StoreView())
      ensures r == if old(worker) != null && panicked then Err(WorkerPanicked) else Ok(Unit)
    {
      if worker == null {
        return Ok(Unit);
      }
      var ending := worker;
      worker := null;
      var sent := ending.Dispatch(Shutdown);
      if ending.running {
        ghost var d := old(View());
        if inFlight.None? && d.commands != [] {
          SavesHandledLater(d, fault);
          assert ending.commands[0] == d.commands[0];
        }
        ending.Turn(fault);
      }
      r := if panicked then Err(WorkerPanicked) else Ok(Unit);
    }

    // The worker is stopped however the flush ends, and what a flush that succeeds has stored
    // stays stored. The first error counts.
    method ShutDown(first: bool, second: bool, last: bool, panicked: bool) returns (r: Result<Unit, StoreError>)
      requires Valid() && Saving(View())
      modifies this, worker, store
      ensures worker == null
      ensures r ==
        if FlushVerdict(old(View()), first, second).Err? then FlushVerdict(old(View()), first, second)
        else if old(worker) != null && panicked then Err(WorkerPanicked) else Ok(Unit)
      ensures FlushVerdict(old(View()), first, second).Ok? && store != null ==>
        SameValues(old(View()), Opened(StoreView()))
    {
      var flushed := Flush(first, second);
      var stopped := ShutdownWorker(last, panicked);
      r := if flushed.Err? then flushed else stopped;
    }
  }
}
