// What every step of the load and save protocol keeps, and what every run keeps.
module ProtocolSafety {
  import opened Wrappers
  import opened Coords
  import opened RegionCodec
  import opened ZOrder
  import opened Protocol
  import opened Iteration

  // ------------------------------------------------------- outstanding items

  datatype Token = LoadToken(pos: RegionPos, request: nat) | SaveToken

  function CommandToken(c: Command): Option<Token> {
    match c
    case LoadRegion(request, pos) => Some(LoadToken(pos, request))
    case SaveRegions(_) => Some(SaveToken)
    case Shutdown => None
  }

  function CompletionToken(c: Completion): Option<Token> {
    match c
    case Ready(ready) => ReadyToken(ready)
    case _ => Some(SaveToken)
  }

  function ReadyToken(r: RegionReady): Option<Token> {
    Some(LoadToken(r.pos, r.request))
  }

  function Hit<T>(item: T, token: T -> Option<Token>, t: Token): nat {
    if token(item) == Some(t) then 1 else 0
  }

  // How many of the items stand for t.
  function Count<T>(items: seq<T>, token: T -> Option<Token>, t: Token): nat {
    if items == [] then 0 else Hit(items[0], token, t) + Count(items[1..], token, t)
  }

  lemma {:induction false} CountConcat<T>(a: seq<T>, b: seq<T>, token: T -> Option<Token>, t: Token)
    ensures Count(a + b, token, t) == Count(a, token, t) + Count(b, token, t)
  {
    if a == [] {
      assert a + b == b;
    } else {
      assert (a + b)[1..] == a[1..] + b;
      CountConcat(a[1..], b, token, t);
    }
  }

  function Without<T>(items: seq<T>, i: nat): seq<T>
    requires i < |items|
  {
    items[..i] + items[i + 1..]
  }

  lemma CountWithout<T>(items: seq<T>, i: nat, token: T -> Option<Token>, t: Token)
    requires i < |items|
    ensures Count(items, token, t) == Count(Without(items, i), token, t) + Hit(items[i], token, t)
  {
    CountConcat(items[..i], items[i..], token, t);
    CountConcat(items[..i], items[i + 1..], token, t);
    assert items == items[..i] + items[i..];
  }

  lemma MultisetWithout<T>(items: seq<T>, i: nat)
    requires i < |items|
    ensures multiset(Without(items, i)) == multiset(items) - multiset{items[i]}
  {
    assert items == items[..i] + [items[i]] + items[i + 1..];
  }

  lemma {:induction false} CountPermute<T>(a: seq<T>, b: seq<T>, token: T -> Option<Token>, t: Token)
    requires multiset(a) == multiset(b)
    ensures Count(a, token, t) == Count(b, token, t)
    decreases |a|
  {
    if a == [] {
      assert |multiset(b)| == 0;
    } else {
      assert a[0] in multiset(b);
      var i :| 0 <= i < |b| && b[i] == a[0];
      MultisetWithout(a, 0);
      MultisetWithout(b, i);
      assert Without(a, 0) == a[1..];
      CountPermute(a[1..], Without(b, i), token, t);
      CountWithout(b, i, token, t);
    }
  }

  function DepotCount(d: Depot, t: Token): nat {
    Count(d.commands, CommandToken, t) + Count(d.completions, CompletionToken, t)
  }

  function OutstandingCount(s: System, t: Token): nat {
    DepotCount(s.depot, t) + Count(s.ready, ReadyToken, t)
  }

  function ExpectedCount(s: System, t: Token): nat {
    match t
    case SaveToken => if s.depot.inFlight.Some? then 1 else 0
    case LoadToken(pos, request) => if pos in s.requested && s.requested[pos] == request then 1 else 0
  }

  // Exactly-once accounting: every request has one outstanding item, with its id, no
  // item stands for anything else, and a batch is in flight exactly while one save
  // command or completion is outstanding.
  ghost predicate Accounted(s: System) {
    && s.loaded.Keys !! s.requested.Keys
    && |s.requested| <= MAX_PENDING_REGION_LOADS
    && (forall t :: OutstandingCount(s, t) == ExpectedCount(s, t))
  }

  // The part of the accounting that also holds while shutting down.
  ghost predicate SavesAccounted(d: Depot) {
    DepotCount(d, SaveToken) == if d.inFlight.Some? then 1 else 0
  }

  // --------------------------------------------------------------- coherence

  ghost predicate StoreHolds(store: Store, batch: SaveBatch) {
    && (forall pos | pos in batch.regions ::
          ZOrderKey(pos) in store.regions
          && EncodeRegion(batch.regions[pos]) == Ok(store.regions[ZOrderKey(pos)]))
    && (forall uuid | uuid in batch.players :: uuid in store.players && store.players[uuid] == batch.players[uuid])
    && (batch.meta.Some? ==> store.meta == batch.meta)
  }

  ghost predicate SavesCoherent(d: Depot) {
    && (d.inFlight.Some? ==> d.store.Some?)
    && (forall i | 0 <= i < |d.commands| && d.commands[i].SaveRegions? :: d.inFlight == Some(d.commands[i].batch))
    && (forall i | 0 <= i < |d.completions| && d.completions[i].SaveComplete? ::
          d.inFlight.Some? && d.store.Some? && StoreHolds(d.store.value, d.inFlight.value))
  }

  ghost predicate Carries(d: Depot, ready: RegionReady) {
    ready.result.Ok? ==> Latest(d, ready.pos) == Ok(RecordOf(ready.result.value))
  }

  // Loads under way are for regions no longer in memory, and every loaded region that
  // waits to be integrated is the latest one.
  ghost predicate LoadsCoherent(s: System) {
    var d := s.depot;
    && (forall i | 0 <= i < |d.commands| && d.commands[i].LoadRegion? :: Retained(d, d.commands[i].pos).None?)
    && (forall i | 0 <= i < |d.completions| && d.completions[i].Ready? :: Carries(d, d.completions[i].ready))
    && (forall i | 0 <= i < |s.ready| :: Carries(d, s.ready[i]))
  }

  datatype Concern = Accounts | Saves | Loads

  ghost predicate Keeps(s: System, concern: Concern) {
    match concern
    case Accounts => Accounted(s) && SavesAccounted(s.depot)
    case Saves => SavesCoherent(s.depot)
    case Loads => LoadsCoherent(s)
  }

  // The invariant of the protocol.
  ghost predicate Inv(s: System) {
    forall concern :: Keeps(s, concern)
  }

  ghost predicate Sane(s: System) {
    match s
    case System(depot, _, _, _) => Accounted(s) && SavesAccounted(depot) && SavesCoherent(depot) && LoadsCoherent(s)
  }

  lemma InvIsSane(s: System)
    ensures Inv(s) <==> Sane(s)
  {
    if Inv(s) {
      assert Keeps(s, Accounts) && Keeps(s, Saves) && Keeps(s, Loads);
    }
  }

  lemma RequestedAreNotLoaded(s: System)
    requires Inv(s)
    ensures s.loaded.Keys !! s.requested.Keys
  {
    InvIsSane(s);
  }

  // No stored value is different for a reader.
  ghost predicate SameValues(d: Depot, e: Depot) {
    && (forall pos: RegionPos :: Latest(e, pos) == Latest(d, pos))
    && (forall uuid: Uuid :: LatestPlayer(e, uuid) == LatestPlayer(d, uuid))
    && LatestMeta(e) == LatestMeta(d)
  }

  // ------------------------------------------------------ steps of the depot

  lemma CommitKeepsOthers(store: Store, batch: SaveBatch, pos: RegionPos)
    requires BatchStorable(batch) && pos !in batch.regions
    ensures StoredRegion(Some(Committed(store, batch)), pos) == StoredRegion(Some(store), pos)
  {
    KeysDistinct();
  }

  lemma CommitHolds(store: Store, batch: SaveBatch)
    requires BatchStorable(batch)
    ensures StoreHolds(Committed(store, batch), batch)
  {
    KeysDistinct();
  }

  // A held region reads back from the store with the content it was saved with.
  lemma HeldRegionReadsBack(store: Store, batch: SaveBatch, pos: RegionPos)
    requires StoreHolds(store, batch) && pos in batch.regions
    ensures StoredRegion(Some(store), pos).Ok?
    ensures RecordOf(StoredRegion(Some(store), pos).value) == RecordOf(batch.regions[pos])
  {
    RegionRoundTrip(batch.regions[pos]);
  }

  // Staging gives the staged regions their new value and no other.
  lemma StagingKeepsOthers(d: Depot, regions: map<RegionPos, Region>)
    ensures forall p: RegionPos :: p in regions ==> Latest(StageRegions(d, regions), p) == Ok(RecordOf(regions[p]))
    ensures forall p: RegionPos :: p !in regions ==> Latest(StageRegions(d, regions), p) == Latest(d, p)
    ensures forall u: Uuid :: LatestPlayer(StageRegions(d, regions), u) == LatestPlayer(d, u)
    ensures LatestMeta(StageRegions(d, regions)) == LatestMeta(d)
  {
  }

  lemma StageKeepsOthers(d: Depot, pos: RegionPos, region: Region)
    ensures Latest(StageRegion(d, pos, region), pos) == Ok(RecordOf(region))
    ensures forall p | p != pos :: Latest(StageRegion(d, pos, region), p) == Latest(d, p)
    ensures forall u: Uuid :: LatestPlayer(StageRegion(d, pos, region), u) == LatestPlayer(d, u)
    ensures LatestMeta(StageRegion(d, pos, region)) == LatestMeta(d)
  {
  }

  lemma StartSaveKeepsValues(d: Depot)
    requires WantsSave(d)
    ensures SameValues(d, StartSave(d))
  {
  }

  lemma WorkerTurnKeepsLatest(d: Depot, fault: bool, pos: RegionPos)
    requires d.running && d.commands != [] && SavesCoherent(d)
    ensures Latest(WorkerTurn(d, fault), pos) == Latest(d, pos)
  {
    if d.commands[0].SaveRegions? {
      var batch := d.commands[0].batch;
      assert d.inFlight == Some(batch);
      if BatchStorable(batch) && !fault && pos !in batch.regions {
        CommitKeepsOthers(d.store.value, batch, pos);
      }
    }
  }

  lemma WorkerTurnKeepsValues(d: Depot, fault: bool)
    requires d.running && d.commands != [] && SavesCoherent(d)
    ensures SameValues(d, WorkerTurn(d, fault))
  {
    forall pos: RegionPos
      ensures Latest(WorkerTurn(d, fault), pos) == Latest(d, pos)
    {
      WorkerTurnKeepsLatest(d, fault, pos);
    }
    if d.commands[0].SaveRegions? {
      assert d.inFlight == Some(d.commands[0].batch);
    }
  }

  lemma ApplySaveKeepsLatest(d: Depot, pos: RegionPos)
    requires d.completions != [] && !d.completions[0].Ready? && d.inFlight.Some? && SavesCoherent(d)
    ensures Latest(ApplySave(d), pos) == Latest(d, pos)
  {
    if d.completions[0].SaveComplete? && pos !in d.pendingRegions && pos in d.inFlight.value.regions {
      HeldRegionReadsBack(d.store.value, d.inFlight.value, pos);
    }
  }

  // Taking a batch out of flight, written or failed, loses nothing.
  lemma ApplySaveKeepsValues(d: Depot)
    requires d.completions != [] && !d.completions[0].Ready? && d.inFlight.Some? && SavesCoherent(d)
    ensures SameValues(d, ApplySave(d))
  {
    forall pos: RegionPos
      ensures Latest(ApplySave(d), pos) == Latest(d, pos)
    {
      ApplySaveKeepsLatest(d, pos);
    }
  }

  // ----------------------------------------------------- steps of the system

  datatype Step =
    | Simulate(contents: map<RegionPos, Region>)     // the simulation rewrites the loaded regions
    | Snapshot                                       // autosave stages the loaded regions
    | KeepPlayers(records: map<Uuid, PlayerRecord>)
    | KeepMeta(meta: WorldMeta)
    | Save                                           // start_save hands the batch over
    | Work(fault: bool)                              // the worker handles one command
    | Die                                            // the worker thread ends
    | TakeReady                                      // drain_completions: a loaded region
    | TakeSave                                       // drain_completions: a save's outcome
    | Sort(ready: seq<RegionReady>)
    | Discard(index: nat)                            // loaded, but no longer wanted
    | Integrate(index: nat)
    | Request(pos: RegionPos)
    | Unload(pos: RegionPos)

  predicate Enabled(s: System, step: Step) {
    match step
    case Simulate(contents) => contents.Keys == s.loaded.Keys
    case Snapshot => true
    case KeepPlayers(_) => true
    case KeepMeta(_) => true
    case Save => WantsSave(s.depot) && s.depot.running
    case Work(_) => s.depot.running && s.depot.commands != []
    case Die => true
    case TakeReady => s.depot.completions != [] && s.depot.completions[0].Ready?
    case TakeSave => s.depot.completions != [] && !s.depot.completions[0].Ready? && s.depot.inFlight.Some?
    case Sort(ready) => multiset(ready) == multiset(s.ready)
    case Discard(index) => index < |s.ready| && s.ready[index].pos in s.requested
    case Integrate(index) =>
      index < |s.ready| && s.ready[index].pos in s.requested && s.ready[index].result.Ok?
    case Request(pos) =>
      && pos !in s.loaded && pos !in s.requested && |s.requested| < MAX_PENDING_REGION_LOADS
      && (s.depot.running || Retained(s.depot, pos).Some?)
    case Unload(pos) => pos in s.loaded
  }

  function Apply(s: System, step: Step): System
    requires Enabled(s, step)
  {
    var d := s.depot;
    match step
    case Simulate(contents) => s.(loaded := contents)
    case Snapshot => s.(depot := StageRegions(d, s.loaded))
    case KeepPlayers(records) => s.(depot := StagePlayers(d, records))
    case KeepMeta(meta) => s.(depot := StageMeta(d, meta))
    case Save => s.(depot := StartSave(d))
    case Work(fault) => s.(depot := WorkerTurn(d, fault))
    case Die => s.(depot := d.(running := false))
    case TakeReady => s.(depot := d.(completions := d.completions[1..]), ready := s.ready + [d.completions[0].ready])
    case TakeSave => s.(depot := ApplySave(d))
    case Sort(ready) => s.(ready := ready)
    case Discard(index) =>
      s.(ready := Without(s.ready, index), requested := s.requested - {s.ready[index].pos})
    case Integrate(index) =>
      var pos := s.ready[index].pos;
      s.(ready := Without(s.ready, index),
         requested := s.requested - {pos},
         loaded := s.loaded[pos := s.ready[index].result.value])
    case Request(pos) =>
      var request := d.nextRequest;
      var next := d.(nextRequest := NextRequest(request));
      var asked := s.(requested := s.requested[pos := request]);
      if Retained(d, pos).Some? then
        asked.(depot := next, ready := s.ready + [RegionReady(request, pos, Ok(Retained(d, pos).value))])
      else
        asked.(depot := next.(commands := d.commands + [LoadRegion(request, pos)]))
    case Unload(pos) =>
      s.(loaded := s.loaded - {pos}, depot := StageRegion(d, pos, s.loaded[pos]))
  }

  // The accounting leaves no room for a stale entry: every loaded region that arrives
  // is the one that was asked for, so the mismatch branch of manage_regions is dead code.
  lemma ReadyEntriesAreRequested(s: System, i: nat)
    requires Accounted(s) && i < |s.ready|
    ensures s.ready[i].pos in s.requested && s.requested[s.ready[i].pos] == s.ready[i].request
  {
    var t := LoadToken(s.ready[i].pos, s.ready[i].request);
    CountWithout(s.ready, i, ReadyToken, t);
    assert OutstandingCount(s, t) == ExpectedCount(s, t);
  }

  // Nor for an outcome with no batch in flight: SaveDesync cannot be reported.
  lemma SaveOutcomesHaveABatch(d: Depot)
    requires SavesAccounted(d) && d.completions != [] && !d.completions[0].Ready?
    ensures d.inFlight.Some?
  {
    assert Hit(d.completions[0], CompletionToken, SaveToken) == 1;
  }

  // Two entries of the ready list are never for one region.
  lemma ReadyEntriesAreDistinct(s: System, i: nat, j: nat)
    requires Accounted(s) && i < j < |s.ready|
    ensures s.ready[i].pos != s.ready[j].pos
  {
    ReadyEntriesAreRequested(s, i);
    ReadyEntriesAreRequested(s, j);
    var t := LoadToken(s.ready[i].pos, s.ready[i].request);
    CountWithout(s.ready, j, ReadyToken, t);
    CountWithout(Without(s.ready, j), i, ReadyToken, t);
    assert OutstandingCount(s, t) == ExpectedCount(s, t);
  }

  // ------------------------------------------------- steps keep the accounting

  lemma WorkKeepsCount(d: Depot, fault: bool, t: Token)
    requires d.running && d.commands != []
    ensures DepotCount(WorkerTurn(d, fault), t) == DepotCount(d, t)
  {
    var completion := Handle(d.store, d.commands[0], fault).1;
    CountConcat(d.completions, completion, CompletionToken, t);
    assert Count(completion, CompletionToken, t) == Hit(d.commands[0], CommandToken, t);
  }

  // Taking an entry off the ready list and its request with it.
  lemma RemovalKeepsCount(s: System, index: nat, t: Token)
    requires Accounted(s) && index < |s.ready|
    ensures DepotCount(s.depot, t) + Count(Without(s.ready, index), ReadyToken, t)
      == ExpectedCount(s.(requested := s.requested - {s.ready[index].pos}), t)
  {
    ReadyEntriesAreRequested(s, index);
    CountWithout(s.ready, index, ReadyToken, t);
    assert OutstandingCount(s, t) == ExpectedCount(s, t);
    if t.LoadToken? && t.pos == s.ready[index].pos && t.request != s.ready[index].request {
      assert ExpectedCount(s, t) == 0;
    }
  }

  lemma RequestKeepsCount(s: System, pos: RegionPos, t: Token)
    requires Accounted(s) && Enabled(s, Request(pos))
    ensures OutstandingCount(Apply(s, Request(pos)), t) == ExpectedCount(Apply(s, Request(pos)), t)
  {
    var d := s.depot;
    assert OutstandingCount(s, t) == ExpectedCount(s, t);
    if Retained(d, pos).Some? {
      CountConcat(s.ready, [RegionReady(d.nextRequest, pos, Ok(Retained(d, pos).value))], ReadyToken, t);
    } else {
      CountConcat(d.commands, [LoadRegion(d.nextRequest, pos)], CommandToken, t);
    }
  }

  // The steps that move nothing through the channels or the list.
  predicate Still(step: Step) {
    step.Simulate? || step.Snapshot? || step.KeepPlayers? || step.KeepMeta? || step.Die? || step.Unload?
  }

  lemma StillStepKeepsCount(s: System, step: Step, t: Token)
    requires Accounted(s) && Enabled(s, step) && Still(step)
    ensures OutstandingCount(Apply(s, step), t) == ExpectedCount(Apply(s, step), t)
  {
    assert OutstandingCount(s, t) == ExpectedCount(s, t);
  }

  lemma StepKeepsCount(s: System, step: Step, t: Token)
    requires Accounted(s) && Enabled(s, step)
    ensures OutstandingCount(Apply(s, step), t) == ExpectedCount(Apply(s, step), t)
  {
    var d := s.depot;
    assert OutstandingCount(s, t) == ExpectedCount(s, t);
    match step {
      case Save => CountConcat(d.commands, [SaveRegions(StartSave(d).inFlight.value)], CommandToken, t);
      case Work(fault) => WorkKeepsCount(d, fault, t);
      case TakeReady => CountConcat(s.ready, [d.completions[0].ready], ReadyToken, t);
      case TakeSave =>
      case Sort(ready) => CountPermute(ready, s.ready, ReadyToken, t);
      case Discard(index) => RemovalKeepsCount(s, index, t);
      case Integrate(index) => RemovalKeepsCount(s, index, t);
      case Request(pos) => RequestKeepsCount(s, pos, t);
      case _ => StillStepKeepsCount(s, step, t);
    }
  }

  lemma StepKeepsAccounted(s: System, step: Step)
    requires Accounted(s) && Enabled(s, step)
    ensures Accounted(Apply(s, step))
  {
    forall t
      ensures OutstandingCount(Apply(s, step), t) == ExpectedCount(Apply(s, step), t)
    {
      StepKeepsCount(s, step, t);
    }
  }

  lemma StepKeepsSavesAccounted(s: System, step: Step)
    requires SavesAccounted(s.depot) && SavesCoherent(s.depot) && Enabled(s, step)
    ensures SavesAccounted(Apply(s, step).depot)
  {
    var d := s.depot;
    match step {
      case Save => CountConcat(d.commands, [SaveRegions(StartSave(d).inFlight.value)], CommandToken, SaveToken);
      case Work(fault) => WorkKeepsCount(d, fault, SaveToken);
      case Request(pos) => CountConcat(d.commands, [LoadRegion(d.nextRequest, pos)], CommandToken, SaveToken);
      case _ => OthersKeepSavesAccounted(s, step);
    }
  }

  lemma OthersKeepSavesAccounted(s: System, step: Step)
    requires SavesAccounted(s.depot) && Enabled(s, step) && !step.Save? && !step.Work? && !step.Request?
    ensures SavesAccounted(Apply(s, step).depot)
  {
    var d, e := s.depot, Apply(s, step).depot;
    if step.TakeReady? || step.TakeSave? {
      assert e.commands == d.commands && e.completions == d.completions[1..];
    } else {
      assert e.commands == d.commands && e.completions == d.completions && e.inFlight == d.inFlight;
    }
  }

  // ------------------------------------------------- steps keep the coherence

  lemma {:induction false} NoneCounted<T>(items: seq<T>, token: T -> Option<Token>, t: Token)
    requires Count(items, token, t) == 0
    ensures forall i | 0 <= i < |items| :: token(items[i]) != Some(t)
  {
    if items != [] {
      NoneCounted(items[1..], token, t);
      forall i | 0 <= i < |items|
        ensures token(items[i]) != Some(t)
      {
        if i > 0 {
          assert items[i] == items[1..][i - 1];
        }
      }
    }
  }

  // With nothing in flight no save is under way, so none of the save clauses applies.
  lemma NothingInFlight(d: Depot)
    requires SavesAccounted(d) && d.inFlight.None?
    ensures forall i | 0 <= i < |d.commands| :: !d.commands[i].SaveRegions?
    ensures forall i | 0 <= i < |d.completions| :: d.completions[i].Ready?
  {
    NoneCounted(d.commands, CommandToken, SaveToken);
    NoneCounted(d.completions, CompletionToken, SaveToken);
  }

  lemma WorkKeepsSavesCoherent(d: Depot, fault: bool)
    requires SavesAccounted(d) && SavesCoherent(d) && d.running && d.commands != []
    ensures SavesCoherent(WorkerTurn(d, fault))
  {
    if d.commands[0].SaveRegions? {
      var batch := d.commands[0].batch;
      assert d.inFlight == Some(batch);
      if BatchStorable(batch) {
        CommitHolds(d.store.value, batch);
      }
      assert Hit(d.commands[0], CommandToken, SaveToken) == 1;
      NoneCounted(d.completions, CompletionToken, SaveToken);
    }
  }

  lemma StepKeepsSavesCoherent(s: System, step: Step)
    requires SavesAccounted(s.depot) && SavesCoherent(s.depot) && Enabled(s, step)
    ensures SavesCoherent(Apply(s, step).depot)
  {
    StepKeepsSavesAccounted(s, step);
    match step {
      case Save => NothingInFlight(s.depot);
      case Work(fault) => WorkKeepsSavesCoherent(s.depot, fault);
      case TakeSave => NothingInFlight(Apply(s, step).depot);
      case _ =>
    }
  }

  // A step that stages nothing for the regions being loaded leaves their loads coherent.
  ghost predicate LeavesLoads(s: System, d: Depot) {
    forall pos | pos in s.requested :: Latest(d, pos) == Latest(s.depot, pos)
      && (Retained(s.depot, pos).None? ==> Retained(d, pos).None?)
  }

  lemma {:induction false} Counted<T>(items: seq<T>, i: nat, token: T -> Option<Token>, t: Token)
    requires i < |items| && token(items[i]) == Some(t)
    ensures Count(items, token, t) > 0
  {
    if i > 0 {
      assert items[1..][i - 1] == items[i];
      Counted(items[1..], i - 1, token, t);
    }
  }

  // Every load under way is for a requested region.
  lemma LoadsAreRequested(s: System)
    requires Accounted(s)
    ensures forall i | 0 <= i < |s.depot.commands| && s.depot.commands[i].LoadRegion? :: s.depot.commands[i].pos in s.requested
    ensures forall i | 0 <= i < |s.depot.completions| && s.depot.completions[i].Ready? :: s.depot.completions[i].ready.pos in s.requested
    ensures forall i | 0 <= i < |s.ready| :: s.ready[i].pos in s.requested
  {
    var d := s.depot;
    forall i | 0 <= i < |d.commands| && d.commands[i].LoadRegion?
      ensures d.commands[i].pos in s.requested
    {
      var t := LoadToken(d.commands[i].pos, d.commands[i].request);
      Counted(d.commands, i, CommandToken, t);
      assert OutstandingCount(s, t) == ExpectedCount(s, t);
    }
    forall i | 0 <= i < |d.completions| && d.completions[i].Ready?
      ensures d.completions[i].ready.pos in s.requested
    {
      var t := LoadToken(d.completions[i].ready.pos, d.completions[i].ready.request);
      Counted(d.completions, i, CompletionToken, t);
      assert OutstandingCount(s, t) == ExpectedCount(s, t);
    }
    forall i | 0 <= i < |s.ready|
      ensures s.ready[i].pos in s.requested
    {
      ReadyEntriesAreRequested(s, i);
    }
  }

  lemma ReplacingDepotKeepsLoads(s: System, d: Depot)
    requires Accounted(s) && LoadsCoherent(s) && LeavesLoads(s, d)
    requires d.commands == s.depot.commands && d.completions == s.depot.completions
    ensures LoadsCoherent(s.(depot := d))
  {
    LoadsAreRequested(s);
  }

  lemma WorkKeepsLoadsCoherent(s: System, fault: bool)
    requires Sane(s) && Enabled(s, Work(fault))
    ensures LoadsCoherent(Apply(s, Work(fault)))
  {
    var d, e := s.depot, WorkerTurn(s.depot, fault);
    forall pos: RegionPos
      ensures Latest(e, pos) == Latest(d, pos)
    {
      WorkerTurnKeepsLatest(d, fault, pos);
    }
    forall i | 0 <= i < |e.completions| && e.completions[i].Ready?
      ensures Carries(e, e.completions[i].ready)
    {
      if i < |d.completions| {
        assert Carries(d, d.completions[i].ready);
      }
    }
    forall i | 0 <= i < |s.ready|
      ensures Carries(e, s.ready[i])
    {
      assert Carries(d, s.ready[i]);
    }
  }

  lemma SaveKeepsLoadsCoherent(s: System)
    requires Sane(s) && Enabled(s, Save)
    ensures LoadsCoherent(Apply(s, Save))
  {
    var d, e := s.depot, StartSave(s.depot);
    StartSaveKeepsValues(d);
    forall i | 0 <= i < |e.completions| && e.completions[i].Ready?
      ensures Carries(e, e.completions[i].ready)
    {
      assert Carries(d, d.completions[i].ready);
    }
  }

  lemma ApplySaveRetainsNothingNew(d: Depot, pos: RegionPos)
    requires d.completions != [] && !d.completions[0].Ready? && d.inFlight.Some?
    ensures Retained(d, pos).None? ==> Retained(ApplySave(d), pos).None?
  {
  }

  lemma TakeSaveKeepsCarried(d: Depot, ready: RegionReady)
    requires d.completions != [] && !d.completions[0].Ready? && d.inFlight.Some? && SavesCoherent(d)
    requires Carries(d, ready)
    ensures Carries(ApplySave(d), ready)
  {
    ApplySaveKeepsLatest(d, ready.pos);
  }

  lemma TakeSaveKeepsLoadsCoherent(s: System)
    requires Sane(s) && Enabled(s, TakeSave)
    ensures LoadsCoherent(Apply(s, TakeSave))
  {
    var d, e := s.depot, ApplySave(s.depot);
    assert e.commands == d.commands && e.completions == d.completions[1..];
    forall i | 0 <= i < |e.commands| && e.commands[i].LoadRegion?
      ensures Retained(e, e.commands[i].pos).None?
    {
      ApplySaveRetainsNothingNew(d, d.commands[i].pos);
    }
    forall i | 0 <= i < |e.completions| && e.completions[i].Ready?
      ensures Carries(e, e.completions[i].ready)
    {
      TakeSaveKeepsCarried(d, d.completions[i + 1].ready);
    }
    forall i | 0 <= i < |s.ready|
      ensures Carries(e, s.ready[i])
    {
      TakeSaveKeepsCarried(d, s.ready[i]);
    }
  }

  lemma StagingKeepsLoadsCoherent(s: System, pos: RegionPos, region: Region)
    requires Sane(s) && pos in s.loaded
    ensures LoadsCoherent(s.(depot := StageRegion(s.depot, pos, region)))
  {
    StageKeepsOthers(s.depot, pos, region);
    ReplacingDepotKeepsLoads(s, StageRegion(s.depot, pos, region));
  }

  lemma SnapshotKeepsLoadsCoherent(s: System)
    requires Sane(s)
    ensures LoadsCoherent(Apply(s, Snapshot))
  {
    StagingKeepsOthers(s.depot, s.loaded);
    ReplacingDepotKeepsLoads(s, StageRegions(s.depot, s.loaded));
  }

  lemma RequestKeepsLoadsCoherent(s: System, pos: RegionPos)
    requires Sane(s) && Enabled(s, Request(pos))
    ensures LoadsCoherent(Apply(s, Request(pos)))
  {
    var t := Apply(s, Request(pos));
    var d, e := s.depot, t.depot;
    assert forall p: RegionPos :: Retained(e, p) == Retained(d, p);
    assert forall p: RegionPos :: Latest(e, p) == Latest(d, p);
    forall i | 0 <= i < |t.ready|
      ensures Carries(e, t.ready[i])
    {
      if i < |s.ready| {
        assert Carries(d, s.ready[i]);
      }
    }
    forall i | 0 <= i < |e.completions| && e.completions[i].Ready?
      ensures Carries(e, e.completions[i].ready)
    {
      assert Carries(d, d.completions[i].ready);
    }
  }

  // Steps that only move entries of the ready list or staged players and meta.
  lemma MovingKeepsLoadsCoherent(s: System, t: System)
    requires LoadsCoherent(s) && t.depot.commands == s.depot.commands
    requires t.depot.store == s.depot.store && t.depot.pendingRegions == s.depot.pendingRegions
      && t.depot.inFlight == s.depot.inFlight
    requires forall i | 0 <= i < |t.depot.completions| :: t.depot.completions[i] in s.depot.completions
    requires forall i | 0 <= i < |t.ready| :: t.ready[i] in s.ready || Ready(t.ready[i]) in s.depot.completions
    ensures LoadsCoherent(t)
  {
    assert forall p: RegionPos :: Retained(t.depot, p) == Retained(s.depot, p);
    assert forall p: RegionPos :: Latest(t.depot, p) == Latest(s.depot, p);
    forall i | 0 <= i < |t.ready|
      ensures Carries(t.depot, t.ready[i])
    {
      assert Carries(s.depot, t.ready[i]);
    }
    forall i | 0 <= i < |t.depot.completions| && t.depot.completions[i].Ready?
      ensures Carries(t.depot, t.depot.completions[i].ready)
    {
      assert Carries(s.depot, t.depot.completions[i].ready);
    }
  }

  lemma SortKeepsLoadsCoherent(s: System, ready: seq<RegionReady>)
    requires LoadsCoherent(s) && Enabled(s, Sort(ready))
    ensures LoadsCoherent(Apply(s, Sort(ready)))
  {
    forall i | 0 <= i < |ready|
      ensures ready[i] in s.ready
    {
      assert ready[i] in multiset(ready);
    }
    MovingKeepsLoadsCoherent(s, Apply(s, Sort(ready)));
  }

  lemma QuietStepKeepsLoadsCoherent(s: System, step: Step)
    requires Sane(s) && Enabled(s, step)
    requires !step.Work? && !step.TakeSave? && !step.Save? && !step.Snapshot? && !step.Unload? && !step.Request? && !step.Sort?
    ensures LoadsCoherent(Apply(s, step))
  {
    MovingKeepsLoadsCoherent(s, Apply(s, step));
  }

  lemma StepKeepsLoadsCoherent(s: System, step: Step)
    requires Sane(s) && Enabled(s, step)
    ensures LoadsCoherent(Apply(s, step))
  {
    match step {
      case Work(fault) => WorkKeepsLoadsCoherent(s, fault);
      case TakeSave => TakeSaveKeepsLoadsCoherent(s);
      case Save => SaveKeepsLoadsCoherent(s);
      case Snapshot => SnapshotKeepsLoadsCoherent(s);
      case Unload(pos) => StagingKeepsLoadsCoherent(s, pos, s.loaded[pos]);
      case Request(pos) => RequestKeepsLoadsCoherent(s, pos);
      case Sort(ready) =>
        SortKeepsLoadsCoherent(s, ready);
      case _ => QuietStepKeepsLoadsCoherent(s, step);
    }
  }

  lemma StepKeepsInv(s: System, step: Step)
    requires Inv(s) && Enabled(s, step)
    ensures Inv(Apply(s, step))
  {
    InvIsSane(s);
    InvIsSane(Apply(s, step));
    StepKeepsAccounted(s, step);
    StepKeepsSavesAccounted(s, step);
    StepKeepsSavesCoherent(s, step);
    StepKeepsLoadsCoherent(s, step);
  }

  // ---------------------------------------------------------- no lost region

  lemma RegionsDecide(d: Depot, e: Depot, pos: RegionPos)
    requires e.pendingRegions == d.pendingRegions && e.inFlight == d.inFlight && e.store == d.store
    ensures Latest(e, pos) == Latest(d, pos)
  {
    assert Retained(e, pos) == Retained(d, pos);
  }

  lemma IntegrateKeepsTruth(s: System, index: nat, pos: RegionPos)
    requires LoadsCoherent(s) && Enabled(s, Integrate(index)) && s.loaded.Keys !! s.requested.Keys
    ensures Truth(Apply(s, Integrate(index)), pos) == Truth(s, pos)
  {
    assert Carries(s.depot, s.ready[index]);
  }

  lemma UnloadKeepsTruth(s: System, p: RegionPos, pos: RegionPos)
    requires p in s.loaded
    ensures Truth(Apply(s, Unload(p)), pos) == Truth(s, pos)
  {
    StageKeepsOthers(s.depot, p, s.loaded[p]);
  }

  // The steps that change no value and no loaded region.
  predicate Moving(step: Step) {
    step.KeepPlayers? || step.KeepMeta? || step.Die? || step.TakeReady? || step.Sort? || step.Discard? || step.Request?
  }

  lemma MovingKeepsTruth(s: System, step: Step, pos: RegionPos)
    requires Enabled(s, step) && Moving(step)
    ensures Truth(Apply(s, step), pos) == Truth(s, pos)
  {
    RegionsDecide(s.depot, Apply(s, step).depot, pos);
  }

  // Only the simulation changes what a region holds: no step of the protocol does.
  lemma StepKeepsTruth(s: System, step: Step, pos: RegionPos)
    requires Inv(s) && Enabled(s, step)
    requires !(step.Simulate? && pos in step.contents)
    ensures Truth(Apply(s, step), pos) == Truth(s, pos)
  {
    InvIsSane(s);
    match step {
      case Simulate(_) =>
      case Snapshot => StagingKeepsOthers(s.depot, s.loaded);
      case Save => StartSaveKeepsValues(s.depot);
      case Work(fault) => WorkerTurnKeepsLatest(s.depot, fault, pos);
      case TakeSave => ApplySaveKeepsLatest(s.depot, pos);
      case Integrate(index) => IntegrateKeepsTruth(s, index, pos);
      case Unload(p) => UnloadKeepsTruth(s, p, pos);
      case _ => MovingKeepsTruth(s, step, pos);
    }
  }

  lemma OthersKeepPlayer(s: System, step: Step, uuid: Uuid)
    requires Enabled(s, step) && !step.KeepPlayers? && !step.Save? && !step.Work? && !step.TakeSave?
    ensures LatestPlayer(Apply(s, step).depot, uuid) == LatestPlayer(s.depot, uuid)
  {
    PlayersDecide(s.depot, Apply(s, step).depot, uuid);
  }

  lemma SavingKeepsValues(s: System, step: Step)
    requires Inv(s) && Enabled(s, step) && (step.Save? || step.Work? || step.TakeSave?)
    ensures SameValues(s.depot, Apply(s, step).depot)
  {
    InvIsSane(s);
    match step {
      case Save => StartSaveKeepsValues(s.depot);
      case Work(fault) => WorkerTurnKeepsValues(s.depot, fault);
      case TakeSave => ApplySaveKeepsValues(s.depot);
    }
  }

  lemma StepKeepsPlayer(s: System, step: Step, uuid: Uuid)
    requires Inv(s) && Enabled(s, step)
    ensures LatestPlayer(Apply(s, step).depot, uuid)
      == if step.KeepPlayers? && uuid in step.records then Some(step.records[uuid]) else LatestPlayer(s.depot, uuid)
  {
    if step.Save? || step.Work? || step.TakeSave? {
      SavingKeepsValues(s, step);
    } else if !step.KeepPlayers? {
      OthersKeepPlayer(s, step, uuid);
    }
  }

  lemma PlayersDecide(d: Depot, e: Depot, uuid: Uuid)
    requires e.pendingPlayers == d.pendingPlayers && e.inFlight == d.inFlight && e.store == d.store
    ensures LatestPlayer(e, uuid) == LatestPlayer(d, uuid)
  {
  }

  lemma StepKeepsMeta(s: System, step: Step)
    requires Inv(s) && Enabled(s, step)
    ensures LatestMeta(Apply(s, step).depot) == if step.KeepMeta? then Some(step.meta) else LatestMeta(s.depot)
  {
    match step {
      case Save => SavingKeepsValues(s, step);
      case Work(fault) => SavingKeepsValues(s, step);
      case TakeSave => SavingKeepsValues(s, step);
      case Snapshot => StagingKeepsOthers(s.depot, s.loaded);
      case Unload(pos) => StageKeepsOthers(s.depot, pos, s.loaded[pos]);
      case _ =>
    }
  }

  // -------------------------------------------------------------------- runs

  predicate Runs(s: System, steps: seq<Step>)
    decreases |steps|
  {
    steps == [] || (Enabled(s, steps[0]) && Runs(Apply(s, steps[0]), steps[1..]))
  }

  function After(s: System, steps: seq<Step>): System
    requires Runs(s, steps)
    decreases |steps|
  {
    if steps == [] then s else After(Apply(s, steps[0]), steps[1..])
  }

  lemma {:induction false} RunsAppend(s: System, steps: seq<Step>, step: Step)
    requires Runs(s, steps) && Enabled(After(s, steps), step)
    ensures Runs(s, steps + [step]) && After(s, steps + [step]) == Apply(After(s, steps), step)
    decreases |steps|
  {
    if steps != [] {
      assert (steps + [step])[1..] == steps[1..] + [step];
      RunsAppend(Apply(s, steps[0]), steps[1..], step);
    }
  }

  lemma RunsPrepend(s: System, step: Step, rest: seq<Step>)
    requires Enabled(s, step) && Runs(Apply(s, step), rest)
    ensures Runs(s, [step] + rest) && After(s, [step] + rest) == After(Apply(s, step), rest)
  {
    assert ([step] + rest)[1..] == rest;
  }

  function CanStep(): (System, Step) -> bool {
    (s: System, step: Step) => Enabled(s, step)
  }

  function NextStep(): (System, Step) -> System {
    (s: System, step: Step) => if Enabled(s, step) then Apply(s, step) else s
  }

  lemma {:induction false} RunsFollow(s: System, steps: seq<Step>)
    ensures Runs(s, steps) <==> Follows(CanStep(), NextStep(), s, steps)
    ensures Runs(s, steps) ==> After(s, steps) == Leads(NextStep(), s, steps)
    decreases |steps|
  {
    if steps != [] && Enabled(s, steps[0]) {
      RunsFollow(Apply(s, steps[0]), steps[1..]);
    }
  }

  lemma RunsConcat(s: System, a: seq<Step>, b: seq<Step>)
    requires Runs(s, a) && Runs(After(s, a), b)
    ensures Runs(s, a + b) && After(s, a + b) == After(After(s, a), b)
  {
    RunsFollow(s, a);
    RunsFollow(After(s, a), b);
    FollowsConcat(CanStep(), NextStep(), s, a, b);
    RunsFollow(s, a + b);
  }

  // The system once the channel is drained, its loaded regions appended to the ready list.
  ghost predicate DrainsTo(s: System, collected: seq<RegionReady>, t: System) {
    var drained := Drain(s.depot, collected);
    && drained.Some? && collected <= drained.value.1
    && t == s.(depot := drained.value.0, ready := s.ready + drained.value.1[|collected|..])
  }

  lemma DrainTakesReady(s: System, collected: seq<RegionReady>, t: System)
    requires Enabled(s, TakeReady)
    requires DrainsTo(Apply(s, TakeReady), collected + [s.depot.completions[0].ready], t)
    ensures DrainsTo(s, collected, t)
  {
    var ready := s.depot.completions[0].ready;
    var all := Drain(s.depot, collected).value.1;
    assert collected + [ready] <= all;
    assert all[|collected|..] == [ready] + all[|collected| + 1..];
    assert s.ready + [ready] + all[|collected| + 1..] == s.ready + all[|collected|..];
  }

  // Draining the channel is a run of single messages, and never finds an outcome too many.
  lemma {:induction false} DrainRuns(s: System, collected: seq<RegionReady>) returns (steps: seq<Step>)
    requires Inv(s)
    ensures Runs(s, steps) && DrainsTo(s, collected, After(s, steps))
    decreases |s.depot.completions|
  {
    var d := s.depot;
    if d.completions == [] {
      assert s.ready + collected[|collected|..] == s.ready;
      steps := [];
    } else if d.completions[0].Ready? {
      StepKeepsInv(s, TakeReady);
      var rest := DrainRuns(Apply(s, TakeReady), collected + [d.completions[0].ready]);
      steps := [TakeReady] + rest;
      assert steps[1..] == rest;
      DrainTakesReady(s, collected, After(s, steps));
    } else {
      InvIsSane(s);
      SaveOutcomesHaveABatch(d);
      StepKeepsInv(s, TakeSave);
      var rest := DrainRuns(Apply(s, TakeSave), collected);
      steps := [TakeSave] + rest;
      assert steps[1..] == rest;
    }
  }

  // What the simulation last made of the region at `pos`, in a run that began with `initial`.
  function LastWritten(initial: Result<RegionRecord, StoreError>, steps: seq<Step>, pos: RegionPos):
    Result<RegionRecord, StoreError>
    decreases |steps|
  {
    if steps == [] then initial
    else if steps[0].Simulate? && pos in steps[0].contents then
      LastWritten(Ok(RecordOf(steps[0].contents[pos])), steps[1..], pos)
    else LastWritten(initial, steps[1..], pos)
  }

  // A server that has just opened its store and started its worker.
  function Started(store: Option<Store>): System {
    System(Opened(store).(running := true), map[], map[], [])
  }

  lemma StartedSatisfiesInv(store: Option<Store>)
    ensures Inv(Started(store))
  {
    InvIsSane(Started(store));
    forall t
      ensures OutstandingCount(Started(store), t) == ExpectedCount(Started(store), t)
    {
      assert DepotCount(Started(store).depot, t) == 0;
    }
  }

  lemma {:induction false} EveryRunKeepsInv(s: System, steps: seq<Step>)
    requires Inv(s) && Runs(s, steps)
    ensures Inv(After(s, steps))
    decreases |steps|
  {
    if steps != [] {
      StepKeepsInv(s, steps[0]);
      EveryRunKeepsInv(Apply(s, steps[0]), steps[1..]);
    }
  }

  // No lost region: in every interleaving of server and worker, with saves that succeed
  // and saves that fail, a region always holds what the simulation last wrote in it.
  lemma {:induction false} NoRunLosesARegion(s: System, steps: seq<Step>, pos: RegionPos)
    requires Inv(s) && Runs(s, steps)
    ensures Truth(After(s, steps), pos) == LastWritten(Truth(s, pos), steps, pos)
    decreases |steps|
  {
    if steps != [] {
      StepKeepsInv(s, steps[0]);
      if !(steps[0].Simulate? && pos in steps[0].contents) {
        StepKeepsTruth(s, steps[0], pos);
      }
      NoRunLosesARegion(Apply(s, steps[0]), steps[1..], pos);
    }
  }

  // So a server that starts on a store reads, whatever it does, what the store held or what
  // the simulation wrote since.
  lemma NoServerLosesARegion(store: Option<Store>, steps: seq<Step>, pos: RegionPos)
    requires Runs(Started(store), steps)
    ensures Truth(After(Started(store), steps), pos) == LastWritten(Latest(Opened(store), pos), steps, pos)
  {
    StartedSatisfiesInv(store);
    NoRunLosesARegion(Started(store), steps, pos);
    ChannelsHoldNoValues(Opened(store), Started(store).depot);
  }

  // And once everything is unloaded and flushed, the next server finds the same.
  lemma NextServerFindsTheWorld(store: Option<Store>, steps: seq<Step>, pos: RegionPos)
    requires Runs(Started(store), steps)
    requires var s := After(Started(store), steps);
      pos !in s.loaded && !HasPending(s.depot) && s.depot.inFlight.None?
    ensures Truth(Started(After(Started(store), steps).depot.store), pos)
      == LastWritten(Latest(Opened(store), pos), steps, pos)
  {
    var s := After(Started(store), steps);
    NoServerLosesARegion(store, steps, pos);
    FlushedStoreHasEverything(s.depot);
    ChannelsHoldNoValues(Opened(s.depot.store), Started(s.depot.store).depot);
  }

  // What load_meta reads: it passes over the batch in flight.
  function MetaRead(d: Depot): Option<WorldMeta> {
    LatestMeta(d.(inFlight := None))
  }

  lemma MetaReadIsLatest(d: Depot)
    ensures MetaRead(d) == LatestMeta(d) <==>
      d.inFlight.None? || d.inFlight.value.meta.None? || d.pendingMeta.Some?
      || (d.store.Some? && d.store.value.meta == d.inFlight.value.meta)
  {
  }

  // A world's meta, staged and handed to the worker, is not read back until it is committed.
  lemma MetaInFlightIsMissed(store: Store, meta: WorldMeta)
    requires store.meta != Some(meta)
    ensures var steps := [KeepMeta(meta), Save];
      && Runs(Started(Some(store)), steps)
      && LatestMeta(After(Started(Some(store)), steps).depot) == Some(meta)
      && MetaRead(After(Started(Some(store)), steps).depot) == store.meta
  {
    var s := Started(Some(store));
    var t := Apply(s, KeepMeta(meta));
    RunsPrepend(t, Save, []);
    RunsPrepend(s, KeepMeta(meta), [Save]);
    assert [KeepMeta(meta)] + [Save] == [KeepMeta(meta), Save] && [Save] + [] == [Save];
  }

  // Values are read from the maps, the batch in flight and the store, not from the channels.
  lemma ChannelsHoldNoValues(d: Depot, e: Depot)
    requires e.store == d.store && e.inFlight == d.inFlight
    requires e.pendingRegions == d.pendingRegions && e.pendingPlayers == d.pendingPlayers && e.pendingMeta == d.pendingMeta
    ensures SameValues(d, e)
  {
    assert forall pos: RegionPos :: Retained(e, pos) == Retained(d, pos);
  }

  // ---------------------------------------------------------------- shutdown

  // What flushing keeps at every step: the saves are accounted for and coherent.
  ghost predicate Saving(d: Depot) {
    SavesAccounted(d) && SavesCoherent(d)
  }

  lemma InvIsSaving(s: System)
    requires Inv(s)
    ensures Saving(s.depot)
  {
    InvIsSane(s);
  }

  lemma SameValuesTransitive(a: Depot, b: Depot, c: Depot)
    requires SameValues(a, b) && SameValues(b, c)
    ensures SameValues(a, c)
  {
  }

  lemma WorkKeepsSaving(d: Depot, fault: bool)
    requires Saving(d) && d.running && d.commands != []
    ensures Saving(WorkerTurn(d, fault)) && SameValues(d, WorkerTurn(d, fault))
  {
    WorkKeepsCount(d, fault, SaveToken);
    WorkKeepsSavesCoherent(d, fault);
    WorkerTurnKeepsValues(d, fault);
  }

  lemma DroppingReadyKeepsSaving(d: Depot)
    requires Saving(d) && d.completions != [] && d.completions[0].Ready?
    ensures Saving(d.(completions := d.completions[1..])) && SameValues(d, d.(completions := d.completions[1..]))
  {
    var e := d.(completions := d.completions[1..]);
    assert forall pos: RegionPos :: Retained(e, pos) == Retained(d, pos);
  }

  lemma ApplySaveKeepsSaving(d: Depot)
    requires Saving(d) && d.completions != [] && !d.completions[0].Ready? && d.inFlight.Some?
    ensures Saving(ApplySave(d)) && SameValues(d, ApplySave(d))
  {
    ApplySaveKeepsValues(d);
    NothingInFlight(ApplySave(d));
  }

  lemma StartSaveKeepsSaving(d: Depot)
    requires Saving(d) && WantsSave(d)
    ensures Saving(StartSave(d)) && SameValues(d, StartSave(d))
  {
    CountConcat(d.commands, [SaveRegions(StartSave(d).inFlight.value)], CommandToken, SaveToken);
    NothingInFlight(d);
    StartSaveKeepsValues(d);
  }

  // While a batch is in flight the worker owes an outcome, so waiting for one ends.
  lemma SaveIsOwed(d: Depot)
    requires SavesAccounted(d) && d.inFlight.Some?
    ensures d.commands != [] || d.completions != []
  {
  }

  // With nothing pending and nothing in flight, the store alone has every latest value.
  lemma FlushedStoreHasEverything(d: Depot)
    requires !HasPending(d) && d.inFlight.None?
    ensures SameValues(d, Opened(d.store))
  {
    assert forall pos: RegionPos :: Retained(d, pos).None? && Retained(Opened(d.store), pos).None?;
  }

  lemma SavesHandledLater(d: Depot, fault: bool)
    requires SavesAccounted(d) && d.inFlight.None? && d.commands != []
    ensures Handle(d.store, d.commands[0], fault).0 == d.store
  {
    NothingInFlight(d);
  }
}
