// The region bookkeeping of the server tick (crates/fallingsand_server/src/regions.rs)
// and the snapshot and shutdown paths over it (persistence.rs, autosave to
// shutdown_world). The loaded world is the chunk map of
// crates/fallingsand_sim/src/world.rs.
module Regions {
  import opened Wrappers
  import opened Coords
  import opened Rows
  import opened Chunks
  import opened Worlds
  import opened RegionCodec
  import opened Protocol
  import opened ProtocolSafety
  import opened PersistenceObjects

  // ticks_from_secs(5.0) at 60 ticks a second.
  const UNLOAD_GRACE_TICKS: nat := 300
  const MAX_LOADS_PER_TICK: nat := 1



  // -------------------------------------------------- regions made of chunks

  // The chunks of a region, a fresh one where the map has none (gather_region).
  function Gathered(chunks: ChunkMap, pos: RegionPos): Region {
    seq(REGION_AREA_CHUNKS, i requires 0 <= i < REGION_AREA_CHUNKS =>
      if pos.ChunkAt(i) in chunks then chunks[pos.ChunkAt(i)] else NewChunk())
  }

  ghost predicate OwnsChunks(states: map<RegionPos, nat>, chunks: ChunkMap) {
    && (forall pos, i | pos in states && 0 <= i < REGION_AREA_CHUNKS :: pos.ChunkAt(i) in chunks)
    && (forall c | c in chunks :: exists pos, i | pos in states && 0 <= i < REGION_AREA_CHUNKS :: pos.ChunkAt(i) == c)
  }

  function LoadedRegions(states: map<RegionPos, nat>, chunks: ChunkMap): map<RegionPos, Region> {
    map pos | pos in states :: Gathered(chunks, pos)
  }

  // A region put where no loaded region is.
  lemma InsertionLoads(states: map<RegionPos, nat>, chunks: ChunkMap, pos: RegionPos, region: Region, tick: nat, after: ChunkMap)
    requires OwnsChunks(states, chunks) && pos !in states
    requires forall i | 0 <= i < REGION_AREA_CHUNKS :: pos.ChunkAt(i) in after && after[pos.ChunkAt(i)] == region[i]
    requires forall c | c in chunks && (forall i | 0 <= i < REGION_AREA_CHUNKS :: pos.ChunkAt(i) != c) ::
      c in after && after[c] == chunks[c]
    requires forall c | c in after :: c in chunks || exists i | 0 <= i < REGION_AREA_CHUNKS :: pos.ChunkAt(i) == c
    ensures OwnsChunks(states[pos := tick], after)
    ensures LoadedRegions(states[pos := tick], after) == LoadedRegions(states, chunks)[pos := region]
  {
    assert Gathered(after, pos) == region;
    forall q | q in states
      ensures Gathered(after, q) == Gathered(chunks, q)
      ensures forall i | 0 <= i < REGION_AREA_CHUNKS :: q.ChunkAt(i) in after
    {
      forall i | 0 <= i < REGION_AREA_CHUNKS
        ensures q.ChunkAt(i) in after && after[q.ChunkAt(i)] == chunks[q.ChunkAt(i)]
      {
        forall j | 0 <= j < REGION_AREA_CHUNKS
          ensures pos.ChunkAt(j) != q.ChunkAt(i)
        {
          if pos.ChunkAt(j) == q.ChunkAt(i) {
            ChunkAtInjective(pos, j, q, i);
          }
        }
      }
    }
    assert LoadedRegions(states[pos := tick], after) == LoadedRegions(states, chunks)[pos := region];
    forall c | c in after
      ensures exists p, i | p in states[pos := tick] && 0 <= i < REGION_AREA_CHUNKS :: p.ChunkAt(i) == c
    {
      if c in chunks {
        var p, i :| p in states && 0 <= i < REGION_AREA_CHUNKS && p.ChunkAt(i) == c;
        assert p in states[pos := tick];
      } else {
        var i :| 0 <= i < REGION_AREA_CHUNKS && pos.ChunkAt(i) == c;
        assert pos in states[pos := tick];
      }
    }
  }

  // A loaded region taken out.
  lemma ExtractionUnloads(states: map<RegionPos, nat>, chunks: ChunkMap, pos: RegionPos, after: ChunkMap)
    requires OwnsChunks(states, chunks) && pos in states
    requires forall c :: c in after <==> c in chunks && forall i | 0 <= i < REGION_AREA_CHUNKS :: pos.ChunkAt(i) != c
    requires forall c | c in after :: after[c] == chunks[c]
    ensures OwnsChunks(states - {pos}, after)
    ensures LoadedRegions(states - {pos}, after) == LoadedRegions(states, chunks) - {pos}
  {
    forall q | q in states && q != pos
      ensures Gathered(after, q) == Gathered(chunks, q)
      ensures forall i | 0 <= i < REGION_AREA_CHUNKS :: q.ChunkAt(i) in after
    {
      forall i | 0 <= i < REGION_AREA_CHUNKS
        ensures q.ChunkAt(i) in after
      {
        forall j | 0 <= j < REGION_AREA_CHUNKS
          ensures pos.ChunkAt(j) != q.ChunkAt(i)
        {
          if pos.ChunkAt(j) == q.ChunkAt(i) {
            ChunkAtInjective(pos, j, q, i);
          }
        }
      }
    }
    assert LoadedRegions(states - {pos}, after) == LoadedRegions(states, chunks) - {pos};
    forall c | c in after
      ensures exists p, i | p in states - {pos} && 0 <= i < REGION_AREA_CHUNKS :: p.ChunkAt(i) == c
    {
      var p, i :| p in states && 0 <= i < REGION_AREA_CHUNKS && p.ChunkAt(i) == c;
      assert p in states - {pos};
    }
  }

  lemma SameRegionsLoaded(states: map<RegionPos, nat>, others: map<RegionPos, nat>, chunks: ChunkMap)
    requires states.Keys == others.Keys
    ensures LoadedRegions(states, chunks) == LoadedRegions(others, chunks)
    ensures OwnsChunks(states, chunks) ==> OwnsChunks(others, chunks)
  {
    if OwnsChunks(states, chunks) {
      forall c | c in chunks
        ensures exists pos, i | pos in others && 0 <= i < REGION_AREA_CHUNKS :: pos.ChunkAt(i) == c
      {
        var pos, i :| pos in states && 0 <= i < REGION_AREA_CHUNKS && pos.ChunkAt(i) == c;
        assert pos in others;
      }
    }
  }

  method InsertRegion(sim: CellWorld, pos: RegionPos, region: Region)
    modifies sim`chunks
    ensures forall i | 0 <= i < REGION_AREA_CHUNKS :: pos.ChunkAt(i) in sim.chunks && sim.chunks[pos.ChunkAt(i)] == region[i]
    ensures forall c | c in old(sim.chunks) && (forall i | 0 <= i < REGION_AREA_CHUNKS :: pos.ChunkAt(i) != c) ::
      c in sim.chunks && sim.chunks[c] == old(sim.chunks)[c]
    ensures forall c | c in sim.chunks :: c in old(sim.chunks) || exists i | 0 <= i < REGION_AREA_CHUNKS :: pos.ChunkAt(i) == c
  {
    var i := 0;
    while i < REGION_AREA_CHUNKS
      invariant 0 <= i <= REGION_AREA_CHUNKS
      invariant forall j | 0 <= j < i :: pos.ChunkAt(j) in sim.chunks && sim.chunks[pos.ChunkAt(j)] == region[j]
      invariant forall c | c in old(sim.chunks) && (forall j | 0 <= j < i :: pos.ChunkAt(j) != c) ::
        c in sim.chunks && sim.chunks[c] == old(sim.chunks)[c]
      invariant forall c | c in sim.chunks :: c in old(sim.chunks) || exists j | 0 <= j < i :: pos.ChunkAt(j) == c
    {
      forall j | 0 <= j < i
        ensures pos.ChunkAt(j) != pos.ChunkAt(i)
      {
        if pos.ChunkAt(j) == pos.ChunkAt(i) {
          ChunkAtInjective(pos, j, pos, i);
        }
      }
      sim.chunks := sim.chunks[pos.ChunkAt(i) := region[i]];
      i := i + 1;
    }
  }

  method ExtractRegion(sim: CellWorld, pos: RegionPos) returns (region: Region)
    modifies sim`chunks
    ensures region == Gathered(old(sim.chunks), pos)
    ensures forall c :: c in sim.chunks <==> c in old(sim.chunks) && forall i | 0 <= i < REGION_AREA_CHUNKS :: pos.ChunkAt(i) != c
    ensures forall c | c in sim.chunks :: sim.chunks[c] == old(sim.chunks)[c]
  {
    region := seq(REGION_AREA_CHUNKS, _ => NewChunk());
    var i := 0;
    while i < REGION_AREA_CHUNKS
      invariant 0 <= i <= REGION_AREA_CHUNKS
      invariant forall j | 0 <= j < i :: region[j] == Gathered(old(sim.chunks), pos)[j]
      invariant forall j | i <= j < REGION_AREA_CHUNKS :: region[j] == NewChunk()
      invariant forall c :: c in sim.chunks <==> c in old(sim.chunks) && forall j | 0 <= j < i :: pos.ChunkAt(j) != c
      invariant forall c | c in sim.chunks :: sim.chunks[c] == old(sim.chunks)[c]
    {
      var c := pos.ChunkAt(i);
      forall j | 0 <= j < i
        ensures pos.ChunkAt(j) != c
      {
        if pos.ChunkAt(j) == c {
          ChunkAtInjective(pos, j, pos, i);
        }
      }
      if c in sim.chunks {
        region := region[i := sim.chunks[c]];
        sim.chunks := sim.chunks - {c};
      }
      i := i + 1;
    }
  }

  // Bodies settle, mobs go, cells move: the loaded chunks change in place.
  method Rewrite(sim: CellWorld)
    modifies sim`chunks
    ensures sim.chunks.Keys == old(sim.chunks.Keys)
  {
    var next: ChunkMap :| next.Keys == sim.chunks.Keys;
    sim.chunks := next;
  }

  // Taking the regions of a list out of the map one after the other.
  lemma NextTaken(positions: seq<RegionPos>, i: nat, states: map<RegionPos, nat>, all: set<RegionPos>)
    requires i < |positions| && Lists(positions, all) && all <= states.Keys
    ensures positions[i] in states - Elements(positions[..i])
    ensures states - Elements(positions[..i]) - {positions[i]} == states - Elements(positions[..i + 1])
  {
    assert positions[..i + 1] == positions[..i] + [positions[i]];
    assert Elements(positions[..i + 1]) == Elements(positions[..i]) + {positions[i]};
    assert positions[i] in positions;
  }

  function Elements(positions: seq<RegionPos>): set<RegionPos> {
    set p | p in positions
  }

  // The set as a list without repeats.
  ghost predicate Lists(positions: seq<RegionPos>, all: set<RegionPos>) {
    (forall p :: p in positions <==> p in all) && forall i, j | 0 <= i < j < |positions| :: positions[i] != positions[j]
  }

  lemma AllElements(positions: seq<RegionPos>, all: set<RegionPos>)
    requires Lists(positions, all)
    ensures Elements(positions[..|positions|]) == all
  {
    assert positions[..|positions|] == positions;
  }

  // ----------------------------------------------------------- the region map

  function EntryRow(entry: RegionReady): Row {
    entry.pos.RowKey()
  }

  function RegionRow(pos: RegionPos): Row {
    pos.RowKey()
  }

  function WantedEntries(ready: seq<RegionReady>, wanted: set<RegionPos>): seq<RegionReady> {
    if ready == [] then []
    else (if ready[0].pos in wanted then [ready[0]] else []) + WantedEntries(ready[1..], wanted)
  }

  lemma {:induction false} WantedEntriesConcat(a: seq<RegionReady>, b: seq<RegionReady>, wanted: set<RegionPos>)
    ensures WantedEntries(a + b, wanted) == WantedEntries(a, wanted) + WantedEntries(b, wanted)
  {
    if a == [] {
      assert a + b == b;
    } else {
      assert (a + b)[0] == a[0] && (a + b)[1..] == a[1..] + b;
      WantedEntriesConcat(a[1..], b, wanted);
      EntriesGrouped(if a[0].pos in wanted then [a[0]] else [], WantedEntries(a[1..], wanted), WantedEntries(b, wanted));
    }
  }

  lemma EntriesGrouped(a: seq<RegionReady>, b: seq<RegionReady>, c: seq<RegionReady>)
    ensures a + (b + c) == a + b + c
  {
  }

  lemma {:induction false} WantedAreWanted(ready: seq<RegionReady>, wanted: set<RegionPos>)
    ensures forall entry | entry in WantedEntries(ready, wanted) :: entry.pos in wanted
  {
    if ready != [] {
      WantedAreWanted(ready[1..], wanted);
    }
  }

  lemma WantedEntriesStep(ready: seq<RegionReady>, i: nat, wanted: set<RegionPos>)
    requires i < |ready|
    ensures WantedEntries(ready[..i + 1], wanted)
      == WantedEntries(ready[..i], wanted) + if ready[i].pos in wanted then [ready[i]] else []
  {
    assert ready[..i + 1] == ready[..i] + [ready[i]];
    WantedEntriesConcat(ready[..i], [ready[i]], wanted);
    assert WantedEntries([ready[i]], wanted) == if ready[i].pos in wanted then [ready[i]] else [];
  }

  function Rest<T>(items: seq<T>): seq<T> {
    if items == [] then [] else items[1..]
  }

  // The first entry is the one region integrated in a tick.
  function Integrated(states: map<RegionPos, nat>, entries: seq<RegionReady>, tick: nat): map<RegionPos, nat> {
    if entries == [] then states else states[entries[0].pos := tick]
  }

  // ------------------------------------------------------ when a tick fails

  // The answers that wait in the worker's channel.
  function Arrived(completions: seq<Completion>): seq<RegionReady> {
    if completions == [] then []
    else (if completions[0].Ready? then [completions[0].ready] else []) + Arrived(completions[1..])
  }

  // What the tick considers: the answers it still had and those that have arrived, in row order.
  ghost predicate Considered(entries: seq<RegionReady>, ready: seq<RegionReady>, completions: seq<Completion>) {
    InRowOrder(entries, EntryRow) && multiset(entries) == multiset(ready + Arrived(completions))
  }

  // A failed answer stops the tick when it is to be dropped, or is the first that is wanted.
  predicate Faulty(entries: seq<RegionReady>, wanted: set<RegionPos>, i: nat)
    requires i < |entries|
  {
    && entries[i].result.Err?
    && (entries[i].pos in wanted ==> forall j | 0 <= j < i :: entries[j].pos !in wanted)
  }

  ghost predicate NoFault(entries: seq<RegionReady>, wanted: set<RegionPos>) {
    forall i | 0 <= i < |entries| :: !Faulty(entries, wanted, i)
  }

  ghost predicate FirstFault(entries: seq<RegionReady>, wanted: set<RegionPos>, error: StoreError) {
    exists i | 0 <= i < |entries| ::
      Faulty(entries, wanted, i) && (forall j | 0 <= j < i :: !Faulty(entries, wanted, j)) && entries[i].result == Err(error)
  }

  // How a tick ends: with an error exactly if the worker is gone, or a failed answer stops it.
  ghost predicate TickOutcome(
    running: bool, ready: seq<RegionReady>, completions: seq<Completion>, wanted: set<RegionPos>,
    entries: seq<RegionReady>, r: Result<Unit, StoreError>)
  {
    if !running then r == Err(WorkerDisconnected)
    else
      && Considered(entries, ready, completions) && (r.Ok? <==> NoFault(entries, wanted))
      && (r.Err? ==> FirstFault(entries, wanted, r.error))
  }

  // The first wanted answer, and nothing else, is loaded.
  ghost predicate ComesIn(
    entries: seq<RegionReady>, wanted: set<RegionPos>, before: map<RegionPos, nat>, after: map<RegionPos, nat>)
  {
    && (forall i | 0 <= i < |entries| && entries[i].pos in wanted && (forall j | 0 <= j < i :: entries[j].pos !in wanted) ::
          entries[i].pos in after && after.Keys - before.Keys <= {entries[i].pos})
    && ((forall i | 0 <= i < |entries| :: entries[i].pos !in wanted) ==> after.Keys <= before.Keys)
  }

  // What is asked for: wanted regions that are not loaded, in row order, all of them unless the limit
  // of outstanding requests is reached; and none once it is.
  ghost predicate AsksFor(before: set<RegionPos>, after: set<RegionPos>, loaded: set<RegionPos>, wanted: set<RegionPos>) {
    && before <= after <= before + (wanted - loaded)
    && (|after| >= MAX_PENDING_REGION_LOADS || wanted <= loaded + after)
    && (after == before || |after| <= MAX_PENDING_REGION_LOADS)
    && forall a, b | a in after - before && b in wanted - loaded - after :: !RowBefore(b.RowKey(), a.RowKey())
  }

  lemma AsksForLoaded(
    before: set<RegionPos>, after: set<RegionPos>, loaded: set<RegionPos>, left: set<RegionPos>, wanted: set<RegionPos>)
    requires AsksFor(before, after, loaded, wanted) && wanted * loaded == wanted * left
    ensures AsksFor(before, after, left, wanted)
  {
    assert forall pos | pos in wanted :: pos in loaded <==> pos in wanted * loaded;
    assert forall pos | pos in wanted :: pos in left <==> pos in wanted * left;
    assert wanted - loaded == wanted - left;
  }

  lemma {:induction false} FirstWanted(entries: seq<RegionReady>, wanted: set<RegionPos>, i: nat)
    requires i < |entries| && entries[i].pos in wanted && forall j | 0 <= j < i :: entries[j].pos !in wanted
    ensures Rest(WantedEntries(entries, wanted)) != WantedEntries(entries, wanted)
    ensures WantedEntries(entries, wanted)[0] == entries[i]
  {
    if i > 0 {
      assert entries[0].pos !in wanted;
      assert entries[1..][i - 1] == entries[i];
      assert forall j | 0 <= j < i - 1 :: entries[1..][j] == entries[j + 1];
      FirstWanted(entries[1..], wanted, i - 1);
    }
  }

  lemma ComesInAfter(entries: seq<RegionReady>, wanted: set<RegionPos>, before: map<RegionPos, nat>, tick: nat)
    ensures var touched := Touched(Integrated(before, WantedEntries(entries, wanted), tick), wanted, tick);
      ComesIn(entries, wanted, before, touched - ExpiredRegions(touched, wanted, tick))
  {
    var touched := Touched(Integrated(before, WantedEntries(entries, wanted), tick), wanted, tick);
    NoneWanted(entries, wanted);
    forall i | 0 <= i < |entries| && entries[i].pos in wanted && (forall j | 0 <= j < i :: entries[j].pos !in wanted)
      ensures touched.Keys == before.Keys + {entries[i].pos}
    {
      FirstWanted(entries, wanted, i);
    }
  }

  // Wanted regions stay.
  lemma WantedStay(touched: map<RegionPos, nat>, wanted: set<RegionPos>, tick: nat)
    ensures wanted * touched.Keys == wanted * (touched - ExpiredRegions(touched, wanted, tick)).Keys
  {
    var after := touched - ExpiredRegions(touched, wanted, tick);
    assert forall pos | pos in wanted :: pos in touched.Keys <==> pos in after.Keys;
  }

  // What one tick makes of the loaded and the requested regions.
  lemma TickIsDone(
    entries: seq<RegionReady>, wanted: set<RegionPos>, before: map<RegionPos, nat>, tick: nat,
    touched: map<RegionPos, nat>, after: map<RegionPos, nat>, kept: set<RegionPos>, requested: set<RegionPos>)
    requires touched == Touched(Integrated(before, WantedEntries(entries, wanted), tick), wanted, tick)
    requires after == touched - ExpiredRegions(touched, wanted, tick)
    requires AsksFor(kept, requested, touched.Keys, wanted)
    ensures TickBooks(before, after, wanted, tick) && ComesIn(entries, wanted, before, after)
    ensures AsksFor(kept, requested, after.Keys, wanted)
  {
    WantedStay(touched, wanted, tick);
    WantedAreWanted(entries, wanted);
    BooksAfterTick(before, WantedEntries(entries, wanted), wanted, tick);
    ComesInAfter(entries, wanted, before, tick);
    AsksForLoaded(kept, requested, touched.Keys, after.Keys, wanted);
  }

  lemma {:induction false} NoneWanted(entries: seq<RegionReady>, wanted: set<RegionPos>)
    ensures WantedEntries(entries, wanted) == [] <==> forall j | 0 <= j < |entries| :: entries[j].pos !in wanted
  {
    if entries != [] {
      NoneWanted(entries[1..], wanted);
      assert forall j | 0 < j < |entries| :: entries[j] == entries[1..][j - 1];
    }
  }

  // The entry at the index is at fault exactly if it fails and is not kept.
  lemma FaultAtIndex(
    began: seq<RegionReady>, done: nat, wanted: set<RegionPos>, now: seq<RegionReady>, index: nat, integrated: nat)
    requires Scanned(began, done, wanted, now, index, integrated) && index < |now|
    ensures done < |began| && began[done] == now[index]
    ensures Faulty(began, wanted, done) <==> now[index].result.Err? && FateOf(now[index], wanted, integrated) != Kept
  {
    assert now[index..][0] == began[done..][0];
    NoneWanted(began[..done], wanted);
    assert forall j | 0 <= j < done :: began[..done][j] == began[j];
  }

  // The regions whose answers a tick is done with: the dropped ones, and the one that comes in.
  function Answered(entries: seq<RegionReady>, wanted: set<RegionPos>): set<RegionPos> {
    set i | 0 <= i < |entries|
      && (entries[i].pos in wanted ==> forall j | 0 <= j < i :: entries[j].pos !in wanted) :: entries[i].pos
  }

  lemma AnsweredNext(
    began: seq<RegionReady>, done: nat, wanted: set<RegionPos>, now: seq<RegionReady>, index: nat, integrated: nat)
    requires Scanned(began, done, wanted, now, index, integrated) && index < |now|
    ensures done < |began|
    ensures Answered(began[..done + 1], wanted)
      == Answered(began[..done], wanted)
         + if FateOf(now[index], wanted, integrated) == Kept then {} else {now[index].pos}
  {
    FaultAtIndex(began, done, wanted, now, index, integrated);
    NoneWanted(began[..done], wanted);
    var a, b := began[..done], began[..done + 1];
    assert forall j | 0 <= j < done :: a[j] == b[j] == began[j];
    forall pos
      ensures pos in Answered(b, wanted) <==>
        pos in Answered(a, wanted) || (FateOf(now[index], wanted, integrated) != Kept && pos == now[index].pos)
    {
      if pos in Answered(a, wanted) {
        var i :| 0 <= i < |a| && (a[i].pos in wanted ==> forall j | 0 <= j < i :: a[j].pos !in wanted) && a[i].pos == pos;
        assert b[i].pos == pos;
      }
      if FateOf(now[index], wanted, integrated) != Kept && pos == now[index].pos {
        assert b[done].pos == pos;
      }
    }
  }

  lemma {:induction false} DrainHandsOn(d: Depot, regions: seq<RegionReady>)
    ensures var after := Drain(d, regions);
      after.Some? ==>
        after.value.1 == regions + Arrived(d.completions) && after.value.0.running == d.running
    decreases |d.completions|
  {
    if d.completions != [] {
      var rest := d.(completions := d.completions[1..]);
      match d.completions[0]
      case Ready(ready) =>
        DrainHandsOn(rest, regions + [ready]);
        assert regions + [ready] + Arrived(rest.completions) == regions + ([ready] + Arrived(rest.completions));
      case _ =>
        if d.inFlight.Some? {
          DrainHandsOn(ApplySave(d), regions);
        }
    }
  }

  // How far the scan of the ready list has come: `done` entries of the list it began with
  // are behind `index`; of those the wanted ones but the first are kept.
  ghost predicate Scanned(
    began: seq<RegionReady>, done: nat, wanted: set<RegionPos>, now: seq<RegionReady>, index: nat, integrated: nat)
  {
    && done <= |began| && index <= |now|
    && now[index..] == began[done..]
    && now[..index] == Rest(WantedEntries(began[..done], wanted))
    && integrated == if WantedEntries(began[..done], wanted) == [] then 0 else 1
  }

  function ExpiredRegions(states: map<RegionPos, nat>, wanted: set<RegionPos>, tick: nat): set<RegionPos> {
    set pos | pos in states && pos !in wanted && Expired(states[pos], tick)
  }

  function Touched(states: map<RegionPos, nat>, wanted: set<RegionPos>, tick: nat): map<RegionPos, nat> {
    map pos | pos in states :: if pos in wanted then tick else states[pos]
  }

  // What a tick does to the loaded regions: at most one comes in, and only a wanted one;
  // one goes exactly when it is not wanted and was last wanted too long ago.
  ghost predicate TickBooks(before: map<RegionPos, nat>, after: map<RegionPos, nat>, wanted: set<RegionPos>, tick: nat) {
    && |after.Keys - before.Keys| <= MAX_LOADS_PER_TICK && after.Keys - before.Keys <= wanted
    && (forall pos | pos in before :: pos in after <==> pos in wanted || tick <= before[pos] + UNLOAD_GRACE_TICKS)
    && (forall pos | pos in after && pos in wanted :: after[pos] == tick)
    && (forall pos | pos in after && pos !in wanted :: pos in before && after[pos] == before[pos])
  }

  lemma BooksAfterTick(before: map<RegionPos, nat>, entries: seq<RegionReady>, wanted: set<RegionPos>, tick: nat)
    requires forall entry | entry in entries :: entry.pos in wanted
    ensures var touched := Touched(Integrated(before, entries, tick), wanted, tick);
      var after := touched - ExpiredRegions(touched, wanted, tick);
      TickBooks(before, after, wanted, tick) && (forall pos | pos in wanted :: pos in after <==> pos in touched)
  {
    if entries == [] {
      NoneComesIn(before, wanted, tick);
    } else {
      assert entries[0] in entries;
      OneComesIn(before, entries[0].pos, wanted, tick);
    }
  }

  lemma NoneComesIn(before: map<RegionPos, nat>, wanted: set<RegionPos>, tick: nat)
    ensures var touched := Touched(before, wanted, tick);
      var after := touched - ExpiredRegions(touched, wanted, tick);
      TickBooks(before, after, wanted, tick) && (forall pos | pos in wanted :: pos in after <==> pos in touched)
  {
    var touched := Touched(before, wanted, tick);
    assert (touched - ExpiredRegions(touched, wanted, tick)).Keys - before.Keys == {};
  }

  lemma OneComesIn(before: map<RegionPos, nat>, pos: RegionPos, wanted: set<RegionPos>, tick: nat)
    requires pos in wanted
    ensures var touched := Touched(before[pos := tick], wanted, tick);
      var after := touched - ExpiredRegions(touched, wanted, tick);
      TickBooks(before, after, wanted, tick) && (forall pos | pos in wanted :: pos in after <==> pos in touched)
  {
    var touched := Touched(before[pos := tick], wanted, tick);
    var after := touched - ExpiredRegions(touched, wanted, tick);
    assert after.Keys - before.Keys <= {pos};
    SubsetOfOne(after.Keys - before.Keys, pos);
  }

  lemma SubsetOfOne(s: set<RegionPos>, pos: RegionPos)
    requires s <= {pos}
    ensures |s| <= 1
  {
    assert s == {} || s == {pos};
  }

  // What becomes of an entry of the ready list in this tick.
  datatype Fate = Dropped | Kept | Inserted

  function FateOf(entry: RegionReady, wanted: set<RegionPos>, integrated: nat): Fate {
    if entry.pos !in wanted then Dropped
    else if integrated >= MAX_LOADS_PER_TICK then Kept
    else Inserted
  }

  function StepsOf(fate: Fate, index: nat): seq<Step> {
    match fate
    case Dropped => [Discard(index)]
    case Kept => []
    case Inserted => [Integrate(index)]
  }

  lemma ScanStep(
    began: seq<RegionReady>, done: nat, wanted: set<RegionPos>, now: seq<RegionReady>, index: nat, integrated: nat,
    states: map<RegionPos, nat>, tick: nat)
    requires Scanned(began, done, wanted, now, index, integrated) && index < |now|
    ensures done < |began|
    ensures var fate := FateOf(now[index], wanted, integrated);
      && Scanned(
        began, done + 1, wanted,
        if fate == Kept then now else Without(now, index),
        if fate == Kept then index + 1 else index,
        if fate == Inserted then integrated + 1 else integrated)
      && Integrated(states, WantedEntries(began[..done + 1], wanted), tick)
        == var before := Integrated(states, WantedEntries(began[..done], wanted), tick);
           if fate == Inserted then before[now[index].pos := tick] else before
  {
    assert now[index..][0] == began[done..][0];
    assert now[index + 1..] == now[index..][1..] == began[done..][1..] == began[done + 1..];
    WantedEntriesStep(began, done, wanted);
    assert Without(now, index)[..index] == now[..index];
    assert Without(now, index)[index..] == now[index + 1..];
    assert now[..index + 1] == now[..index] + [now[index]];
  }

  method ListExpired(states: map<RegionPos, nat>, wanted: set<RegionPos>, tick: nat) returns (positions: seq<RegionPos>)
    ensures Lists(positions, ExpiredRegions(states, wanted, tick)) && ExpiredRegions(states, wanted, tick) <= states.Keys
  {
    positions := RowOrder(ExpiredRegions(states, wanted, tick), RegionRow);
  }

  // A pass over the ready list, with the books it began with.
  datatype Pass = Pass(began: seq<RegionReady>, wanted: set<RegionPos>, states: map<RegionPos, nat>, tick: nat)

  ghost predicate Reached(
    pass: Pass, done: nat, now: seq<RegionReady>, index: nat, integrated: nat, states: map<RegionPos, nat>)
  {
    match pass
    case Pass(began, wanted, before, tick) =>
      && Scanned(began, done, wanted, now, index, integrated)
      && states == Integrated(before, WantedEntries(began[..done], wanted), tick)
  }

  lemma PassBegins(pass: Pass)
    ensures Reached(pass, 0, pass.began, 0, 0, pass.states)
  {
  }

  lemma PassGoesOn(pass: Pass, done: nat, now: seq<RegionReady>, index: nat, integrated: nat, states: map<RegionPos, nat>)
    requires Reached(pass, done, now, index, integrated, states) && index < |now|
    ensures var fate := FateOf(now[index], pass.wanted, integrated);
      Reached(
        pass, done + 1,
        if fate == Kept then now else Without(now, index),
        if fate == Kept then index + 1 else index,
        if fate == Inserted then integrated + 1 else integrated,
        if fate == Inserted then states[now[index].pos := pass.tick] else states)
  {
    ScanStep(pass.began, done, pass.wanted, now, index, integrated, pass.states, pass.tick);
  }

  lemma PassEnds(pass: Pass, done: nat, now: seq<RegionReady>, integrated: nat, states: map<RegionPos, nat>)
    requires Reached(pass, done, now, |now|, integrated, states)
    ensures now == Rest(WantedEntries(pass.began, pass.wanted))
    ensures states == Integrated(pass.states, WantedEntries(pass.began, pass.wanted), pass.tick)
  {
    assert now[|now|..] == [] && now[..|now|] == now;
    assert pass.began[..done] == pass.began;
  }

  // A pass on its way, without a fault so far; the requests of all entries not kept are answered.
  ghost predicate Scanning(
    pass: Pass, before: set<RegionPos>, done: nat, now: seq<RegionReady>, index: nat, integrated: nat,
    states: map<RegionPos, nat>, requested: set<RegionPos>)
  {
    match pass
    case Pass(began, wanted, _, _) =>
      && Reached(pass, done, now, index, integrated, states) && index <= |now|
      && (forall j | 0 <= j < done :: !Faulty(began, wanted, j))
      && requested == before - Answered(began[..done], wanted)
  }

  lemma ScanningBegins(pass: Pass, before: set<RegionPos>)
    ensures Scanning(pass, before, 0, pass.began, 0, 0, pass.states, before)
  {
    PassBegins(pass);
  }

  // The next entry: a fault ends the pass; otherwise it goes on with what the entry's fate leaves.
  lemma ScanningGoesOn(
    pass: Pass, before: set<RegionPos>, done: nat, now: seq<RegionReady>, index: nat, integrated: nat,
    states: map<RegionPos, nat>, requested: set<RegionPos>)
    requires Scanning(pass, before, done, now, index, integrated, states, requested) && index < |now|
    ensures var entry, fate := now[index], FateOf(now[index], pass.wanted, integrated);
      if fate != Kept && entry.result.Err? then
        !NoFault(pass.began, pass.wanted) && FirstFault(pass.began, pass.wanted, entry.result.error)
      else
        Scanning(
          pass, before, done + 1, if fate == Kept then now else Without(now, index),
          if fate == Kept then index + 1 else index, if fate == Inserted then integrated + 1 else integrated,
          if fate == Inserted then states[entry.pos := pass.tick] else states,
          if fate == Kept then requested else requested - {entry.pos})
  {
    PassGoesOn(pass, done, now, index, integrated, states);
    FaultAtIndex(pass.began, done, pass.wanted, now, index, integrated);
    AnsweredNext(pass.began, done, pass.wanted, now, index, integrated);
  }

  lemma ScanningStops(
    pass: Pass, before: set<RegionPos>, done: nat, now: seq<RegionReady>, index: nat, integrated: nat,
    states: map<RegionPos, nat>, requested: set<RegionPos>)
    requires Scanning(pass, before, done, now, index, integrated, states, requested) && index < |now|
    requires FateOf(now[index], pass.wanted, integrated) != Kept && now[index].result.Err?
    ensures !NoFault(pass.began, pass.wanted) && FirstFault(pass.began, pass.wanted, now[index].result.error)
  {
    ScanningGoesOn(pass, before, done, now, index, integrated, states, requested);
  }

  // The same, of what a step has made of the books.
  lemma ScanningTakes(
    pass: Pass, before: set<RegionPos>, done: nat, now: seq<RegionReady>, index: nat, integrated: nat,
    states: map<RegionPos, nat>, requested: set<RegionPos>, fate: Fate,
    now': seq<RegionReady>, states': map<RegionPos, nat>, requested': set<RegionPos>)
    requires Scanning(pass, before, done, now, index, integrated, states, requested) && index < |now|
    requires fate == FateOf(now[index], pass.wanted, integrated) && (fate == Kept || now[index].result.Ok?)
    requires now' == (if fate == Kept then now else Without(now, index))
    requires states' == (if fate == Inserted then states[now[index].pos := pass.tick] else states)
    requires requested' == (if fate == Kept then requested else requested - {now[index].pos})
    ensures Scanning(
      pass, before, done + 1, now', if fate == Kept then index + 1 else index,
      if fate == Inserted then integrated + 1 else integrated, states', requested')
  {
    ScanningGoesOn(pass, before, done, now, index, integrated, states, requested);
  }

  lemma ScanningEnds(
    pass: Pass, before: set<RegionPos>, done: nat, now: seq<RegionReady>, integrated: nat, states: map<RegionPos, nat>,
    requested: set<RegionPos>)
    requires Scanning(pass, before, done, now, |now|, integrated, states, requested)
    ensures NoFault(pass.began, pass.wanted) && requested == before - Answered(pass.began, pass.wanted)
    ensures now == Rest(WantedEntries(pass.began, pass.wanted))
    ensures states == Integrated(pass.states, WantedEntries(pass.began, pass.wanted), pass.tick)
  {
    assert now[|now|..] == [];
    assert pass.began[..done] == pass.began;
    PassEnds(pass, done, now, integrated, states);
  }

  // The first i candidates are taken care of, and nothing else was asked for.
  ghost predicate Served(
    candidates: seq<RegionPos>, i: nat, requested: set<RegionPos>, before: set<RegionPos>, loaded: set<RegionPos>)
  {
    && i <= |candidates| && before <= requested
    && (forall j | 0 <= j < i :: candidates[j] in loaded || candidates[j] in requested)
    && (forall a | a in requested - before :: a !in loaded && exists j | 0 <= j < i :: candidates[j] == a)
    && (requested == before || |requested| <= MAX_PENDING_REGION_LOADS)
  }

  // What is asked for once a candidate has been served.
  function Asked(requested: set<RegionPos>, loaded: set<RegionPos>, pos: RegionPos): set<RegionPos> {
    if pos in loaded || pos in requested then requested else requested + {pos}
  }

  lemma ServedNext(
    candidates: seq<RegionPos>, i: nat, requested: set<RegionPos>, before: set<RegionPos>, loaded: set<RegionPos>)
    requires Served(candidates, i, requested, before, loaded) && i < |candidates|
    requires |requested| < MAX_PENDING_REGION_LOADS
    ensures Served(candidates, i + 1, Asked(requested, loaded, candidates[i]), before, loaded)
  {
    forall a | a in Asked(requested, loaded, candidates[i]) - before
      ensures a !in loaded && exists j | 0 <= j < i + 1 :: candidates[j] == a
    {
      if a != candidates[i] {
        assert a in requested - before;
        var j :| 0 <= j < i && candidates[j] == a;
        assert 0 <= j < i + 1;
      }
    }
  }

  // Regions are asked for in row order.
  lemma ServedInOrder(
    candidates: seq<RegionPos>, i: nat, requested: set<RegionPos>, before: set<RegionPos>, loaded: set<RegionPos>,
    wanted: set<RegionPos>)
    requires Served(candidates, i, requested, before, loaded) && InRowOrder(candidates, RegionRow)
    requires forall pos: RegionPos :: pos in candidates <==> pos in wanted
    requires i == |candidates| || |requested| >= MAX_PENDING_REGION_LOADS
    ensures AsksFor(before, requested, loaded, wanted)
  {
    forall a, b | a in requested - before && b in wanted - loaded - requested
      ensures !RowBefore(b.RowKey(), a.RowKey())
    {
      var m :| 0 <= m < i && candidates[m] == a;
      var n :| 0 <= n < |candidates| && candidates[n] == b;
      assert m < n;
    }
    forall a | a in requested && a !in before
      ensures a in wanted - loaded
    {
      assert a in requested - before;
      assert a in candidates;
    }
    if i == |candidates| {
      forall pos | pos in wanted
        ensures pos in loaded + requested
      {
        var j :| 0 <= j < |candidates| && candidates[j] == pos;
      }
    }
  }

  // A system without its channels and its bookkeeping of requests: everything a region,
  // player or meta is read from.
  function Contents(s: System): System {
    s.(depot := s.depot.(running := false, commands := [], completions := [], nextRequest := 0),
       requested := map[], ready := [])
  }

  // When a tick fails, the contents are still those of the run up to the failure.
  lemma ContentsDecideValues(s: System, t: System)
    requires Contents(s) == Contents(t)
    ensures SameValues(s.depot, t.depot)
    ensures forall pos: RegionPos :: Truth(s, pos) == Truth(t, pos)
  {
    assert Contents(s).depot == s.depot.(running := false, commands := [], completions := [], nextRequest := 0);
    assert Contents(t).depot == t.depot.(running := false, commands := [], completions := [], nextRequest := 0);
    ChannelsHoldNoValues(s.depot, t.depot);
  }

  predicate Expired(lastWanted: nat, tick: nat) {
    tick > lastWanted && tick - lastWanted > UNLOAD_GRACE_TICKS
  }

  // No answer is lost, and the worker goes on if it was there.
  ghost predicate Further(s: System, t: System) {
    s.ready <= t.ready && (s.depot.running ==> t.depot.running)
  }

  lemma RequestGives(s: System, pos: RegionPos)
    requires Enabled(s, Request(pos))
    ensures var t := Apply(s, Request(pos));
      t.requested.Keys == s.requested.Keys + {pos} && Further(s, t)
  {
  }

  // What a request makes of the books.
  lemma RequestDone(s: System, pos: RegionPos, depot: Depot, requested: map<RegionPos, nat>, ready: seq<RegionReady>)
    requires Inv(s) && Enabled(s, Request(pos)) && depot == Apply(s, Request(pos)).depot
    requires requested == s.requested[pos := s.depot.nextRequest]
    requires var retained := Retained(s.depot, pos);
      ready == if retained.Some? then s.ready + [RegionReady(s.depot.nextRequest, pos, Ok(retained.value))] else s.ready
    ensures System(depot, s.loaded, requested, ready) == Apply(s, Request(pos))
    ensures Inv(System(depot, s.loaded, requested, ready))
  {
    StepKeepsInv(s, Request(pos));
  }

  lemma DrainIsSome(s: System)
    requires Inv(s)
    ensures Drain(s.depot, []).Some?
  {
    var steps := DrainRuns(s, []);
  }

  // What is drained, beside what was there, and put in row order is reached by a run.
  lemma Collected(s: System, d: Depot, regions: seq<RegionReady>, sorted: seq<RegionReady>) returns (steps: seq<Step>)
    requires Inv(s) && Drain(s.depot, []) == Some((d, regions))
    requires multiset(sorted) == multiset(s.ready + regions) && InRowOrder(sorted, EntryRow)
    ensures Runs(s, steps) && After(s, steps) == s.(depot := d, ready := sorted) && Inv(After(s, steps))
    ensures Considered(sorted, s.ready, s.depot.completions) && d.running == s.depot.running
  {
    var drained := DrainRuns(s, []);
    DrainHandsOn(s.depot, []);
    RunsAppend(s, drained, Sort(sorted));
    steps := drained + [Sort(sorted)];
    EveryRunKeepsInv(s, steps);
  }

  class RegionMap {
    var states: map<RegionPos, nat>
    var requested: map<RegionPos, nat>
    var ready: seq<RegionReady>

    constructor ()
      ensures states == map[] && requested == map[] && ready == []
    {
      states, requested, ready := map[], map[], [];
    }

    ghost function Sys(sim: CellWorld, p: Persistence): System
      reads this, sim, p, p.store, p.worker
    {
      System(p.View(), LoadedRegions(states, sim.chunks), requested, ready)
    }

    ghost predicate Sound(sim: CellWorld, p: Persistence)
      reads this, sim, p, p.store, p.worker
    {
      match Sys(sim, p)
      case System(depot, loaded, requested, ready) =>
        p.Valid() && OwnsChunks(states, sim.chunks) && Inv(System(depot, loaded, requested, ready))
    }

    // Take in what the worker has sent.
    method CollectReady(sim: CellWorld, p: Persistence) returns (r: Result<Unit, StoreError>, ghost steps: seq<Step>)
      requires Sound(sim, p)
      modifies this`ready, p, p.worker
      ensures p.worker == old(p.worker)
      ensures r.Ok? ==> Runs(old(Sys(sim, p)), steps) && Sys(sim, p) == After(old(Sys(sim, p)), steps)
      ensures r.Ok? ==> Sound(sim, p)
      ensures r.Err? ==> Contents(old(Sys(sim, p))) == Contents(Sys(sim, p))
      ensures r.Ok? <==> old(p.View()).running
      ensures r.Err? ==> r.error == WorkerDisconnected
      ensures r.Ok? ==> Considered(ready, old(ready), old(p.View()).completions) && p.View().running
    {
      ghost var s := Sys(sim, p);
      DrainIsSome(s);
      steps := [];
      var drained := p.DrainCompletions();
      if drained.Err? {
        return Err(drained.error), [];
      }
      ready := ready + drained.value;
      var sorted := SortByRow(ready, EntryRow);
      steps := Collected(s, p.View(), drained.value, sorted);
      ready := sorted;
      r := Ok(Unit);
    }

    method DiscardAt(sim: CellWorld, ghost p: Persistence, index: nat) returns (r: Result<Unit, StoreError>)
      requires Sound(sim, p) && index < |ready| && ready[index].pos in requested
      modifies this`ready, this`requested
      ensures ready == Without(old(ready), index) && requested == old(requested) - {old(ready)[index].pos}
      ensures Sound(sim, p) && Sys(sim, p) == Apply(old(Sys(sim, p)), Discard(index))
      ensures r == match old(ready)[index].result case Ok(_) => Ok(Unit) case Err(error) => Err(error)
    {
      var entry := ready[index];
      requested := requested - {entry.pos};
      ready := ready[..index] + ready[index + 1..];
      StepKeepsInv(old(Sys(sim, p)), Discard(index));
      r := if entry.result.Ok? then Ok(Unit) else Err(entry.result.error);
    }

    method IntegrateAt(sim: CellWorld, ghost p: Persistence, index: nat) returns (r: Result<Unit, StoreError>)
      requires Sound(sim, p) && index < |ready| && ready[index].pos in requested
      modifies this, sim`chunks
      ensures ready == Without(old(ready), index)
      ensures r.Ok? ==> states == old(states)[old(ready)[index].pos := sim.tick]
      ensures r == match old(ready)[index].result case Ok(_) => Ok(Unit) case Err(error) => Err(error)
      ensures r.Ok? ==> requested == old(requested) - {old(ready)[index].pos}
      ensures r.Ok? ==> Sound(sim, p) && Sys(sim, p) == Apply(old(Sys(sim, p)), Integrate(index))
      ensures r.Err? ==> Contents(old(Sys(sim, p))) == Contents(Sys(sim, p))
    {
      var entry := ready[index];
      ready := ready[..index] + ready[index + 1..];
      if entry.result.Err? {
        return Err(entry.result.error);
      }
      RequestedAreNotLoaded(old(Sys(sim, p)));
      requested := requested - {entry.pos};
      InsertRegion(sim, entry.pos, entry.result.value);
      InsertionLoads(states, old(sim.chunks), entry.pos, entry.result.value, sim.tick, sim.chunks);
      states := states[entry.pos := sim.tick];
      assert Sys(sim, p) == Apply(old(Sys(sim, p)), Integrate(index));
      StepKeepsInv(old(Sys(sim, p)), Integrate(index));
      r := Ok(Unit);
    }

    // One entry of the ready list: dropped when no longer wanted, left when a region was
    // already integrated in this tick, integrated otherwise. The branch for an entry that
    // was not asked for cannot be reached.
    method ConsiderAt(sim: CellWorld, ghost p: Persistence, wanted: set<RegionPos>, index: nat, integrated: nat)
      returns (r: Result<Fate, StoreError>, ghost taken: seq<Step>)
      requires Sound(sim, p) && index < |ready|
      modifies this, sim`chunks
      ensures r.Ok? ==> r.value == FateOf(old(ready)[index], wanted, integrated)
      ensures r.Ok? ==> taken == StepsOf(r.value, index)
      ensures Runs(old(Sys(sim, p)), taken)
      ensures r.Ok? ==> Sound(sim, p) && Sys(sim, p) == After(old(Sys(sim, p)), taken)
      ensures r.Ok? ==> ready == if r.value == Kept then old(ready) else Without(old(ready), index)
      ensures r == Ok(Inserted) ==> states == old(states)[old(ready)[index].pos := sim.tick]
      ensures r.Ok? && r.value != Inserted ==> states == old(states)
      ensures r.Err? <==> FateOf(old(ready)[index], wanted, integrated) != Kept && old(ready)[index].result.Err?
      ensures r.Err? ==> old(ready)[index].result == Err(r.error)
      ensures r.Ok? ==> requested == if r.value == Kept then old(requested) else old(requested) - {old(ready)[index].pos}
      ensures r.Err? ==> Contents(After(old(Sys(sim, p)), taken)) == Contents(Sys(sim, p))
    {
      var entry := ready[index];
      ghost var s := Sys(sim, p);
      InvIsSane(s);
      ReadyEntriesAreRequested(s, index);
      if entry.pos !in requested || requested[entry.pos] != entry.request {
        assert false;
      } else if entry.pos !in wanted {
        assert Enabled(s, Discard(index));
        var dropped := DiscardAt(sim, p, index);
        taken := [Discard(index)];
        r := if dropped.Ok? then Ok(Dropped) else Err(dropped.error);
      } else if integrated >= MAX_LOADS_PER_TICK {
        r, taken := Ok(Kept), [];
      } else {
        assert entry.result.Ok? ==> Enabled(s, Integrate(index));
        var inserted := IntegrateAt(sim, p, index);
        taken := if inserted.Ok? then [Integrate(index)] else [];
        r := if inserted.Ok? then Ok(Inserted) else Err(inserted.error);
      }
    }

    // One turn of the scan of the ready list.
    method ScanOne(
      sim: CellWorld, ghost p: Persistence, wanted: set<RegionPos>, index: nat, integrated: nat, ghost pass: Pass,
      ghost before: set<RegionPos>, ghost done: nat, ghost s: System, ghost steps: seq<Step>)
      returns (r: Result<Fate, StoreError>, ghost steps': seq<Step>)
      requires Sound(sim, p) && Runs(s, steps) && Sys(sim, p) == After(s, steps)
      requires Scanning(pass, before, done, ready, index, integrated, states, requested.Keys) && index < |ready|
      requires pass.wanted == wanted && pass.tick == sim.tick
      modifies this, sim`chunks
      ensures Runs(s, steps')
      ensures r.Ok? ==> Sound(sim, p) && Sys(sim, p) == After(s, steps')
      ensures r.Err? ==> Contents(After(s, steps')) == Contents(Sys(sim, p))
      ensures r.Err? ==> !NoFault(pass.began, wanted) && FirstFault(pass.began, wanted, r.error)
      ensures r.Ok? ==> |ready| == if r.value == Kept then old(|ready|) else old(|ready|) - 1
      ensures r.Ok? ==> Scanning(
        pass, before, done + 1, ready, if r.value == Kept then index + 1 else index,
        if r.value == Inserted then integrated + 1 else integrated, states, requested.Keys)
    {
      ghost var now, states', requested' := ready, states, requested.Keys;
      ghost var taken;
      r, taken := ConsiderAt(sim, p, wanted, index, integrated);
      RunsConcat(s, steps, taken);
      steps' := steps + taken;
      if r.Ok? {
        ScanningTakes(
          pass, before, done, now, index, integrated, states', requested', r.value, ready, states, requested.Keys);
      } else {
        ScanningStops(pass, before, done, now, index, integrated, states', requested');
      }
    }

    // Drop what is no longer wanted, integrate the first wanted entry, leave the others.
    method IntegrateReady(sim: CellWorld, ghost p: Persistence, wanted: set<RegionPos>)
      returns (r: Result<Unit, StoreError>, ghost steps: seq<Step>)
      requires Sound(sim, p)
      modifies this, sim`chunks
      ensures Runs(old(Sys(sim, p)), steps)
      ensures r.Ok? ==> Sound(sim, p) && Sys(sim, p) == After(old(Sys(sim, p)), steps)
      ensures r.Ok? ==> ready == Rest(WantedEntries(old(ready), wanted))
      ensures r.Ok? ==> states == Integrated(old(states), WantedEntries(old(ready), wanted), sim.tick)
      ensures r.Err? ==> Contents(After(old(Sys(sim, p)), steps)) == Contents(Sys(sim, p))
      ensures r.Ok? <==> NoFault(old(ready), wanted)
      ensures r.Err? ==> FirstFault(old(ready), wanted, r.error)
      ensures r.Ok? ==> requested.Keys == old(requested.Keys) - Answered(old(ready), wanted)
    {
      ghost var s, pass, done := Sys(sim, p), Pass(ready, wanted, states, sim.tick), 0;
      ghost var before := requested.Keys;
      var integrated := 0;
      var index := 0;
      steps := [];
      ScanningBegins(pass, before);
      while index < |ready|
        invariant Scanning(pass, before, done, ready, index, integrated, states, requested.Keys)
        invariant Sound(sim, p) && Runs(s, steps) && Sys(sim, p) == After(s, steps)
        decreases |ready| - index
      {
        var fate;
        fate, steps := ScanOne(sim, p, wanted, index, integrated, pass, before, done, s, steps);
        if fate.Err? {
          return Err(fate.error), steps;
        }
        index := if fate.value == Kept then index + 1 else index;
        integrated := if fate.value == Inserted then integrated + 1 else integrated;
        done := done + 1;
      }
      ScanningEnds(pass, before, done, ready, integrated, states, requested.Keys);
      r := Ok(Unit);
    }

    method TouchWanted(sim: CellWorld, ghost p: Persistence, wanted: set<RegionPos>)
      requires Sound(sim, p)
      modifies this`states
      ensures Sound(sim, p) && Sys(sim, p) == old(Sys(sim, p))
      ensures states == Touched(old(states), wanted, sim.tick)
    {
      var rest := wanted;
      while rest != {}
        invariant rest <= wanted
        invariant states == map pos | pos in old(states) :: if pos in wanted - rest then sim.tick else old(states)[pos]
      {
        var pos :| pos in rest;
        if pos in states {
          states := states[pos := sim.tick];
        }
        rest := rest - {pos};
      }
      SameRegionsLoaded(old(states), states, sim.chunks);
    }

    // Asks for a region; the answer comes at once if the region is still in memory.
    method Ask(sim: CellWorld, p: Persistence, pos: RegionPos) returns (r: Result<(nat, Option<Region>), StoreError>)
      requires Sound(sim, p) && pos !in states && pos !in requested && |requested| < MAX_PENDING_REGION_LOADS
      modifies p, p.worker
      ensures p.worker == old(p.worker) && p.Valid()
      ensures r.Ok? <==> Enabled(old(Sys(sim, p)), Request(pos))
      ensures old(p.View()).running ==> p.View().running
      ensures r.Ok? ==> r.value == (old(p.nextRequest), Retained(old(p.View()), pos))
      ensures r.Ok? ==> p.View() == Apply(old(Sys(sim, p)), Request(pos)).depot
      ensures r.Err? ==> Contents(old(Sys(sim, p))) == Contents(Sys(sim, p))
    {
      r := p.RequestRegion(pos);
    }

    // Books a request, and what is in memory as its answer.
    method Note(pos: RegionPos, request: nat, retained: Option<Region>)
      modifies this`requested, this`ready
      ensures requested == old(requested)[pos := request]
      ensures ready == if retained.Some? then old(ready) + [RegionReady(request, pos, Ok(retained.value))] else old(ready)
    {
      requested := requested[pos := request];
      if retained.Some? {
        ready := ready + [RegionReady(request, pos, Ok(retained.value))];
      }
    }

    method RequestAt(sim: CellWorld, p: Persistence, pos: RegionPos) returns (r: Result<Unit, StoreError>)
      requires Sound(sim, p) && pos !in states && pos !in requested && |requested| < MAX_PENDING_REGION_LOADS
      modifies this`requested, this`ready, p, p.worker
      ensures p.worker == old(p.worker)
      ensures r.Ok? <==> Enabled(old(Sys(sim, p)), Request(pos))
      ensures r.Ok? ==> Sound(sim, p) && Sys(sim, p) == Apply(old(Sys(sim, p)), Request(pos))
      ensures r.Err? ==> Contents(old(Sys(sim, p))) == Contents(Sys(sim, p)) && ready == old(ready)
    {
      ghost var s := Sys(sim, p);
      var asked := Ask(sim, p, pos);
      if asked.Ok? {
        Note(pos, asked.value.0, asked.value.1);
        RequestDone(s, pos, p.View(), requested, ready);
        r := Ok(Unit);
      } else {
        r := Err(asked.error);
      }
    }

    // A region neither loaded nor asked for yet.
    method RequestMissing(sim: CellWorld, p: Persistence, pos: RegionPos, ghost s: System, ghost steps: seq<Step>)
      returns (r: Result<Unit, StoreError>, ghost steps': seq<Step>)
      requires Sound(sim, p) && pos !in states && pos !in requested && |requested| < MAX_PENDING_REGION_LOADS
      requires Runs(s, steps) && Sys(sim, p) == After(s, steps)
      modifies this`requested, this`ready, p, p.worker
      ensures p.worker == old(p.worker) && Runs(s, steps')
      ensures r.Ok? ==> Sound(sim, p) && Sys(sim, p) == After(s, steps')
      ensures r.Ok? ==> requested.Keys == old(requested.Keys) + {pos}
      ensures r.Err? ==> Contents(After(s, steps')) == Contents(Sys(sim, p))
      ensures old(p.View()).running ==> r.Ok?
      ensures Further(old(Sys(sim, p)), Sys(sim, p))
    {
      steps' := steps;
      ghost var now := Sys(sim, p);
      r := RequestAt(sim, p, pos);
      if r.Ok? {
        RequestGives(now, pos);
        RunsAppend(s, steps, Request(pos));
        steps' := steps + [Request(pos)];
      }
    }

    // Ask for the wanted regions in row order, until the limit is reached.
    method RequestWanted(sim: CellWorld, p: Persistence, wanted: set<RegionPos>)
      returns (r: Result<Unit, StoreError>, ghost steps: seq<Step>)
      requires Sound(sim, p)
      modifies this`requested, this`ready, p, p.worker
      ensures p.worker == old(p.worker)
      ensures Runs(old(Sys(sim, p)), steps)
      ensures r.Ok? ==> Sound(sim, p) && Sys(sim, p) == After(old(Sys(sim, p)), steps)
      ensures r.Ok? ==> AsksFor(old(requested.Keys), requested.Keys, states.Keys, wanted)
      ensures r.Err? ==> Contents(After(old(Sys(sim, p)), steps)) == Contents(Sys(sim, p))
      ensures old(p.View()).running ==> r.Ok?
      ensures Further(old(Sys(sim, p)), Sys(sim, p))
    {
      ghost var s := Sys(sim, p);
      steps := [];
      var candidates := RowOrder(wanted, RegionRow);
      var i := 0;
      while i < |candidates| && |requested| < MAX_PENDING_REGION_LOADS
        invariant p.worker == old(p.worker)
        invariant Sound(sim, p) && Runs(s, steps) && Sys(sim, p) == After(s, steps)
        invariant Served(candidates, i, requested.Keys, old(requested.Keys), states.Keys)
        invariant Further(s, Sys(sim, p))
        decreases |candidates| - i
      {
        var pos := candidates[i];
        ghost var asked := requested.Keys;
        if pos !in states && pos !in requested {
          r, steps := RequestMissing(sim, p, pos, s, steps);
          if r.Err? {
            return;
          }
        }
        assert requested.Keys == Asked(asked, states.Keys, pos);
        ServedNext(candidates, i, asked, old(requested.Keys), states.Keys);
        i := i + 1;
      }
      ServedInOrder(candidates, i, requested.Keys, old(requested.Keys), states.Keys, wanted);
      r := Ok(Unit);
    }

    method UnloadAt(sim: CellWorld, p: Persistence, pos: RegionPos)
      requires Sound(sim, p) && pos in states
      modifies this`states, sim`chunks, p`pendingRegions
      ensures states == old(states) - {pos}
      ensures Sound(sim, p) && Sys(sim, p) == Apply(old(Sys(sim, p)), Unload(pos))
    {
      ghost var s := Sys(sim, p);
      states := states - {pos};
      var region := ExtractRegion(sim, pos);
      ExtractionUnloads(old(states), old(sim.chunks), pos, sim.chunks);
      p.StageRegion(pos, region);
      assert region == s.loaded[pos];
      assert Sys(sim, p) == Apply(s, Unload(pos));
      StepKeepsInv(s, Unload(pos));
    }

    // The loaded chunks may be rewritten (settled bodies, despawned mobs) without any
    // region being lost or gained.
    method SettleRegions(sim: CellWorld, ghost p: Persistence) returns (ghost step: Step)
      requires Sound(sim, p)
      modifies sim`chunks
      ensures step.Simulate? && Enabled(old(Sys(sim, p)), step)
      ensures Sound(sim, p) && Sys(sim, p) == Apply(old(Sys(sim, p)), step)
    {
      Rewrite(sim);
      step := Simulate(LoadedRegions(states, sim.chunks));
      StepKeepsInv(old(Sys(sim, p)), step);
    }

    method UnloadAll(sim: CellWorld, p: Persistence, positions: seq<RegionPos>, ghost all: set<RegionPos>)
      returns (ghost steps: seq<Step>)
      requires Sound(sim, p) && Lists(positions, all) && all <= states.Keys
      modifies this`states, sim`chunks, p`pendingRegions
      ensures states == old(states) - all
      ensures Runs(old(Sys(sim, p)), steps)
      ensures Sound(sim, p) && Sys(sim, p) == After(old(Sys(sim, p)), steps)
    {
      ghost var s := Sys(sim, p);
      steps := [];
      for i := 0 to |positions|
        invariant Sound(sim, p) && Runs(s, steps) && Sys(sim, p) == After(s, steps)
        invariant states == old(states) - Elements(positions[..i])
      {
        NextTaken(positions, i, old(states), all);
        UnloadAt(sim, p, positions[i]);
        RunsAppend(s, steps, Unload(positions[i]));
        steps := steps + [Unload(positions[i])];
      }
      AllElements(positions, all);
    }

    // Regions nobody has wanted for longer than the grace period go back to the store.
    method UnloadExpired(sim: CellWorld, p: Persistence, wanted: set<RegionPos>) returns (ghost steps: seq<Step>)
      requires Sound(sim, p)
      modifies this`states, sim`chunks, p`pendingRegions
      ensures states == old(states) - ExpiredRegions(old(states), wanted, sim.tick)
      ensures Runs(old(Sys(sim, p)), steps)
      ensures Sound(sim, p) && Sys(sim, p) == After(old(Sys(sim, p)), steps)
    {
      ghost var s := Sys(sim, p);
      ghost var expired := ExpiredRegions(states, wanted, sim.tick);
      var positions := ListExpired(states, wanted, sim.tick);
      ghost var settled := SettleRegions(sim, p);
      ghost var more := UnloadAll(sim, p, positions, expired);
      RunsPrepend(s, settled, more);
      steps := [settled] + more;
    }

    // The first half of a tick: take in what arrived, integrate, note what is wanted.
    method BringIn(sim: CellWorld, p: Persistence, wanted: set<RegionPos>)
      returns (r: Result<Unit, StoreError>, ghost steps: seq<Step>, ghost entries: seq<RegionReady>)
      requires Sound(sim, p)
      modifies this, sim`chunks, p, p.worker
      ensures p.worker == old(p.worker)
      ensures Runs(old(Sys(sim, p)), steps)
      ensures r.Ok? ==> Sound(sim, p) && Sys(sim, p) == After(old(Sys(sim, p)), steps)
      ensures r.Err? ==> Contents(After(old(Sys(sim, p)), steps)) == Contents(Sys(sim, p))
      ensures TickOutcome(old(p.View()).running, old(ready), old(p.View()).completions, wanted, entries, r)
      ensures r.Ok? ==> states == Touched(Integrated(old(states), WantedEntries(entries, wanted), sim.tick), wanted, sim.tick)
      ensures r.Ok? ==> requested.Keys == old(requested.Keys) - Answered(entries, wanted)
      ensures r.Ok? ==> ready == Rest(WantedEntries(entries, wanted)) && p.View().running
    {
      ghost var s, more := Sys(sim, p), [];
      entries := [];
      r, steps := CollectReady(sim, p);
      if r.Err? {
        return r, [], [];
      }
      entries := ready;
      r, more := IntegrateReady(sim, p, wanted);
      RunsConcat(s, steps, more);
      steps := steps + more;
      if r.Err? {
        return;
      }
      TouchWanted(sim, p, wanted);
    }

    // The second half: ask for what is missing, give back what has expired.
    method SendOut(sim: CellWorld, p: Persistence, wanted: set<RegionPos>)
      returns (r: Result<Unit, StoreError>, ghost steps: seq<Step>)
      requires Sound(sim, p) && p.View().running
      modifies this, sim`chunks, p, p.worker
      ensures p.worker == old(p.worker)
      ensures Runs(old(Sys(sim, p)), steps)
      ensures r.Ok? && Sound(sim, p) && Sys(sim, p) == After(old(Sys(sim, p)), steps)
      ensures states == old(states) - ExpiredRegions(old(states), wanted, sim.tick)
      ensures AsksFor(old(requested.Keys), requested.Keys, old(states.Keys), wanted) && old(ready) <= ready
    {
      ghost var s := Sys(sim, p);
      r, steps := RequestWanted(sim, p, wanted);
      ghost var more := UnloadExpired(sim, p, wanted);
      RunsConcat(s, steps, more);
      steps := steps + more;
    }

    // One tick of region management. It fails exactly if the worker is gone or a failed answer stops
    // it, with that error; otherwise the first wanted answer comes in, what is missing is asked for
    // and what has expired goes.
    method ManageRegions(sim: CellWorld, p: Persistence, wanted: set<RegionPos>)
      returns (r: Result<Unit, StoreError>, ghost steps: seq<Step>, ghost entries: seq<RegionReady>)
      requires Sound(sim, p)
      modifies this, sim`chunks, p, p.worker
      ensures p.worker == old(p.worker)
      ensures Runs(old(Sys(sim, p)), steps)
      ensures r.Ok? ==> Sound(sim, p) && Sys(sim, p) == After(old(Sys(sim, p)), steps)
      ensures r.Err? ==> Contents(After(old(Sys(sim, p)), steps)) == Contents(Sys(sim, p))
      ensures TickOutcome(old(p.View()).running, old(ready), old(p.View()).completions, wanted, entries, r)
      ensures r.Ok? ==> TickBooks(old(states), states, wanted, sim.tick) && ComesIn(entries, wanted, old(states), states)
      ensures r.Ok? ==> Rest(WantedEntries(entries, wanted)) <= ready
      // Every wanted region is loaded or asked for, as far as the limit allows.
      ensures r.Ok? ==>
        AsksFor(old(requested.Keys) - Answered(entries, wanted), requested.Keys, states.Keys, wanted)
    {
      ghost var s, more := Sys(sim, p), [];
      r, steps, entries := BringIn(sim, p, wanted);
      if r.Err? {
        return;
      }
      ghost var touched, kept := states, requested.Keys;
      r, more := SendOut(sim, p, wanted);
      RunsConcat(s, steps, more);
      steps := steps + more;
      TickIsDone(entries, wanted, old(states), sim.tick, touched, states, kept, requested.Keys);
    }

    // One region for every loaded one, made of copies of its chunks.
    method SnapshotRegions(sim: CellWorld) returns (regions: map<RegionPos, Region>)
      requires OwnsChunks(states, sim.chunks)
      ensures regions == LoadedRegions(states, sim.chunks)
    {
      var chunks := sim.chunks;
      regions := map[];
      var rest := states.Keys;
      while rest != {}
        invariant rest <= states.Keys && regions.Keys == states.Keys - rest
        invariant forall pos | pos in regions :: regions[pos] == Gathered(chunks, pos)
      {
        var pos :| pos in rest;
        var region := seq(REGION_AREA_CHUNKS, i requires 0 <= i < REGION_AREA_CHUNKS => chunks[pos.ChunkAt(i)]);
        assert region == Gathered(chunks, pos);
        regions := regions[pos := region];
        rest := rest - {pos};
      }
    }

    // The players' records, the loaded regions and the meta go to the pending maps.
    method StageSnapshot(
      sim: CellWorld, p: Persistence, records: Result<map<Uuid, PlayerRecord>, StoreError>, meta: WorldMeta)
      returns (r: Result<Unit, StoreError>, ghost steps: seq<Step>)
      requires Sound(sim, p)
      modifies p`pendingPlayers, p`pendingRegions, p`pendingMeta
      ensures Sound(sim, p) && Runs(old(Sys(sim, p)), steps) && Sys(sim, p) == After(old(Sys(sim, p)), steps)
      ensures records.Err? ==> r == Err(records.error) && steps == []
      ensures records.Ok? ==> r == Ok(Unit) && steps == SnapshotSteps(records.value, meta) && p.pendingMeta.Some?
    {
      ghost var s := Sys(sim, p);
      steps := [];
      r := p.StagePlayers(records);
      if r.Err? {
        return;
      }
      var regions := SnapshotRegions(sim);
      p.StageRegions(regions);
      p.StageMeta(meta);
      steps := SnapshotSteps(records.value, meta);
      SnapshotStepsRun(s, records.value, meta);
    }

    // Every ten seconds of a world that has a store, the whole of it is staged and a save begun.
    method Autosave(
      sim: CellWorld, p: Persistence, records: Result<map<Uuid, PlayerRecord>, StoreError>, meta: WorldMeta)
      returns (r: Result<Unit, StoreError>, ghost steps: seq<Step>)
      requires Sound(sim, p)
      modifies p, p.worker
      ensures p.worker == old(p.worker) && Runs(old(Sys(sim, p)), steps)
      ensures r.Ok? ==> Sound(sim, p) && Sys(sim, p) == After(old(Sys(sim, p)), steps)
      ensures steps != [] ==> p.store != null && sim.tick != 0 && sim.tick % AUTOSAVE_INTERVAL_TICKS == 0
      ensures r.Ok? && p.store != null && sim.tick != 0 && sim.tick % AUTOSAVE_INTERVAL_TICKS == 0 ==>
        p.inFlight.Some? && (old(p.inFlight).None? ==> p.pendingRegions == map[])
      // It fails exactly if a player cannot be recorded or the worker is gone.
      ensures r ==
        if p.store == null || sim.tick == 0 || sim.tick % AUTOSAVE_INTERVAL_TICKS != 0 then Ok(Unit)
        else if records.Err? then Err(records.error)
        else if old(p.inFlight).Some? || old(p.View()).running then Ok(Unit)
        else Err(WorkerDisconnected)
    {
      ghost var s := Sys(sim, p);
      steps := [];
      if p.store == null || sim.tick == 0 || sim.tick % AUTOSAVE_INTERVAL_TICKS != 0 {
        return Ok(Unit), [];
      }
      r, steps := StageSnapshot(sim, p, records, meta);
      if r.Err? {
        return;
      }
      r, steps := BeginSave(sim, p, s, steps);
    }

    // A save begun at the end of a run of steps, with at least the meta pending.
    method BeginSave(sim: CellWorld, p: Persistence, ghost s: System, ghost before: seq<Step>)
      returns (r: Result<Unit, StoreError>, ghost steps: seq<Step>)
      requires Sound(sim, p) && p.store != null && p.pendingMeta.Some?
      requires Runs(s, before) && Sys(sim, p) == After(s, before)
      modifies p, p.worker
      ensures p.worker == old(p.worker) && Runs(s, steps)
      ensures r.Ok? ==> Sound(sim, p) && Sys(sim, p) == After(s, steps)
      ensures r.Ok? ==> p.inFlight.Some? && (old(p.inFlight).None? ==> p.pendingRegions == map[])
      ensures r == if old(p.inFlight).Some? || old(p.View()).running then Ok(Unit) else Err(WorkerDisconnected)
    {
      steps := before;
      ghost var staged := Sys(sim, p);
      r := p.StartSave();
      if r.Ok? && WantsSave(staged.depot) {
        assert Sys(sim, p) == Apply(staged, Save);
        RunsAppend(s, before, Save);
        StepKeepsInv(staged, Save);
        steps := before + [Save];
      }
    }

    // A shutdown that succeeds leaves all of the world in the store: every region as it last
    // was, every player of the session, and the meta. The worker is stopped even when a player
    // cannot be recorded, and the first error counts.
    method ShutdownWorld(
      sim: CellWorld, p: Persistence, records: Result<map<Uuid, PlayerRecord>, StoreError>, meta: WorldMeta,
      first: bool, second: bool, last: bool, panicked: bool)
      returns (r: Result<Unit, StoreError>)
      requires Sound(sim, p)
      modifies p, p.worker, p.store
      ensures p.worker == null
      ensures var depot :=
          if p.store != null && records.Ok? then AfterSnapshot(old(Sys(sim, p)), records.value, meta).depot
          else old(p.View());
        && (FlushVerdict(depot, first, second).Ok? && p.store != null ==> SameValues(depot, Opened(p.StoreView())))
        && r ==
          if p.store != null && records.Err? then Err(records.error)
          else if FlushVerdict(depot, first, second).Err? then FlushVerdict(depot, first, second)
          else if old(p.worker) != null && panicked then Err(WorkerPanicked)
          else Ok(Unit)
    {
      ghost var s := Sys(sim, p);
      var snapshot: Result<Unit, StoreError> := Ok(Unit);
      if p.store != null {
        ghost var steps;
        snapshot, steps := StageSnapshot(sim, p, records, meta);
        if records.Ok? {
          SnapshotStepsRun(s, records.value, meta);
          assert p.View() == AfterSnapshot(s, records.value, meta).depot;
        }
      }
      InvIsSaving(Sys(sim, p));
      var ended := p.ShutDown(first, second, last, panicked);
      r := if snapshot.Err? then snapshot else ended;
    }
  }

  // ticks_from_secs(10.0)
  const AUTOSAVE_INTERVAL_TICKS: nat := 600

  function SnapshotSteps(records: map<Uuid, PlayerRecord>, meta: WorldMeta): seq<Step> {
    [KeepPlayers(records), Snapshot, KeepMeta(meta)]
  }

  lemma SnapshotStepsRun(s: System, records: map<Uuid, PlayerRecord>, meta: WorldMeta)
    requires Inv(s)
    ensures Runs(s, SnapshotSteps(records, meta)) && Inv(After(s, SnapshotSteps(records, meta)))
    ensures After(s, SnapshotSteps(records, meta)) == AfterSnapshot(s, records, meta)
  {
    var steps := SnapshotSteps(records, meta);
    var a := Apply(s, steps[0]);
    var b := Apply(a, Snapshot);
    assert steps[1..] == [Snapshot, KeepMeta(meta)] && steps[1..][1..] == [KeepMeta(meta)];
    assert steps[1..][1..][1..] == [];
    StepKeepsInv(s, steps[0]);
    StepKeepsInv(a, Snapshot);
    StepKeepsInv(b, KeepMeta(meta));
    assert After(b, [KeepMeta(meta)]) == Apply(b, KeepMeta(meta));
    assert After(a, steps[1..]) == After(b, [KeepMeta(meta)]);
  }

  function AfterSnapshot(s: System, records: map<Uuid, PlayerRecord>, meta: WorldMeta): System {
    s.(depot := StageMeta(StageRegions(StagePlayers(s.depot, records), s.loaded), meta))
  }

  // What a snapshot stages: the truth about every region, the players' records, the meta.
  lemma SnapshotStagesTheTruth(s: System, records: map<Uuid, PlayerRecord>, meta: WorldMeta)
    ensures var d := AfterSnapshot(s, records, meta).depot;
      && (forall pos: RegionPos :: Latest(d, pos) == Truth(s, pos))
      && (forall uuid: Uuid :: LatestPlayer(d, uuid) == if uuid in records then Some(records[uuid]) else LatestPlayer(s.depot, uuid))
      && LatestMeta(d) == Some(meta)
  {
    var a := StagePlayers(s.depot, records);
    var b := StageRegions(a, s.loaded);
    var d := StageMeta(b, meta);
    StagingKeepsOthers(a, s.loaded);
    forall pos: RegionPos
      ensures Latest(d, pos) == Truth(s, pos)
    {
      assert Retained(d, pos) == Retained(b, pos) && Retained(a, pos) == Retained(s.depot, pos);
    }
  }
}
