# fallingsand: a model of its core, with proofs

fallingsand is a multiplayer falling-sand game: a world of cells in chunks of 64 by 64, a
simulation kernel that moves every awake cell each tick, rigid bodies made of cells, a server that
loads and saves regions of chunks through a worker thread, and clients that mirror the part of the
world they are interested in. This project models the parts with the most state and proves what
they promise. `dafny verify dfyconfig.toml` checks all of it.

## How the model is laid out

- **Loading and saving.** `Protocol.dfy` describes the load and save protocol between the server,
  its pending maps, the batch in flight, two channels, the worker and the database as steps on one
  value; `ProtocolSafety.dfy` proves what every step and every run keep. `Persistence.dfy` and
  `Regions.dfy` are the objects of the source: their methods change fields in place and are proved
  to perform runs of those steps. `RegionCodec.dfy` and `ZOrder.dfy` are what a region becomes in
  the database, and its key.
- **Replication.** `CellCodec.dfy` (with `Bits.dfy` and `Words.dfy`) is the wire format of cells,
  `Payloads.dfy` what of it is accepted, `Replication.dfy` the frames a server builds, `ClientView.dfy` the client that applies them.
- **Chunks and windows.** `Chunks.dfy` has chunks with their dirty rectangles and sight masks as
  values, `ChunkObject.dfy` the object over an array. `Worlds.dfy` and `Windows.dfy` write cells,
  wake neighbours and report obstacles that go.
- **Motion.** `Motion.dfy` is its arithmetic, `Courses.dfy` the walk of a cell as a function of
  what is drawn, `Travel.dfy` and `Fluids.dfy` the movement rules in place, `Kernel.dfy` the
  movement pass over four phases of windows. `Impacts.dfy` (exchanges and transfers of momentum),
  `Bounces.dfy` (what a stopped cell is left with) and `Settling.dfy` (where liquids and gases at rest
  go) say what the rules amount to.
- **Bodies.** `BodyState.dfy` (inertia, pose, capture, release), `Islands.dfy` (terrain that comes
  loose), `Parts.dfy` and `Reconcile.dfy` (bodies that lose cells or break), `Reshape.dfy` and
  `Loose.dfy` (a body that changes its shape), `Contact.dfy` (impulses), `Rotation.dfy` (turning on
  the lattice) and `Turning.dfy` (which turns bring a body back). `Breaking.dfy` (parts keep their
  momentum), `Weighing.dfy` (what the inertia of a body means), `Landing.dfy` and `Response.dfy` (what
  a blow does to a contact) and `Angles.dfy` (how far the table turns) tie them to mechanics.
- **Spawning.** `SpawnSearch.dfy` is the search for a place to spawn.

Helpers: `Wrappers.dfy`, `Numbers.dfy`, `Rows.dfy` (row order), `Components.dfy` (connected
components), `Iteration.dfy` (loops as folds), `Coords.dfy`, `Cells.dfy`, `Materials.dfy`.

Whatever the source draws from hashes of tick and position is drawn freely here: a method hands its
draws out as ghost values and its result is a function of the old state and of them, so every
statement holds for all hashes, and the functions can be reasoned about. Failures of the database,
and stored records of players and of the world's meta that do not parse, are parameters. The content tables (materials, densities, bonds) are an arbitrary constant.

## Model

| member | source | states |
|---|---|---|
| ProtocolSafety.NoRunLosesARegion | crates/fallingsand_server/src/regions.rs:162-252 | In every interleaving of server steps, worker turns, saves that succeed or fail, dying workers, loads, unloads and snapshots, a region holds exactly what the simulation last wrote in it, wherever it is (world, pending, in flight, store). |
| ProtocolSafety.NoServerLosesARegion | crates/fallingsand_server/src/persistence.rs:131-146 | The same from the moment a server opens a store and starts its worker, without the invariant as a premise: it reads what the store held, or what was written since. |
| ProtocolSafety.NextServerFindsTheWorld | crates/fallingsand_server/src/persistence.rs:263-273 | After any run that ends with everything unloaded, nothing pending and nothing in flight, the next server that opens the store finds every region as it was last written. |
| ProtocolSafety.EveryRunKeepsInv | crates/fallingsand_server/src/persistence.rs:248-261 | The invariant of the protocol (every request has exactly one outstanding item, a batch is in flight exactly while one save is owed, loads under way are of regions not in memory) holds in every run. |
| ProtocolSafety.StartedSatisfiesInv | crates/fallingsand_server/src/persistence.rs:131-146 | A freshly opened server satisfies that invariant. |
| ProtocolSafety.StepKeepsInv | crates/fallingsand_server/src/regions.rs:162-252 | Each of the fourteen kinds of step keeps the invariant. |
| ProtocolSafety.StepKeepsTruth | crates/fallingsand_server/src/persistence.rs:301-334 | No step but a write of the simulation changes what any region holds; a failed batch goes back to the pending maps without hiding newer values. |
| ProtocolSafety.StepKeepsPlayer | crates/fallingsand_server/src/persistence.rs:205-232 | A player's latest record changes when one is staged, and by no other step. |
| ProtocolSafety.StepKeepsMeta | crates/fallingsand_server/src/persistence.rs:158-160 | The latest world meta changes when one is staged, and by no other step. |
| ProtocolSafety.ReadyEntriesAreRequested | crates/fallingsand_server/src/regions.rs:178-206 | Every loaded region that arrives is the one that was asked for, with its request id: the branch for a stale answer is never taken. |
| ProtocolSafety.ReadyEntriesAreDistinct | crates/fallingsand_server/src/regions.rs:178-206 | No two entries of the ready list are for one region. |
| ProtocolSafety.SaveOutcomesHaveABatch | crates/fallingsand_server/src/persistence.rs:336-338 | An outcome of a save never arrives with no batch in flight: SaveDesync cannot be reported. |
| ProtocolSafety.SaveIsOwed | crates/fallingsand_server/src/persistence.rs:275-285 | While a batch is in flight a command or a message is outstanding, so waiting for its outcome ends. |
| ProtocolSafety.DrainRuns | crates/fallingsand_server/src/persistence.rs:248-261 | Draining the channel at once is a run of single messages, and never finds an outcome too many. |
| ProtocolSafety.CommitKeepsOthers | crates/fallingsand_server/src/persistence/store.rs:68-99 | A committed batch leaves every region that is not in it as it was stored; keys never collide. |
| ProtocolSafety.HeldRegionReadsBack | crates/fallingsand_server/src/persistence/store.rs:50-57 | A region of a committed batch reads back with the content it was saved with. |
| ProtocolSafety.ApplySaveKeepsValues | crates/fallingsand_server/src/persistence.rs:314-334 | Taking a batch out of flight, written or failed, changes no latest value of any region, player or meta. |
| ProtocolSafety.FlushedStoreHasEverything | crates/fallingsand_server/src/persistence.rs:269-273 | With nothing pending and nothing in flight the store alone has every latest value. |
| ProtocolSafety.MetaReadIsLatest | crates/fallingsand_server/src/persistence.rs:148-156 | Exactly when what load_meta reads is the latest meta: nothing in flight, or a batch without a meta, or a newer one pending, or the store already has the batch's. |
| ProtocolSafety.MetaInFlightIsMissed | crates/fallingsand_server/src/persistence.rs:148-156 | A run of two steps from a fresh server after which load_meta reads the old meta: staged, handed to the worker, not yet committed. |
| PersistenceObjects.WorldStore.SaveBatch | crates/fallingsand_server/src/persistence/store.rs:68-99 | All of a batch is encoded first and then written in one transaction; a batch that cannot be encoded, or a transaction that fails, changes nothing. |
| PersistenceObjects.WorldStore.LoadRegion | crates/fallingsand_server/src/persistence/store.rs:50-57 | A stored region decoded, nothing where none is stored, the error of a garbled or foreign blob. |
| PersistenceObjects.PersistenceWorker.Turn | crates/fallingsand_server/src/persistence/worker.rs:109-149 | One turn of the worker: the first command handled against the store, its completion sent, shutdown ends it. |
| PersistenceObjects.PersistenceWorker.Dispatch | crates/fallingsand_server/src/persistence/worker.rs:54-59 | A command reaches the end of the channel while the worker runs, and is refused when it does not. |
| PersistenceObjects.PersistenceWorker.DrainCompletions | crates/fallingsand_server/src/persistence/worker.rs:61-70 | Everything that has arrived; a dead worker is noticed once the channel is empty, and what was drained is dropped with the error. |
| PersistenceObjects.Persistence.constructor | crates/fallingsand_server/src/persistence.rs:131-141 | Opens a store, or none, with nothing pending. |
| PersistenceObjects.Persistence.RequestRegion | crates/fallingsand_server/src/persistence.rs:162-186 | A region still in memory (pending before in flight) is answered at once; any other is asked of the worker; the request id moves on in both cases and when there is no worker. |
| PersistenceObjects.Persistence.LoadMeta | crates/fallingsand_server/src/persistence.rs:148-156 | Reads the pending or the stored meta, never the one in flight, with the exact condition under which that is the latest; fails exactly when it comes to the store and the database does, or the record there is garbled or of another format. |
| PersistenceObjects.Persistence.LoadPlayerRecord | crates/fallingsand_server/src/persistence.rs:205-219 | The last record staged, whether pending, in flight or stored; fails exactly when it comes to the store and the database does, or the record there is garbled. |
| PersistenceObjects.Persistence.StagePlayers | crates/fallingsand_server/src/persistence.rs:221-232 | If one player cannot be recorded nothing is staged; otherwise all records are. |
| PersistenceObjects.Persistence.StartSave | crates/fallingsand_server/src/persistence.rs:234-246 | With a store, no batch in flight and something pending, everything pending becomes the batch in flight; a dead worker gives it back; with no worker at all it is dropped. |
| PersistenceObjects.Persistence.RestoreBatch | crates/fallingsand_server/src/persistence.rs:301-312 | What was staged since a batch was taken wins over the batch. |
| PersistenceObjects.Persistence.ApplyCompletion | crates/fallingsand_server/src/persistence.rs:314-334 | Loaded regions are handed on; the outcome of a save takes the batch out of flight, a failed one back to the pending maps; an outcome without a batch is a desync. |
| PersistenceObjects.Persistence.DrainCompletions | crates/fallingsand_server/src/persistence.rs:248-261 | The drained messages, applied in order. |
| PersistenceObjects.Persistence.RecvCompletion | crates/fallingsand_server/src/persistence/worker.rs:72-77 | Waiting for a message lets the worker take turns until one is there; no latest value changes, nor how the waiting will end. It fails exactly if no message can come any more. |
| PersistenceObjects.Persistence.FinishInFlight | crates/fallingsand_server/src/persistence.rs:275-285 | Waits until no batch is in flight. How it ends is read off the state before: with the outcome that waits in the channel, else with that of the save itself, else with a disconnected worker. No latest value changes. |
| PersistenceObjects.Persistence.Flush | crates/fallingsand_server/src/persistence.rs:269-273 | Durability: it succeeds exactly if the batch in flight and then what is pending can be saved, and fails with the first error; after success nothing is left in memory only, and a server that opens the store finds every latest region, player and meta. |
| PersistenceObjects.FlushSucceeds | crates/fallingsand_server/src/persistence.rs:269-285 | When a flush succeeds, of any depot the protocol reaches: the outcome of the batch in flight has arrived and is good, or it is storable and the running worker can write it; and the same of what is pending. |
| PersistenceObjects.Persistence.ShutDown | crates/fallingsand_server/src/persistence.rs:263-267 | The worker is stopped however the flush ends; a flush that succeeds has left every latest value in the store; the first error counts, and without one a panic of the worker. |
| Regions.RegionMap.ManageRegions | crates/fallingsand_server/src/regions.rs:162-252 | A tick fails exactly if the worker is gone when it begins, or a scan of the answers in row order meets a failed one that is to be dropped or is the first wanted one, and with that error; up to there it is a run of the protocol. Otherwise it is one to the end: the first wanted answer comes in and nothing else; a region goes exactly when it is not wanted and was last wanted longer ago than the grace period; wanted regions that are missing are asked for in row order, all of them unless the limit is reached; no answer that is still wanted is lost. |
| Regions.RegionMap.CollectReady | crates/fallingsand_server/src/regions.rs:173-176 | What has arrived joins the answers left from before, in row order; it fails exactly if the worker is gone. |
| Regions.RegionMap.IntegrateReady | crates/fallingsand_server/src/regions.rs:178-206 | The pass over the ready list fails exactly at the first failed answer that is to be dropped or is the first wanted one. Otherwise it drops what is no longer wanted, integrates the first wanted entry and leaves the others in order; exactly the requests of these are still open. |
| Regions.RegionMap.RequestWanted | crates/fallingsand_server/src/regions.rs:214-232 | Missing regions are asked for in row order until the limit is reached, and none that is loaded or not wanted; none is asked for before one that comes earlier and stays unasked. With a running worker it succeeds. |
| Regions.RegionMap.UnloadExpired | crates/fallingsand_server/src/regions.rs:234-251 | Exactly the regions past the grace period leave the world, staged with their last content. |
| Regions.RegionMap.SnapshotRegions | crates/fallingsand_server/src/regions.rs:142-160 | A copy of every loaded region. |
| Regions.RegionMap.Autosave | crates/fallingsand_server/src/persistence.rs:348-364 | A run of the protocol, empty but for every 600th tick of a world with a store; then a batch is in flight, and if none was before, no staged region is left out of it. It fails exactly if a player cannot be recorded, or nothing is in flight and the worker is gone. |
| Regions.RegionMap.ShutdownWorld | crates/fallingsand_server/src/persistence.rs:366-382 | The snapshot is staged and the worker stopped, whatever fails; if the flush of what is then there succeeds, all of it is in the store: every region as it last was, every player of the session, the meta. The result is the first error of recording the players, flushing and stopping the worker. |
| Regions.SnapshotStagesTheTruth | crates/fallingsand_server/src/persistence.rs:384-397 | What a snapshot stages is the truth about every region, the given records and the meta. |
| Regions.ContentsDecideValues | crates/fallingsand_server/src/regions.rs:162-252 | When a tick fails, every latest value is still that of the run up to the failure. |
| Regions.InsertRegion | crates/fallingsand_server/src/regions.rs:122-126 | The 64 chunks of a region come in at their places, all others stay. |
| Regions.ExtractRegion | crates/fallingsand_server/src/regions.rs:138-140 | The 64 chunks of a region leave the world, all others stay. |
| RegionCodec.RegionRoundTrip | crates/fallingsand_server/src/persistence/region_codec.rs:63-136 | A region reads back with the record it was written with, and can be written exactly when all of its materials are in the table. |
| RegionCodec.RegionComesBack | crates/fallingsand_server/src/persistence/region_codec.rs:19-134 | Cell by cell: a loose cell comes back as it was, with its velocity; a body's cell at rest and nobody's, or as air if only bodies wear its material; the fog comes back and the chunk is awake. |
| RegionCodec.StoredChunkStaysSound | crates/fallingsand_server/src/persistence/region_codec.rs:114-134 | The caches of a chunk that comes from the store are sound, and stay so in every run. |
| ZOrder.KeysNeverCollide | crates/fallingsand_core/src/coords.rs:211-213 | No two regions share a database key. |
| ZOrder.WordKeysNeverCollide | crates/fallingsand_core/src/coords.rs:211-224 | The same of the machine key: masks and shifts lose nothing. |
| ZOrder.WordKeyIsMerged | crates/fallingsand_core/src/coords.rs:216-224 | The machine key read as a number is the interleaving of the bits of both words: the key of the store. |
| Coords.ChunkAtInjective | crates/fallingsand_core/src/coords.rs:204-209 | Different pairs of region and index name different chunks. |
| Replication.ClientMirrorsServer | crates/fallingsand_server/src/replication.rs:65-193 | In every run of writes, ticks, loads, unloads of any chunk, and frames, each frame leaves the client with exactly the chunks of interest, with the server's material and shade in every cell and its fog. At most one tick lies between two frames, and a chunk the client knows does not come back after chunks were given back until a frame is sent. |
| Replication.FrameMirrors | crates/fallingsand_server/src/replication.rs:341-398 | One frame brings a client that was behind by the pending changes up to date, whichever of the chunks it knows are still loaded. |
| Replication.EveryRunTracks | crates/fallingsand_server/src/replication.rs:341-398 | Between frames, whatever is unloaded, the client differs from the server only inside the pending rectangles of each chunk that is loaded. |
| Replication.BuildTiles | crates/fallingsand_server/src/replication.rs:341-398 | A frame unloads what is no longer of interest, loads what is new, sends the fog where it differs and the cells of the changed rectangle, in any order of the chunks; and the fog the client then knows. |
| Replication.FrameIsCalledFor | crates/fallingsand_server/src/replication.rs:350-396 | Nothing is sent in vain: an unload is of a known chunk out of the interest, a load of an unknown one in it, fog is sent only where it changed, cells only of the rectangle of the changes; a chunk that is known, with the fog it was sent and no changes, costs nothing. |
| Replication.GatherRect | crates/fallingsand_server/src/replication.rs:385-390 | The cells of a rectangle row by row. |
| Replication.TwoTicksLoseAChange | crates/fallingsand_core/src/chunk.rs:178-196 | With two rolled ticks between frames a change falls out of both generations of the rectangle: one tick per frame is needed. |
| Replication.ReturnLosesAChange | crates/fallingsand_server/src/regions.rs:178-251 | A chunk changed, given back and taken in again between two frames comes back with an empty change rectangle: a frame without a word about it is right for the server, and leaves the client with the old cell. |
| ClientView.ApplyRect | crates/fallingsand_client/src/game/world.rs:99-106 | The copy row by row into the client's buffer puts each cell of the patch at its place and changes nothing else. |
| ClientView.WorldView.Apply | crates/fallingsand_client/src/game/world.rs:45-96 | The operations of a frame, in order; the server's tick never goes back. |
| CellCodec.CellsToWire | crates/fallingsand_protocol/src/wire.rs:98-150 | Whatever format is chosen, the other side reads the same material and shade in every cell, or reports an unknown material; the length is exactly that of the format the source prefers for that many cells and looks, and never longer than raw but for the empty list. |
| CellCodec.CellsFromWire | crates/fallingsand_protocol/src/wire.rs:152-210 | Decoding computes the specification Decode, of which Payloads.ReadsWhatIsWritten says exactly what it accepts. |
| CellCodec.DecodedLength | crates/fallingsand_protocol/src/wire.rs:152-210 | A payload that decodes has exactly as many cells as were asked for. |
| Payloads.ReadsWhatIsWritten | crates/fallingsand_protocol/src/wire.rs:152-210 | The decoder reads a payload as given known looks if and only if it is a writing of them: one look for all, every cell by itself, or a palette of known looks, places in it and fewer than eight zero bits. A stray bit, a wrong size, a place outside of the palette or an unknown material in it is never accepted. |
| Payloads.ReadWasWritten | crates/fallingsand_protocol/src/wire.rs:152-210 | Whatever is accepted is such a writing, of known looks, as many as were asked for. |
| Payloads.WireLengthIsLeast | crates/fallingsand_protocol/src/wire.rs:117-128 | The length of what is sent is the least of the formats: no longer than the raw one, nor than a palette packed at any width that tells its entries apart. |
| CellCodec.IndexBitsBounds | crates/fallingsand_protocol/src/wire.rs:85-87 | The width of an index is the least that tells the entries of the palette apart, from one to eight bits. |
| CellCodec.PackIndices | crates/fallingsand_protocol/src/wire.rs:135-149 | The accumulator loop writes the indices bit by bit one after the other, padded with fewer than eight zeros. |
| CellCodec.UnpackCells | crates/fallingsand_protocol/src/wire.rs:179-197 | The reading loop takes them off again and finds bad indices and padding. |
| CellCodec.IndexListReadsBack | crates/fallingsand_protocol/src/wire.rs:135-197 | Packing and unpacking are inverse, for every width and count. |
| CellCodec.BuildPalette | crates/fallingsand_protocol/src/wire.rs:98-116 | The palette has each look once with every cell's index, and is given up exactly when there are more than 256 looks. |
| CellCodec.PaletteVariety | crates/fallingsand_protocol/src/wire.rs:98-116 | The palette is as long as there are different looks. |
| CellCodec.Below15Bits | crates/fallingsand_protocol/src/wire.rs:135-149 | The accumulator never holds more than 15 bits. |
| Words.OrIsPlus | crates/fallingsand_protocol/src/wire.rs:135-145 | Or-ing a shifted byte above the filled bits is adding it, read bit by bit. |
| Words.NarrowOrIsEnough | crates/fallingsand_protocol/src/wire.rs:135-145 | In 32 bits that loses nothing. |
| Chunks.EveryRunKeepsSound | crates/fallingsand_core/src/chunk.rs:160-239 | In every run of writes, marks, ticks and looks, the rectangles are proper, every moved cell is inside them, and every texel outside the dirty rectangle is right. |
| Chunks.NewChunkIsSound | crates/fallingsand_core/src/chunk.rs:133-147 | A new chunk is. |
| Chunks.BeginTickClearsEveryCell | crates/fallingsand_core/src/chunk.rs:178-196 | Clearing the moved flags inside the rectangle clears them everywhere. |
| Chunks.RefreshSightIsRecomputation | crates/fallingsand_server/src/fog.rs:210-237 | The incremental sight mask is the mask computed from scratch, and its revision moves exactly when it changes. |
| Chunks.MarkingIsLeast | crates/fallingsand_core/src/chunk.rs:49-62 | A mark makes a rectangle no larger than it must be to hold what it held and the cell, or the cell's neighbours in the chunk. |
| Chunks.UnionIsLeast | crates/fallingsand_core/src/chunk.rs:64-77 | Nor are the two generations together larger than both. |
| Chunks.RolledTickAges | crates/fallingsand_core/src/chunk.rs:178-208 | After a rolled tick exactly the cells marked since the last one are awake or changed, after two none; a tick that is not rolled changes neither. |
| ChunkObject.Chunk.constructor | crates/fallingsand_core/src/chunk.rs:133-147 | A new chunk. |
| ChunkObject.Chunk.Set | crates/fallingsand_core/src/chunk.rs:160-168 | A write in place: the cell, and the three rectangles it grows. |
| ChunkObject.Chunk.MarkSim | crates/fallingsand_core/src/chunk.rs:49-54 | The awake rectangle grows by one cell, in place. |
| ChunkObject.Chunk.BeginTick | crates/fallingsand_core/src/chunk.rs:178-196 | No cell has moved; when rolled, the rectangles age by a generation. |
| ChunkObject.Chunk.Reveal | crates/fallingsand_core/src/chunk.rs:218-220 | Revealed fog is never covered again. |
| ChunkObject.Chunk.TakeSightDirty | crates/fallingsand_core/src/chunk.rs:230-232 | The dirty rectangle is handed over and emptied. |
| ChunkObject.Chunk.StoreSight | crates/fallingsand_core/src/chunk.rs:234-239 | The revision moves, with wrap-around, exactly when the mask changes. |
| ChunkObject.RefreshSight | crates/fallingsand_server/src/fog.rs:210-223 | The loop over the texels of the dirty rectangle leaves every texel of the chunk right. |
| ChunkObject.CountOpaque | crates/fallingsand_server/src/fog.rs:225-237 | The count over the 16 cells of a texel. |
| Windows.SimWindow.Set | crates/fallingsand_sim/src/window.rs:95-109 | A write through the window: the cell, its chunk's rectangles, the woken border, a note when an obstacle goes. |
| Windows.SimWindow.Swap | crates/fallingsand_sim/src/window.rs:169-180 | Two cells change places, marked as moved. |
| Windows.SimWindow.Transform | crates/fallingsand_sim/src/window.rs:111-134 | A change of material keeps a body's tag, grows the chunk's rectangles, wakes the border as any write does, and is noted exactly when it matters to bodies. |
| Windows.SimWindow.StruckBody | crates/fallingsand_sim/src/window.rs:41-52 | A body's cell that is run into takes the blow, and nothing else happens. |
| Windows.SimWindow.SlotOf | crates/fallingsand_sim/src/window.rs:73-87 | The slot of a position, by halving the distance to the window's origin. |
| Windows.SimWindow.MarkSimBorder | crates/fallingsand_sim/src/window.rs:137-157 | Only border cells wake other chunks, and those exactly cell by cell. |
| Windows.SetWakesNeighbourhood | crates/fallingsand_sim/src/window.rs:95-157 | Writing a cell wakes all of its loaded neighbours, across chunk borders too. |
| Windows.InnerCellsWakeNobody | crates/fallingsand_sim/src/window.rs:137-157 | A cell that is not on the edge of its chunk has no neighbour in another. |
| Windows.SwapMoves | crates/fallingsand_sim/src/window.rs:169-180 | An exchange of two cells that are no body's keeps the count of every material and shade, every body cell and the caches' soundness, reports what was laid bare, and stays within reach. |
| Windows.RewriteMoves | crates/fallingsand_sim/src/window.rs:95-109 | So does writing back a cell with the same matter. |
| Worlds.CellWorld.Set | crates/fallingsand_sim/src/world.rs:69-80 | A write where no chunk is loaded is dropped. |
| Worlds.SetGives | crates/fallingsand_sim/src/world.rs:69-80 | A write gives one cell a new value and no other, and notes an obstacle that goes. |
| Worlds.SetTally | crates/fallingsand_sim/src/world.rs:69-80 | It changes the count of every material and shade by what went and what came. |
| Worlds.CellWorld.MarkSimBorder | crates/fallingsand_sim/src/world.rs:82-100 | The world's own version of waking a border. |
| Worlds.CellWorld.Place | crates/fallingsand_sim/src/world.rs:114-132 | Air is filled, anything is cleared to air, the rest is refused, and nothing else changes; the place is noted once if the old or the new material bonds, and once more if an obstacle went. |
| Courses.WalkStaysWithin | crates/fallingsand_sim/src/motion.rs:35-91 | However it is turned on its way through liquids, a cell ends no further than 62 cells from its start. |
| Courses.WalkEnds | crates/fallingsand_sim/src/motion.rs:35-91 | The loop ends after at most 188 turns, whatever is drawn. |
| Courses.FreeWalkArrives | crates/fallingsand_sim/src/motion.rs:35-91 | A cell in nobody's way arrives exactly at its drawn steps. |
| Courses.FreeWalkStaysNearLine | crates/fallingsand_sim/src/motion.rs:46-90 | And on its whole way it keeps within one step of the straight line there. |
| Courses.StopsOneAxis | crates/fallingsand_sim/src/motion.rs:46-90 | A cell that is blocked, or has to wait, gives up its steps along that axis alone. |
| Courses.GrainsGoWithTheirWeight | crates/fallingsand_sim/src/motion.rs:319-352 | A grain's step goes down into something lighter, sideways into something lighter or air, up into anything of another weight, never into a body, a solid or a powder, and through a cell that has moved only if it is air; and nothing else stops it. |
| Travel.Traverse | crates/fallingsand_sim/src/motion.rs:35-91 | The walk in place: the moving cell, with its material and shade, is where the result says; the world is that of the walk for the draws made; all else is a move. |
| Travel.Stride | crates/fallingsand_sim/src/motion.rs:46-90 | One turn of the loop. |
| Travel.SwapThroughLiquid | crates/fallingsand_sim/src/motion.rs:163-223 | Mover and liquid change places, both with the exchanged velocities. |
| Motion.ExchangeDrift | crates/fallingsand_sim/src/motion.rs:163-223 | Before clamping, an exchange shifts the total momentum by rounding only. |
| Motion.ScatterIsNoGain | crates/fallingsand_sim/src/motion.rs:258-265 | The scatter makes no speed: its factors are the legs of a triangle whose hypotenuse is at most one. |
| Impacts.WakeComesOf | crates/fallingsand_sim/src/motion.rs:163-223 | What the wake of an exchange is made of: what is kept, the masses, the side, the relative velocity. |
| Impacts.WakeIsATurn | crates/fallingsand_sim/src/motion.rs:163-223 | It is the relative velocity turned to the side of the draw, never against it, and no longer than what is kept, up to one unit along each axis. |
| Impacts.WakeIsOfTheMassRatio | crates/fallingsand_sim/src/motion.rs:258-265 | The square of its sideways part is the lighter mass over the heavier, that of its forward part the rest. |
| Impacts.ExchangeSeparates | crates/fallingsand_sim/src/motion.rs:163-223 | After an exchange mover and liquid part with the wake, up to one unit along each axis, when no density is exchanged. |
| Bounces.SinkingPaysForThePush | crates/fallingsand_sim/src/motion.rs:225-247 | The sideways push of a heavier liquid that sinks has at most the energy that sinking by one cell sets free, with what the lighter one gains in return, and is as fast as that allows; no other exchange has one. |
| Bounces.LesserKeepCounts | crates/fallingsand_sim/src/motion.rs:249-256 | Of two liquids the one that keeps less decides. |
| Motion.StepCellsTrackVelocity | crates/fallingsand_sim/src/motion.rs:311-317 | A step count goes with the velocity, is off by less than a cell unless capped, and is at most 31. |
| Motion.DivideSignedIsNearest | crates/fallingsand_sim/src/motion.rs:399-402 | Signed division rounds to the nearest. |
| Motion.TransferDrift | crates/fallingsand_sim/src/motion.rs:354-397 | What a mover loses its blocker gains, up to half the total mass. |
| Impacts.TransferRebounds | crates/fallingsand_sim/src/motion.rs:354-397 | The gain is added to the blocker with the right sign and axis: along the direction the momentum is kept up to half the masses, the closing speed becomes the bounce, up to one unit, the other component stays. |
| Impacts.DeltasAddUp | crates/fallingsand_sim/src/motion.rs:354-397 | What the mover loses and the blocker gains together undo the closing speed and add the bounce, up to one unit. |
| Travel.TransferMomentum | crates/fallingsand_sim/src/motion.rs:354-397 | The mover keeps its velocity unless it closes in; then both are written, and nothing else changes. Along the direction total momentum is kept up to half the masses, the two end up parting by the bounce up to one unit, and across the direction nothing changes (the predicate of TransferRebounds). |
| Travel.WriteVelocity | crates/fallingsand_sim/src/motion.rs:271-292 | A cell is left with a velocity it can keep, and only that cell. |
| Bounces.SlowCellsSettle | crates/fallingsand_sim/src/motion.rs:271-292 | A velocity is given up exactly if the cell is settled and slower than the limit; otherwise it is written as it is, but capped. |
| Bounces.GrainsSettleOnTheirWeight | crates/fallingsand_sim/src/motion.rs:134-145 | A grain settles exactly on what it cannot go into, by the weights; a gas under it. |
| Travel.CollideAll | crates/fallingsand_sim/src/motion.rs:110-133 | All four neighbours in turn, each with the velocity the ones before have left. |
| Bounces.BumpGivesNothing | crates/fallingsand_sim/src/motion.rs:110-133 | A neighbour takes speed from a grain that goes for it and gives none, across its direction nothing happens, and a solid throws the grain back with no more than its speed. |
| Travel.MoveGrain | crates/fallingsand_sim/src/motion.rs:93-145 | A grain travels, collides and comes to rest; its material and shade are where it ends; the count of every matter stays. |
| Fluids.MoveLiquid | crates/fallingsand_sim/src/liquid.rs:61-105 | A liquid's step is a move, determined by the draws made. |
| Fluids.RedirectImpact | crates/fallingsand_sim/src/liquid.rs:192-206 | A blocked liquid turns to an open side. |
| Bounces.RedirectTurnsAside | crates/fallingsand_sim/src/liquid.rs:192-206 | It goes on sideways only, into an open side, the way it was going if that is open, with the kept share of its speed and so no gain; it stops exactly if both sides are closed or nothing is kept. |
| Bounces.FloorStops | crates/fallingsand_sim/src/liquid.rs:74-88 | A floor that is no body's leaves a liquid only speed sideways, no more than it had. |
| Bounces.WallStops | crates/fallingsand_sim/src/liquid.rs:88-100 | A ceiling stops it upward, a wall throws it back, neither gives it speed. |
| Bounces.SlowLiquidsFallOn | crates/fallingsand_sim/src/liquid.rs:100-105 | Over something lighter that is no liquid it never comes to rest, over anything else it does when slow. |
| Fluids.Relax | crates/fallingsand_sim/src/liquid.rs:107-138 | A resting liquid flows downhill or levels out, as RestingLiquidSinks says of the function it computes. |
| Settling.RestingLiquidSinks | crates/fallingsand_sim/src/liquid.rs:107-138 | A resting liquid with something lighter below it changes places with such a cell, or stays and stays awake; when it draws to flow and the cells are free it does flow. With nothing lighter below it keeps to its row, and there only goes into something lighter. |
| Settling.DownhillIsLighter | crates/fallingsand_sim/src/liquid.rs:107-138 | The place chosen is below and lighter, and none is chosen exactly when none is. |
| Settling.DownhillIsSteepest | crates/fallingsand_sim/src/liquid.rs:107-138 | Straight down comes first, then the preferred side. |
| Settling.SlopeLaunches | crates/fallingsand_sim/src/liquid.rs:118-131 | Down a slope a liquid is launched to that side. |
| Settling.LaunchIsAFall | crates/fallingsand_sim/src/liquid.rs:118-131 | With the speed of a fall by one cell. |
| Settling.SurfacesDriftByRow | crates/fallingsand_sim/src/liquid.rs:158-164 | The surface drifts one way all along a row, the other way in the next. |
| Fluids.FlowDownhill | crates/fallingsand_sim/src/liquid.rs:107-138 | The two cells change places with their matter, and stay loose. |
| Fluids.RelaxInterface | crates/fallingsand_sim/src/liquid.rs:140-156 | An exposed liquid trades places with its supported neighbour to one side, as drawn. |
| Fluids.Flow | crates/fallingsand_sim/src/gas.rs:42-82 | A gas spreads to a side, by its draws. |
| Settling.RestingGasRises | crates/fallingsand_sim/src/gas.rs:42-82 | A gas at rest rises into what is free above it and waits, awake, for what has just moved there; otherwise it goes sideways or up to the side, never down. |
| Fluids.MoveCell | crates/fallingsand_sim/src/rules.rs:41-58 | Each phase of cell moves by its own rule, and nothing else happens to the window; body cells and cells that have moved stay. |
| Kernel.MovementPass | crates/fallingsand_sim/src/kernel.rs:123-144 | Four phases in any order: the count of every material and shade stays, every body cell is untouched, the caches stay sound, and the world is exactly that of the windows of each phase, run on the chunks as they were. The blows and laid-bare places are those of all windows of all phases one after the other; every place where an obstacle went is among them, and every blow is at a cell of the body it names. |
| Kernel.RunPhase | crates/fallingsand_sim/src/kernel.rs:146-197 | A phase finds the windows with awake chunks, seats each loaded chunk in its window and puts the results back; blows and laid-bare cells come out in the order of the windows. |
| Kernel.PhaseWindowsDisjoint | crates/fallingsand_sim/src/kernel.rs:146-197 | Two windows of one phase share no chunk, though windows are four chunks wide. |
| Kernel.OwnerIsUnique | crates/fallingsand_sim/src/kernel.rs:200-214 | Over all four phases a chunk is owned by one window, in its own phase. |
| Kernel.OwnedHasRoom | crates/fallingsand_sim/src/kernel.rs:200-214 | All that a cell of an owned chunk can reach is in its window and loaded. |
| Kernel.RunWindowsIsSimultaneous | crates/fallingsand_sim/src/kernel.rs:146-197 | Running the windows one after the other is running each on the chunks as they were. |
| Kernel.OrderDoesNotMatter | crates/fallingsand_sim/src/kernel.rs:146-197 | So any order gives the same world, for every kernel. |
| Kernel.PhaseOrderIsFree | crates/fallingsand_sim/src/kernel.rs:146-197 | In particular the parallel run of the source, for the movement kernel with given draws. |
| Kernel.WindowMovesWorld | crates/fallingsand_sim/src/kernel.rs:146-197 | A move of a window, put back, is a move of the world. |
| Kernel.SimulateBlock | crates/fallingsand_sim/src/kernel.rs:216-256 | The rows of a block upwards, each in a drawn direction. |
| Kernel.BlockTakesEachOnce | crates/fallingsand_sim/src/kernel.rs:216-256 | Whatever the directions, every cell of the awake rectangles of owned chunks is taken once, and no other. |
| Kernel.AwakeCellsAreTaken | crates/fallingsand_sim/src/kernel.rs:200-256 | A cell is taken exactly if its chunk is one of the four in the middle, is to be simulated and has all neighbours loaded, and the cell is in the rectangle of what is awake there. |
| Kernel.FindMembers | crates/fallingsand_sim/src/kernel.rs:146-197 | The seat of every chunk in its window. |
| Islands.DetectDetachedIsland | crates/fallingsand_sim/src/body/island.rs:19-72 | An island comes back if and only if the seed's whole bonded component hangs free within the limits of extent and size, and then it is that component in row order: the answer does not depend on the order of the search. |
| Islands.RigidTerrain | crates/fallingsand_sim/src/body/island.rs:11-17 | Bondable solid cells that are no body's. |
| Islands.IsSupported | crates/fallingsand_sim/src/body/island.rs:74-95 | A cell is supported exactly by hard solids it does not bond to, and by powder below it, if they are no body's. |
| Parts.LabelParts | crates/fallingsand_sim/src/body/mod.rs:748-778 | Two survivors have one label if and only if a chain of bonds connects them; labels are used without a gap. |
| Parts.PartsWeighTheWhole | crates/fallingsand_sim/src/body/mod.rs:780-792 | The masses of the labels add up to that of all survivors. |
| BodyState.ComputeInertia | crates/fallingsand_sim/src/body/state.rs:107-144 | The two passes over the slots compute mass, centre, moment, reach, restitution and friction; Weighing.BodyEnergyIsItsCells, RadiusReachesAll and SurfaceIsExtreme say what these are. |
| BodyState.RebasedSlotsMatchRaster | crates/fallingsand_sim/src/body/state.rs:146-163 | At the reference pose every cell of the raster is where its slot says. |
| BodyState.RasterIsDistinct | crates/fallingsand_sim/src/body/state.rs:181-187 | However a body turns, no two of its cells land on one. |
| Weighing.BodyEnergyIsItsCells | crates/fallingsand_sim/src/body/contact.rs:266-291 | A body's kinetic energy is that of its cells, carried along and round the centre of mass, exactly but for the rounding of the centre and the cells so close to it that they count as a square; both are bounded. |
| Weighing.RadiusReachesAll | crates/fallingsand_sim/src/body/state.rs:107-144 | The radius is the least number of whole cells that reaches beyond every cell of the body. |
| Weighing.SurfaceIsExtreme | crates/fallingsand_sim/src/body/state.rs:107-144 | A body bounces like its bounciest cell and slides like its slickest. |
| BodyState.ReferenceRaster | crates/fallingsand_sim/src/body/state.rs:181-187 | At its reference pose a body rasterises to its raster, for it lies on its slots. |
| BodyState.RebasedIsAtReference | crates/fallingsand_sim/src/body/state.rs:245-250 | Rebasing brings a body to its reference pose. |
| BodyState.OwnersAreDisjoint | crates/fallingsand_sim/src/body/mod.rs:573-635 | Bodies that own their cells never overlap. |
| BodyState.Release | crates/fallingsand_sim/src/body/state.rs:295-325 | A cell a body can no longer hold is freed and spills into a free neighbour; no matter is lost and no other body cell is touched. |
| BodyState.OutletIsFirst | crates/fallingsand_sim/src/body/state.rs:295-325 | The neighbour is the first of those above, to the left, to the right and below that is air or gas and no body's. |
| BodyState.Capture | crates/fallingsand_sim/src/body/state.rs:252-293 | A new body takes hold of exactly its cells, which keep their matter, and is at its reference pose, its slots on its raster, at rest and free to move and turn. |
| Reconcile.SurveyBody | crates/fallingsand_sim/src/body/mod.rs:711-745 | The body is missing a chunk, or its survivors are found in order with whether anything changed; cells it lost are released. |
| Reconcile.DerivePart | crates/fallingsand_sim/src/body/mod.rs:796-833 | A part is at its own reference pose, its slots on its raster; it has its own inertia, moves as its place in the body moved, and goes on with the body's spin and accumulators as far as it may turn. |
| Breaking.PartKeepsMomentum | crates/fallingsand_sim/src/body/mod.rs:796-833 | Each part carries the momentum its cells had in the motion of the whole body, up to the rounding of its centre and its velocity. |
| Breaking.ComIsMean | crates/fallingsand_sim/src/body/state.rs:189-195 | A body's centre is the mean of its cells' middles by mass, up to half a unit. |
| Breaking.SpeedIsNearest | crates/fallingsand_sim/src/body/rotation.rs:95-100 | The speed a spin gives at a lever is the nearest integer. |
| Reconcile.ReconcileBody | crates/fallingsand_sim/src/body/mod.rs:705-794 | Intact exactly if it owns its cells, parked exactly if a chunk is missing, gone exactly if nothing survives, and otherwise split into the bonded components of its survivors, each at its reference pose on its own cells, whose masses add up. |
| Reconcile.PartsAreApart | crates/fallingsand_sim/src/body/mod.rs:780-793 | Two parts share no cell. |
| Reconcile.SplitKeepsMass | crates/fallingsand_sim/src/body/mod.rs:780-793 | The parts of a split weigh together what the survivors weigh. |
| Reconcile.Bodies.ReconcileAt | crates/fallingsand_sim/src/body/mod.rs:573-635 | One body meets its fate; only its own cells change. |
| Reconcile.Bodies.ReconcileAll | crates/fallingsand_sim/src/body/mod.rs:573-635 | The loop ends although it appends parts; every body met the fate that was right for it in the world as it was; the list is the bodies in place, then the parts split off; the reports say which; fully loaded bodies own all their cells and share none; no matter is made or lost. |
| Reshape.Reshape | crates/fallingsand_sim/src/body/mod.rs:248-345 | A reshape is carried out exactly if the body is known, the shape is one, no claimed cell is blocked and every displaced fluid finds a home; refused, it changes nothing; done, the body owns its new shape, each fluid has a home of its own, and all loose matter is accounted for: what is gone lay on the body's own places, or was given an unloaded home. |
| Reshape.FindHomes | crates/fallingsand_sim/src/body/mod.rs:293-307 | The homes are those of the search: vacated cells first, then the surface above. |
| Reshape.HomesForAreHomes | crates/fallingsand_sim/src/body/mod.rs:293-307 | Whatever homes are found are different, free, and outside the claim. |
| Reshape.SoundIsNotRefused | crates/fallingsand_sim/src/body/mod.rs:265-307 | A reshape with a sound plan is never refused. |
| Reshape.FindSpot | crates/fallingsand_sim/src/body/mod.rs:835-858 | The first free cell above, within the probe. |
| Reshape.SpotIsFirst | crates/fallingsand_sim/src/body/mod.rs:835-858 | The search above a fluid finds the first open cell within 64 that is reached past claimed cells and loose fluids or air alone, if and only if there is one. |
| Reshape.HomeIsFirst | crates/fallingsand_sim/src/body/mod.rs:293-308 | So each fluid beyond the places the body leaves goes to the first open cell above it that none before it has taken. |
| Reshape.DenserGoLower | crates/fallingsand_sim/src/body/mod.rs:284-300 | Of the places the body leaves the denser fluids get the lower ones. |
| Reshape.ReshapeAccounts | crates/fallingsand_sim/src/body/mod.rs:293-329 | For every matter, what is left of it, what lay loose on the body's own places, and what was given an unloaded home make up what there was. |
| Reshape.ReshapeConservesExactly | crates/fallingsand_sim/src/body/mod.rs:293-329 | No matter is lost if and only if the body's places hold nothing loose and each place it leaves that takes a fluid is loaded. |
| Reshape.GrainUnderABodyIsLost | crates/fallingsand_sim/src/body/mod.rs:310-326 | A reshape that is granted and loses a grain: a body steps off a place whose cell is not its own. |
| Reshape.FluidAtTheEdgeIsLost | crates/fallingsand_sim/src/body/mod.rs:293-319 | A reshape that is granted and loses a fluid: a body steps over it from a place where no chunk is loaded, which becomes the home of the fluid. |
| Reshape.OwnedReshapeConserves | crates/fallingsand_sim/src/body/mod.rs:310-326 | When the body owns its cells no loose matter is lost. |
| Reshape.RebuildIndex | crates/fallingsand_sim/src/body/mod.rs:566-571 | The index finds every body by its id. |
| Contact.ResolvingIsSound | crates/fallingsand_sim/src/body/contact.rs:226-263 | Whatever the contacts, resolving them does not raise the kinetic energy of the whole; every contact ends up pushing, drags no more than friction allows for its push, and aims at the rebound of the closing speed it started with. |
| Contact.BlowIsLocal | crates/fallingsand_sim/src/body/contact.rs:145-208 | A blow changes the whole energy by what it changes that of its two sides: the running energy is the real one. |
| Contact.BlowKeepsMomentum | crates/fallingsand_sim/src/body/contact.rs:145-208 | Unless the peer is held by its ground, what one side gains the other loses, up to rounding. |
| Landing.ClosingIsRelative | crates/fallingsand_sim/src/body/contact.rs:120-128 | The closing speed is the velocity of the body's place relative to the other side's, along the direction. |
| Landing.BlowRaisesClosing | crates/fallingsand_sim/src/body/contact.rs:145-208 | A blow raises it by its share of each mass, for sides that do not turn, up to the rounding of two components of each. |
| Landing.BlowTurns | crates/fallingsand_sim/src/body/contact.rs:329-350 | A blow beside the centre turns the body so that the struck place gives way, by its torque over the moment. |
| Landing.BlowKeepsCellMomentum | crates/fallingsand_sim/src/body/contact.rs:145-208 | Between a body and a loose cell momentum is kept up to rounding. |
| Landing.PushRaisesEnergy | crates/fallingsand_sim/src/body/contact.rs:145-208 | The energy a central push adds has the sign of twice the closing speed and what the push adds to it. |
| Landing.OnePush | crates/fallingsand_sim/src/body/contact.rs:239-249 | One push at a contact on the ground under the centre brings the closing speed to the target, or leaves a body alone that does not need it. |
| Landing.GroundContactResolves | crates/fallingsand_sim/src/body/contact.rs:226-263 | A single contact with the ground under the centre is resolved: a body that closes in leaves at the rebound, exactly along an axis and at most one below it along a diagonal; one that does not close in keeps its speed along the normal. |
| Response.BlowGains | crates/fallingsand_sim/src/body/contact.rs:305-350 | A blow anywhere at a body that may turn moves the struck place along itself by its share of the mass and, by the square of the lever, of the moment, up to rounding. |
| Response.MassIsInverse | crates/fallingsand_sim/src/body/contact.rs:67-83 | The effective mass is the inverse of that. |
| Response.GroundBlowMeetsGoal | crates/fallingsand_sim/src/body/contact.rs:226-263 | So one blow of the size the resolver wants, wherever it strikes a body on the ground, brings the closing speed to the goal up to an explicit rounding. |
| Response.PairBlowMeetsGoal | crates/fallingsand_sim/src/body/contact.rs:130-143 | And between any two sides that answer, bodies that turn or loose cells, along any direction. |
| Response.FixedBodiesFallShort | crates/fallingsand_sim/src/body/contact.rs:305-350 | A body that may not turn gains of a need beside its centre only the part that goes without turning, for its effective mass has the lever in it all the same. |
| Response.StandingIsNotPressed | crates/fallingsand_sim/src/body/contact.rs:329-350 | A body that stands is not pressed down by a blow from above. |
| Response.ReboundIsAShare | crates/fallingsand_sim/src/body/contact.rs:226-237 | The target of an approach is its share by the restitution; of a parting nothing is asked. |
| Response.FrictionIsAShare | crates/fallingsand_sim/src/body/contact.rs:251-262 | The limit of friction is its share of the push. |
| Contact.WeighedIsWellMade | crates/fallingsand_sim/src/body/contact.rs:67-83 | Every body with the inertia of its own cells can be resolved. |
| Contact.EffectiveMass | crates/fallingsand_sim/src/body/contact.rs:67-83 | An effective mass is at least one. |
| Contact.Guarded | crates/fallingsand_sim/src/body/contact.rs:145-208 | A blow that would raise the energy is taken back. |
| Contact.MorePush | crates/fallingsand_sim/src/body/contact.rs:239-249 | The accumulated push never becomes a pull. |
| Contact.MoreDrag | crates/fallingsand_sim/src/body/contact.rs:251-262 | The accumulated drag stays within the friction limit. |
| Contact.Resolver.Strike | crates/fallingsand_sim/src/body/contact.rs:329-350 | Both sides are struck in place. |
| Contact.Resolver.Apply | crates/fallingsand_sim/src/body/contact.rs:145-208 | Strikes, and restores bodies, cells and running energy if it rose. |
| Contact.Resolver.KineticEnergy | crates/fallingsand_sim/src/body/contact.rs:210-214 | The sum over bodies and cells. |
| Contact.Resolver.ContactEnergy | crates/fallingsand_sim/src/body/contact.rs:216-224 | The energy of the two sides of a contact. |
| Contact.Resolver.Resolve | crates/fallingsand_sim/src/body/contact.rs:226-263 | The loops over an array of contacts compute the resolved bout. |
| Rotation.RotationIsABijection | crates/fallingsand_sim/src/body/rotation.rs:163-176 | Rotation is a bijection of the lattice for every step and centre. |
| Rotation.RotationKeepsCellsApart | crates/fallingsand_sim/src/body/rotation.rs:163-176 | It never brings two points together. |
| Rotation.RotateOffset | crates/fallingsand_sim/src/body/rotation.rs:163-176 | The loop of quarter turns and the three shears in place compute it. |
| Rotation.Decompose | crates/fallingsand_sim/src/body/rotation.rs:135-141 | The nearest number of quarter turns and what remains. |
| Rotation.TableIsOdd | crates/fallingsand_sim/src/body/rotation.rs:5-71 | The shears of opposite turns are opposite. |
| Rotation.TableIsBounded | crates/fallingsand_sim/src/body/rotation.rs:5-71 | The bounds of the table. |
| Rotation.RotationComesBack | crates/fallingsand_sim/src/body/rotation.rs:163-176 | Turns below an eighth either way, and whole quarters, are undone exactly by the opposite turn about the same centre. |
| Rotation.ReversibleIsExact | crates/fallingsand_sim/src/body/rotation.rs:163-176 | And no other, even for a centre within half a cell of the anchor: for every other step there is such a centre and a point that does not come back. |
| Rotation.CentredIsExact | crates/fallingsand_sim/src/body/rotation.rs:163-176 | About a centre on the anchor the steps near half a turn (97 to 159) come back for every point as well, and no further ones. |
| Rotation.CentredHalfTurn | crates/fallingsand_sim/src/body/rotation.rs:163-176 | Near half a turn the shears of both ways cancel about such a centre, for every odd table. |
| BodyState.CentreIsNearAnchor | crates/fallingsand_sim/src/body/state.rs:146-163 | At the reference pose no body's centre of mass is further than half a cell from its anchor along either axis, though both are rounded. |
| Turning.ComingBackIsExact | crates/fallingsand_sim/src/body/state.rs:181-187 | A step and the rest of the full turn give every body back all its cells if and only if the step is below an eighth either way or a whole number of quarters; for each other step and each material a bar or a cross of that material, at its reference pose, does not come back. |
| Rotation.RoundingStaysClose | crates/fallingsand_sim/src/body/rotation.rs:147-152 | Rounding the shears moves a cell less than 1.4 cells along x and 0.9 along y. |
| Rotation.RotationStaysClose | crates/fallingsand_sim/src/body/rotation.rs:163-176 | So for every step of the table, every centre and point. |
| Angles.FirstHeadings | crates/fallingsand_sim/src/body/rotation.rs:163-176 | Step 0 turns nothing, step 64 is a quarter turn, anticlockwise. |
| Angles.EveryStepTurnsOn | crates/fallingsand_sim/src/body/rotation.rs:6-72 | From every step to the next, all 256 round, the table turns a body on by the same angle, up to a unit and a half of the table. |
| Angles.HeadingsAreUnits | crates/fallingsand_sim/src/body/rotation.rs:6-72 | And stretches nothing, up to a unit. |
| Angles.RotationTurns | crates/fallingsand_sim/src/body/rotation.rs:163-176 | So any two cells of a body are apart as before, turned by the heading of the step, up to 2.8 and 1.8 cells of rounding and 0.00002 of their distance. |
| SpawnSearch.EveryOffsetOnce | crates/fallingsand_server/src/player.rs:273-292 | The search goes through the whole plane: every offset comes up once, at its computed index. |
| SpawnSearch.NearerComesFirst | crates/fallingsand_server/src/player.rs:273-292 | In the order of the distance. |
| SpawnSearch.NextIsNext | crates/fallingsand_server/src/player.rs:273-292 | Each advance is the next place, ring by ring. |
| SpawnSearch.NearPositionsAreCandidates | crates/fallingsand_server/src/player.rs:260-267 | All positions nearer than the edge of the coordinates can be represented. |
| SpawnSearch.SpawnSearch.Candidate | crates/fallingsand_server/src/player.rs:260-267 | The position, or none where it overflows. |
| SpawnSearch.SpawnSearch.Advance | crates/fallingsand_server/src/player.rs:273-292 | Moves in place to the next place, and stops at the last ring. |
| SpawnSearch.SpawnSearch.Enumerate | crates/fallingsand_server/src/player.rs:260-292 | Driven step by step, it yields the plane in order up to the first position that cannot be represented. |
| Rows.OrderIsUnique | crates/fallingsand_sim/src/body/island.rs:69-71 | Items of different rows can be put in row order in one way only. |
| Rows.SortByRow | crates/fallingsand_server/src/regions.rs:174-176 | Sorting by row is a permutation in row order. |

## Findings

Statements one might expect that do not hold of the code, each with the condition under which they
do, and what the proofs say about branches that cannot be taken.

- **A meta load passes over the batch in flight.** `request_region` and `load_player_record` look
  into the batch in flight, `load_meta` does not. It is right exactly when nothing is in flight, or
  the batch has no meta, or a newer one is pending, or the store already has the batch's
  (`MetaReadIsLatest`, `LoadMeta`). `MetaInFlightIsMissed` is a run that gets it wrong: stage a meta
  on a fresh server, hand it to the worker, load.
- **A save with no worker drops the batch.** `start_save` takes everything pending before it looks
  for the worker, so without one the batch is lost with the error; with a worker that has died it
  is put back (`StartSave`, last clause).
- **One rolled tick per frame.** A change rectangle lives for two generations. With two rolled
  ticks between frames a change is never sent (`TwoTicksLoseAChange`); with at most one the client
  mirrors the server in every run (`ClientMirrorsServer`).
- **No return between frames.** A chunk that a client knows may unload at any time, and the next
  frame takes it from the client. But if it changes, unloads and comes back before that frame, it
  comes back with an empty change rectangle and the change is never sent (`ReturnLosesAChange`). The
  server's tick keeps clear of that: regions come in before any is given back, and the tick ends
  with a frame.
- **Turns that do not come back.** Turning by a step and by its opposite about the same centre gives
  every body back all its cells if and only if the step is less than an eighth of a turn either way
  or a whole number of quarters (`ReversibleIsExact`, `ComingBackIsExact`). For every other step some
  bar of two rows, or a cross of five cells, of any one material has a cell that lands elsewhere.
  A body's centre is within half a cell of its anchor (`CentreIsNearAnchor`); if it is the anchor
  itself, the steps from 97 to 159 come back too, and no further ones (`CentredIsExact`).
- **Bodies that may not turn are pushed too weakly beside their centre.** The effective mass has the
  lever in it for every body, but a blow turns only those that may turn. For these, and for a blow
  through the centre, one blow of the size the resolver wants brings the closing speed to its goal
  (`GroundBlowMeetsGoal`, `PairBlowMeetsGoal`). For a body that may not turn the gain is to the need as
  I d^2 to I d^2 + m l^2, with the moment I, the mass m and the lever l (`FixedBodiesFallShort`): it
  meets the need, up to rounding, if and only if the lever is zero.
- **A restitution above one.** A push that would raise the energy is taken back, so at a single
  contact along an axis a target beyond the speed of the approach is not pursued at all
  (`GroundContactResolves`).
- **What a reshape loses.** Matter that is not the body's but lies on the body's own places is
  overwritten, and a fluid is dropped when the place it is sent to, one the body leaves, is in no
  loaded chunk. Nothing else loose is lost (`ReshapeAccounts`), so all loose matter is conserved if
  and only if neither occurs (`ReshapeConservesExactly`); `GrainUnderABodyIsLost` and
  `FluidAtTheEdgeIsLost` are reshapes that are granted and lose a cell. A body that owns its cells
  meets the condition (`OwnedReshapeConserves`). In the server's tick `integrate`, which reconciles
  the bodies, runs before the controllers, which make the only calls of `reshape`: a body whose
  chunks are loaded owns its cells then (`ReconcileAll`), so a loss needs a body that is partly out
  of the loaded world, or one that something takes a cell from in between.
- **Dead branches.** The branch of `manage_regions` for an answer that does not match its request is
  never taken (`ReadyEntriesAreRequested`), nor is a save outcome without a batch ever reported
  (`SaveOutcomesHaveABatch`).

## Left out

What the repository does that the model does not:

- Chemistry, effects, random ticks and the other passes of the kernel beside movement.
- Integration of body motion, ground contacts, detaching islands from the world, parked seeds, the
  event journal, buoyancy, traction, wakes of sleeping bodies.
- Species, controllers, inventory, lifecycle, sessions, transport, world generation (an arbitrary
  function of the position), the rendering client.
- The fog's visibility scan and the spawn search's window; only what is revealed and where the
  search goes is modelled.
- Serialising (postcard) and compressing (lz4) are taken as exact inverses; the limit on the
  decompressed size, which no region of the model reaches, is not modelled.
- Counters and debug rectangles: change counts, replicated cells, timings.
- Orders of hash maps and hash sets are arbitrary choices.
- 32-bit wrap-around of cell positions and offsets: coordinates are unbounded integers, regions
  have coordinates that fit a chunk position of 32 bits.
- The bodies' index by id is not kept while reconciling; it is rebuilt in `Reshape.RebuildIndex`.

Where a contract promises less than the source does, or asks for more:

- Regions.Rewrite: stands for everything that rewrites loaded chunks while regions are unloaded
  (settling bodies, despawning mobs); it promises only that the same chunks stay loaded.
- Reshape.Reshape: asks that the places the body holds and keeps are loaded, where the source panics
  otherwise.
- Reconcile.BodyIds.Allocate: ids are unbounded, so running out of 32-bit ids is not modelled.
- Contact.Resolver.Resolve: impulses and energies are unbounded integers, so the narrowing casts of
  velocities to 64 bits are not modelled. Of several contacts at once it promises what
  Contact.ResolvingIsSound states; how near they all come to their targets in eight rounds is not
  stated.
- PersistenceObjects.PersistenceWorker.DrainCompletions: a worker that is gone is reported as
  disconnected; that the source reports the message of its panic, if it ended by one, is not modelled.
- PersistenceObjects.Persistence.ShutDown: a panic of the worker thread is a parameter, and the
  text of its message is not modelled.
- PersistenceObjects.PersistenceWorker.Turn: the worker takes its turns when the server waits or
  between steps; its thread is not modelled otherwise.
- PersistenceObjects.Persistence.StagePlayers: the records, or the error of the first player that
  cannot be recorded, are handed in; how a record is made of a player and a body is not modelled.
- PersistenceObjects.Persistence.LoadMeta: a stored record that does not parse, or has another
  format, is handed in as the error; the bytes of the record are not modelled.
- PersistenceObjects.Persistence.LoadPlayerRecord: a stored record that does not parse is handed in
  as the error; the bytes of the record are not modelled.
- Windows.SimWindow.SlotOf: asks for a position inside the window, as the source's debug assertion
  does. What a release build does outside of it is not modelled: Kernel.OwnedHasRoom and the reach
  proved of every rule show that no rule gets there.
- Replication.ClientMirrorsServer: asks that at most one tick lies between two frames, and that a
  known chunk does not come back between giving chunks back and the next frame; without either it
  is false (Replication.TwoTicksLoseAChange, Replication.ReturnLosesAChange).
- Replication.BuildTiles: the pair of ticks and frames is a sequence of events; the rate at which
  frames are sent is not modelled.
- CellCodec.PackIndices: works on numbers; Words.OrIsPlus and Words.NarrowOrIsEnough state that the
  machine words of the source compute the same.
- Rotation.RotationIsABijection: holds for any table of shears, of which the source has one.
- ChunkObject.RefreshSight: the fog and sight masks are sequences of Booleans, not packed bytes.
- Windows.SimWindow.Set: the slots of a window are a sequence of chunk values, so the aliasing of
  chunks between windows is excluded by construction; Kernel.PhaseWindowsDisjoint proves that it
  cannot happen.
