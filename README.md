# ReplayStudio core in Dafny

A model of two parts of ReplayStudio, the library that reads, filters and rewrites
Minecraft replay files, with proofs about the model.

**SquashFilter** condenses a stretch of a replay into the smallest set of packets that
recreates the world state at its end. `onPacket` consumes every packet and folds it into
the filter's state:
- per-entity buffers and an accumulated displacement;
- the world scalars (join, respawn, difficulty, game mode, experience, abilities);
- chunk columns and per-voxel block changes, and deferred chunk unloads;
- window and inventory packets, the team table and the map table.

`onEnd` turns that state back into packets. It sorts them stably by time and inserts
them at the cut timestamp, followed by the team and map packets.

The model is layered:
- `SquashModel` (squash_spec.dfy) is a pure state machine: `Step` for `onPacket` and
  `Finish` for `onEnd`, with lemmas about both.
- `Squash.SquashFilter` (squash_filter.dfy) is a class with the filter's fields, and
  each of its methods is proved to agree with those functions.
- The smaller modules hold the parts:
  - `Motion`: the displacement flush loop;
  - `Entities`: per-entity tracking;
  - `Teams`: pending team membership;
  - `Chunks`: the coordinate packing, the voxel index, and the `ChunkData` class over
    its two 16-slot arrays;
  - `Sorting`: a stable sort by time;
  - `SquashEnd`: the collection loops of `onEnd`.

**ReplayInputStream** decodes the packet log of a replay file. After the constructor
has chosen the phases, `readPacket` does two things:
- it fills a queue (`fillBuffer`) from segments of the form `next, length, payload`;
- it polls the head of that queue.

Each segment goes through three stages:
- the raw-registry switch, including the anonymisation of the JoinGame packet;
- the version translator;
- the output loop, which drops KeepAlive packets and suppressed login packets and
  tracks the protocol state.

`StreamModel` (stream_spec.dfy) states the decoder as functions of an immutable decoder
state (`Round`, `Frame`, `Fill`, `Read`). `StreamFacts` (stream_facts.dfy) proves the
framing, phase and queue properties. `ReplayStream.ReplayInputStream`
(replay_input_stream.dfy) is the class with the stream's fields. Its byte-level loops are
proved to agree with `StreamModel`, and its `Valid()` invariant carries the queue
cleanliness property between calls.

Integer widths are explicit where they matter:
- Java `int` is written as `Int32`, and `readInt` as big-endian two's complement;
- Java's truncating `/` and `%` appear as `JavaDiv` and `JavaRem`;
- the `(short)` cast of the voxel index is computed in `bv16`.

Where the code does something other than its documented or evidently intended behaviour, the model follows the code:
- The decoder's end marker is EITHER header int being -1, not both. A -1 only in the
  `next` field ends the current `fillBuffer` call, and a later `readPacket` reads on.
  This is `StreamFacts.RoundStops`.
- A ConfigRegistries packet is stored AND still handed to the translator
  (`StreamFacts.RawPhaseStates`, `StreamFacts.SegmentTranslates`).
- Only the JoinGame read from the file is anonymised. The LoginSuccess that the
  constructor synthesizes for old files carries fixed placeholders, and LoginSuccess
  packets read from the file pass through unchanged.
- A chunk load followed by an unload of the same column leaves neither a column nor a
  deferred unload (`SquashModel.LoadThenUnloadLeavesNothing`).
- The displacement flush loop runs only while ALL three axes are non-zero, so
  displacement can be lost (`Motion.SingleAxisDisplacementIsDropped`,
  `Motion.ResidualCanRemain`). `Motion.FlushWhileAny` is the loss-free reference loop.
- The REMOVE_PLAYER array of an updated team is built from `added`, not `removed`. Removed
  names are lost (`Teams.RemovedPlayerIsLost`), and names that were only added are added
  and then removed again (`Teams.AddedPlayersAreRemovedAgain`).
- A CREATE after a REMOVE keeps the team REMOVED, so the re-created team is lost
  (`Teams.CreateAfterRemoveIsLost`).
- The column for a block change is looked up with the block's own x and z, not its
  chunk's (`SquashModel.BlockLookupUsesBlockCoordinates`).
- Voxels of a section with the same negative `z % 16` all share one index, whatever
  their x and y (`Chunks.VoxelIndexNegativeZ`, `Chunks.VoxelIndexCollidesForNegativeZ`).

Assumptions about code outside the two files:
- `Utils.readInt` is four `read()` calls, giving -1 when any of them meets the end,
  else the big-endian signed int;
- `withLoginSuccess` gives CONFIGURATION from protocol 764 (1.20.2) on, else PLAY;
- a negative buffer capacity is refused by the allocator, as IllegalArgumentException;
- `Collections.sort` is a stable sort.
- `PacketUtils.getEntityId` gives -1 for every destroy packet and every other packet
  class that can name several entities, even when the packet names only one. If it gave
  that single id instead, the filter would buffer such a destroy rather than remove the
  entity.

## Model

| member | source | states |
|---|---|---|
| `Common.ToInt32` | src/main/java/com/replaymod/replaystudio/io/ReplayInputStream.java:146-147 | The low 32 bits of an integer read as two's complement: congruent to it modulo 2^32 and equal to it when it already fits in an int. |
| `Common.JavaDiv` | src/main/java/com/replaymod/replaystudio/filter/SquashFilter.java:586 | Java's int division truncates toward zero: the quotient brackets the dividend from below for non-negative and from above for negative dividends. |
| `Common.JavaRem` | src/main/java/com/replaymod/replaystudio/filter/SquashFilter.java:590 | Java's int remainder satisfies `a == (a / b) * b + a % b` and takes the sign of the dividend. |
| `Common.Enumerate` | src/main/java/com/replaymod/replaystudio/filter/SquashFilter.java:417 | Iteration over a hash-based collection lists every element exactly once, in an order the model does not fix. |
| `Motion.Within` | src/main/java/com/replaymod/replaystudio/filter/SquashFilter.java:439-441 | `Utils.within` clamps into `[lo, hi]` and leaves a value already inside unchanged. |
| `Motion.Clamp` | src/main/java/com/replaymod/replaystudio/filter/SquashFilter.java:439-441 | Each emitted relative move lies in the byte range `[-128, 127]` on every axis. |
| `Motion.AxisShrinks` | src/main/java/com/replaymod/replaystudio/filter/SquashFilter.java:439-444 | Subtracting the clamped amount never moves an axis away from zero, and strictly reduces a non-zero axis. |
| `Motion.ClampShrinks` | src/main/java/com/replaymod/replaystudio/filter/SquashFilter.java:438-444 | One iteration of the flush loop strictly reduces the total remaining displacement, so the loop terminates. |
| `Motion.FlushWhileAll` | src/main/java/com/replaymod/replaystudio/filter/SquashFilter.java:438-447 | The loop as written emits in-range moves, stops as soon as any axis is zero, and emits nothing when one axis starts at zero. |
| `Motion.FlushWhileAllConserves` | src/main/java/com/replaymod/replaystudio/filter/SquashFilter.java:438-447 | The moves emitted plus the residual left in the accumulator equal the starting displacement. |
| `Motion.FlushWhileAny` | src/main/java/com/replaymod/replaystudio/filter/SquashFilter.java:438-447 | A reference loop continuing while ANY axis is non-zero, for comparison: it emits in-range moves and leaves no residual. |
| `Motion.FlushWhileAnyIsLossFree` | src/main/java/com/replaymod/replaystudio/filter/SquashFilter.java:438-447 | The reference loop emits exactly the accumulated displacement. |
| `Motion.LiteralIsPrefixOfVariant` | src/main/java/com/replaymod/replaystudio/filter/SquashFilter.java:438-447 | The loop as written emits a prefix of the reference loop's moves, and the reference loop run on its residual emits the rest. |
| `Motion.SingleAxisDisplacementIsDropped` | src/main/java/com/replaymod/replaystudio/filter/SquashFilter.java:438 | A displacement along a single axis is never emitted by the loop as written, and would be by the reference loop. |
| `Motion.ResidualCanRemain` | src/main/java/com/replaymod/replaystudio/filter/SquashFilter.java:438-447 | With all axes non-zero the loop can still stop early: (200, 1, 1) emits (127, 1, 1) and keeps 73 units on x. |
| `Motion.FlushMotion` | src/main/java/com/replaymod/replaystudio/filter/SquashFilter.java:438-447 | The imperative loop over the three mutable axes computes FlushWhileAll: in-range moves, conservation, and at least one axis zero at exit. |
| `Packets.EntityIdOf` | src/main/java/com/replaymod/replaystudio/filter/SquashFilter.java:145-147 | The entity id of a packet: none for packets that name no entity, -1 for packets that name several. |
| `Packets.EntityIdsOf` | src/main/java/com/replaymod/replaystudio/filter/SquashFilter.java:148 | The ids a packet names; a single-entity packet names exactly its own id. |
| `Entities.Track` | src/main/java/com/replaymod/replaystudio/filter/SquashFilter.java:157-182 | One single-entity packet applied to its entity: a movement sets the on-ground flag, a position-class move adds to the accumulator, a rotation-class move sets yaw and pitch, a teleport sets the target and the on-ground flag and clears the accumulator and the rotation, any other packet is buffered; every packet stamps the time. Its contract is carried by `TrackAllWithoutTeleport`, `TrackAllBuffers`, `TrackAllStamps`, `TeleportResets`, `RotationKept` and `RotationOverwrites`. |
| `Entities.TrackAll` | src/main/java/com/replaymod/replaystudio/filter/SquashFilter.java:157-182 | The same update over a run of one entity's packets in arrival order; the lemmas named for `Track` state what a run does. |
| `Entities.TrackAllWithoutTeleport` | src/main/java/com/replaymod/replaystudio/filter/SquashFilter.java:157-168 | Without a teleport, each entity's accumulated displacement grows by exactly the relative moves of its position-class packets. |
| `Entities.TrackAllBuffers` | src/main/java/com/replaymod/replaystudio/filter/SquashFilter.java:179-182 | Packets that are neither movements nor teleports are buffered in arrival order, the location is untouched and the timestamp is that of the last packet. |
| `Entities.TrackAllStamps` | src/main/java/com/replaymod/replaystudio/filter/SquashFilter.java:181 | With or without a teleport, after each prefix of a run the entity holds the time of that prefix's last packet, and an empty run changes nothing. |
| `Entities.RotationKept` | src/main/java/com/replaymod/replaystudio/filter/SquashFilter.java:157-172 | A run with neither a teleport nor a rotation-class packet leaves yaw and pitch as they were. |
| `Entities.TeleportResets` | src/main/java/com/replaymod/replaystudio/filter/SquashFilter.java:173-181 | A teleport sets the location and the on-ground flag, zeroes the displacement, clears yaw and pitch and stamps its time. After a teleport-free run the entity holds the target and exactly the later moves, keeps its buffer plus the later buffered packets, has no rotation unless a rotation-class packet followed, and holds the time of the last packet. |
| `Entities.RotationOverwrites` | src/main/java/com/replaymod/replaystudio/filter/SquashFilter.java:169-172 | The latest rotation-class packet decides yaw and pitch unless a teleport or another rotation follows. |
| `Entities.TrackMany` | src/main/java/com/replaymod/replaystudio/filter/SquashFilter.java:147-153 | The loop over `getEntityIds`: a destroy removes each named id, any other packet is appended to the buffer of each named id, creating the entity. Its contract is carried by `DestroyRemovesNamed`, `MultiKeepsUnnamed` and `MultiAppendsToNamed`. |
| `Entities.DestroyRemovesNamed` | src/main/java/com/replaymod/replaystudio/filter/SquashFilter.java:148-150 | A destroy packet removes exactly the ids it names and leaves every other entity unchanged. |
| `Entities.MultiKeepsUnnamed` | src/main/java/com/replaymod/replaystudio/filter/SquashFilter.java:151-152 | Another multi-entity packet creates the named entities that are missing and leaves unnamed ones untouched. |
| `Entities.MultiAppendsToNamed` | src/main/java/com/replaymod/replaystudio/filter/SquashFilter.java:151-152 | The packet is appended to each named entity's buffer once per occurrence of its id, nothing else about the entity changes. |
| `Entities.KeptPackets` | src/main/java/com/replaymod/replaystudio/filter/SquashFilter.java:420-433 | The FOR_PACKETS filter over an entity's buffer: drops a multi-entity packet naming an entity that no longer exists. Its contract is carried by `KeptPacketsMembers` and `KeptPacketsAppend`, and the loop by `SquashEnd.CollectKept`. |
| `Entities.EntityPackets` | src/main/java/com/replaymod/replaystudio/filter/SquashFilter.java:418-451 | One entity's share of the batch: surviving buffered packets, then the teleport, the flushed moves and the rotation. `EntityMovesAreBounded` states the moves and `SquashEnd.CollectEntity` the loop that builds it. |
| `Entities.KeptPacketsMembers` | src/main/java/com/replaymod/replaystudio/filter/SquashFilter.java:420-433 | A buffered packet survives at finalize exactly when it names one entity or all the entities it names still exist. |
| `Entities.KeptPacketsAppend` | src/main/java/com/replaymod/replaystudio/filter/SquashFilter.java:420-433 | The survival filter keeps buffer order: it distributes over concatenation. |
| `Entities.EntityMovesAreBounded` | src/main/java/com/replaymod/replaystudio/filter/SquashFilter.java:438-447 | One relative-move packet per flushed delta, at the entity's last timestamp, carrying that delta; the deltas are in byte range and together with the residual account for the whole displacement. |
| `Teams.AddOneNet` | src/main/java/com/replaymod/replaystudio/filter/SquashFilter.java:350-355 | Adding a player cancels a pending removal or records an addition: its net change rises by one, capped at +1, and the added and removed sets stay disjoint. |
| `Teams.RemoveOneNet` | src/main/java/com/replaymod/replaystudio/filter/SquashFilter.java:357-362 | Removing a player cancels a pending addition or records a removal: its net change falls by one, capped at -1. |
| `Teams.AddRemoveCancel` | src/main/java/com/replaymod/replaystudio/filter/SquashFilter.java:350-362 | Adding then removing a player with no pending change restores the team, and so does removing then adding. |
| `Teams.AddPlayersKeepsDisjoint` | src/main/java/com/replaymod/replaystudio/filter/SquashFilter.java:350-356 | The ADD_PLAYER and CREATE loop keeps the pending sets disjoint and the team's status, name and attributes. |
| `Teams.RemovePlayersKeepsDisjoint` | src/main/java/com/replaymod/replaystudio/filter/SquashFilter.java:357-363 | The REMOVE_PLAYER loop keeps the pending sets disjoint and the team's status, name and attributes. |
| `Teams.AddPlayers` | src/main/java/com/replaymod/replaystudio/filter/SquashFilter.java:350-356 | The add loop over the names of a packet, one `AddOne` at a time. `AddOneNet` and `AddPlayersKeepsDisjoint` carry its contract, and `Squash.AddEach` is the loop proved equal to it. |
| `Teams.RemovePlayers` | src/main/java/com/replaymod/replaystudio/filter/SquashFilter.java:357-363 | The remove loop over the names of a packet, one `RemoveOne` at a time. `RemoveOneNet` and `RemovePlayersKeepsDisjoint` carry its contract, and `Squash.RemoveEach` is the loop proved equal to it. |
| `Teams.ApplyTeam` | src/main/java/com/replaymod/replaystudio/filter/SquashFilter.java:321-365 | The team table after one team packet: first sight fixes the status, REMOVE deletes a CREATED team, CREATE and UPDATE replace the attributes, CREATE and ADD_PLAYER add names, REMOVE_PLAYER removes them. `ApplyTeamFacts`, `RemoveOfUpdatedTeamIsIgnored` and `CreateAfterRemoveIsLost` carry its contract. |
| `Teams.ApplyTeamFacts` | src/main/java/com/replaymod/replaystudio/filter/SquashFilter.java:321-365 | A team packet changes only its own team; a known team keeps its status unless a REMOVE drops a CREATED team; an unknown team gets the status of its first action. |
| `Teams.RemoveOfUpdatedTeamIsIgnored` | src/main/java/com/replaymod/replaystudio/filter/SquashFilter.java:338-340 | A REMOVE of an UPDATED team leaves the table unchanged, so no removal is emitted later. |
| `Teams.CreateAfterRemoveIsLost` | src/main/java/com/replaymod/replaystudio/filter/SquashFilter.java:323-349 | A CREATE of a team already recorded as REMOVED keeps it REMOVED with the new attributes, so finalize emits only the removal. |
| `Teams.ToArray` | src/main/java/com/replaymod/replaystudio/filter/SquashFilter.java:478-479 | `toArray(new String[n])` has length n when n exceeds the set's size, else the set's size. |
| `Teams.TeamPackets` | src/main/java/com/replaymod/replaystudio/filter/SquashFilter.java:477-493 | One team's packets at finalize for a given enumeration of its added set. `UpdatedTeamPackets`, `CreatedAndRemovedTeamPackets`, `RemovedPlayerIsLost` and `AddedPlayersAreRemovedAgain` carry its contract. |
| `Teams.UpdatedTeamPackets` | src/main/java/com/replaymod/replaystudio/filter/SquashFilter.java:477-493 | An UPDATED team: no attribute packet without a color; ADD_PLAYER carries the added names; REMOVE_PLAYER carries added names or nulls and never a really removed name. |
| `Teams.RemovedPlayerIsLost` | src/main/java/com/replaymod/replaystudio/filter/SquashFilter.java:479 | A team that only lost player "a" emits a REMOVE_PLAYER packet whose one entry is null, because the array is built from `added`. |
| `Teams.AddedPlayersAreRemovedAgain` | src/main/java/com/replaymod/replaystudio/filter/SquashFilter.java:477-493 | An UPDATED team with added names and no more removed than added names emits ADD_PLAYER and then REMOVE_PLAYER both of its added names, because the removal array is built from `added`. |
| `Teams.CreatedAndRemovedTeamPackets` | src/main/java/com/replaymod/replaystudio/filter/SquashFilter.java:480-482 | A CREATED team is re-created with its attributes and added names; a REMOVED team is removed. |
| `Chunks.CoordToLong` | src/main/java/com/replaymod/replaystudio/filter/SquashFilter.java:606-608 | `coordToLong`: x in the high 32 bits and the low 32 bits of z. `CoordRoundTrip`, `LongRoundTrip` and `CoordToLongInjective` carry its contract. |
| `Chunks.LongToX` | src/main/java/com/replaymod/replaystudio/filter/SquashFilter.java:610-612 | `longToX`: the arithmetic shift right by 32, cast to int. `CoordRoundTrip` and `LongRoundTrip` carry its contract. |
| `Chunks.LongToZ` | src/main/java/com/replaymod/replaystudio/filter/SquashFilter.java:614-616 | `longToZ`: the low 32 bits cast to int. `CoordRoundTrip` and `LongRoundTrip` carry its contract. |
| `Chunks.CoordRoundTrip` | src/main/java/com/replaymod/replaystudio/filter/SquashFilter.java:606-616 | `longToX` and `longToZ` recover both coordinates of every packed key. |
| `Chunks.LongRoundTrip` | src/main/java/com/replaymod/replaystudio/filter/SquashFilter.java:606-616 | Packing the recovered coordinates gives the key back, so the packing is a bijection onto 64-bit keys. |
| `Chunks.CoordToLongInjective` | src/main/java/com/replaymod/replaystudio/filter/SquashFilter.java:606-608 | Distinct chunk coordinates never share a key. |
| `Chunks.Pack` | src/main/java/com/replaymod/replaystudio/filter/SquashFilter.java:590 | The three five-bit fields of the voxel index ORed into 16 bits. `PackedFieldsAreRecoverable` and `PackInjective` carry its contract. |
| `Chunks.VoxelIndex` | src/main/java/com/replaymod/replaystudio/filter/SquashFilter.java:590 | The `(short)` voxel index with Java's remainder. `VoxelIndexInjectiveOnNonNegative`, `VoxelIndexNegativeZ` and `VoxelIndexCollidesForNegativeZ` carry its contract. |
| `Chunks.PackedFieldsAreRecoverable` | src/main/java/com/replaymod/replaystudio/filter/SquashFilter.java:590 | For in-range x, y and z the three fields of the voxel index can be read back from it. |
| `Chunks.PackInjective` | src/main/java/com/replaymod/replaystudio/filter/SquashFilter.java:590 | For in-range fields the voxel index (after the short cast) is injective. |
| `Chunks.VoxelIndexInjectiveOnNonNegative` | src/main/java/com/replaymod/replaystudio/filter/SquashFilter.java:590 | For non-negative positions two voxels share an index only when their offsets within a section agree. |
| `Chunks.VoxelIndexNegativeZ` | src/main/java/com/replaymod/replaystudio/filter/SquashFilter.java:590 | A negative `z % 16` sets all high bits, so the index is just `z % 16` whatever x and y are. |
| `Chunks.VoxelIndexCollidesForNegativeZ` | src/main/java/com/replaymod/replaystudio/filter/SquashFilter.java:586-590 | (0, 0, -1) and (0, 1, -1) are distinct voxels of section 0 with the same index -1. |
| `Chunks.NewColumn` | src/main/java/com/replaymod/replaystudio/filter/SquashFilter.java:567-571 | A fresh ChunkData is well formed: 16 empty section slots and 16 empty block-change maps. |
| `Chunks.MergeSections` | src/main/java/com/replaymod/replaystudio/filter/SquashFilter.java:574-578 | The merged section array keeps 16 slots. |
| `Chunks.Merge` | src/main/java/com/replaymod/replaystudio/filter/SquashFilter.java:573-583 | `update` keeps a column well formed. |
| `Chunks.MergeNeverErases` | src/main/java/com/replaymod/replaystudio/filter/SquashFilter.java:573-583 | A non-null incoming section replaces its slot, a null one keeps the old slot, a stored section or biome is never erased, a non-null biome replaces the old one, and identity and block changes are unchanged. |
| `Chunks.UpdateBlock` | src/main/java/com/replaymod/replaystudio/filter/SquashFilter.java:598-604 | `updateBlock` keeps a column well formed. |
| `Chunks.Placeholder` | src/main/java/com/replaymod/replaystudio/filter/SquashFilter.java:592-594 | The `(0, null)` pair that `blockChanges` inserts for a voxel seen for the first time. `ChunkData.BlockChanges` inserts it and `SquashModel.PlaceholderIsEmitted` says when finalize emits it. |
| `Chunks.Stamp` | src/main/java/com/replaymod/replaystudio/filter/SquashFilter.java:598-603 | The time test of `updateBlock` on one voxel entry: a strictly newer change replaces the pair. `StampCommutes` and `UpdateBlockLastWriterWins` carry its contract. |
| `Chunks.StampCommutes` | src/main/java/com/replaymod/replaystudio/filter/SquashFilter.java:600-603 | Two recordings at different times into the same entry commute. |
| `Chunks.UpdateBlockLastWriterWins` | src/main/java/com/replaymod/replaystudio/filter/SquashFilter.java:585-604 | The voxel's entry ends with the later of its stored and the new time, and the new record only when newer; other voxels and sections and the terrain data are unchanged. |
| `Chunks.UpdateBlockOutOfRange` | src/main/java/com/replaymod/replaystudio/filter/SquashFilter.java:586-587 | A position whose section slot does not exist leaves the column as it was and reports the ArrayIndexOutOfBounds. |
| `Chunks.UpdateBlockOrderIndependent` | src/main/java/com/replaymod/replaystudio/filter/SquashFilter.java:598-604 | Two block changes to the same voxel at distinct times commute. |
| `Chunks.ChunkData.View` | src/main/java/com/replaymod/replaystudio/filter/SquashFilter.java:558-565 | The column a ChunkData object holds is well formed. |
| `Chunks.ChunkData.constructor` | src/main/java/com/replaymod/replaystudio/filter/SquashFilter.java:567-571 | A new object holds `NewColumn(firstAppearance, x, z)` in fresh arrays. |
| `Chunks.ChunkData.Update` | src/main/java/com/replaymod/replaystudio/filter/SquashFilter.java:573-583 | The array loop computes `Merge` of the old column with the incoming sections and biome, including the exception for a slot past 15. |
| `Chunks.ChunkData.BlockChanges` | src/main/java/com/replaymod/replaystudio/filter/SquashFilter.java:585-596 | Returns the voxel's entry, inserting the (0, null) placeholder when absent; fails with nothing changed for a missing section slot. |
| `Chunks.ChunkData.UpdateBlockAt` | src/main/java/com/replaymod/replaystudio/filter/SquashFilter.java:598-604 | The object's new column is `UpdateBlock` of the old one. |
| `Sorting.InsertSorted` | src/main/java/com/replaymod/replaystudio/filter/SquashFilter.java:472 | Inserting into a time-sorted sequence keeps it sorted and adds exactly the new element. |
| `Sorting.InsertMultiset` | src/main/java/com/replaymod/replaystudio/filter/SquashFilter.java:472 | Insertion adds exactly one copy of the element. |
| `Sorting.InsertOfTime` | src/main/java/com/replaymod/replaystudio/filter/SquashFilter.java:472 | Insertion keeps the order of packets with the same time and puts the new one last among them. |
| `Sorting.SortByTime` | src/main/java/com/replaymod/replaystudio/filter/SquashFilter.java:472 | The stable sort by time as insertion in arrival order. `SortSorted`, `SortPermutation` and `SortStable` carry its contract. |
| `Sorting.SortSorted` | src/main/java/com/replaymod/replaystudio/filter/SquashFilter.java:472 | The sort's result is ordered by time. |
| `Sorting.SortPermutation` | src/main/java/com/replaymod/replaystudio/filter/SquashFilter.java:472 | The sort's result is a permutation of its input. |
| `Sorting.SortStable` | src/main/java/com/replaymod/replaystudio/filter/SquashFilter.java:472 | The sort is stable: packets with the same time keep their input order, as `Collections.sort` guarantees. |
| `SquashModel.UpdateChunk` | src/main/java/com/replaymod/replaystudio/filter/SquashFilter.java:542-556 | `updateChunk` keeps every tracked column well formed under its own key and no coordinate both tracked and deferred. |
| `SquashModel.UpdateChunks` | src/main/java/com/replaymod/replaystudio/filter/SquashFilter.java:243-248 | The multi-chunk loop keeps the terrain invariant. |
| `SquashModel.UpdateChunksStops` | src/main/java/com/replaymod/replaystudio/filter/SquashFilter.java:245-247 | Once a column throws, the remaining columns of the packet are not processed. |
| `SquashModel.UnloadFacts` | src/main/java/com/replaymod/replaystudio/filter/SquashFilter.java:544-547 | An all-null column forgets a tracked column without deferring an unload, and defers the unload of an untracked coordinate to this time. |
| `SquashModel.LoadFacts` | src/main/java/com/replaymod/replaystudio/filter/SquashFilter.java:548-555 | A load cancels a deferred unload, creates the column at first appearance or keeps the existing one's, never erases a section or biome, touches no other key, and throws exactly when a section lies past slot 15. |
| `SquashModel.Unload` | src/main/java/com/replaymod/replaystudio/filter/SquashFilter.java:544-547 | The unload branch of `updateChunk`: forget a tracked column, else record the unload at this time. `UnloadFacts` carries its contract. |
| `SquashModel.Load` | src/main/java/com/replaymod/replaystudio/filter/SquashFilter.java:548-555 | The load branch of `updateChunk`: cancel a deferred unload, create the column on first sight and merge the sections, `false` when the merge throws. `LoadFacts` carries its contract. |
| `SquashModel.LoadThenUnloadLeavesNothing` | src/main/java/com/replaymod/replaystudio/filter/SquashFilter.java:542-556 | A load followed by an unload of the same column leaves neither a column nor a deferred unload. |
| `SquashModel.ApplyBlockChange` | src/main/java/com/replaymod/replaystudio/filter/SquashFilter.java:534-540 | `updateBlock` keeps the terrain invariant. |
| `SquashModel.ApplyBlockChanges` | src/main/java/com/replaymod/replaystudio/filter/SquashFilter.java:256-260 | The multi-block loop keeps the terrain invariant. |
| `SquashModel.ApplyBlockChangesStops` | src/main/java/com/replaymod/replaystudio/filter/SquashFilter.java:257-259 | Once a record throws, the remaining records of the packet are not processed. |
| `SquashModel.BlockChangeFrame` | src/main/java/com/replaymod/replaystudio/filter/SquashFilter.java:534-540 | A block change touches at most the column under the block's packed x and z, keeps the deferred unloads, and changes nothing when no column is there. |
| `SquashModel.BlockLookupUsesBlockCoordinates` | src/main/java/com/replaymod/replaystudio/filter/SquashFilter.java:536 | The block at (16, 64, 0), which lies in chunk (1, 0), is never recorded there: the lookup uses key (16, 0). |
| `SquashModel.PlaceholderIsEmitted` | src/main/java/com/replaymod/replaystudio/filter/SquashFilter.java:592-603 | A change at any time up to 0 to a voxel with no entry does not beat the (0, null) placeholder, which stays cached and is emitted by finalize as a block change with a null record at time 0. |
| `SquashModel.OnEntity` | src/main/java/com/replaymod/replaystudio/filter/SquashFilter.java:145-185 | The entity branch of `onPacket`: `TrackMany` for a multi-entity packet, else `Track` of the named entity. `Squash.SquashFilter.OnEntityPacket` is the code proved equal to it, and the `Entities` lemmas state what it does. |
| `SquashModel.OnWorldScalar` | src/main/java/com/replaymod/replaystudio/filter/SquashFilter.java:211-218 | The recorded join is always a JoinGame packet, so the cast of onEnd (line 393) cannot fail. |
| `SquashModel.OnTerrain` | src/main/java/com/replaymod/replaystudio/filter/SquashFilter.java:238-261 | Column and block packets keep the terrain invariant. |
| `SquashModel.OnTeam` | src/main/java/com/replaymod/replaystudio/filter/SquashFilter.java:321-365 | Team packets keep every team under its own name with disjoint pending sets. |
| `SquashModel.Step` | src/main/java/com/replaymod/replaystudio/filter/SquashFilter.java:136-376 | onPacket's state step keeps the filter's invariant. |
| `SquashModel.RespawnClears` | src/main/java/com/replaymod/replaystudio/filter/SquashFilter.java:222-236 | A respawn takes its four scalars, records itself, clears world, terrain, open window and entities, and keeps join, teams, maps and unhandled packets. |
| `SquashModel.OnRespawn` | src/main/java/com/replaymod/replaystudio/filter/SquashFilter.java:222-236 | The respawn branch: takes the respawn's four scalars and clears current world, terrain, open window and entities. `RespawnClears` carries its contract. |
| `SquashModel.OnWindow` | src/main/java/com/replaymod/replaystudio/filter/SquashFilter.java:284-318 | The window branches: close clears the open window and is recorded, window 0 keeps its items and the last change per slot, other window packets join the open window. `StepFrameStores` frames it, and `Squash.SquashFilter.OnWindowPacket` is the code proved equal to it. |
| `SquashModel.StepFrame` | src/main/java/com/replaymod/replaystudio/filter/SquashFilter.java:136-185 | Every packet sets the last timestamp; particles and confirm-transactions change nothing else; entity packets change only entities; team packets only teams. |
| `SquashModel.StepFrameStores` | src/main/java/com/replaymod/replaystudio/filter/SquashFilter.java:284-374 | A map packet replaces only its own map id, a window packet changes only the window stores, and a packet no store takes is kept in arrival order. |
| `SquashModel.StepFailsOnlyOnTerrain` | src/main/java/com/replaymod/replaystudio/filter/SquashFilter.java:238-261 | Only terrain packets can throw: a block change with a null record always does, and a chunk packet does exactly when a non-null section lies past slot 15. |
| `SquashModel.Values` | src/main/java/com/replaymod/replaystudio/filter/SquashFilter.java:386 | The values of a map in a given key order: one value per key (the contents are stated by `SquashEnd.CollectValues` and `SquashEnd.BatchFromParts`). |
| `SquashModel.UnloadedPart` | src/main/java/com/replaymod/replaystudio/filter/SquashFilter.java:454-458 | One packet per deferred coordinate; that each is the unload of its coordinate at its deferral time is `SquashModel.UnloadPacketCoordinates`. |
| `SquashModel.UnloadPacket` | src/main/java/com/replaymod/replaystudio/filter/SquashFilter.java:455-457 | The `ServerChunkDataPacket(x, z)` re-emitted for a deferred unload, at its deferral time. `UnloadPacketCoordinates` carries its contract. |
| `SquashModel.VoxelPackets` | src/main/java/com/replaymod/replaystudio/filter/SquashFilter.java:463-469 | One packet per cached voxel entry; the placeholder case is `SquashModel.PlaceholderIsEmitted`. |
| `SquashModel.SectionsPart` | src/main/java/com/replaymod/replaystudio/filter/SquashFilter.java:463-469 | The cached block changes of the first `n` sections, section by section. `SquashEnd.CollectColumn` is the loop proved to build it. |
| `SquashModel.ColumnPackets` | src/main/java/com/replaymod/replaystudio/filter/SquashFilter.java:461-469 | One column: its merged sections at first appearance, then its block changes. `SquashEnd.CollectColumn` carries its contract. |
| `SquashModel.ColumnsPart` | src/main/java/com/replaymod/replaystudio/filter/SquashFilter.java:460-470 | Every tracked column's packets for an enumeration of the columns. `SquashEnd.CollectColumns` carries its contract. |
| `SquashModel.EntitiesPart` | src/main/java/com/replaymod/replaystudio/filter/SquashFilter.java:417-452 | Every entity's packets for an enumeration of the entity ids. `SquashEnd.CollectEntities` carries its contract. |
| `SquashModel.AtCut` | src/main/java/com/replaymod/replaystudio/filter/SquashFilter.java:473-475 | One inserted packet per forwarded packet; that all carry the cut timestamp is `SquashModel.ForwardShape`. |
| `SquashModel.PacketsOf` | src/main/java/com/replaymod/replaystudio/filter/SquashFilter.java:473-474 | Dropping the timestamps keeps one packet per entry. |
| `SquashModel.Forward` | src/main/java/com/replaymod/replaystudio/filter/SquashFilter.java:472-475 | The sorted batch and then the trailing packets, all inserted at the cut. `ForwardShape` carries its contract. |
| `SquashModel.TeamsPart` | src/main/java/com/replaymod/replaystudio/filter/SquashFilter.java:477-497 | Every team's packets for an enumeration of the team table. `SquashEnd.CollectTeams` and the `Teams.TeamPackets` lemmas carry its contract. |
| `SquashModel.Batch` | src/main/java/com/replaymod/replaystudio/filter/SquashFilter.java:380-470 | The collected batch before sorting, in collection order. `SquashEnd.BatchFromParts` carries its contract. |
| `SquashModel.Finish` | src/main/java/com/replaymod/replaystudio/filter/SquashFilter.java:379-502 | Everything `onEnd` inserts, in order. `SquashEnd.FinishFromParts`, `ForwardShape` and `Squash.SquashFilter.OnEnd` carry its contract. |
| `SquashModel.ForwardShape` | src/main/java/com/replaymod/replaystudio/filter/SquashFilter.java:472-475 | The batch is forwarded sorted by time, as a stable permutation, followed by the trailing packets in order, all at the cut. |
| `SquashModel.JoinSurvivesRespawn` | src/main/java/com/replaymod/replaystudio/filter/SquashFilter.java:392-396 | Once a join was seen it is rebuilt at finalize with the latest scalars, even after a respawn, and no respawn packet is emitted. |
| `SquashModel.WorldPackets` | src/main/java/com/replaymod/replaystudio/filter/SquashFilter.java:392-408 | The world-scalar packets of finalize. `WorldPacketsWithJoin`, `WorldPacketsWithoutJoin` and `JoinSurvivesRespawn` carry its contract. |
| `SquashModel.WorldPacketsWithJoin` | src/main/java/com/replaymod/replaystudio/filter/SquashFilter.java:392-396 | A seen join is rebuilt at its own time from its entity id, hardcore flag and player limit with the current game mode, dimension, difficulty, world type and debug flag. |
| `SquashModel.WorldPacketsWithoutJoin` | src/main/java/com/replaymod/replaystudio/filter/SquashFilter.java:397-408 | Without a join: a seen respawn is rebuilt at its own time from the current scalars; otherwise exactly a difficulty packet and then a CHANGE_GAMEMODE notification at the last timestamp, each only when its scalar was seen. |
| `SquashModel.UnloadPacketCoordinates` | src/main/java/com/replaymod/replaystudio/filter/SquashFilter.java:454-458 | Each re-emitted unload carries the time it was deferred at, no sections, and coordinates packing back to its key. |
| `SquashEnd.CollectValues` | src/main/java/com/replaymod/replaystudio/filter/SquashFilter.java:386 | The generic `values()` loop, used for both the inventory slot changes (line 386) and the maps (lines 499-501), yields `Values` for some enumeration of the keys. |
| `SquashEnd.Survives` | src/main/java/com/replaymod/replaystudio/filter/SquashFilter.java:423-431 | The `continue FOR_PACKETS` test accepts exactly the emittable packets. |
| `SquashEnd.CollectKept` | src/main/java/com/replaymod/replaystudio/filter/SquashFilter.java:420-433 | The FOR_PACKETS loop keeps exactly the surviving buffered packets, in order. |
| `SquashEnd.CollectEntity` | src/main/java/com/replaymod/replaystudio/filter/SquashFilter.java:418-451 | One entity's finalize packets: survivors, teleport, flushed moves and rotation. |
| `SquashEnd.CollectEntities` | src/main/java/com/replaymod/replaystudio/filter/SquashFilter.java:417-452 | The entity loop yields the entities' share in some enumeration of the ids. |
| `SquashEnd.CollectUnloaded` | src/main/java/com/replaymod/replaystudio/filter/SquashFilter.java:454-458 | The deferred-unload loop yields one unload per coordinate in some enumeration. |
| `SquashEnd.CollectVoxels` | src/main/java/com/replaymod/replaystudio/filter/SquashFilter.java:465-467 | One section's cached changes in its map's iteration order. |
| `SquashEnd.CollectColumn` | src/main/java/com/replaymod/replaystudio/filter/SquashFilter.java:461-469 | One column's merged sections at first appearance, then every section's block changes. |
| `SquashEnd.CollectColumns` | src/main/java/com/replaymod/replaystudio/filter/SquashFilter.java:460-470 | The column loop yields every column's packets in some enumeration of the keys. |
| `SquashEnd.CollectTeams` | src/main/java/com/replaymod/replaystudio/filter/SquashFilter.java:477-497 | The team loop yields each team's packets, each team's added set iterated once. |
| `SquashEnd.InsertAll` | src/main/java/com/replaymod/replaystudio/filter/SquashFilter.java:473-475 | Inserting packets one by one at the cut yields `AtCut` of them. |
| `SquashEnd.BatchFromParts` | src/main/java/com/replaymod/replaystudio/filter/SquashFilter.java:380-470 | The batch onEnd sorts is the concatenation of what its loops collect, in source order. |
| `SquashEnd.FinishFromParts` | src/main/java/com/replaymod/replaystudio/filter/SquashFilter.java:472-501 | onEnd's output is the sorted batch, then the team packets, then the map packets, all at the cut. |
| `Squash.TrackIds` | src/main/java/com/replaymod/replaystudio/filter/SquashFilter.java:148-154 | The loop over `getEntityIds` computes `TrackMany`. |
| `Squash.AddEach` | src/main/java/com/replaymod/replaystudio/filter/SquashFilter.java:350-356 | The ADD_PLAYER/CREATE player loop computes `AddPlayers`. |
| `Squash.RemoveEach` | src/main/java/com/replaymod/replaystudio/filter/SquashFilter.java:357-363 | The REMOVE_PLAYER player loop computes `RemovePlayers`. |
| `Squash.ApplyTeamPacket` | src/main/java/com/replaymod/replaystudio/filter/SquashFilter.java:321-365 | The team branch computes `ApplyTeam` on the table. |
| `Squash.SquashFilter.constructor` | src/main/java/com/replaymod/replaystudio/filter/SquashFilter.java:103-128 | A new filter has the empty initial state. |
| `Squash.SquashFilter.UpdateChunkAt` | src/main/java/com/replaymod/replaystudio/filter/SquashFilter.java:542-556 | The fields' new terrain and the exception flag agree with `UpdateChunk`. |
| `Squash.SquashFilter.UpdateChunksAt` | src/main/java/com/replaymod/replaystudio/filter/SquashFilter.java:243-248 | The multi-chunk loop agrees with `UpdateChunks`. |
| `Squash.SquashFilter.UpdateBlockAt` | src/main/java/com/replaymod/replaystudio/filter/SquashFilter.java:534-540 | `updateBlock` agrees with `ApplyBlockChange`. |
| `Squash.SquashFilter.UpdateBlocksAt` | src/main/java/com/replaymod/replaystudio/filter/SquashFilter.java:256-260 | The multi-block loop agrees with `ApplyBlockChanges`. |
| `Squash.SquashFilter.OnEntityPacket` | src/main/java/com/replaymod/replaystudio/filter/SquashFilter.java:145-185 | The entity branch agrees with `OnEntity`. |
| `Squash.SquashFilter.OnWorldScalarPacket` | src/main/java/com/replaymod/replaystudio/filter/SquashFilter.java:188-220 | The world-scalar branches agree with `OnWorldScalar`. |
| `Squash.SquashFilter.OnRespawnPacket` | src/main/java/com/replaymod/replaystudio/filter/SquashFilter.java:222-236 | A respawn sets its four scalars and the respawn packet and clears world, chunks, unloads, open window and entities. |
| `Squash.SquashFilter.OnTerrainPacket` | src/main/java/com/replaymod/replaystudio/filter/SquashFilter.java:238-261 | The terrain branches agree with `OnTerrain`. |
| `Squash.SquashFilter.OnWindowPacket` | src/main/java/com/replaymod/replaystudio/filter/SquashFilter.java:294-318 | The window branches other than a close agree with `OnWindow`. |
| `Squash.SquashFilter.OnPacket` | src/main/java/com/replaymod/replaystudio/filter/SquashFilter.java:136-376 | onPacket drops every packet and moves the filter's state exactly as `Step`, keeping the invariant. |
| `Squash.SquashFilter.OnWorldPacket` | src/main/java/com/replaymod/replaystudio/filter/SquashFilter.java:145-261 | The entity, world-scalar, respawn and terrain branches agree with `Step`. |
| `Squash.SquashFilter.EntityStep` | src/main/java/com/replaymod/replaystudio/filter/SquashFilter.java:145-185 | An entity packet moves the state as `Step` does. |
| `Squash.SquashFilter.WorldScalarStep` | src/main/java/com/replaymod/replaystudio/filter/SquashFilter.java:188-220 | A world-scalar packet moves the state as `Step` does. |
| `Squash.SquashFilter.RespawnStep` | src/main/java/com/replaymod/replaystudio/filter/SquashFilter.java:222-236 | A respawn moves the state as `Step` does. |
| `Squash.SquashFilter.TerrainStep` | src/main/java/com/replaymod/replaystudio/filter/SquashFilter.java:238-261 | A terrain packet moves the state as `Step` does, with the same exception flag. |
| `Squash.SquashFilter.OnViewPacket` | src/main/java/com/replaymod/replaystudio/filter/SquashFilter.java:263-318 | World events and window packets move the state as `Step` does. |
| `Squash.SquashFilter.WorldEventStep` | src/main/java/com/replaymod/replaystudio/filter/SquashFilter.java:263-281 | A world event is appended to the current world, as `Step` does. |
| `Squash.SquashFilter.CloseWindowStep` | src/main/java/com/replaymod/replaystudio/filter/SquashFilter.java:284-288 | A close-window clears the open window and is recorded, as `Step` does. |
| `Squash.SquashFilter.WindowStep` | src/main/java/com/replaymod/replaystudio/filter/SquashFilter.java:294-318 | Window, item and slot packets move the window stores as `Step` does. |
| `Squash.SquashFilter.OnStorePacket` | src/main/java/com/replaymod/replaystudio/filter/SquashFilter.java:321-374 | Team, map and unhandled packets move the state as `Step` does. |
| `Squash.SquashFilter.TeamStep` | src/main/java/com/replaymod/replaystudio/filter/SquashFilter.java:321-365 | A team packet moves the state as `Step` does. |
| `Squash.SquashFilter.MapStep` | src/main/java/com/replaymod/replaystudio/filter/SquashFilter.java:368-372 | A map packet moves the state as `Step` does. |
| `Squash.SquashFilter.WorldShare` | src/main/java/com/replaymod/replaystudio/filter/SquashFilter.java:392-415 | The world packets of finalize: join, respawn or scalars, then experience and abilities. |
| `Squash.SquashFilter.OnEnd` | src/main/java/com/replaymod/replaystudio/filter/SquashFilter.java:379-502 | onEnd inserts exactly `Finish` of the filter's state for the iteration orders it met. |
| `StreamModel.WithLoginSuccess` | src/main/java/com/replaymod/replaystudio/io/ReplayInputStream.java:168 | After a login success the registry keeps its version and leaves LOGIN. |
| `StreamModel.Initial` | src/main/java/com/replaymod/replaystudio/io/ReplayInputStream.java:99-113 | The decoder state the constructor builds. `StreamFacts.InitialState` carries its contract, and `ReplayStream.ReplayInputStream.constructor` is proved to build it. |
| `StreamModel.Rejects` | src/main/java/com/replaymod/replaystudio/io/ReplayInputStream.java:115-117 | The constructor's IllegalArgumentException condition. `StreamFacts.InitialRejects` carries its contract. |
| `StreamModel.RawPhase` | src/main/java/com/replaymod/replaystudio/io/ReplayInputStream.java:164-186 | The switch on the raw packet type: raw registry transitions, captured registries, and the rewritten JoinGame. `StreamFacts.RawPhaseStates` and `StreamFacts.JoinGameAnonymised` carry its contract. |
| `StreamModel.DecodeOne` | src/main/java/com/replaymod/replaystudio/io/ReplayInputStream.java:192-193 | One translated buffer read as a packet of the registry the segment started with. The total registry lookup is listed under "Left out"; `StreamModel.Decode` maps it over the buffers. |
| `StreamModel.Decode` | src/main/java/com/replaymod/replaystudio/io/ReplayInputStream.java:191-194 | Every translated buffer decoded, in order. `ReplayStream.ReplayInputStream.DecodeAll` is the loop proved to compute it. |
| `StreamModel.Acknowledge` | src/main/java/com/replaymod/replaystudio/io/ReplayInputStream.java:209-214 | The translator notification sent only from 1.20.2 on. `StreamFacts.ConfigurationSwitches` and `StreamFacts.LoginSuccessLeavesLogin` carry its contract. |
| `StreamModel.Emits` | src/main/java/com/replaymod/replaystudio/io/ReplayInputStream.java:204-220 | Whether the output loop queues a packet: not a KeepAlive, and not a login packet while login output is suppressed. `StreamFacts.OutStepQueues` carries its contract. |
| `StreamModel.ReadInt` | src/main/java/com/replaymod/replaystudio/io/ReplayInputStream.java:146-147 | `readInt` never reads past the log, and a value other than -1 consumed exactly four bytes. |
| `StreamModel.OutStep` | src/main/java/com/replaymod/replaystudio/io/ReplayInputStream.java:202-232 | One pass of the output loop changes neither position, raw registry, registries tag, output flag, nor the registry's version. |
| `StreamModel.Output` | src/main/java/com/replaymod/replaystudio/io/ReplayInputStream.java:202-232 | The output loop changes neither position, raw registry, registries tag, output flag, nor the registry's version. |
| `StreamModel.Segment` | src/main/java/com/replaymod/replaystudio/io/ReplayInputStream.java:164-232 | Processing a segment never stops the fill loop, and keeps the position and the output flag. |
| `StreamModel.Round` | src/main/java/com/replaymod/replaystudio/io/ReplayInputStream.java:145-162 | A pass reads no further than the log, and a pass that continues has advanced. |
| `StreamModel.Frame` | src/main/java/com/replaymod/replaystudio/io/ReplayInputStream.java:148-162 | After the header a pass continues only when neither int is -1, and never moves backwards. |
| `StreamModel.Fill` | src/main/java/com/replaymod/replaystudio/io/ReplayInputStream.java:144-234 | `fillBuffer` never reads past the log. |
| `StreamModel.Read` | src/main/java/com/replaymod/replaystudio/io/ReplayInputStream.java:139-142 | `readPacket`: fill, then poll the head of the queue. `StreamFacts.ReadIsFifo`, `StreamFacts.ReadNullAtEnd`, `StreamFacts.ReadAtEndIsNull` and `StreamFacts.ReadNeverKeepAlive` carry its contract. |
| `StreamFacts.WordOfIntBytes` | src/main/java/com/replaymod/replaystudio/io/ReplayInputStream.java:146-147 | Four big-endian bytes of an int read back as its value modulo 2^32. |
| `StreamFacts.ReadIntRoundTrip` | src/main/java/com/replaymod/replaystudio/io/ReplayInputStream.java:146-147 | `readInt` inverts the big-endian encoding of every int, wherever it sits in the log. |
| `StreamFacts.RoundStops` | src/main/java/com/replaymod/replaystudio/io/ReplayInputStream.java:146-150 | A pass stops exactly when either header int reads -1, and then changes nothing but the position. |
| `StreamFacts.RoundSkipsEmpty` | src/main/java/com/replaymod/replaystudio/io/ReplayInputStream.java:151-153 | A zero-length segment is skipped, having consumed only its eight header bytes. |
| `StreamFacts.RoundRefusesNegative` | src/main/java/com/replaymod/replaystudio/io/ReplayInputStream.java:155 | A negative length other than -1 is refused by the allocator before any payload byte is read. |
| `StreamFacts.RoundPayload` | src/main/java/com/replaymod/replaystudio/io/ReplayInputStream.java:155-162 | With a positive length the pass throws EOFException exactly when the log ends first, and otherwise consumes exactly `length` payload bytes. |
| `StreamFacts.RoundReadsSegment` | src/main/java/com/replaymod/replaystudio/io/ReplayInputStream.java:145-162 | A recorded segment `next, length, payload` is read back as exactly that payload with that time. |
| `StreamFacts.RawPhaseStates` | src/main/java/com/replaymod/replaystudio/io/ReplayInputStream.java:164-187 | The raw switch: LoginSuccess leaves LOGIN, Reconfigure enters CONFIGURATION, ConfigFinish enters PLAY, ConfigRegistries stores the registries, and only a JoinGame's payload is rewritten. |
| `StreamFacts.JoinGameAnonymised` | src/main/java/com/replaymod/replaystudio/io/ReplayInputStream.java:179-186 | A JoinGame reaches the translator with entity id -1789435, game mode 3 and its other data as read. |
| `StreamFacts.SegmentTranslates` | src/main/java/com/replaymod/replaystudio/io/ReplayInputStream.java:189-200 | The translator is handed the prepared payload with its phase; a translator exception is rethrown (wrapped unless an IOException) with the queue and output registry unchanged. |
| `StreamFacts.OutStepQueues` | src/main/java/com/replaymod/replaystudio/io/ReplayInputStream.java:202-231 | A decoded packet is queued exactly when it is no KeepAlive and not in a suppressed login phase, at the segment's time, behind what is already queued. |
| `StreamFacts.DroppedChangesNothing` | src/main/java/com/replaymod/replaystudio/io/ReplayInputStream.java:204-220 | A dropped packet other than LoginSuccess changes no state. |
| `StreamFacts.LoginSuccessLeavesLogin` | src/main/java/com/replaymod/replaystudio/io/ReplayInputStream.java:209-216 | LoginSuccess ends the login phase and leaves LOGIN whether or not it is queued; from 1.20.2 on the translator is told of the acknowledgement. |
| `StreamFacts.ConfigurationSwitches` | src/main/java/com/replaymod/replaystudio/io/ReplayInputStream.java:221-230 | A queued ConfigFinish enters PLAY (acknowledged from 1.20.2 on); a queued Reconfigure enters CONFIGURATION. |
| `StreamFacts.SilentLogin` | src/main/java/com/replaymod/replaystudio/io/ReplayInputStream.java:217-220 | While login packets are not output, nothing is queued during the login phase. |
| `StreamFacts.OutputAppends` | src/main/java/com/replaymod/replaystudio/io/ReplayInputStream.java:202-232 | The output loop only appends, and everything it appends carries the segment's time. |
| `StreamFacts.OutputKeepsOrder` | src/main/java/com/replaymod/replaystudio/io/ReplayInputStream.java:191-232 | The packets a segment queues are a subsequence of the translator's output, in its order. |
| `StreamFacts.OutputKeepsLog` | src/main/java/com/replaymod/replaystudio/io/ReplayInputStream.java:202-232 | The output loop only adds to what the translator has been told. |
| `StreamFacts.OutputClean` | src/main/java/com/replaymod/replaystudio/io/ReplayInputStream.java:202-232 | The output loop never queues a KeepAlive, nor a LoginSuccess unless login packets are output. |
| `StreamFacts.SegmentClean` | src/main/java/com/replaymod/replaystudio/io/ReplayInputStream.java:164-232 | A segment keeps the queue free of KeepAlive and of suppressed LoginSuccess. |
| `StreamFacts.FrameClean` | src/main/java/com/replaymod/replaystudio/io/ReplayInputStream.java:148-232 | A pass after its header keeps the queue clean. |
| `StreamFacts.RoundClean` | src/main/java/com/replaymod/replaystudio/io/ReplayInputStream.java:145-232 | A pass keeps the queue clean. |
| `StreamFacts.FillClean` | src/main/java/com/replaymod/replaystudio/io/ReplayInputStream.java:144-234 | `fillBuffer` keeps the queue clean. |
| `StreamFacts.ReadIsFifo` | src/main/java/com/replaymod/replaystudio/io/ReplayInputStream.java:139-145 | With packets queued, `readPacket` reads nothing and returns the oldest one. |
| `StreamFacts.FillEmptyAtEnd` | src/main/java/com/replaymod/replaystudio/io/ReplayInputStream.java:145-150 | A fill that ends with nothing queued started with nothing queued and stopped just past an end marker. |
| `StreamFacts.ReadNullAtEnd` | src/main/java/com/replaymod/replaystudio/io/ReplayInputStream.java:139-150 | `readPacket` returns null only at the end of the stream: nothing was queued and an end marker was read. |
| `StreamFacts.ReadAtEndIsNull` | src/main/java/com/replaymod/replaystudio/io/ReplayInputStream.java:139-150 | Conversely, with nothing queued and an end marker next in the log, `readPacket` returns null, having consumed only the header. |
| `StreamFacts.ReadNeverKeepAlive` | src/main/java/com/replaymod/replaystudio/io/ReplayInputStream.java:139-142 | `readPacket` never returns a KeepAlive, nor a LoginSuccess when login packets are not output, and leaves the queue clean. |
| `StreamFacts.FillKeepsOutputFlag` | src/main/java/com/replaymod/replaystudio/io/ReplayInputStream.java:82 | Whether login packets are output never changes while reading. |
| `StreamFacts.InitialState` | src/main/java/com/replaymod/replaystudio/io/ReplayInputStream.java:99-113 | The constructor: login phase iff format 14 or later, login output iff opened in LOGIN, a synthesized LoginSuccess and PLAY for old files opened in LOGIN, LOGIN for new files opened elsewhere, and the raw registry on the file's protocol. |
| `StreamFacts.InitialRejects` | src/main/java/com/replaymod/replaystudio/io/ReplayInputStream.java:115-117 | The constructor throws exactly when the file's protocol is 1.20.2 or later and the raw registry's state is PLAY: a pre-14 file opened in LOGIN or PLAY. |
| `ReplayStream.ReplayInputStream.constructor` | src/main/java/com/replaymod/replaystudio/io/ReplayInputStream.java:99-113 | A new stream holds the constructor's state on an unread log. |
| `ReplayStream.ReplayInputStream.ReadByte` | src/main/java/com/replaymod/replaystudio/io/ReplayInputStream.java:122 | `in.read()`: the next byte and one step forward, or -1 at the end. |
| `ReplayStream.ReplayInputStream.ReadInt` | src/main/java/com/replaymod/replaystudio/io/ReplayInputStream.java:146-147 | The four reads agree with `StreamModel.ReadInt`. |
| `ReplayStream.ReplayInputStream.WriteBytes` | src/main/java/com/replaymod/replaystudio/io/ReplayInputStream.java:157 | `writeBytes` appends between one and `length` bytes of the log, or returns -1 at its end having read nothing. |
| `ReplayStream.ReplayInputStream.ReadPayload` | src/main/java/com/replaymod/replaystudio/io/ReplayInputStream.java:155-162 | The countdown loop reads exactly `length` bytes, or throws EOF having read the whole rest of the log. |
| `ReplayStream.ReplayInputStream.Translate` | src/main/java/com/replaymod/replaystudio/io/ReplayInputStream.java:193 | The converter is called once with the payload and phase, and that call is added to its history. |
| `ReplayStream.ReplayInputStream.DecodeAll` | src/main/java/com/replaymod/replaystudio/io/ReplayInputStream.java:191-196 | The decoded list reads every translated buffer with the current registry. |
| `ReplayStream.ReplayInputStream.OfferOne` | src/main/java/com/replaymod/replaystudio/io/ReplayInputStream.java:203-231 | One pass of the output loop agrees with `OutStep`. |
| `ReplayStream.ReplayInputStream.Offer` | src/main/java/com/replaymod/replaystudio/io/ReplayInputStream.java:202-232 | The output loop agrees with `Output`. |
| `ReplayStream.ReplayInputStream.Segment` | src/main/java/com/replaymod/replaystudio/io/ReplayInputStream.java:164-232 | The raw switch, translation and output loop agree with `StreamModel.Segment`. |
| `ReplayStream.ReplayInputStream.NextRound` | src/main/java/com/replaymod/replaystudio/io/ReplayInputStream.java:145-232 | One pass of the fill loop agrees with `Round`. |
| `ReplayStream.ReplayInputStream.NextFrame` | src/main/java/com/replaymod/replaystudio/io/ReplayInputStream.java:148-232 | A pass after its header agrees with `Frame`. |
| `ReplayStream.ReplayInputStream.FillBuffer` | src/main/java/com/replaymod/replaystudio/io/ReplayInputStream.java:144-234 | `fillBuffer` agrees with `Fill` and keeps the queue clean. |
| `ReplayStream.ReplayInputStream.ReadPacket` | src/main/java/com/replaymod/replaystudio/io/ReplayInputStream.java:139-142 | `readPacket` agrees with `Read` and keeps the queue clean. |
| `ReplayStream.Open` | src/main/java/com/replaymod/replaystudio/io/ReplayInputStream.java:99-118 | Opening fails exactly when the constructor throws; otherwise the stream holds the constructor's state. |

## Left out

- Floating point. `mx * 32` accumulates as integer 1/32-block units, and the division
  `/ 32d` of the emitted move is not modelled. Yaw and pitch are opaque values.
- Object identity of ChunkData inside the filter. `Squash.SquashFilter` keeps columns as
  values in a map, so aliasing between the map and a ChunkData object is not modelled.
  `Chunks.ChunkData` is verified on its own arrays against the same `Merge` and
  `UpdateBlock` functions.
- The write-back of the residual displacement into the entities at the end of `onEnd`.
  The filter is not used after `onEnd`.
- Iteration orders. HashMap and HashSet iteration orders are not modelled: `onEnd`
  picks enumerations (`Common.Enumerate`), and `Finish` takes them as a parameter.
- The downstream `PacketStream.insert`. It is modelled as the sequence of inserted
  packets.
- The second list of world-event classes (SquashFilter.java:263-278). It names respawn,
  block-change, multi-block-change and particle packets that earlier branches already
  consume; only its reachable classes are modelled.
- `currentBlocks`. It is only ever cleared, so it is always empty.
- The contents of packets no store reads. They are carried as opaque data.
- `onStart`, `getName` and `init`. They are registration boilerplate with no state.
- The version translator, packet registries, packet codecs and the registry-tag parser.
  They are code outside the two files, so they are parameters of a `Codec` value. The
  translator is a function of its history of calls, which is recorded in its `log`.
- StreamModel.DecodeOne: the registry lookup of a packet id is total, so an id a
  registry does not know is not modelled.
- Exceptions thrown in the raw phase. These come from `PacketConfigRegistries.read`,
  `PacketJoinGame.read` and `write`, and from the switch on the type of a raw packet the
  raw registry does not know (ReplayInputStream.java:164-186). They would propagate
  unwrapped, outside the try around the translator. The model's raw phase is total.
- VarInt decoding failures, ByteBuf allocation and release, and the reader-index reset.
  The model keeps payloads as immutable byte sequences.
- ReplayStream.ReplayInputStream.WriteBytes: a short read of the underlying stream is a
  choice of between one and `length` bytes. The real stream's chunking is not
  determined by the model.
- `read()`, `close()`, `getRegistry()` and `asPacketStream()`. They forward to the
  underlying stream or to a wrapper class.
- `CustomViaConfig` and `StudioDelegatingReplay`. They are not part of this model.
- ReplayStream.Open: the IllegalArgumentException of the constructor is modelled as
  `None`.
