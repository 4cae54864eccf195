/** The squash filter as a value: its state, the effect of one packet (onPacket)
    and the batch it forwards at the end (onEnd). The `SquashFilter` class is
    proved against these functions. */
module SquashModel {
  import opened Common
  import opened Motion
  import opened Chunks
  import opened Packets
  import opened Entities
  import opened Teams
  import opened Sorting

  /** The tracked columns, keyed by `coordToLong(x, z)`, and the deferred unloads
      with the time each was seen. */
  datatype Terrain = Terrain(chunks: map<Int64, Column>, unloaded: map<Int64, int>)

  /** The world-level scalars and the last packet of each kind that sets them. */
  datatype WorldScalars = WorldScalars(
    gameMode: Option<GameMode>,
    dimension: Option<int>,
    difficulty: Option<Difficulty>,
    worldType: Option<WorldType>,
    reducedDebugInfo: Option<bool>,
    joinGame: Option<PacketData>,
    respawn: Option<PacketData>,
    experience: Option<Packet>,
    abilities: Option<Packet>)

  /** The open window's packets, the close-window packets, and the main
      inventory's contents and slot changes. */
  datatype Windows = Windows(
    currentWindow: seq<PacketData>,
    closeWindows: seq<PacketData>,
    mainInventory: Option<PacketData>,
    mainInventoryChanges: map<int, PacketData>)

  /** The fields of SquashFilter, grouped. `currentBlocks` is left out: it is only
      ever cleared, so it is always empty. */
  datatype SquashState = SquashState(
    lastTimestamp: int,
    unhandled: seq<PacketData>,
    currentWorld: seq<PacketData>,
    entities: map<Int32, Entity>,
    teams: map<string, Team>,
    maps: map<int, Packet>,
    world: WorldScalars,
    windows: Windows,
    terrain: Terrain)

  function Initial(): SquashState {
    SquashState(0, [], [], map[], map[], map[],
                WorldScalars(None, None, None, None, None, None, None, None, None),
                Windows([], [], None, map[]),
                Terrain(map[], map[]))
  }

  /** Every tracked column is well formed and stored under the key of its own
      coordinates, and no coordinate is both tracked and marked unloaded. */
  predicate TerrainValid(t: Terrain) {
    && (forall k :: k in t.chunks ==> WellFormed(t.chunks[k]) && k == CoordToLong(t.chunks[k].x, t.chunks[k].z))
    && t.chunks.Keys !! t.unloaded.Keys
  }

  predicate JoinValid(w: WorldScalars) {
    w.joinGame.Some? ==> w.joinGame.value.packet.JoinGame?
  }

  predicate Inv(s: SquashState) {
    TerrainValid(s.terrain) && TableValid(s.teams) && JoinValid(s.world)
  }

  // ---------------------------------------------------------------------------
  // Chunk columns (updateChunk, SquashFilter.java:542-556)
  // ---------------------------------------------------------------------------

  /** `Utils.containsOnlyNull`. */
  predicate ContainsOnlyNull(sections: seq<Option<Section>>) {
    forall i :: 0 <= i < |sections| ==> sections[i].None?
  }

  /** The unload branch: forget a tracked column, or else defer the unload. */
  function Unload(t: Terrain, time: int, coord: Int64): Terrain {
    if coord in t.chunks then t.(chunks := t.chunks - {coord})
    else t.(unloaded := t.unloaded[coord := time])
  }

  /** The load branch: cancel a deferred unload, create the column at its first
      appearance if it is not tracked, and merge the sections into it. `false`
      when ChunkData.update throws. */
  function Load(t: Terrain, time: int, col: ColumnData): (Terrain, bool)
    requires forall k :: k in t.chunks ==> WellFormed(t.chunks[k])
  {
    var coord := CoordToLong(col.x, col.z);
    var base := if coord in t.chunks then t.chunks[coord] else NewColumn(time, col.x, col.z);
    var merged := Merge(base, col.sections, col.biome);
    (Terrain(t.chunks[coord := merged.0], t.unloaded - {coord}), merged.1)
  }

  /** updateChunk: an all-null column unloads, any other column loads. */
  function UpdateChunk(t: Terrain, time: int, col: ColumnData): (r: (Terrain, bool))
    requires TerrainValid(t)
    ensures TerrainValid(r.0)
  {
    if ContainsOnlyNull(col.sections) then (Unload(t, time, CoordToLong(col.x, col.z)), true)
    else Load(t, time, col)
  }

  /** The columns of a multi-chunk packet, in order, up to the first that throws. */
  function UpdateChunks(t: Terrain, time: int, cols: seq<ColumnData>): (r: (Terrain, bool))
    requires TerrainValid(t)
    ensures TerrainValid(r.0)
  {
    if cols == [] then (t, true)
    else
      var prev := UpdateChunks(t, time, cols[..|cols| - 1]);
      if !prev.1 then prev else UpdateChunk(prev.0, time, cols[|cols| - 1])
  }

  /** Once a column throws, the rest of the multi-chunk packet is not processed. */
  lemma {:induction false} UpdateChunksStops(t: Terrain, time: int, cols: seq<ColumnData>, n: nat)
    requires TerrainValid(t) && n <= |cols| && !UpdateChunks(t, time, cols[..n]).1
    ensures UpdateChunks(t, time, cols) == UpdateChunks(t, time, cols[..n])
    decreases |cols| - n
  {
    if n < |cols| {
      var init := cols[..|cols| - 1];
      assert init[..n] == cols[..n];
      UpdateChunksStops(t, time, init, n);
    } else {
      assert cols[..n] == cols;
    }
  }

  /** An all-null column forgets a tracked column without recording a deferred
      unload, and defers the unload of an untracked one to time `time`. */
  lemma UnloadFacts(t: Terrain, time: int, col: ColumnData)
    requires TerrainValid(t) && ContainsOnlyNull(col.sections)
    ensures var coord := CoordToLong(col.x, col.z);
            var (r, ok) := UpdateChunk(t, time, col);
            && ok
            && coord !in r.chunks
            && (coord in t.chunks ==> r.unloaded == t.unloaded && r.chunks == t.chunks - {coord})
            && (coord !in t.chunks ==> r.unloaded == t.unloaded[coord := time] && r.chunks == t.chunks)
  {
  }

  /** A load cancels the deferred unload, creates the column once (keeping the
      time and coordinates of its first appearance) and never replaces a stored
      section or biome with null. */
  lemma LoadFacts(t: Terrain, time: int, col: ColumnData)
    requires TerrainValid(t) && !ContainsOnlyNull(col.sections)
    ensures var coord := CoordToLong(col.x, col.z);
            var (r, ok) := UpdateChunk(t, time, col);
            && coord !in r.unloaded && coord in r.chunks
            && r.unloaded == t.unloaded - {coord}
            && (forall k :: k != coord ==> (k in r.chunks <==> k in t.chunks) && (k in r.chunks ==> r.chunks[k] == t.chunks[k]))
            && (coord !in t.chunks ==> r.chunks[coord].firstAppearance == time)
            && (coord in t.chunks ==> r.chunks[coord].firstAppearance == t.chunks[coord].firstAppearance)
            && r.chunks[coord].x == col.x && r.chunks[coord].z == col.z
            && (coord in t.chunks ==> forall j :: 0 <= j < 16 && t.chunks[coord].sections[j].Some? ==> r.chunks[coord].sections[j].Some?)
            && (coord in t.chunks && t.chunks[coord].biome.Some? ==> r.chunks[coord].biome.Some?)
            && (ok <==> SectionsFit(col.sections))
  {
    var coord := CoordToLong(col.x, col.z);
    if coord in t.chunks {
      CoordToLongInjective(col.x, col.z, t.chunks[coord].x, t.chunks[coord].z);
    }
  }

  /** A load followed by an unload of the same column leaves neither a tracked
      column nor a deferred unload behind. */
  lemma LoadThenUnloadLeavesNothing(t: Terrain, t1: int, load: ColumnData, t2: int, sections: seq<Option<Section>>)
    requires TerrainValid(t) && !ContainsOnlyNull(load.sections)
    requires ContainsOnlyNull(sections)
    ensures var coord := CoordToLong(load.x, load.z);
            var r := UpdateChunk(UpdateChunk(t, t1, load).0, t2, ColumnData(load.x, load.z, sections, None)).0;
            coord !in r.chunks && coord !in r.unloaded
  {
    LoadFacts(t, t1, load);
  }

  // ---------------------------------------------------------------------------
  // Block changes (updateBlock, SquashFilter.java:534-540)
  // ---------------------------------------------------------------------------

  /** The column is looked up with the BLOCK's x and z packed as if they were
      chunk coordinates; without a column under that key nothing changes. */
  function ApplyBlockChange(t: Terrain, time: int, rec: BlockRecord): (r: (Terrain, bool))
    requires TerrainValid(t)
    ensures TerrainValid(r.0)
  {
    var coord := CoordToLong(rec.pos.x, rec.pos.z);
    if coord in t.chunks then
      var updated := UpdateBlock(t.chunks[coord], time, rec);
      (t.(chunks := t.chunks[coord := updated.0]), updated.1)
    else (t, true)
  }

  function ApplyBlockChanges(t: Terrain, time: int, recs: seq<BlockRecord>): (r: (Terrain, bool))
    requires TerrainValid(t)
    ensures TerrainValid(r.0)
  {
    if recs == [] then (t, true)
    else
      var prev := ApplyBlockChanges(t, time, recs[..|recs| - 1]);
      if !prev.1 then prev else ApplyBlockChange(prev.0, time, recs[|recs| - 1])
  }

  /** Once a record throws, the rest of the multi-block packet is not processed. */
  lemma {:induction false} ApplyBlockChangesStops(t: Terrain, time: int, recs: seq<BlockRecord>, n: nat)
    requires TerrainValid(t) && n <= |recs| && !ApplyBlockChanges(t, time, recs[..n]).1
    ensures ApplyBlockChanges(t, time, recs) == ApplyBlockChanges(t, time, recs[..n])
    decreases |recs| - n
  {
    if n < |recs| {
      var init := recs[..|recs| - 1];
      assert init[..n] == recs[..n];
      ApplyBlockChangesStops(t, time, init, n);
    } else {
      assert recs[..n] == recs;
    }
  }

  /** A block change touches at most the column stored under the block's packed
      x/z, keeps the deferred unloads, and without such a column changes nothing. */
  lemma BlockChangeFrame(t: Terrain, time: int, rec: BlockRecord)
    requires TerrainValid(t)
    ensures var coord := CoordToLong(rec.pos.x, rec.pos.z);
            var r := ApplyBlockChange(t, time, rec).0;
            && r.chunks.Keys == t.chunks.Keys
            && (forall k :: k in t.chunks && k != coord ==> r.chunks[k] == t.chunks[k])
            && r.unloaded == t.unloaded
            && (coord !in t.chunks ==> ApplyBlockChange(t, time, rec) == (t, true))
  {
  }

  /** As written, the block at (16, 64, 0), which lies in chunk (1, 0), is never
      recorded in the tracked column (1, 0): the lookup uses key (16, 0). */
  lemma BlockLookupUsesBlockCoordinates(t: Terrain, time: int, block: int)
    requires TerrainValid(t)
    requires t.chunks.Keys == {CoordToLong(1, 0)}
    ensures ApplyBlockChange(t, time, BlockRecord(Position(16, 64, 0), block)) == (t, true)
  {
    CoordRoundTrip(1, 0);
    CoordRoundTrip(16, 0);
  }

  /** A block changed at a time that does not beat the fresh (0, null) placeholder
      (any time up to 0) leaves the placeholder cached; finalize emits it as a block
      change with a null record at time 0. */
  lemma PlaceholderIsEmitted(c: Column, time: int, rec: BlockRecord)
    requires WellFormed(c) && SectionInRange(rec.pos) && time <= 0
    requires VoxelIndex(rec.pos) !in c.blocks[SectionOf(rec.pos)]
    ensures var c' := UpdateBlock(c, time, rec).0;
            var y, idx := SectionOf(rec.pos), VoxelIndex(rec.pos);
            && idx in c'.blocks[y]
            && VoxelPackets(c'.blocks[y], [idx]) == [PacketData(0, BlockChange(None))]
  {
  }

  // ---------------------------------------------------------------------------
  // onPacket (SquashFilter.java:136-376)
  // ---------------------------------------------------------------------------

  /** An entity packet: several entities (-1) or one. */
  function OnEntity(es: map<Int32, Entity>, data: PacketData): map<Int32, Entity>
    requires EntityIdOf(data.packet).Some?
  {
    var id := EntityIdOf(data.packet).value;
    if id == -1 then TrackMany(es, EntityIdsOf(data.packet), data)
    else es[id := Track(Lookup(es, id), data)]
  }

  /** The world scalars a packet sets, except the respawn, which also clears stores. */
  predicate IsWorldScalar(p: Packet) {
    (p.NotifyClient? && p.notification == ChangeGameMode) || p.SetExperience? || p.PlayerAbilities?
    || p.ServerDifficulty? || p.JoinGame?
  }

  function OnWorldScalar(w: WorldScalars, data: PacketData): (r: WorldScalars)
    requires IsWorldScalar(data.packet)
    ensures JoinValid(w) ==> JoinValid(r)
  {
    var p := data.packet;
    if p.NotifyClient? then w.(gameMode := Some(p.value))
    else if p.SetExperience? then w.(experience := Some(p))
    else if p.PlayerAbilities? then w.(abilities := Some(p))
    else if p.ServerDifficulty? then w.(difficulty := Some(p.level))
    else w.(gameMode := p.gameMode, dimension := p.dimension, difficulty := p.difficulty,
            worldType := p.worldType, reducedDebugInfo := p.reducedDebugInfo, joinGame := Some(data))
  }

  /** A respawn takes its four scalars and forgets the world, the terrain, the open
      window and the entities; the join is kept. */
  function OnRespawn(s: SquashState, data: PacketData): SquashState
    requires data.packet.Respawn?
  {
    var p := data.packet;
    s.(world := s.world.(dimension := p.dimension, difficulty := p.difficulty, worldType := p.worldType,
                         gameMode := p.gameMode, respawn := Some(data)),
       currentWorld := [], terrain := Terrain(map[], map[]),
       windows := s.windows.(currentWindow := []), entities := map[])
  }

  predicate IsTerrain(p: Packet) {
    p.ChunkColumn? || p.MultiChunkColumn? || p.BlockChange? || p.MultiBlockChange?
  }

  /** Column and block packets; `false` where Java throws. */
  function OnTerrain(t: Terrain, data: PacketData): (r: (Terrain, bool))
    requires TerrainValid(t) && IsTerrain(data.packet)
    ensures TerrainValid(r.0)
  {
    var p := data.packet;
    if p.ChunkColumn? then UpdateChunk(t, data.time, p.column)
    else if p.MultiChunkColumn? then UpdateChunks(t, data.time, p.columns)
    else if p.BlockChange? then
      if p.record.None? then (t, false) else ApplyBlockChange(t, data.time, p.record.value)
    else ApplyBlockChanges(t, data.time, p.records)
  }

  predicate IsWindow(p: Packet) {
    p.CloseWindow? || p.WindowUpdate? || p.WindowItems? || p.SetSlot?
  }

  /** A close clears the open window; the main inventory (window 0) keeps its
      contents and the last change of each slot; any other window packet joins
      the open window's packets. */
  function OnWindow(w: Windows, data: PacketData): Windows
    requires IsWindow(data.packet)
  {
    var p := data.packet;
    if p.CloseWindow? then w.(currentWindow := [], closeWindows := w.closeWindows + [data])
    else if p.WindowItems? && p.windowId == 0 then w.(mainInventory := Some(data))
    else if p.SetSlot? && p.windowId == 0 then w.(mainInventoryChanges := w.mainInventoryChanges[p.slot := data])
    else w.(currentWindow := w.currentWindow + [data])
  }

  function OnTeam(teams: map<string, Team>, p: Packet): (r: map<string, Team>)
    requires TableValid(teams) && p.TeamPacket?
    ensures TableValid(r)
  {
    ApplyTeamFacts(teams, p.name, p.action, p.info, p.players);
    ApplyTeam(teams, p.name, p.action, p.info, p.players)
  }

  /** One packet, after `lastTimestamp` is set, sorted into the first store that
      takes it; particles and transaction confirmations are dropped, and a packet
      no store takes is kept in `unhandled`. The flag is false where Java throws
      (a section slot or a block section beyond the 16 slots, or a block change
      with a null record). */
  function Step(s0: SquashState, data: PacketData): (r: (SquashState, bool))
    requires Inv(s0)
    ensures Inv(r.0)
  {
    var s := s0.(lastTimestamp := data.time);
    var p := data.packet;
    if p.SpawnParticle? || p.ConfirmTransaction? then (s, true)
    else if EntityIdOf(p).Some? then (s.(entities := OnEntity(s.entities, data)), true)
    else if IsWorldScalar(p) then (s.(world := OnWorldScalar(s.world, data)), true)
    else if p.Respawn? then (OnRespawn(s, data), true)
    else if IsTerrain(p) then
      var (t, ok) := OnTerrain(s.terrain, data);
      (s.(terrain := t), ok)
    else if p.WorldEvent? then (s.(currentWorld := s.currentWorld + [data]), true)
    else if IsWindow(p) then (s.(windows := OnWindow(s.windows, data)), true)
    else if p.TeamPacket? then (s.(teams := OnTeam(s.teams, p)), true)
    else if p.MapData? then (s.(maps := s.maps[p.mapId := p]), true)
    else (s.(unhandled := s.unhandled + [data]), true)
  }

  // One lemma per store: the effect of Step on a packet that store takes.

  /** Step sets `lastTimestamp` first, so a state already stamped steps alike. */
  lemma StepRestamp(s: SquashState, data: PacketData)
    requires Inv(s)
    ensures Inv(s.(lastTimestamp := data.time))
    ensures Step(s.(lastTimestamp := data.time), data) == Step(s, data)
  {
    assert s.(lastTimestamp := data.time).(lastTimestamp := data.time) == s.(lastTimestamp := data.time);
  }

  lemma StepDrops(s: SquashState, data: PacketData)
    requires Inv(s) && (data.packet.SpawnParticle? || data.packet.ConfirmTransaction?)
    ensures Step(s, data) == (s.(lastTimestamp := data.time), true)
  {
  }

  lemma StepEntity(s: SquashState, data: PacketData)
    requires Inv(s) && EntityIdOf(data.packet).Some?
    ensures var s1 := s.(lastTimestamp := data.time);
            Step(s, data) == (s1.(entities := OnEntity(s1.entities, data)), true)
  {
  }

  lemma StepWorldScalar(s: SquashState, data: PacketData)
    requires Inv(s) && IsWorldScalar(data.packet)
    ensures var s1 := s.(lastTimestamp := data.time);
            Step(s, data) == (s1.(world := OnWorldScalar(s1.world, data)), true)
  {
  }

  lemma StepRespawn(s: SquashState, data: PacketData)
    requires Inv(s) && data.packet.Respawn?
    ensures Step(s, data) == (OnRespawn(s.(lastTimestamp := data.time), data), true)
  {
  }

  lemma StepTerrain(s: SquashState, data: PacketData)
    requires Inv(s) && IsTerrain(data.packet)
    ensures var s1 := s.(lastTimestamp := data.time);
            Step(s, data) == (s1.(terrain := OnTerrain(s1.terrain, data).0),
                              OnTerrain(s1.terrain, data).1)
  {
  }

  lemma StepWorldEvent(s: SquashState, data: PacketData)
    requires Inv(s) && data.packet.WorldEvent?
    ensures var s1 := s.(lastTimestamp := data.time);
            Step(s, data) == (s1.(currentWorld := s1.currentWorld + [data]), true)
  {
  }

  lemma StepWindow(s: SquashState, data: PacketData)
    requires Inv(s) && IsWindow(data.packet)
    ensures var s1 := s.(lastTimestamp := data.time);
            Step(s, data) == (s1.(windows := OnWindow(s1.windows, data)), true)
  {
  }

  lemma StepTeam(s: SquashState, data: PacketData)
    requires Inv(s) && data.packet.TeamPacket?
    ensures var s1 := s.(lastTimestamp := data.time);
            Step(s, data) == (s1.(teams := OnTeam(s1.teams, data.packet)), true)
  {
  }

  lemma StepMap(s: SquashState, data: PacketData)
    requires Inv(s) && data.packet.MapData?
    ensures var s1 := s.(lastTimestamp := data.time);
            Step(s, data) == (s1.(maps := s1.maps[data.packet.mapId := data.packet]), true)
  {
  }

  lemma StepUnhandled(s: SquashState, data: PacketData)
    requires Inv(s) && !data.packet.SpawnParticle? && !data.packet.ConfirmTransaction?
    requires EntityIdOf(data.packet).None? && !IsWorldScalar(data.packet) && !data.packet.Respawn?
    requires !IsTerrain(data.packet) && !data.packet.WorldEvent? && !IsWindow(data.packet)
    requires !data.packet.TeamPacket? && !data.packet.MapData?
    ensures var s1 := s.(lastTimestamp := data.time);
            Step(s, data) == (s1.(unhandled := s1.unhandled + [data]), true)
  {
  }

  /** A respawn empties the world, terrain, open-window and entity stores, takes
      its four scalars, and keeps an earlier join, the teams, the maps and the
      unhandled packets. */
  lemma RespawnClears(s: SquashState, data: PacketData)
    requires Inv(s) && data.packet.Respawn?
    ensures var r := Step(s, data).0;
            && r.currentWorld == [] && r.terrain == Terrain(map[], map[])
            && r.windows.currentWindow == [] && r.entities == map[]
            && r.world.dimension == data.packet.dimension && r.world.difficulty == data.packet.difficulty
            && r.world.worldType == data.packet.worldType && r.world.gameMode == data.packet.gameMode
            && r.world.respawn == Some(data) && r.world.joinGame == s.world.joinGame
            && r.teams == s.teams && r.maps == s.maps && r.unhandled == s.unhandled
  {
  }

  /** Every packet sets `lastTimestamp`; a particle or a transaction confirmation
      changes nothing else; an entity packet changes only the entities and a team
      packet only the teams. */
  lemma StepFrame(s: SquashState, data: PacketData)
    requires Inv(s)
    ensures var r := Step(s, data).0;
            var p := data.packet;
            var s1 := s.(lastTimestamp := data.time);
            && r.lastTimestamp == data.time
            && (p.SpawnParticle? || p.ConfirmTransaction? ==> r == s1)
            && (EntityIdOf(p).Some? ==> r == s1.(entities := r.entities))
            && (p.TeamPacket? ==> r == s1.(teams := r.teams))
  {
  }

  /** A map packet replaces only the map of its id, a window packet changes only
      the window stores, and a packet no store takes is kept in arrival order. */
  lemma StepFrameStores(s: SquashState, data: PacketData)
    requires Inv(s)
    ensures var r := Step(s, data).0;
            var p := data.packet;
            var s1 := s.(lastTimestamp := data.time);
            && (p.MapData? ==> r == s1.(maps := s.maps[p.mapId := p]))
            && (IsWindow(p) ==> r == s1.(windows := r.windows))
            && (p.Other? ==> r == s1.(unhandled := s.unhandled + [data]))
  {
  }

  /** Only a terrain packet can make onPacket throw: a block change with a null
      record always does, and a single column does exactly when it loads and holds
      a non-null section beyond the 16 slots. */
  lemma StepFailsOnlyOnTerrain(s: SquashState, data: PacketData)
    requires Inv(s)
    ensures !Step(s, data).1 ==> IsTerrain(data.packet)
    ensures data.packet.BlockChange? && data.packet.record.None? ==> !Step(s, data).1
    ensures data.packet.ChunkColumn? ==> (Step(s, data).1 <==> ContainsOnlyNull(data.packet.column.sections) || SectionsFit(data.packet.column.sections))
  {
  }

  // ---------------------------------------------------------------------------
  // onEnd (SquashFilter.java:379-502)
  // ---------------------------------------------------------------------------

  /** The iteration orders onEnd meets: the HashMap and HashSet iterations, all
      chosen by the runtime. */
  datatype Order = Order(
    inventorySlots: seq<int>,
    entityIds: seq<Int32>,
    unloaded: seq<Int64>,
    columns: seq<Int64>,
    voxels: map<Int64, seq<seq<int>>>,
    teamNames: seq<string>,
    teamAdded: map<string, seq<PlayerName>>,
    mapIds: seq<int>)

  ghost predicate IsOrderOf(o: Order, s: SquashState) {
    && IsEnumeration(o.inventorySlots, s.windows.mainInventoryChanges.Keys)
    && IsEnumeration(o.entityIds, s.entities.Keys)
    && IsEnumeration(o.unloaded, s.terrain.unloaded.Keys)
    && IsEnumeration(o.columns, s.terrain.chunks.Keys)
    && (forall k :: k in s.terrain.chunks ==>
          && k in o.voxels && |o.voxels[k]| == 16 && |s.terrain.chunks[k].blocks| == 16
          && forall y :: 0 <= y < 16 ==> IsEnumeration(o.voxels[k][y], s.terrain.chunks[k].blocks[y].Keys))
    && IsEnumeration(o.teamNames, s.teams.Keys)
    && (forall n :: n in s.teams ==> n in o.teamAdded && IsEnumeration(o.teamAdded[n], s.teams[n].added))
    && IsEnumeration(o.mapIds, s.maps.Keys)
  }

  /** `values()` of a map keyed by int, in the iteration order `ks`. */
  function Values<V>(m: map<int, V>, ks: seq<int>): (r: seq<V>)
    requires forall i :: 0 <= i < |ks| ==> ks[i] in m
    ensures |r| == |ks|
  {
    seq(|ks|, i requires 0 <= i < |ks| => m[ks[i]])
  }

  function OptionPacket(o: Option<PacketData>): seq<PacketData> {
    if o.Some? then [o.value] else []
  }

  function StampedOption(time: int, o: Option<Packet>): seq<PacketData> {
    if o.Some? then [PacketData(time, o.value)] else []
  }

  /** The world scalars: the join rebuilt with the current scalars if one was
      seen; otherwise the respawn rebuilt likewise; otherwise a standalone
      difficulty and game mode at the last timestamp. */
  function WorldPackets(w: WorldScalars, last: int): seq<PacketData>
    requires JoinValid(w)
  {
    if w.joinGame.Some? then
      var org := w.joinGame.value.packet;
      [PacketData(w.joinGame.value.time, JoinGame(org.entityId, org.hardcore, w.gameMode, w.dimension,
                                                 w.difficulty, org.maxPlayers, w.worldType, w.reducedDebugInfo))]
    else if w.respawn.Some? then
      [PacketData(w.respawn.value.time, Respawn(w.dimension, w.difficulty, w.gameMode, w.worldType))]
    else
      (if w.difficulty.Some? then [PacketData(last, ServerDifficulty(w.difficulty.value))] else [])
      + (if w.gameMode.Some? then [PacketData(last, NotifyClient(ChangeGameMode, w.gameMode.value))] else [])
  }

  /** The entities' share, in the iteration order `ids`. */
  function EntitiesPart(es: map<Int32, Entity>, ids: seq<Int32>): seq<PacketData>
    requires forall i :: 0 <= i < |ids| ==> ids[i] in es
  {
    if ids == [] then []
    else EntitiesPart(es, ids[..|ids| - 1]) + EntityPackets(ids[|ids| - 1], es[ids[|ids| - 1]], es.Keys)
  }

  /** `new ServerChunkDataPacket(x, z)`: the unload packet, with no sections and no biome. */
  function UnloadPacket(coord: Int64, time: int): PacketData {
    PacketData(time, ChunkColumn(ColumnData(LongToX(coord), LongToZ(coord), seq(16, _ => None), None)))
  }

  function UnloadedPart(u: map<Int64, int>, ks: seq<Int64>): (r: seq<PacketData>)
    requires forall i :: 0 <= i < |ks| ==> ks[i] in u
    ensures |r| == |ks|
  {
    seq(|ks|, i requires 0 <= i < |ks| => UnloadPacket(ks[i], u[ks[i]]))
  }

  /** One cached voxel change as a block-change packet at its own time. A
      placeholder entry yields a block change with a null record at time 0. */
  function VoxelPackets(m: map<int, BlockEntry>, ks: seq<int>): (r: seq<PacketData>)
    requires forall i :: 0 <= i < |ks| ==> ks[i] in m
    ensures |r| == |ks|
  {
    seq(|ks|, i requires 0 <= i < |ks| => PacketData(m[ks[i]].time, BlockChange(m[ks[i]].record)))
  }

  function SectionsPart(blocks: seq<map<int, BlockEntry>>, voxels: seq<seq<int>>, n: nat): seq<PacketData>
    requires n <= |blocks| && n <= |voxels|
    requires forall y, i :: 0 <= y < n && 0 <= i < |voxels[y]| ==> voxels[y][i] in blocks[y]
  {
    if n == 0 then [] else SectionsPart(blocks, voxels, n - 1) + VoxelPackets(blocks[n - 1], voxels[n - 1])
  }

  /** A column: its merged sections at its first appearance, then its cached
      block changes section by section. */
  function ColumnPackets(c: Column, voxels: seq<seq<int>>): seq<PacketData>
    requires WellFormed(c) && |voxels| == 16
    requires forall y, i :: 0 <= y < 16 && 0 <= i < |voxels[y]| ==> voxels[y][i] in c.blocks[y]
  {
    [PacketData(c.firstAppearance, ChunkColumn(ColumnData(c.x, c.z, c.sections, c.biome)))]
      + SectionsPart(c.blocks, voxels, 16)
  }

  predicate VoxelOrderFits(chunks: map<Int64, Column>, voxels: map<Int64, seq<seq<int>>>, k: Int64)
    requires k in chunks && WellFormed(chunks[k])
  {
    k in voxels && |voxels[k]| == 16
    && forall y, i :: 0 <= y < 16 && 0 <= i < |voxels[k][y]| ==> voxels[k][y][i] in chunks[k].blocks[y]
  }

  function ColumnsPart(chunks: map<Int64, Column>, voxels: map<Int64, seq<seq<int>>>, ks: seq<Int64>): seq<PacketData>
    requires forall i :: 0 <= i < |ks| ==> ks[i] in chunks && WellFormed(chunks[ks[i]]) && VoxelOrderFits(chunks, voxels, ks[i])
  {
    if ks == [] then []
    else
      var k := ks[|ks| - 1];
      assert VoxelOrderFits(chunks, voxels, k);
      ColumnsPart(chunks, voxels, ks[..|ks| - 1]) + ColumnPackets(chunks[k], voxels[k])
  }

  /** The batch collected before sorting, in collection order. */
  function Batch(s: SquashState, o: Order): seq<PacketData>
    requires Inv(s) && IsOrderOf(o, s)
  {
    s.unhandled + s.currentWorld + s.windows.currentWindow + s.windows.closeWindows
      + Values(s.windows.mainInventoryChanges, o.inventorySlots)
      + OptionPacket(s.windows.mainInventory)
      + WorldPackets(s.world, s.lastTimestamp)
      + StampedOption(s.lastTimestamp, s.world.experience)
      + StampedOption(s.lastTimestamp, s.world.abilities)
      + EntitiesPart(s.entities, o.entityIds)
      + UnloadedPart(s.terrain.unloaded, o.unloaded)
      + ColumnsPart(s.terrain.chunks, o.voxels, o.columns)
  }

  function TeamsPart(teams: map<string, Team>, added: map<string, seq<PlayerName>>, names: seq<string>): seq<Packet>
    requires forall i :: 0 <= i < |names| ==> names[i] in teams && names[i] in added
  {
    if names == [] then []
    else
      var n := names[|names| - 1];
      TeamsPart(teams, added, names[..|names| - 1]) + TeamPackets(teams[n], added[n])
  }

  /** `add(stream, timestamp, packet)`: every forwarded packet is inserted at the cut. */
  function AtCut(ps: seq<Packet>, cut: int): (r: seq<PacketData>)
    ensures |r| == |ps|
  {
    seq(|ps|, i requires 0 <= i < |ps| => PacketData(cut, ps[i]))
  }

  function PacketsOf(ds: seq<PacketData>): (r: seq<Packet>)
    ensures |r| == |ds|
  {
    seq(|ds|, i requires 0 <= i < |ds| => ds[i].packet)
  }

  /** The forwarding of onEnd: the batch sorted by time, then the trailing
      packets, each inserted at the cut. */
  function Forward(batch: seq<PacketData>, tail: seq<Packet>, cut: int): seq<PacketData> {
    AtCut(PacketsOf(SortByTime(batch)), cut) + AtCut(tail, cut)
  }

  /** What onEnd inserts into the stream, in order. */
  function Finish(s: SquashState, o: Order, cut: int): seq<PacketData>
    requires Inv(s) && IsOrderOf(o, s)
  {
    Forward(Batch(s, o), TeamsPart(s.teams, o.teamAdded, o.teamNames) + Values(s.maps, o.mapIds), cut)
  }

  /** The batch is forwarded stably sorted by time, then the trailing packets in
      their order, all at the cut timestamp. */
  lemma ForwardShape(batch: seq<PacketData>, tail: seq<Packet>, cut: int)
    ensures var f := Forward(batch, tail, cut);
            var sorted := SortByTime(batch);
            && SortedByTime(sorted)
            && multiset(sorted) == multiset(batch)
            && (forall t :: OfTime(sorted, t) == OfTime(batch, t))
            && |f| == |sorted| + |tail|
            && (forall i :: 0 <= i < |sorted| ==> f[i] == PacketData(cut, sorted[i].packet))
            && (forall i :: 0 <= i < |tail| ==> f[|sorted| + i] == PacketData(cut, tail[i]))
  {
    SortSorted(batch);
    SortPermutation(batch);
    forall t ensures OfTime(SortByTime(batch), t) == OfTime(batch, t) {
      SortStable(batch, t);
    }
  }

  /** A join, once seen, wins at finalize even after a respawn: the respawn's
      scalars are folded into the rebuilt join and no respawn packet is emitted. */
  lemma JoinSurvivesRespawn(s: SquashState, data: PacketData)
    requires Inv(s) && s.world.joinGame.Some? && data.packet.Respawn?
    ensures var r := Step(s, data).0;
            var org := s.world.joinGame.value.packet;
            && r.world.joinGame == s.world.joinGame
            && WorldPackets(r.world, r.lastTimestamp) == [PacketData(s.world.joinGame.value.time,
                 JoinGame(org.entityId, org.hardcore, data.packet.gameMode, data.packet.dimension,
                          data.packet.difficulty, org.maxPlayers, data.packet.worldType, s.world.reducedDebugInfo))]
  {
  }

  /** A seen join is rebuilt at its own time from its entity id, hardcore flag and
      player limit and the CURRENT scalars, whether or not a respawn was seen. */
  lemma WorldPacketsWithJoin(w: WorldScalars, last: int)
    requires JoinValid(w) && w.joinGame.Some?
    ensures var org := w.joinGame.value.packet;
            WorldPackets(w, last) == [PacketData(w.joinGame.value.time,
              JoinGame(org.entityId, org.hardcore, w.gameMode, w.dimension, w.difficulty,
                       org.maxPlayers, w.worldType, w.reducedDebugInfo))]
  {
  }

  /** Without a join, a respawn is rebuilt from the current scalars; with neither,
      a difficulty packet and then a game-mode notification are emitted at the last
      timestamp, each only when its scalar was seen. */
  lemma WorldPacketsWithoutJoin(w: WorldScalars, last: int)
    requires w.joinGame.None?
    ensures w.respawn.Some? ==> WorldPackets(w, last) == [PacketData(w.respawn.value.time, Respawn(w.dimension, w.difficulty, w.gameMode, w.worldType))]
    ensures w.respawn.None? ==>
              WorldPackets(w, last)
              == (if w.difficulty.Some? then [PacketData(last, ServerDifficulty(w.difficulty.value))] else [])
                 + (if w.gameMode.Some? then [PacketData(last, NotifyClient(ChangeGameMode, w.gameMode.value))] else [])
    ensures w.respawn.None? ==> |WorldPackets(w, last)| == (if w.difficulty.Some? then 1 else 0) + (if w.gameMode.Some? then 1 else 0)
  {
  }

  /** A deferred unload is re-emitted for exactly the coordinates it was recorded
      under: longToX and longToZ invert the packing. */
  lemma UnloadPacketCoordinates(u: map<Int64, int>, ks: seq<Int64>, i: int)
    requires forall j :: 0 <= j < |ks| ==> ks[j] in u
    requires 0 <= i < |ks|
    ensures var p := UnloadedPart(u, ks)[i];
            && p.time == u[ks[i]]
            && p.packet.ChunkColumn?
            && CoordToLong(p.packet.column.x, p.packet.column.z) == ks[i]
            && ContainsOnlyNull(p.packet.column.sections)
  {
    LongRoundTrip(ks[i]);
  }
}
