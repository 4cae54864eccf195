/** SquashFilter as an object: its fields are updated in place by onPacket, and
    onEnd reads them all back. Every method is proved against the functions of
    SquashModel. Entities and teams are values kept in their maps, and the tracked
    columns are `Column` values rather than ChunkData objects; `Chunks.ChunkData`
    is verified on its own against the same `Merge` and `UpdateBlock` (see README). */
module Squash {
  import opened Common
  import opened Motion
  import opened Chunks
  import opened Packets
  import opened Entities
  import opened Teams
  import opened Sorting
  import opened SquashModel
  import opened SquashEnd

  /** The loop over `getEntityIds` of a packet that names several entities. */
  method TrackIds(es0: map<Int32, Entity>, ids: seq<Int32>, data: PacketData) returns (es: map<Int32, Entity>)
    ensures es == TrackMany(es0, ids, data)
  {
    es := es0;
    for i := 0 to |ids|
      invariant es == TrackMany(es0, ids[..i], data)
    {
      var id := ids[i];
      assert ids[..i + 1][..i] == ids[..i];
      if data.packet.DestroyEntities? {
        es := es - {id};
      } else {
        var e := if id in es then es[id] else NewEntity();
        es := es[id := e.(packets := e.packets + [data])];
      }
    }
    assert ids[..|ids|] == ids;
  }

  /** The player loop of ADD_PLAYER and CREATE. */
  method AddEach(t0: Team, players: seq<PlayerName>) returns (t: Team)
    ensures t == AddPlayers(t0, players)
  {
    t := t0;
    for i := 0 to |players|
      invariant t == AddPlayers(t0, players[..i])
    {
      assert players[..i + 1][..i] == players[..i];
      var player := players[i];
      if player in t.removed {
        t := t.(removed := t.removed - {player});
      } else {
        t := t.(added := t.added + {player});
      }
    }
    assert players[..|players|] == players;
  }

  /** The player loop of REMOVE_PLAYER. */
  method RemoveEach(t0: Team, players: seq<PlayerName>) returns (t: Team)
    ensures t == RemovePlayers(t0, players)
  {
    t := t0;
    for i := 0 to |players|
      invariant t == RemovePlayers(t0, players[..i])
    {
      assert players[..i + 1][..i] == players[..i];
      var player := players[i];
      if player in t.added {
        t := t.(added := t.added - {player});
      } else {
        t := t.(removed := t.removed + {player});
      }
    }
    assert players[..|players|] == players;
  }

  /** The team branch of onPacket. */
  method ApplyTeamPacket(teams0: map<string, Team>, p: Packet) returns (teams: map<string, Team>)
    requires p.TeamPacket?
    ensures teams == ApplyTeam(teams0, p.name, p.action, p.info, p.players)
  {
    teams := teams0;
    var team: Team;
    if p.name in teams {
      team := teams[p.name];
    } else {
      team := NewTeam(p.action, p.name);
      teams := teams[p.name := team];
    }
    var action := p.action;
    if action == Remove && team.status == Created {
      teams := teams - {p.name};
      return;
    }
    if action == Create || action == Update {
      team := team.(info := p.info);
    }
    if action == AddPlayer || action == Create {
      team := AddEach(team, p.players);
    }
    if action == RemovePlayer {
      team := RemoveEach(team, p.players);
    }
    teams := teams[p.name := team];
  }

  class SquashFilter {
    var lastTimestamp: int
    var unhandled: seq<PacketData>
    var currentWorld: seq<PacketData>
    var entities: map<Int32, Entity>
    var teams: map<string, Team>
    var maps: map<int, Packet>

    var gameMode: Option<GameMode>
    var dimension: Option<int>
    var difficulty: Option<Difficulty>
    var worldType: Option<WorldType>
    var reducedDebugInfo: Option<bool>
    var joinGame: Option<PacketData>
    var respawn: Option<PacketData>
    var experience: Option<Packet>
    var abilities: Option<Packet>

    var currentWindow: seq<PacketData>
    var closeWindows: seq<PacketData>
    var mainInventory: Option<PacketData>
    var mainInventoryChanges: map<int, PacketData>

    /** The tracked columns (see README: held as values) and the deferred unloads. */
    var chunks: map<Int64, Column>
    var unloadedChunks: map<Int64, int>

    ghost function WorldView(): WorldScalars
      reads this
    {
      WorldScalars(gameMode, dimension, difficulty, worldType, reducedDebugInfo,
                   joinGame, respawn, experience, abilities)
    }

    ghost function WindowsView(): Windows
      reads this
    {
      Windows(currentWindow, closeWindows, mainInventory, mainInventoryChanges)
    }

    ghost function TerrainView(): Terrain
      reads this
    {
      Terrain(chunks, unloadedChunks)
    }

    ghost function Abs(): SquashState
      reads this
    {
      SquashState(lastTimestamp, unhandled, currentWorld, entities, teams, maps,
                  WorldView(), WindowsView(), TerrainView())
    }

    ghost predicate Valid()
      reads this
    {
      Inv(Abs())
    }

    constructor ()
      ensures Valid() && Abs() == Initial()
    {
      lastTimestamp := 0;
      unhandled, currentWorld := [], [];
      entities, teams, maps := map[], map[], map[];
      gameMode, dimension, difficulty, worldType, reducedDebugInfo := None, None, None, None, None;
      joinGame, respawn, experience, abilities := None, None, None, None;
      currentWindow, closeWindows, mainInventory, mainInventoryChanges := [], [], None, map[];
      chunks, unloadedChunks := map[], map[];
    }

    // -------------------------------------------------------------------------
    // Terrain (updateChunk and updateBlock)
    // -------------------------------------------------------------------------

    /** updateChunk. */
    method UpdateChunkAt(time: int, col: ColumnData) returns (ok: bool)
      requires TerrainValid(TerrainView())
      modifies `chunks, `unloadedChunks
      ensures (TerrainView(), ok) == UpdateChunk(old(TerrainView()), time, col)
    {
      var coord := CoordToLong(col.x, col.z);
      if ContainsOnlyNull(col.sections) {
        if coord in chunks {
          chunks := chunks - {coord};
        } else {
          unloadedChunks := unloadedChunks[coord := time];
        }
        ok := true;
      } else {
        unloadedChunks := unloadedChunks - {coord};
        var chunk := if coord in chunks then chunks[coord] else NewColumn(time, col.x, col.z);
        var merged := Merge(chunk, col.sections, col.biome);
        chunks := chunks[coord := merged.0];
        ok := merged.1;
      }
    }

    /** The columns of a multi-chunk packet, stopping at the first that throws. */
    method UpdateChunksAt(time: int, cols: seq<ColumnData>) returns (ok: bool)
      requires TerrainValid(TerrainView())
      modifies `chunks, `unloadedChunks
      ensures (TerrainView(), ok) == UpdateChunks(old(TerrainView()), time, cols)
    {
      ok := true;
      for i := 0 to |cols|
        invariant (TerrainView(), true) == UpdateChunks(old(TerrainView()), time, cols[..i])
      {
        assert cols[..i + 1][..i] == cols[..i];
        ok := UpdateChunkAt(time, cols[i]);
        if !ok {
          UpdateChunksStops(old(TerrainView()), time, cols, i + 1);
          return;
        }
      }
      assert cols[..|cols|] == cols;
    }

    /** updateBlock: the column under the block's packed x/z, if tracked. */
    method UpdateBlockAt(time: int, rec: BlockRecord) returns (ok: bool)
      requires TerrainValid(TerrainView())
      modifies `chunks
      ensures (TerrainView(), ok) == ApplyBlockChange(old(TerrainView()), time, rec)
    {
      var coord := CoordToLong(rec.pos.x, rec.pos.z);
      if coord in chunks {
        var updated := UpdateBlock(chunks[coord], time, rec);
        chunks := chunks[coord := updated.0];
        ok := updated.1;
      } else {
        ok := true;
      }
    }

    /** The records of a multi-block packet, stopping at the first that throws. */
    method UpdateBlocksAt(time: int, recs: seq<BlockRecord>) returns (ok: bool)
      requires TerrainValid(TerrainView())
      modifies `chunks
      ensures (TerrainView(), ok) == ApplyBlockChanges(old(TerrainView()), time, recs)
    {
      ok := true;
      for i := 0 to |recs|
        invariant (TerrainView(), true) == ApplyBlockChanges(old(TerrainView()), time, recs[..i])
      {
        assert recs[..i + 1][..i] == recs[..i];
        ok := UpdateBlockAt(time, recs[i]);
        if !ok {
          ApplyBlockChangesStops(old(TerrainView()), time, recs, i + 1);
          return;
        }
      }
      assert recs[..|recs|] == recs;
    }

    // -------------------------------------------------------------------------
    // onPacket
    // -------------------------------------------------------------------------

    /** The entity branch: a packet naming several entities goes to each of them
        (or destroys them); a single-entity packet updates its entity. */
    method OnEntityPacket(data: PacketData)
      requires EntityIdOf(data.packet).Some?
      modifies `entities
      ensures entities == OnEntity(old(entities), data)
    {
      var p := data.packet;
      var id := EntityIdOf(p).value;
      if id == -1 {
        entities := TrackIds(entities, EntityIdsOf(p), data);
        return;
      }
      var entity := if id in entities then entities[id] else NewEntity();
      if IsMovement(p) {
        entity := entity.(onGround := p.onGround);
        if IsPositionClass(p) {
          entity := entity.(dx := entity.dx + p.move.x, dy := entity.dy + p.move.y, dz := entity.dz + p.move.z);
        }
        if IsRotationClass(p) {
          entity := entity.(yaw := Some(p.yaw), pitch := Some(p.pitch));
        }
      } else if p.EntityTeleport? {
        entity := entity.(loc := Some(p.loc), dx := 0, dy := 0, dz := 0, yaw := None, pitch := None, onGround := p.onGround);
      } else {
        entity := entity.(packets := entity.packets + [data]);
      }
      entity := entity.(lastTimestamp := data.time);
      entities := entities[id := entity];
    }

    /** Game mode notifications, experience, abilities, difficulty and the join. */
    method OnWorldScalarPacket(data: PacketData)
      requires IsWorldScalar(data.packet)
      modifies `gameMode, `dimension, `difficulty, `worldType, `reducedDebugInfo, `joinGame, `experience, `abilities
      ensures WorldView() == OnWorldScalar(old(WorldView()), data)
    {
      var p := data.packet;
      if p.NotifyClient? {
        gameMode := Some(p.value);
      } else if p.SetExperience? {
        experience := Some(p);
      } else if p.PlayerAbilities? {
        abilities := Some(p);
      } else if p.ServerDifficulty? {
        difficulty := Some(p.level);
      } else {
        gameMode, dimension, difficulty := p.gameMode, p.dimension, p.difficulty;
        worldType, reducedDebugInfo := p.worldType, p.reducedDebugInfo;
        joinGame := Some(data);
      }
    }

    method OnRespawnPacket(data: PacketData)
      requires data.packet.Respawn?
      modifies `dimension, `difficulty, `worldType, `gameMode, `currentWorld, `chunks, `unloadedChunks,
               `currentWindow, `entities, `respawn
      ensures dimension == data.packet.dimension && difficulty == data.packet.difficulty
      ensures worldType == data.packet.worldType && gameMode == data.packet.gameMode && respawn == Some(data)
      ensures currentWorld == [] && chunks == map[] && unloadedChunks == map[]
      ensures currentWindow == [] && entities == map[]
    {
      var p := data.packet;
      dimension, difficulty, worldType, gameMode := p.dimension, p.difficulty, p.worldType, p.gameMode;
      currentWorld, chunks, unloadedChunks, currentWindow, entities := [], map[], map[], [], map[];
      respawn := Some(data);
    }

    method OnTerrainPacket(data: PacketData) returns (ok: bool)
      requires TerrainValid(TerrainView()) && IsTerrain(data.packet)
      modifies `chunks, `unloadedChunks
      ensures (TerrainView(), ok) == OnTerrain(old(TerrainView()), data)
    {
      var p := data.packet;
      if p.ChunkColumn? {
        ok := UpdateChunkAt(data.time, p.column);
      } else if p.MultiChunkColumn? {
        ok := UpdateChunksAt(data.time, p.columns);
      } else if p.BlockChange? {
        if p.record.None? {
          return false;
        }
        ok := UpdateBlockAt(data.time, p.record.value);
      } else {
        ok := UpdateBlocksAt(data.time, p.records);
      }
    }

    /** Window packets other than a close. */
    method OnWindowPacket(data: PacketData)
      requires data.packet.WindowUpdate? || data.packet.WindowItems? || data.packet.SetSlot?
      modifies `currentWindow, `mainInventory, `mainInventoryChanges
      ensures WindowsView() == OnWindow(old(WindowsView()), data)
    {
      var p := data.packet;
      if p.WindowItems? && p.windowId == 0 {
        mainInventory := Some(data);
      } else if p.SetSlot? && p.windowId == 0 {
        mainInventoryChanges := mainInventoryChanges[p.slot := data];
      } else {
        currentWindow := currentWindow + [data];
      }
    }

    /** onPacket: every packet is consumed (the result is always "drop"); `ok` is
        false where Java throws. */
    method OnPacket(data: PacketData) returns (keep: bool, ok: bool)
      requires Valid()
      modifies this
      ensures Valid() && !keep
      ensures (Abs(), ok) == Step(old(Abs()), data)
    {
      ghost var s0 := Abs();
      StepRestamp(s0, data);
      var p := data.packet;
      lastTimestamp := data.time;
      keep, ok := false, true;
      if p.SpawnParticle? {
        StepDrops(s0, data);
      } else if EntityIdOf(p).Some? || IsWorldScalar(p) || p.Respawn? || IsTerrain(p) {
        ok := OnWorldPacket(data);
      } else if p.WorldEvent? || IsWindow(p) || p.ConfirmTransaction? {
        OnViewPacket(data);
      } else {
        OnStorePacket(data);
      }
    }

    /** Entity, world-scalar, respawn and terrain packets, in that order. */
    method OnWorldPacket(data: PacketData) returns (ok: bool)
      requires Valid() && lastTimestamp == data.time && !data.packet.SpawnParticle?
      requires EntityIdOf(data.packet).Some? || IsWorldScalar(data.packet) || data.packet.Respawn? || IsTerrain(data.packet)
      modifies this
      ensures (Abs(), ok) == Step(old(Abs()), data)
    {
      var p := data.packet;
      ok := true;
      if EntityIdOf(p).Some? {
        EntityStep(data);
      } else if IsWorldScalar(p) {
        WorldScalarStep(data);
      } else if p.Respawn? {
        RespawnStep(data);
      } else {
        ok := TerrainStep(data);
      }
    }

    method EntityStep(data: PacketData)
      requires Valid() && lastTimestamp == data.time && EntityIdOf(data.packet).Some?
      modifies `entities
      ensures (Abs(), true) == Step(old(Abs()), data)
    {
      StepEntity(Abs(), data);
      OnEntityPacket(data);
    }

    method WorldScalarStep(data: PacketData)
      requires Valid() && lastTimestamp == data.time && IsWorldScalar(data.packet)
      modifies `gameMode, `dimension, `difficulty, `worldType, `reducedDebugInfo, `joinGame, `experience, `abilities
      ensures (Abs(), true) == Step(old(Abs()), data)
    {
      StepWorldScalar(Abs(), data);
      OnWorldScalarPacket(data);
    }

    method RespawnStep(data: PacketData)
      requires Valid() && lastTimestamp == data.time && data.packet.Respawn?
      modifies `dimension, `difficulty, `worldType, `gameMode, `currentWorld, `chunks, `unloadedChunks,
               `currentWindow, `entities, `respawn
      ensures (Abs(), true) == Step(old(Abs()), data)
    {
      StepRespawn(Abs(), data);
      OnRespawnPacket(data);
    }

    method TerrainStep(data: PacketData) returns (ok: bool)
      requires Valid() && lastTimestamp == data.time && IsTerrain(data.packet)
      modifies `chunks, `unloadedChunks
      ensures (Abs(), ok) == Step(old(Abs()), data)
    {
      StepTerrain(Abs(), data);
      ok := OnTerrainPacket(data);
    }

    /** World events, then close-window, confirm-transaction and the other window packets. */
    method OnViewPacket(data: PacketData)
      requires Valid() && lastTimestamp == data.time
      requires !(EntityIdOf(data.packet).Some? || IsWorldScalar(data.packet) || data.packet.Respawn? || IsTerrain(data.packet))
      requires data.packet.WorldEvent? || IsWindow(data.packet) || data.packet.ConfirmTransaction?
      modifies this
      ensures (Abs(), true) == Step(old(Abs()), data)
    {
      var p := data.packet;
      if p.WorldEvent? {
        WorldEventStep(data);
      } else if p.CloseWindow? {
        CloseWindowStep(data);
      } else if p.ConfirmTransaction? {
        StepDrops(Abs(), data);
      } else {
        WindowStep(data);
      }
    }

    method WorldEventStep(data: PacketData)
      requires Valid() && lastTimestamp == data.time && data.packet.WorldEvent?
      modifies `currentWorld
      ensures (Abs(), true) == Step(old(Abs()), data)
    {
      StepWorldEvent(Abs(), data);
      currentWorld := currentWorld + [data];
    }

    method CloseWindowStep(data: PacketData)
      requires Valid() && lastTimestamp == data.time && data.packet.CloseWindow?
      modifies `currentWindow, `closeWindows
      ensures (Abs(), true) == Step(old(Abs()), data)
    {
      StepWindow(Abs(), data);
      currentWindow := [];
      closeWindows := closeWindows + [data];
    }

    method WindowStep(data: PacketData)
      requires Valid() && lastTimestamp == data.time
      requires data.packet.WindowUpdate? || data.packet.WindowItems? || data.packet.SetSlot?
      modifies `currentWindow, `mainInventory, `mainInventoryChanges
      ensures (Abs(), true) == Step(old(Abs()), data)
    {
      StepWindow(Abs(), data);
      OnWindowPacket(data);
    }

    /** Teams, maps, and every packet no store takes. */
    method OnStorePacket(data: PacketData)
      requires Valid() && lastTimestamp == data.time && !data.packet.SpawnParticle?
      requires !(EntityIdOf(data.packet).Some? || IsWorldScalar(data.packet) || data.packet.Respawn? || IsTerrain(data.packet))
      requires !(data.packet.WorldEvent? || IsWindow(data.packet) || data.packet.ConfirmTransaction?)
      modifies this
      ensures (Abs(), true) == Step(old(Abs()), data)
    {
      var p := data.packet;
      if p.TeamPacket? {
        TeamStep(data);
      } else if p.MapData? {
        MapStep(data);
      } else {
        StepUnhandled(Abs(), data);
        unhandled := unhandled + [data];
      }
    }

    method TeamStep(data: PacketData)
      requires Valid() && lastTimestamp == data.time && data.packet.TeamPacket?
      modifies `teams
      ensures (Abs(), true) == Step(old(Abs()), data)
    {
      StepTeam(Abs(), data);
      teams := ApplyTeamPacket(teams, data.packet);
    }

    method MapStep(data: PacketData)
      requires Valid() && lastTimestamp == data.time && data.packet.MapData?
      modifies `maps
      ensures (Abs(), true) == Step(old(Abs()), data)
    {
      StepMap(Abs(), data);
      maps := maps[data.packet.mapId := data.packet];
    }

    // -------------------------------------------------------------------------
    // onEnd
    // -------------------------------------------------------------------------

    /** The world scalars: the join rebuilt with the current scalars, else the
        respawn rebuilt likewise, else the difficulty and the game mode alone;
        then experience and abilities. */
    method WorldShare() returns (ps: seq<PacketData>)
      requires JoinValid(WorldView())
      ensures ps == WorldPackets(WorldView(), lastTimestamp)
                    + StampedOption(lastTimestamp, experience) + StampedOption(lastTimestamp, abilities)
    {
      ps := [];
      if joinGame.Some? {
        var org := joinGame.value.packet;
        var packet := JoinGame(org.entityId, org.hardcore, gameMode, dimension,
                               difficulty, org.maxPlayers, worldType, reducedDebugInfo);
        ps := ps + [PacketData(joinGame.value.time, packet)];
      } else if respawn.Some? {
        ps := ps + [PacketData(respawn.value.time, Respawn(dimension, difficulty, gameMode, worldType))];
      } else {
        if difficulty.Some? {
          ps := ps + [PacketData(lastTimestamp, ServerDifficulty(difficulty.value))];
        }
        if gameMode.Some? {
          ps := ps + [PacketData(lastTimestamp, NotifyClient(ChangeGameMode, gameMode.value))];
        }
      }
      if experience.Some? {
        ps := ps + [PacketData(lastTimestamp, experience.value)];
      }
      if abilities.Some? {
        ps := ps + [PacketData(lastTimestamp, abilities.value)];
      }
    }

    /** onEnd: everything collected is sorted by time and inserted at the cut,
        then the teams and the maps; `o` names the iteration orders met. */
    method OnEnd(cut: int) returns (out: seq<PacketData>, o: Order)
      requires Valid()
      ensures IsOrderOf(o, Abs())
      ensures out == Finish(Abs(), o, cut)
    {
      var slots, changes := CollectValues(mainInventoryChanges);
      var result := unhandled + currentWorld + currentWindow + closeWindows + changes;
      if mainInventory.Some? {
        result := result + [mainInventory.value];
      }
      ghost var head := result;
      assert head == unhandled + currentWorld + currentWindow + closeWindows + changes + OptionPacket(mainInventory);
      var world := WorldShare();
      var ids, living := CollectEntities(entities);
      var unloaded, unloads := CollectUnloaded(unloadedChunks);
      var columns, voxels, loads := CollectColumns(chunks);
      result := result + world + living + unloads + loads;
      var names, added, teamPackets := CollectTeams(teams);
      var mapIds, mapPackets := CollectValues(maps);
      o := Order(slots, ids, unloaded, columns, voxels, names, added, mapIds);
      BatchFromParts(Abs(), o, head, world, living, unloads, loads);
      FinishFromParts(Abs(), o, cut, result, teamPackets, mapPackets);
      out := InsertAll(PacketsOf(SortByTime(result)), cut);
      var tail := InsertAll(teamPackets, cut);
      out := out + tail;
      tail := InsertAll(mapPackets, cut);
      out := out + tail;
    }
  }
}
