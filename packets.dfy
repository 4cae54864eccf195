/** The packets the squash filter distinguishes, with their payloads reduced to
    what the filter reads. Everything it only forwards is an opaque `body`. */
module Packets {
  import opened Common
  import opened Motion
  import opened Chunks

  /** A rotation angle (a Java float, never inspected). */
  datatype Angle = Angle(bits: int)

  /** An entity's absolute position as captured by `Location.from` (opaque). */
  datatype Location = Location(content: int)

  /** Game mode, difficulty and world type enum values (opaque). */
  type GameMode = int
  type Difficulty = int
  type WorldType = int

  /** A player name in a team packet. Incoming arrays hold names; the remove array
      the filter builds at finalize may hold nulls. */
  type PlayerName = Option<string>

  datatype Notification = ChangeGameMode | OtherNotification(kind: int)

  datatype TeamAction = Create | Remove | Update | AddPlayer | RemovePlayer

  /** The team attributes a CREATE or UPDATE carries (null / false elsewhere). */
  datatype TeamInfo = TeamInfo(
    displayName: Option<string>,
    prefix: Option<string>,
    suffix: Option<string>,
    friendlyFire: bool,
    seeFriendlyInvisibles: bool,
    nameTagVisibility: Option<int>,
    color: Option<int>)

  /** The attributes of a freshly created Team object and of a packet built without them. */
  function NoInfo(): TeamInfo {
    TeamInfo(None, None, None, false, false, None, None)
  }

  /** One column of a chunk-data packet. */
  datatype ColumnData = ColumnData(x: Int32, z: Int32, sections: seq<Option<Section>>, biome: Option<Biome>)

  datatype Packet =
    // Entity-related packets (those for which PacketUtils.getEntityId is non-null).
    | EntityMovement(entityId: Int32, onGround: bool)
    | EntityPosition(entityId: Int32, move: Delta, onGround: bool)
    | EntityRotation(entityId: Int32, yaw: Angle, pitch: Angle, onGround: bool)
    | EntityPositionRotation(entityId: Int32, move: Delta, yaw: Angle, pitch: Angle, onGround: bool)
    | EntityTeleport(entityId: Int32, loc: Location, onGround: bool)
    | EntityOther(entityId: Int32, body: int)
    | DestroyEntities(entityIds: seq<Int32>)
    | MultiEntity(entityIds: seq<Int32>, body: int)
    // World state.
    | SpawnParticle(body: int)
    | NotifyClient(notification: Notification, value: GameMode)
    | SetExperience(body: int)
    | PlayerAbilities(body: int)
    | ServerDifficulty(level: Difficulty)
    | JoinGame(entityId: Int32, hardcore: bool, gameMode: Option<GameMode>, dimension: Option<int>,
               difficulty: Option<Difficulty>, maxPlayers: int, worldType: Option<WorldType>,
               reducedDebugInfo: Option<bool>)
    | Respawn(dimension: Option<int>, difficulty: Option<Difficulty>, gameMode: Option<GameMode>,
              worldType: Option<WorldType>)
    | ChunkColumn(column: ColumnData)
    | MultiChunkColumn(columns: seq<ColumnData>)
    | BlockChange(record: Option<BlockRecord>)
    | MultiBlockChange(records: seq<BlockRecord>)
    /** Player position, block break animation, block value, explosion, sign editor,
        effect, sound, spawn position, sign, tile entity, time and world border. */
    | WorldEvent(body: int)
    // Windows.
    | CloseWindow(windowId: int)
    | ConfirmTransaction(body: int)
    /** Open window and window property. */
    | WindowUpdate(body: int)
    | WindowItems(windowId: int, body: int)
    | SetSlot(windowId: int, slot: int, body: int)
    // Teams, maps and everything else.
    | TeamPacket(name: string, action: TeamAction, info: TeamInfo, players: seq<PlayerName>)
    | MapData(mapId: int, body: int)
    | Other(body: int)

  /** A packet with its timestamp in milliseconds. */
  datatype PacketData = PacketData(time: int, packet: Packet)

  predicate IsMultiEntity(p: Packet) {
    p.DestroyEntities? || p.MultiEntity?
  }

  predicate IsSingleEntity(p: Packet) {
    p.EntityMovement? || p.EntityPosition? || p.EntityRotation? || p.EntityPositionRotation?
    || p.EntityTeleport? || p.EntityOther?
  }

  /** `PacketUtils.getEntityId`: null for packets that name no entity, -1 for
      packets that name several, and the entity id otherwise. */
  function EntityIdOf(p: Packet): (r: Option<Int32>)
    ensures r.None? <==> !IsSingleEntity(p) && !IsMultiEntity(p)
    ensures IsMultiEntity(p) ==> r == Some(-1)
  {
    if IsMultiEntity(p) then Some(-1)
    else if IsSingleEntity(p) then Some(p.entityId)
    else None
  }

  /** `PacketUtils.getEntityIds`: every entity the packet names. */
  function EntityIdsOf(p: Packet): (r: seq<Int32>)
    ensures IsSingleEntity(p) ==> r == [EntityIdOf(p).value]
  {
    if IsMultiEntity(p) then p.entityIds
    else if IsSingleEntity(p) then [p.entityId]
    else []
  }
}
