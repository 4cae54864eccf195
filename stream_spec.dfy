/** The replay stream decoder (ReplayInputStream) as pure functions over the
    recorded byte log: the segment framing, the raw-phase switch seen before
    version translation, the output-phase filter seen after it, and the queue
    that `readPacket` polls. The foreign collaborators (the packet type
    registry's tables, the varint reader, the JoinGame and registries codecs and
    the ViaVersion translator) are parameters bundled in a `Codec`. */
module StreamModel {
  import opened Common

  type Byte = b: int | 0 <= b < 0x100
  type Bytes = seq<Byte>

  /** Protocol number of Minecraft 1.20.2, from which on LOGIN is followed by CONFIGURATION. */
  const V1_20_2: int := 764
  /** The entity id written into every JoinGame (an arbitrary negative value). */
  const JOIN_ENTITY_ID: int := -1789435
  /** The game mode written into every JoinGame: spectator. */
  const SPECTATOR: int := 3
  /** The first file format whose packet data includes the login phase. */
  const LOGIN_PHASE_FORMAT: int := 14

  datatype State = Login | Configuration | Play

  /** A packet type registry: a protocol version and a connection state. */
  datatype Registry = Registry(version: int, state: State)

  /** The registry after a login success: CONFIGURATION from 1.20.2 on, PLAY before. */
  function WithLoginSuccess(r: Registry): (r': Registry)
    ensures r'.version == r.version && r'.state != Login
  {
    r.(state := if r.version >= V1_20_2 then Configuration else Play)
  }

  /** The packet types the decoder tells apart; every other type is `OtherType`. */
  datatype PacketType =
    | KeepAlive | LoginSuccess | Reconfigure | ConfigRegistries | ConfigFinish | JoinGame
    | OtherType(name: int)

  /** The server's registries (a CompoundTag), kept as its encoding. */
  type Tag = Bytes

  /** The fields of a JoinGame the decoder overwrites, and everything else. */
  datatype JoinGameData = JoinGameData(entityId: int, gameMode: int, rest: Bytes)

  /** A typed packet: the registry it was read with, its id, its type and its bytes. */
  datatype Packet = Packet(registry: Registry, id: int, ptype: PacketType, buf: Bytes)

  /** A packet with the time of the segment it came from. */
  datatype PacketData = PacketData(time: int, packet: Packet)

  /** An exception thrown by the version translator. */
  datatype Exn = Exn(isIOException: bool, detail: int)

  /** What `fillBuffer` can throw. */
  datatype Thrown =
    | EOFException               // a payload ended before its length
    | IllegalArgumentException   // a negative length: the buffer allocator refuses it
    | Rethrown(e: Exn)           // a translator IOException, as it is
    | Decoding(cause: Exn)       // any other translator exception, wrapped in IOException("decoding")

  /** What the translator has been told so far; a stateful translator is a function of it. */
  datatype TranslatorEvent = Convert(payload: Bytes, phase: State) | LoginAcknowledged | ConfigurationFinished

  /** ViaVersionPacketConverter.createForFileVersion(format, protocol, target), and its history. */
  datatype Translator = Translator(fileFormat: int, fileProtocol: int, target: int, log: seq<TranslatorEvent>)

  datatype Conversion = Converted(buffers: seq<Bytes>) | Threw(e: Exn)

  /** The collaborators the decoder calls but does not define. */
  datatype Codec = Codec(
    opcode: Bytes -> int,                               // the leading varint of a buffer
    typeOf: (Registry, int) -> PacketType,              // PacketTypeRegistry.getType
    idOf: (Registry, PacketType) -> int,                // PacketTypeRegistry.getId
    stateOf: PacketType -> State,                       // PacketType.getState
    readRegistries: (Registry, Bytes) -> Tag,           // PacketConfigRegistries.read
    readJoin: (Registry, Bytes, Option<Tag>) -> JoinGameData,  // PacketJoinGame.read
    writeJoin: (Registry, Bytes, JoinGameData) -> Bytes,       // PacketJoinGame.write over the raw packet
    convert: (Translator, Bytes, State) -> Conversion,  // ViaVersionPacketConverter.convertPacket
    protocolOf: (int, int) -> int,                      // ReplayMetaData.getProtocolVersion
    anonymousLogin: Registry -> Bytes)                  // a LoginSuccess for "Player", the UUID of no bytes

  /** The decoder's fields; `pos` is how far the byte log has been read. */
  datatype Decoder = Decoder(
    pos: nat,
    rawRegistry: Registry,
    registry: Registry,
    mcRegistries: Option<Tag>,
    translator: Translator,
    loginPhase: bool,
    outputLoginPhase: bool,
    buffer: seq<PacketData>)

  // ---------------------------------------------------------------- opening

  /** The state the constructor builds before its final check. */
  function Initial(codec: Codec, registry: Registry, format: int, protocol: int): Decoder {
    var includeLogin := format >= LOGIN_PHASE_FORMAT;
    var outputLogin := registry.state == Login;
    var reg := if !includeLogin && outputLogin then registry.(state := Play)
               else if includeLogin && !outputLogin then registry.(state := Login)
               else registry;
    var buffer := if !includeLogin && outputLogin
                  then [PacketData(0, Packet(registry, codec.idOf(registry, LoginSuccess), LoginSuccess, codec.anonymousLogin(registry)))]
                  else [];
    Decoder(0, Registry(codec.protocolOf(format, protocol), reg.state), reg, None,
            Translator(format, protocol, registry.version, []), includeLogin, outputLogin, buffer)
  }

  /** The constructor throws IllegalArgumentException for a raw registry in PLAY at 1.20.2 or later. */
  predicate Rejects(d: Decoder) {
    d.rawRegistry.version >= V1_20_2 && d.rawRegistry.state == Play
  }

  // ---------------------------------------------------------------- framing

  /** Four bytes, big-endian, as an unsigned number. */
  function Word(b0: Byte, b1: Byte, b2: Byte, b3: Byte): nat {
    ((b0 * 0x100 + b1) * 0x100 + b2) * 0x100 + b3
  }

  /** `readInt`: four reads; -1 if any of them meets the end of the log, else the
      big-endian 32-bit two's complement value. Returns the value and the new position. */
  function ReadInt(input: Bytes, pos: nat): (r: (int, nat))
    requires pos <= |input|
    ensures r.1 <= |input|
    ensures r.0 != -1 ==> r.1 == pos + 4
  {
    if pos + 4 <= |input|
    then (ToInt32(Word(input[pos], input[pos + 1], input[pos + 2], input[pos + 3])), pos + 4)
    else (-1, |input|)
  }

  /** The four bytes that encode `v` (used to state the framing, not by the decoder). */
  function IntBytes(v: Int32): seq<Byte> {
    var u := v % TWO_32;
    [u / 0x100_0000, u / 0x1_0000 % 0x100, u / 0x100 % 0x100, u % 0x100]
  }

  // ---------------------------------------------------------------- raw phase

  /** The raw state after the switch on the raw packet's type, and the payload handed on. */
  datatype Raw = Raw(registry: Registry, tag: Option<Tag>, payload: Bytes)

  function RawPhase(codec: Codec, reg: Registry, tag: Option<Tag>, t: PacketType, payload: Bytes): Raw {
    match t
    case LoginSuccess => Raw(WithLoginSuccess(reg), tag, payload)
    case Reconfigure => Raw(reg.(state := Configuration), tag, payload)
    case ConfigRegistries => Raw(reg, Some(codec.readRegistries(reg, payload)), payload)
    case ConfigFinish => Raw(reg.(state := Play), tag, payload)
    case JoinGame =>
      var join := codec.readJoin(reg, payload, tag);
      Raw(reg, tag, codec.writeJoin(reg, payload, join.(entityId := JOIN_ENTITY_ID, gameMode := SPECTATOR)))
    case _ => Raw(reg, tag, payload)
  }

  // ---------------------------------------------------------------- output phase

  /** One translated buffer read with the output registry of its segment. */
  function DecodeOne(codec: Codec, reg: Registry, b: Bytes): Packet {
    Packet(reg, codec.opcode(b), codec.typeOf(reg, codec.opcode(b)), b)
  }

  function Decode(codec: Codec, reg: Registry, bufs: seq<Bytes>): seq<Packet> {
    seq(|bufs|, i requires 0 <= i < |bufs| => DecodeOne(codec, reg, bufs[i]))
  }

  /** The translator told `ev` when the registry is at 1.20.2 or later. */
  function Acknowledge(t: Translator, reg: Registry, ev: TranslatorEvent): Translator {
    if reg.version >= V1_20_2 then t.(log := t.log + [ev]) else t
  }

  /** The body of the output loop for one decoded packet. */
  function OutStep(d: Decoder, next: int, p: Packet): (r: Decoder)
    ensures r.pos == d.pos && r.rawRegistry == d.rawRegistry && r.mcRegistries == d.mcRegistries
    ensures r.outputLoginPhase == d.outputLoginPhase
    ensures r.registry.version == d.registry.version
  {
    if p.ptype == KeepAlive then d
    else
      var d1 := if p.ptype == LoginSuccess
                then var r := WithLoginSuccess(d.registry);
                     d.(loginPhase := false, registry := r, translator := Acknowledge(d.translator, r, LoginAcknowledged))
                else d;
      if (d1.loginPhase || p.ptype == LoginSuccess) && !d1.outputLoginPhase then d1
      else
        var d2 := if p.ptype == ConfigFinish
                  then var r := d1.registry.(state := Play);
                       d1.(registry := r, translator := Acknowledge(d1.translator, r, ConfigurationFinished))
                  else if p.ptype == Reconfigure then d1.(registry := d1.registry.(state := Configuration))
                  else d1;
        d2.(buffer := d2.buffer + [PacketData(next, p)])
  }

  /** The output loop over a segment's decoded packets, in order. */
  function Output(d: Decoder, next: int, ps: seq<Packet>): (r: Decoder)
    ensures r.pos == d.pos && r.rawRegistry == d.rawRegistry && r.mcRegistries == d.mcRegistries
    ensures r.outputLoginPhase == d.outputLoginPhase
    ensures r.registry.version == d.registry.version
  {
    if ps == [] then d else OutStep(Output(d, next, ps[..|ps| - 1]), next, ps[|ps| - 1])
  }

  /** Whether the output loop queues `p`. */
  predicate Emits(d: Decoder, p: Packet) {
    p.ptype != KeepAlive && (d.outputLoginPhase || (!d.loginPhase && p.ptype != LoginSuccess))
  }

  // ---------------------------------------------------------------- one segment

  datatype Pass = Stop(d: Decoder) | Continue(d: Decoder) | Fault(d: Decoder, thrown: Thrown)

  /** A non-empty payload read in full: raw phase, translation, output loop. */
  function Segment(codec: Codec, d: Decoder, next: int, payload: Bytes): (r: Pass)
    ensures !r.Stop? && r.d.pos == d.pos && r.d.outputLoginPhase == d.outputLoginPhase
  {
    var rawType := codec.typeOf(d.rawRegistry, codec.opcode(payload));
    var raw := RawPhase(codec, d.rawRegistry, d.mcRegistries, rawType, payload);
    var phase := codec.stateOf(rawType);
    var t := d.translator.(log := d.translator.log + [Convert(raw.payload, phase)]);
    var d1 := d.(rawRegistry := raw.registry, mcRegistries := raw.tag, translator := t);
    match codec.convert(d.translator, raw.payload, phase)
    case Threw(e) => Fault(d1, if e.isIOException then Rethrown(e) else Decoding(e))
    case Converted(bufs) => Continue(Output(d1, next, Decode(codec, d.registry, bufs)))
  }

  /** One pass of the `while (buffer.isEmpty())` loop: the two header ints, then the frame. */
  function Round(input: Bytes, codec: Codec, d: Decoder): (r: Pass)
    requires d.pos <= |input|
    ensures r.d.pos <= |input|
    ensures r.Continue? ==> r.d.pos > d.pos
  {
    var (next, p1) := ReadInt(input, d.pos);
    var (length, p2) := ReadInt(input, p1);
    Frame(input, codec, d.(pos := p2), next, length)
  }

  /** What a pass does once the header `next, length` has been read. */
  function Frame(input: Bytes, codec: Codec, d: Decoder, next: int, length: int): (r: Pass)
    requires d.pos <= |input|
    ensures r.d.pos <= |input|
    ensures r.Continue? ==> next != -1 && length != -1 && r.d.pos >= d.pos
  {
    if next == -1 || length == -1 then Stop(d)
    else if length == 0 then Continue(d)
    else if length < 0 then Fault(d, IllegalArgumentException)
    else if d.pos + length > |input| then Fault(d.(pos := |input|), EOFException)
    else Segment(codec, d.(pos := d.pos + length), next, input[d.pos..d.pos + length])
  }

  datatype Filled = Filled(d: Decoder) | Failed(d: Decoder, thrown: Thrown)

  /** `fillBuffer`: rounds until the queue is non-empty, the log ends or a round throws. */
  function Fill(input: Bytes, codec: Codec, d: Decoder): (r: Filled)
    requires d.pos <= |input|
    ensures r.d.pos <= |input|
    decreases |input| - d.pos
  {
    if d.buffer != [] then Filled(d)
    else match Round(input, codec, d)
      case Stop(d1) => Filled(d1)
      case Continue(d1) => Fill(input, codec, d1)
      case Fault(d1, e) => Failed(d1, e)
  }

  datatype Polled = Polled(d: Decoder, packet: Option<PacketData>) | PollFailed(d: Decoder, thrown: Thrown)

  /** `readPacket`: fill, then poll the head of the queue (null when it is empty). */
  function Read(input: Bytes, codec: Codec, d: Decoder): (r: Polled)
    requires d.pos <= |input|
  {
    match Fill(input, codec, d)
    case Filled(d1) =>
      if d1.buffer == [] then Polled(d1, None) else Polled(d1.(buffer := d1.buffer[1..]), Some(d1.buffer[0]))
    case Failed(d1, e) => PollFailed(d1, e)
  }
}
