/** ReplayInputStream: a class over the recorded byte log whose `readPacket` and
    `fillBuffer` update its fields step by step, each method proved against the
    function of StreamModel that specifies it. */
module ReplayStream {
  import opened Common
  import opened StreamModel
  import opened StreamFacts

  class ReplayInputStream {
    /** The bytes of the wrapped input stream, read from `pos` on. */
    const input: Bytes
    const codec: Codec
    /** Whether login phase packets are returned (else silently dropped). */
    const outputLoginPhase: bool
    var pos: nat
    var rawRegistry: Registry
    var registry: Registry
    var mcRegistries: Option<Tag>
    var translator: Translator
    /** Whether the head of the input is still in the login phase. */
    var loginPhase: bool
    /** Packets read from the input but not yet returned by `ReadPacket`. */
    var buffer: seq<PacketData>

    ghost function Abs(): Decoder
      reads this
    {
      Decoder(pos, rawRegistry, registry, mcRegistries, translator, loginPhase, outputLoginPhase, buffer)
    }

    ghost predicate Valid()
      reads this
    {
      pos <= |input| && Clean(Abs())
    }

    /** The constructor up to its final check, which `Open` makes. */
    constructor (registry: Registry, input: Bytes, fileFormatVersion: int, fileProtocol: int, codec: Codec)
      ensures this.input == input && this.codec == codec
      ensures Abs() == Initial(codec, registry, fileFormatVersion, fileProtocol)
      ensures Valid()
    {
      var includeLoginPhase := fileFormatVersion >= LOGIN_PHASE_FORMAT;
      var outputLogin := registry.state == Login;
      var reg := registry;
      var queued: seq<PacketData> := [];
      if !includeLoginPhase && outputLogin {
        // Replays older than format 14 end the login phase at once.
        queued := queued + [PacketData(0, Packet(registry, codec.idOf(registry, LoginSuccess), LoginSuccess, codec.anonymousLogin(registry)))];
        reg := registry.(state := Play);
      } else if includeLoginPhase && !outputLogin {
        reg := registry.(state := Login);
      }
      this.registry := reg;
      this.loginPhase := includeLoginPhase;
      this.outputLoginPhase := outputLogin;
      this.buffer := queued;
      this.input := input;
      this.codec := codec;
      this.pos := 0;
      this.translator := Translator(fileFormatVersion, fileProtocol, registry.version, []);
      this.rawRegistry := Registry(codec.protocolOf(fileFormatVersion, fileProtocol), reg.state);
      this.mcRegistries := None;
      new;
      InitialState(codec, registry, fileFormatVersion, fileProtocol);
    }

    /** `in.read()`: the next byte, or -1 at the end of the log. */
    method ReadByte() returns (b: int)
      requires pos <= |input|
      modifies `pos
      ensures pos <= |input|
      ensures old(pos) < |input| ==> b == input[old(pos)] && pos == old(pos) + 1
      ensures old(pos) == |input| ==> b == -1 && pos == old(pos)
    {
      if pos == |input| {
        return -1;
      }
      b := input[pos];
      pos := pos + 1;
    }

    /** `Utils.readInt(in)`. */
    method ReadInt() returns (v: int)
      requires pos <= |input|
      modifies `pos
      ensures (v, pos) == StreamModel.ReadInt(input, old(pos))
    {
      var b0 := ReadByte();
      var b1 := ReadByte();
      var b2 := ReadByte();
      var b3 := ReadByte();
      if b0 < 0 || b1 < 0 || b2 < 0 || b3 < 0 {
        return -1;
      }
      v := ToInt32(b0 * 0x100_0000 + b1 * 0x1_0000 + b2 * 0x100 + b3);
    }

    /** `buf.writeBytes(in, length)`: appends between one and `length` bytes, as many as the
        input delivers, or returns -1 at the end of the log. */
    method WriteBytes(buf: Bytes, length: int) returns (read: int, out: Bytes)
      requires pos <= |input| && length > 0
      modifies `pos
      ensures pos <= |input|
      ensures read == -1 <==> old(pos) == |input|
      ensures read == -1 ==> pos == old(pos) && out == buf
      ensures read != -1 ==> 0 < read <= length && pos == old(pos) + read && out == buf + input[old(pos)..pos]
    {
      if pos == |input| {
        return -1, buf;
      }
      read := if length < |input| - pos then length else |input| - pos;
      out := buf + input[pos..pos + read];
      pos := pos + read;
    }

    /** The `while (length > 0)` countdown: the payload, or None (EOFException) when the log
        ends first. */
    method ReadPayload(length: int) returns (payload: Option<Bytes>)
      requires pos <= |input| && length > 0
      modifies `pos
      ensures pos <= |input|
      ensures old(pos) + length <= |input| ==> payload == Some(input[old(pos)..old(pos) + length]) && pos == old(pos) + length
      ensures old(pos) + length > |input| ==> payload == None && pos == |input|
    {
      var remaining := length;
      var buf: Bytes := [];
      while remaining > 0
        invariant pos <= |input| && 0 <= remaining <= length
        invariant pos == old(pos) + (length - remaining)
        invariant buf == input[old(pos)..pos]
        decreases remaining
      {
        var read;
        read, buf := WriteBytes(buf, remaining);
        if read == -1 {
          return None;
        }
        remaining := remaining - read;
      }
      return Some(buf);
    }

    /** `viaVersionConverter.convertPacket(buf, phase)`. */
    method Translate(payload: Bytes, phase: State) returns (c: Conversion)
      modifies `translator
      ensures c == codec.convert(old(translator), payload, phase)
      ensures translator == old(translator).(log := old(translator).log + [Convert(payload, phase)])
    {
      c := codec.convert(translator, payload, phase);
      translator := translator.(log := translator.log + [Convert(payload, phase)]);
    }

    /** The `decoded` list: every translated buffer read with the current output registry. */
    method DecodeAll(bufs: seq<Bytes>) returns (decoded: seq<Packet>)
      ensures decoded == Decode(codec, registry, bufs)
    {
      decoded := [];
      for i := 0 to |bufs|
        invariant |decoded| == i
        invariant forall j :: 0 <= j < i ==> decoded[j] == DecodeOne(codec, registry, bufs[j])
      {
        var packetId := codec.opcode(bufs[i]);
        decoded := decoded + [Packet(registry, packetId, codec.typeOf(registry, packetId), bufs[i])];
      }
    }

    /** One pass of the output loop. */
    method OfferOne(next: int, p: Packet)
      modifies `registry, `loginPhase, `translator, `buffer
      ensures Abs() == OutStep(old(Abs()), next, p)
    {
      var t := p.ptype;
      if t == KeepAlive {
        return; // not needed in a replay
      }
      if t == LoginSuccess {
        loginPhase := false;
        registry := WithLoginSuccess(registry);
        if registry.version >= V1_20_2 {
          translator := translator.(log := translator.log + [LoginAcknowledged]);
        }
      }
      if (loginPhase || t == LoginSuccess) && !outputLoginPhase {
        return;
      }
      if t == ConfigFinish {
        registry := registry.(state := Play);
        if registry.version >= V1_20_2 {
          translator := translator.(log := translator.log + [ConfigurationFinished]);
        }
      }
      if t == Reconfigure {
        registry := registry.(state := Configuration);
      }
      buffer := buffer + [PacketData(next, p)];
    }

    /** The output loop over one segment's decoded packets. */
    method Offer(next: int, decoded: seq<Packet>)
      modifies `registry, `loginPhase, `translator, `buffer
      ensures Abs() == Output(old(Abs()), next, decoded)
    {
      for i := 0 to |decoded|
        invariant Abs() == Output(old(Abs()), next, decoded[..i])
      {
        assert decoded[..i + 1][..i] == decoded[..i];
        OfferOne(next, decoded[i]);
      }
      assert decoded[..|decoded|] == decoded;
    }

    /** The raw-phase switch, translation and output loop for a payload read in full. */
    method Segment(next: int, payload: Bytes) returns (thrown: Option<Thrown>)
      modifies `rawRegistry, `mcRegistries, `translator, `registry, `loginPhase, `buffer
      ensures StreamModel.Segment(codec, old(Abs()), next, payload) == if thrown.Some? then Fault(Abs(), thrown.value) else Continue(Abs())
    {
      var rawPacketId := codec.opcode(payload);
      var rawType := codec.typeOf(rawRegistry, rawPacketId);
      var raw := payload;
      match rawType {
        case LoginSuccess => rawRegistry := WithLoginSuccess(rawRegistry);
        case Reconfigure => rawRegistry := rawRegistry.(state := Configuration);
        case ConfigRegistries => mcRegistries := Some(codec.readRegistries(rawRegistry, payload));
        case ConfigFinish => rawRegistry := rawRegistry.(state := Play);
        case JoinGame =>
          var joinGame := codec.readJoin(rawRegistry, payload, mcRegistries);
          joinGame := joinGame.(entityId := JOIN_ENTITY_ID, gameMode := SPECTATOR);
          raw := codec.writeJoin(rawRegistry, payload, joinGame);
        case _ =>
      }
      var conversion := Translate(raw, codec.stateOf(rawType));
      match conversion {
        case Threw(e) =>
          return Some(if e.isIOException then Rethrown(e) else Decoding(e));
        case Converted(bufs) =>
          var decoded := DecodeAll(bufs);
          Offer(next, decoded);
          return None;
      }
    }

    /** One pass of the `while (buffer.isEmpty())` loop; `stop` is the `break` at the end marker. */
    method NextRound() returns (stop: bool, thrown: Option<Thrown>)
      requires pos <= |input|
      modifies this
      ensures pos <= |input|
      ensures Round(input, codec, old(Abs())) ==
                if thrown.Some? then Fault(Abs(), thrown.value) else if stop then Stop(Abs()) else Continue(Abs())
    {
      var next := ReadInt();
      var length := ReadInt();
      stop, thrown := NextFrame(next, length);
    }

    /** The pass after its header: end marker, skip, refusal, EOF or a full segment. */
    method NextFrame(next: int, length: int) returns (stop: bool, thrown: Option<Thrown>)
      requires pos <= |input|
      modifies this
      ensures pos <= |input|
      ensures Frame(input, codec, old(Abs()), next, length) ==
                if thrown.Some? then Fault(Abs(), thrown.value) else if stop then Stop(Abs()) else Continue(Abs())
    {
      if next == -1 || length == -1 {
        return true, None; // end of the stream
      }
      if length == 0 {
        return false, None; // empty segments are skipped
      }
      if length < 0 {
        return false, Some(IllegalArgumentException);
      }
      var payload := ReadPayload(length);
      if payload.None? {
        return false, Some(EOFException);
      }
      stop := false;
      thrown := Segment(next, payload.value);
    }

    /** `fillBuffer`. */
    method FillBuffer() returns (thrown: Option<Thrown>)
      requires Valid()
      modifies this
      ensures Valid()
      ensures Fill(input, codec, old(Abs())) == if thrown.Some? then Failed(Abs(), thrown.value) else Filled(Abs())
    {
      while buffer == []
        invariant Valid()
        invariant Fill(input, codec, Abs()) == Fill(input, codec, old(Abs()))
        decreases |input| - pos
      {
        ghost var d := Abs();
        RoundClean(input, codec, d);
        var stop, t := NextRound();
        if t.Some? {
          return t;
        }
        if stop {
          break;
        }
      }
      return None;
    }

    /** `readPacket`: the oldest queued packet, None for Java's null. */
    method ReadPacket() returns (p: Option<PacketData>, thrown: Option<Thrown>)
      requires Valid()
      modifies this
      ensures Valid()
      ensures Read(input, codec, old(Abs())) == if thrown.Some? then PollFailed(Abs(), thrown.value) else Polled(Abs(), p)
    {
      thrown := FillBuffer();
      if thrown.Some? {
        return None, thrown;
      }
      if buffer == [] {
        return None, None;
      }
      p := Some(buffer[0]);
      buffer := buffer[1..];
    }
  }

  /** `new ReplayInputStream(registry, in, fileFormatVersion, fileProtocol)`: None when the
      constructor throws IllegalArgumentException (PLAY on 1.20.2 or later). */
  method Open(registry: Registry, input: Bytes, fileFormatVersion: int, fileProtocol: int, codec: Codec)
    returns (s: Option<ReplayInputStream>)
    ensures s.None? <==> Rejects(Initial(codec, registry, fileFormatVersion, fileProtocol))
    ensures s.Some? ==>
              fresh(s.value) && s.value.Valid() && s.value.input == input && s.value.codec == codec
              && s.value.Abs() == Initial(codec, registry, fileFormatVersion, fileProtocol)
  {
    var r := new ReplayInputStream(registry, input, fileFormatVersion, fileProtocol, codec);
    if r.rawRegistry.version >= V1_20_2 && r.rawRegistry.state == Play {
      return None;
    }
    return Some(r);
  }
}
