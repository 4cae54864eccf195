/** What the replay stream decoder promises, proved about the functions of StreamModel. */
module StreamFacts {
  import opened Common
  import opened StreamModel

  /** `xs` can be obtained from `ys` by deleting elements. */
  predicate Subsequence<T(==)>(xs: seq<T>, ys: seq<T>)
    decreases |ys|
  {
    if ys == [] then xs == []
    else
      || (xs != [] && xs[|xs| - 1] == ys[|ys| - 1] && Subsequence(xs[..|xs| - 1], ys[..|ys| - 1]))
      || Subsequence(xs, ys[..|ys| - 1])
  }

  function PacketsOf(ds: seq<PacketData>): seq<Packet> {
    seq(|ds|, i requires 0 <= i < |ds| => ds[i].packet)
  }

  /** The queue never holds a KeepAlive, and holds no LoginSuccess unless login packets are output. */
  predicate Clean(d: Decoder) {
    forall i :: 0 <= i < |d.buffer| ==>
      d.buffer[i].packet.ptype != KeepAlive && (!d.outputLoginPhase ==> d.buffer[i].packet.ptype != LoginSuccess)
  }

  // ---------------------------------------------------------------- framing

  lemma ByteSplit(x: int, n: int)
    requires 0 <= x && n > 0
    ensures x == x / n * n + x % n && 0 <= x % n < n
  { }

  lemma WordOfIntBytes(v: Int32)
    ensures var b := IntBytes(v); Word(b[0], b[1], b[2], b[3]) == v % TWO_32
  {
    var u := v % TWO_32;
    var q1, q2 := u / 0x100, u / 0x1_0000;
    ByteSplit(u, 0x100);
    ByteSplit(q1, 0x100);
    ByteSplit(q2, 0x100);
    assert q1 / 0x100 == q2;
    assert q2 / 0x100 == u / 0x100_0000;
  }

  /** `readInt` inverts the big-endian encoding of every 32-bit int, wherever it sits in the log. */
  lemma ReadIntRoundTrip(pre: Bytes, v: Int32, rest: Bytes)
    ensures ReadInt(pre + IntBytes(v) + rest, |pre|) == (v, |pre| + 4)
  {
    var input := pre + IntBytes(v) + rest;
    var b := IntBytes(v);
    assert input[|pre|..|pre| + 4] == b;
    assert input[|pre|] == b[0] && input[|pre| + 1] == b[1] && input[|pre| + 2] == b[2] && input[|pre| + 3] == b[3];
    WordOfIntBytes(v);
    ResidueOfInt32(v);
  }

  lemma ResidueOfInt32(v: Int32)
    ensures ToInt32(v % TWO_32) == v
  { }

  /** A pass stops exactly when either header int reads -1; it then changes nothing but the position. */
  lemma RoundStops(input: Bytes, codec: Codec, d: Decoder)
    requires d.pos <= |input|
    ensures var (next, p1) := ReadInt(input, d.pos);
            var length := ReadInt(input, p1).0;
            Round(input, codec, d).Stop? <==> (next == -1 || length == -1)
    ensures Round(input, codec, d).Stop? ==> Round(input, codec, d).d == d.(pos := Round(input, codec, d).d.pos)
  {
  }

  /** A segment of length 0 is skipped: only its eight header bytes are consumed. */
  lemma RoundSkipsEmpty(input: Bytes, codec: Codec, d: Decoder)
    requires d.pos <= |input|
    requires var (next, p1) := ReadInt(input, d.pos); next != -1 && ReadInt(input, p1).0 == 0
    ensures Round(input, codec, d) == Continue(d.(pos := d.pos + 8))
  {
  }

  /** A negative length other than -1 is refused by the allocator before any payload byte is read. */
  lemma RoundRefusesNegative(input: Bytes, codec: Codec, d: Decoder)
    requires d.pos <= |input|
    requires var (next, p1) := ReadInt(input, d.pos);
             var length := ReadInt(input, p1).0;
             next != -1 && length < -1
    ensures Round(input, codec, d) == Fault(d.(pos := d.pos + 8), IllegalArgumentException)
  {
  }

  /** With a positive length, the pass throws EOFException exactly when the log ends first
      (having read all of it), and otherwise consumes exactly `length` payload bytes. */
  lemma RoundPayload(input: Bytes, codec: Codec, d: Decoder)
    requires d.pos <= |input|
    requires var (next, p1) := ReadInt(input, d.pos);
             var length := ReadInt(input, p1).0;
             next != -1 && length > 0
    ensures var length := ReadInt(input, d.pos + 4).0;
            var r := Round(input, codec, d);
            (r == Fault(d.(pos := |input|), EOFException) <==> d.pos + 8 + length > |input|)
            && (d.pos + 8 + length <= |input| ==> r.d.pos == d.pos + 8 + length && !r.Stop?)
  {
  }

  /** A recorded segment `next, length, payload` is read back as that payload with that time. */
  lemma RoundReadsSegment(codec: Codec, d: Decoder, pre: Bytes, next: Int32, payload: Bytes, rest: Bytes)
    requires d.pos == |pre| && next != -1 && 0 < |payload| < 0x8000_0000
    ensures var input := pre + IntBytes(next) + IntBytes(|payload|) + payload + rest;
            Round(input, codec, d) == Segment(codec, d.(pos := |pre| + 8 + |payload|), next, payload)
  {
    var input := pre + IntBytes(next) + IntBytes(|payload|) + payload + rest;
    assert input == pre + IntBytes(next) + (IntBytes(|payload|) + payload + rest);
    ReadIntRoundTrip(pre, next, IntBytes(|payload|) + payload + rest);
    assert input == (pre + IntBytes(next)) + IntBytes(|payload|) + (payload + rest);
    ReadIntRoundTrip(pre + IntBytes(next), |payload|, payload + rest);
    assert Round(input, codec, d) == Frame(input, codec, d.(pos := |pre| + 8), next, |payload|);
    FrameReadsPayload(input, codec, d.(pos := |pre| + 8), next, payload);
  }

  lemma FrameReadsPayload(input: Bytes, codec: Codec, d: Decoder, next: int, payload: Bytes)
    requires d.pos + |payload| <= |input| && input[d.pos..d.pos + |payload|] == payload
    requires next != -1 && |payload| > 0
    ensures Frame(input, codec, d, next, |payload|) == Segment(codec, d.(pos := d.pos + |payload|), next, payload)
  {
  }

  // ---------------------------------------------------------------- raw phase

  /** The raw-phase switch: LoginSuccess leaves LOGIN, Reconfigure enters CONFIGURATION,
      ConfigFinish enters PLAY, ConfigRegistries captures the registries; the version never
      changes, and only a JoinGame's payload is rewritten. */
  lemma RawPhaseStates(codec: Codec, reg: Registry, tag: Option<Tag>, t: PacketType, payload: Bytes)
    ensures var r := RawPhase(codec, reg, tag, t, payload);
            && r.registry.version == reg.version
            && (t == LoginSuccess ==> r.registry.state == (if reg.version >= V1_20_2 then Configuration else Play))
            && (t == Reconfigure ==> r.registry.state == Configuration)
            && (t == ConfigFinish ==> r.registry.state == Play)
            && (t !in {LoginSuccess, Reconfigure, ConfigFinish} ==> r.registry == reg)
            && (t == ConfigRegistries ==> r.tag == Some(codec.readRegistries(reg, payload)))
            && (t != ConfigRegistries ==> r.tag == tag)
            && (t != JoinGame ==> r.payload == payload)
  {
  }

  /** A JoinGame reaches the translator with entity id -1789435 and game mode 3 and all its
      other data as read, provided the JoinGame reader reads back what the writer wrote. */
  lemma JoinGameAnonymised(codec: Codec, reg: Registry, tag: Option<Tag>, payload: Bytes)
    requires forall p: Bytes, j: JoinGameData :: codec.readJoin(reg, codec.writeJoin(reg, p, j), tag) == j
    ensures var j := codec.readJoin(reg, RawPhase(codec, reg, tag, JoinGame, payload).payload, tag);
            j.entityId == JOIN_ENTITY_ID && j.gameMode == SPECTATOR
            && j.rest == codec.readJoin(reg, payload, tag).rest
  {
  }

  /** The translator is handed the payload after the raw-phase switch, with the state of the
      raw packet's type; its exception surfaces as an IOException (rethrown or wrapped) and
      leaves the queue as it was. */
  lemma SegmentTranslates(codec: Codec, d: Decoder, next: int, payload: Bytes)
    ensures var rawType := codec.typeOf(d.rawRegistry, codec.opcode(payload));
            var raw := RawPhase(codec, d.rawRegistry, d.mcRegistries, rawType, payload);
            var r := Segment(codec, d, next, payload);
            var log := d.translator.log;
            && |r.d.translator.log| > |log|
            && r.d.translator.log[..|log| + 1] == log + [Convert(raw.payload, codec.stateOf(rawType))]
            && r.d.rawRegistry == raw.registry && r.d.mcRegistries == raw.tag
            && (r.Fault? <==> codec.convert(d.translator, raw.payload, codec.stateOf(rawType)).Threw?)
            && (r.Fault? ==>
                  && r.d.buffer == d.buffer && r.d.registry == d.registry && r.d.loginPhase == d.loginPhase
                  && var e := codec.convert(d.translator, raw.payload, codec.stateOf(rawType)).e;
                     r.thrown == (if e.isIOException then Rethrown(e) else Decoding(e)))
  {
    var rawType := codec.typeOf(d.rawRegistry, codec.opcode(payload));
    var raw := RawPhase(codec, d.rawRegistry, d.mcRegistries, rawType, payload);
    var t := d.translator.(log := d.translator.log + [Convert(raw.payload, codec.stateOf(rawType))]);
    var d1 := d.(rawRegistry := raw.registry, mcRegistries := raw.tag, translator := t);
    match codec.convert(d.translator, raw.payload, codec.stateOf(rawType))
    case Threw(e) =>
    case Converted(bufs) =>
      OutputKeepsLog(d1, next, Decode(codec, d.registry, bufs));
  }

  // ---------------------------------------------------------------- output phase

  /** The output loop queues a packet exactly when `Emits` holds, at the segment's time,
      behind everything already queued. */
  lemma OutStepQueues(d: Decoder, next: int, p: Packet)
    ensures OutStep(d, next, p).buffer == if Emits(d, p) then d.buffer + [PacketData(next, p)] else d.buffer
  {
  }

  /** A dropped packet other than LoginSuccess changes nothing: phase transitions happen only
      for packets that are queued. */
  lemma DroppedChangesNothing(d: Decoder, next: int, p: Packet)
    requires !Emits(d, p) && p.ptype != LoginSuccess
    ensures OutStep(d, next, p) == d
  {
  }

  /** LoginSuccess ends the login phase and moves the registry past LOGIN whether or not it is
      queued; from 1.20.2 on the translator is told the login was acknowledged. */
  lemma LoginSuccessLeavesLogin(d: Decoder, next: int, p: Packet)
    requires p.ptype == LoginSuccess
    ensures var r := OutStep(d, next, p);
            && !r.loginPhase
            && r.registry == WithLoginSuccess(d.registry)
            && r.translator.log == d.translator.log + (if d.registry.version >= V1_20_2 then [LoginAcknowledged] else [])
  {
  }

  /** A queued ConfigFinish enters PLAY (acknowledged to the translator from 1.20.2 on);
      a queued Reconfigure enters CONFIGURATION. */
  lemma ConfigurationSwitches(d: Decoder, next: int, p: Packet)
    requires Emits(d, p)
    ensures p.ptype == ConfigFinish ==>
              OutStep(d, next, p).registry == d.registry.(state := Play)
              && OutStep(d, next, p).translator.log
                 == d.translator.log + (if d.registry.version >= V1_20_2 then [ConfigurationFinished] else [])
    ensures p.ptype == Reconfigure ==>
              OutStep(d, next, p).registry == d.registry.(state := Configuration)
              && OutStep(d, next, p).translator == d.translator
  {
  }

  /** While login packets are not output, nothing is queued during the login phase. */
  lemma SilentLogin(d: Decoder, next: int, ps: seq<Packet>)
    requires d.loginPhase && !d.outputLoginPhase
    requires forall i :: 0 <= i < |ps| ==> ps[i].ptype != LoginSuccess
    ensures Output(d, next, ps).buffer == d.buffer && Output(d, next, ps).loginPhase
  {
    if ps != [] {
      SilentLogin(d, next, ps[..|ps| - 1]);
    }
  }

  lemma SubsequenceExtend<T>(xs: seq<T>, ys: seq<T>, y: T)
    requires Subsequence(xs, ys)
    ensures Subsequence(xs, ys + [y]) && Subsequence(xs + [y], ys + [y])
  {
    assert (ys + [y])[..|ys|] == ys;
    assert (xs + [y])[..|xs|] == xs;
  }

  lemma PacketsOfAppend(ds: seq<PacketData>, x: PacketData)
    ensures PacketsOf(ds + [x]) == PacketsOf(ds) + [x.packet]
  {
  }

  /** The output loop only appends, and everything it queues carries the segment's time. */
  lemma {:induction false} OutputAppends(d: Decoder, next: int, ps: seq<Packet>)
    ensures var r := Output(d, next, ps).buffer;
            && |d.buffer| <= |r| && r[..|d.buffer|] == d.buffer
            && (forall i :: |d.buffer| <= i < |r| ==> r[i].time == next)
  {
    if ps != [] {
      OutputAppends(d, next, ps[..|ps| - 1]);
      OutStepQueues(Output(d, next, ps[..|ps| - 1]), next, ps[|ps| - 1]);
    }
  }

  /** The packets a segment queues keep the translator's order. */
  lemma {:induction false} OutputKeepsOrder(d: Decoder, next: int, ps: seq<Packet>)
    ensures |d.buffer| <= |Output(d, next, ps).buffer|
    ensures Subsequence(PacketsOf(Output(d, next, ps).buffer[|d.buffer|..]), ps)
  {
    OutputAppends(d, next, ps);
    if ps == [] {
      assert PacketsOf(d.buffer[|d.buffer|..]) == [];
    } else {
      var init, last := ps[..|ps| - 1], ps[|ps| - 1];
      OutputKeepsOrder(d, next, init);
      var m := Output(d, next, init);
      OutStepQueues(m, next, last);
      var e0 := m.buffer[|d.buffer|..];
      assert ps == init + [last];
      SubsequenceExtend(PacketsOf(e0), init, last);
      if Emits(m, last) {
        assert Output(d, next, ps).buffer[|d.buffer|..] == e0 + [PacketData(next, last)];
        PacketsOfAppend(e0, PacketData(next, last));
      } else {
        assert Output(d, next, ps).buffer[|d.buffer|..] == e0;
      }
    }
  }

  lemma {:induction false} OutputKeepsLog(d: Decoder, next: int, ps: seq<Packet>)
    ensures var log := Output(d, next, ps).translator.log;
            |d.translator.log| <= |log| && log[..|d.translator.log|] == d.translator.log
  {
    if ps != [] {
      OutputKeepsLog(d, next, ps[..|ps| - 1]);
    }
  }

  lemma {:induction false} OutputClean(d: Decoder, next: int, ps: seq<Packet>)
    requires Clean(d)
    ensures Clean(Output(d, next, ps))
  {
    if ps != [] {
      var m := Output(d, next, ps[..|ps| - 1]);
      OutputClean(d, next, ps[..|ps| - 1]);
      OutStepQueues(m, next, ps[|ps| - 1]);
    }
  }

  // ---------------------------------------------------------------- fill and poll

  lemma SegmentClean(codec: Codec, d: Decoder, next: int, payload: Bytes)
    requires Clean(d)
    ensures Clean(Segment(codec, d, next, payload).d)
  {
    var rawType := codec.typeOf(d.rawRegistry, codec.opcode(payload));
    var raw := RawPhase(codec, d.rawRegistry, d.mcRegistries, rawType, payload);
    var t := d.translator.(log := d.translator.log + [Convert(raw.payload, codec.stateOf(rawType))]);
    var d1 := d.(rawRegistry := raw.registry, mcRegistries := raw.tag, translator := t);
    match codec.convert(d.translator, raw.payload, codec.stateOf(rawType))
    case Threw(e) =>
    case Converted(bufs) =>
      OutputClean(d1, next, Decode(codec, d.registry, bufs));
  }

  lemma FrameClean(input: Bytes, codec: Codec, d: Decoder, next: int, length: int)
    requires d.pos <= |input| && Clean(d)
    ensures Clean(Frame(input, codec, d, next, length).d)
  {
    if next != -1 && length > 0 && d.pos + length <= |input| {
      SegmentClean(codec, d.(pos := d.pos + length), next, input[d.pos..d.pos + length]);
    }
  }

  lemma RoundClean(input: Bytes, codec: Codec, d: Decoder)
    requires d.pos <= |input| && Clean(d)
    ensures Clean(Round(input, codec, d).d)
  {
    var (next, p1) := ReadInt(input, d.pos);
    var (length, p2) := ReadInt(input, p1);
    FrameClean(input, codec, d.(pos := p2), next, length);
  }

  lemma {:induction false} FillClean(input: Bytes, codec: Codec, d: Decoder)
    requires d.pos <= |input| && Clean(d)
    ensures Clean(Fill(input, codec, d).d)
    decreases |input| - d.pos
  {
    if d.buffer == [] {
      RoundClean(input, codec, d);
      match Round(input, codec, d)
      case Stop(_) =>
      case Continue(d1) => FillClean(input, codec, d1);
      case Fault(_, _) =>
    }
  }

  /** With packets queued, `readPacket` reads nothing and returns the oldest one. */
  lemma ReadIsFifo(input: Bytes, codec: Codec, d: Decoder)
    requires d.pos <= |input| && d.buffer != []
    ensures Read(input, codec, d) == Polled(d.(buffer := d.buffer[1..]), Some(d.buffer[0]))
  {
  }

  /** The header at `p` ends the stream: either of its ints reads -1. */
  predicate EndMarkerAt(input: Bytes, p: nat)
    requires p <= |input|
  {
    ReadInt(input, p).0 == -1 || ReadInt(input, ReadInt(input, p).1).0 == -1
  }

  /** When `fillBuffer` returns with nothing queued, the queue was empty on entry and the
      last header it read, starting at some `p` at or after the entry position, was an end
      marker; the position is then just past that header. */
  lemma {:induction false} FillEmptyAtEnd(input: Bytes, codec: Codec, d: Decoder)
    requires d.pos <= |input|
    requires Fill(input, codec, d).Filled? && Fill(input, codec, d).d.buffer == []
    ensures d.buffer == []
    ensures exists p :: d.pos <= p <= |input| && EndMarkerAt(input, p)
              && Fill(input, codec, d).d.pos == ReadInt(input, ReadInt(input, p).1).1
    decreases |input| - d.pos
  {
    match Round(input, codec, d)
    case Stop(d1) =>
      RoundStops(input, codec, d);
      assert EndMarkerAt(input, d.pos);
    case Continue(d1) =>
      FillEmptyAtEnd(input, codec, d1);
      var p :| d1.pos <= p <= |input| && EndMarkerAt(input, p)
               && Fill(input, codec, d1).d.pos == ReadInt(input, ReadInt(input, p).1).1;
      assert d.pos <= p;
    case Fault(_, _) =>
  }

  /** `readPacket` returns null only at the end of the stream: the queue was empty and an
      end marker was read before anything was queued; the queue is then still empty. */
  lemma ReadNullAtEnd(input: Bytes, codec: Codec, d: Decoder)
    requires d.pos <= |input|
    requires Read(input, codec, d).Polled? && Read(input, codec, d).packet.None?
    ensures d.buffer == [] && Read(input, codec, d).d.buffer == []
    ensures exists p :: d.pos <= p <= |input| && EndMarkerAt(input, p)
              && Read(input, codec, d).d.pos == ReadInt(input, ReadInt(input, p).1).1
  {
    FillEmptyAtEnd(input, codec, d);
  }

  /** Conversely, with nothing queued and an end marker next in the log, `readPacket`
      returns null. */
  lemma ReadAtEndIsNull(input: Bytes, codec: Codec, d: Decoder)
    requires d.pos <= |input| && d.buffer == [] && EndMarkerAt(input, d.pos)
    ensures Read(input, codec, d).Polled? && Read(input, codec, d).packet.None?
    ensures Read(input, codec, d).d == d.(pos := ReadInt(input, ReadInt(input, d.pos).1).1)
  {
    RoundStops(input, codec, d);
  }

  /** `readPacket` never returns a KeepAlive, nor a LoginSuccess when login packets are not
      output, and it leaves the queue clean for the next call. */
  lemma ReadNeverKeepAlive(input: Bytes, codec: Codec, d: Decoder)
    requires d.pos <= |input| && Clean(d)
    ensures Clean(Read(input, codec, d).d)
    ensures var r := Read(input, codec, d);
            r.Polled? && r.packet.Some? ==>
              r.packet.value.packet.ptype != KeepAlive
              && (!d.outputLoginPhase ==> r.packet.value.packet.ptype != LoginSuccess)
  {
    FillClean(input, codec, d);
    FillKeepsOutputFlag(input, codec, d);
  }

  lemma {:induction false} FillKeepsOutputFlag(input: Bytes, codec: Codec, d: Decoder)
    requires d.pos <= |input|
    ensures Fill(input, codec, d).d.outputLoginPhase == d.outputLoginPhase
    decreases |input| - d.pos
  {
    if d.buffer == [] {
      match Round(input, codec, d)
      case Stop(_) =>
      case Continue(d1) => FillKeepsOutputFlag(input, codec, d1);
      case Fault(_, _) =>
    }
  }

  // ---------------------------------------------------------------- opening

  /** The constructor: the login phase is expected exactly for format 14 and later; a format
      before 14 opened in LOGIN queues an anonymous LoginSuccess at time 0 and continues in
      PLAY; format 14 or later opened past LOGIN reads in LOGIN; otherwise the registry is
      kept and nothing is queued. The raw registry has the file's protocol and the output
      state, and nothing has been read. */
  lemma InitialState(codec: Codec, registry: Registry, format: int, protocol: int)
    ensures var d := Initial(codec, registry, format, protocol);
            && d.pos == 0 && d.mcRegistries == None && d.translator.log == []
            && d.loginPhase == (format >= 14)
            && d.outputLoginPhase == (registry.state == Login)
            && d.registry.version == registry.version
            && d.rawRegistry == Registry(codec.protocolOf(format, protocol), d.registry.state)
            && (format < 14 && registry.state == Login ==>
                  d.registry.state == Play && |d.buffer| == 1 && d.buffer[0].time == 0
                  && d.buffer[0].packet.ptype == LoginSuccess)
            && (format >= 14 && registry.state != Login ==> d.registry.state == Login && d.buffer == [])
            && ((format < 14) == (registry.state != Login) ==> d.registry == registry && d.buffer == [])
    ensures Clean(Initial(codec, registry, format, protocol))
  {
  }

  /** The constructor throws exactly when the file's protocol is 1.20.2 or later and the
      state it would start reading in is PLAY: a pre-14 file opened in LOGIN or in PLAY. */
  lemma InitialRejects(codec: Codec, registry: Registry, format: int, protocol: int)
    ensures Rejects(Initial(codec, registry, format, protocol)) <==>
              codec.protocolOf(format, protocol) >= V1_20_2 && format < 14 && registry.state != Configuration
  {
  }
}
