/** What the squash filter remembers about one entity, how an entity packet changes
    it, and what the entity contributes to the finalized batch. */
module Entities {
  import opened Common
  import opened Motion
  import opened Packets

  /** SquashFilter.Entity: buffered packets, the time of the last single-entity
      packet, the last teleport target, the displacement accumulated since (1/32
      block units), the last rotation and the last on-ground flag. */
  datatype Entity = Entity(
    packets: seq<PacketData>,
    lastTimestamp: int,
    loc: Option<Location>,
    dx: int,
    dy: int,
    dz: int,
    yaw: Option<Angle>,
    pitch: Option<Angle>,
    onGround: bool)

  function NewEntity(): Entity {
    Entity([], 0, None, 0, 0, 0, None, None, false)
  }

  function Displacement(e: Entity): Delta {
    Delta(e.dx, e.dy, e.dz)
  }

  /** `getOrCreate(entities, id, Entity::new)` as a value. */
  function Lookup(es: map<Int32, Entity>, id: Int32): Entity {
    if id in es then es[id] else NewEntity()
  }

  /** The movement packet classes: a plain movement, and those that are also
      position-class (carry a relative move) or rotation-class (carry yaw/pitch). */
  predicate IsPositionClass(p: Packet) {
    p.EntityPosition? || p.EntityPositionRotation?
  }

  predicate IsRotationClass(p: Packet) {
    p.EntityRotation? || p.EntityPositionRotation?
  }

  predicate IsMovement(p: Packet) {
    p.EntityMovement? || IsPositionClass(p) || IsRotationClass(p)
  }

  /** A single-entity packet applied to its entity (SquashFilter.java:157-181). */
  function Track(e: Entity, data: PacketData): Entity {
    var p := data.packet;
    var e' :=
      if IsMovement(p) then
        var e1 := e.(onGround := p.onGround);
        var e2 := if IsPositionClass(p) then e1.(dx := e1.dx + p.move.x, dy := e1.dy + p.move.y, dz := e1.dz + p.move.z) else e1;
        if IsRotationClass(p) then e2.(yaw := Some(p.yaw), pitch := Some(p.pitch)) else e2
      else if p.EntityTeleport? then
        e.(loc := Some(p.loc), dx := 0, dy := 0, dz := 0, yaw := None, pitch := None, onGround := p.onGround)
      else
        e.(packets := e.packets + [data]);
    e'.(lastTimestamp := data.time)
  }

  /** A run of single-entity packets for one entity, in arrival order. */
  function TrackAll(e: Entity, ds: seq<PacketData>): Entity {
    if ds == [] then e else Track(TrackAll(e, ds[..|ds| - 1]), ds[|ds| - 1])
  }

  /** The relative moves of the position-class packets of a run. */
  function Moves(ds: seq<PacketData>): seq<Delta> {
    if ds == [] then []
    else
      var p := ds[|ds| - 1].packet;
      Moves(ds[..|ds| - 1]) + (if IsPositionClass(p) then [p.move] else [])
  }

  /** The packets of a run that are neither movements nor teleports. */
  function Buffered(ds: seq<PacketData>): seq<PacketData> {
    if ds == [] then []
    else
      var p := ds[|ds| - 1].packet;
      Buffered(ds[..|ds| - 1]) + (if IsMovement(p) || p.EntityTeleport? then [] else [ds[|ds| - 1]])
  }

  predicate NoTeleport(ds: seq<PacketData>) {
    forall i :: 0 <= i < |ds| ==> !ds[i].packet.EntityTeleport?
  }

  lemma NoTeleportInit(ds: seq<PacketData>)
    requires ds != [] && NoTeleport(ds)
    ensures NoTeleport(ds[..|ds| - 1])
  {
    var init := ds[..|ds| - 1];
    forall i | 0 <= i < |init| ensures !init[i].packet.EntityTeleport? {
      assert init[i] == ds[i];
    }
  }

  /** Without a teleport, the accumulator grows by exactly the moves of the
      position-class packets ... */
  lemma {:induction false} TrackAllWithoutTeleport(e: Entity, ds: seq<PacketData>)
    requires NoTeleport(ds)
    ensures Displacement(TrackAll(e, ds)) == Plus(Displacement(e), Total(Moves(ds)))
  {
    if ds != [] {
      var init, d := ds[..|ds| - 1], ds[|ds| - 1];
      NoTeleportInit(ds);
      TrackAllWithoutTeleport(e, init);
      var ms := Moves(init);
      if IsPositionClass(d.packet) {
        assert Moves(ds) == ms + [d.packet.move];
        TotalAppend(ms, d.packet.move);
      } else {
        assert Moves(ds) == ms;
      }
    }
  }

  /** ... every packet that is neither a movement nor a teleport is buffered in
      arrival order, the location is kept, and the entity remembers the time of the
      last packet of the run. */
  lemma {:induction false} TrackAllBuffers(e: Entity, ds: seq<PacketData>)
    requires NoTeleport(ds)
    ensures TrackAll(e, ds).packets == e.packets + Buffered(ds)
    ensures TrackAll(e, ds).loc == e.loc
    ensures ds != [] ==> TrackAll(e, ds).lastTimestamp == ds[|ds| - 1].time
  {
    if ds != [] {
      NoTeleportInit(ds);
      TrackAllBuffers(e, ds[..|ds| - 1]);
    }
  }

  /** Every single-entity packet stamps its entity, teleport or not: after a run the
      entity remembers the time of its last packet, and an empty run changes nothing. */
  lemma {:induction false} TrackAllStamps(e: Entity, ds: seq<PacketData>)
    ensures ds != [] ==> TrackAll(e, ds).lastTimestamp == ds[|ds| - 1].time
    ensures forall i :: 0 <= i < |ds| ==> TrackAll(e, ds[..i + 1]).lastTimestamp == ds[i].time
    ensures ds == [] ==> TrackAll(e, ds) == e
  {
    if ds != [] {
      var init := ds[..|ds| - 1];
      TrackAllStamps(e, init);
      forall i | 0 <= i < |ds| ensures TrackAll(e, ds[..i + 1]).lastTimestamp == ds[i].time {
        if i < |init| {
          assert ds[..i + 1] == init[..i + 1];
        } else {
          assert ds[..i + 1] == ds;
        }
      }
    }
  }

  /** Packets that are neither teleports nor rotation-class keep yaw and pitch. */
  lemma {:induction false} RotationKept(e: Entity, ds: seq<PacketData>)
    requires forall i :: 0 <= i < |ds| ==> !ds[i].packet.EntityTeleport? && !IsRotationClass(ds[i].packet)
    ensures TrackAll(e, ds).yaw == e.yaw && TrackAll(e, ds).pitch == e.pitch
  {
    if ds != [] {
      var init := ds[..|ds| - 1];
      assert forall i :: 0 <= i < |init| ==> init[i] == ds[i];
      RotationKept(e, init);
    }
  }

  /** The same for a teleport-free run, stated as an implication. */
  lemma RotationKeptWithoutTeleport(e: Entity, ds: seq<PacketData>)
    requires NoTeleport(ds)
    ensures (forall i :: 0 <= i < |ds| ==> !IsRotationClass(ds[i].packet)) ==>
      TrackAll(e, ds).yaw == e.yaw && TrackAll(e, ds).pitch == e.pitch
  {
    if forall i :: 0 <= i < |ds| ==> !IsRotationClass(ds[i].packet) {
      RotationKept(e, ds);
    }
  }

  /** A teleport sets the location and the on-ground flag, clears the accumulator and
      the rotation, and stamps the entity: after a teleport and a run without one, the
      entity holds the teleport target and exactly the moves that came after it, and
      has no rotation unless a rotation-class packet followed. */
  lemma TeleportResets(e: Entity, tp: PacketData, ds: seq<PacketData>)
    requires tp.packet.EntityTeleport? && NoTeleport(ds)
    ensures Track(e, tp).onGround == tp.packet.onGround && Track(e, tp).lastTimestamp == tp.time
    ensures Track(e, tp).yaw == None && Track(e, tp).pitch == None
    ensures TrackAll(Track(e, tp), ds).loc == Some(tp.packet.loc)
    ensures Displacement(TrackAll(Track(e, tp), ds)) == Total(Moves(ds))
    ensures TrackAll(Track(e, tp), ds).packets == e.packets + Buffered(ds)
    ensures (forall i :: 0 <= i < |ds| ==> !IsRotationClass(ds[i].packet)) ==>
      TrackAll(Track(e, tp), ds).yaw == None && TrackAll(Track(e, tp), ds).pitch == None
    ensures TrackAll(Track(e, tp), ds).lastTimestamp == if ds == [] then tp.time else ds[|ds| - 1].time
  {
    var e1 := Track(e, tp);
    assert e1 == e.(loc := Some(tp.packet.loc), dx := 0, dy := 0, dz := 0, yaw := None, pitch := None,
                    onGround := tp.packet.onGround, lastTimestamp := tp.time);
    TrackAllWithoutTeleport(e1, ds);
    TrackAllBuffers(e1, ds);
    RotationKeptWithoutTeleport(e1, ds);
  }

  /** The latest rotation-class packet decides yaw and pitch when nothing after it
      is a teleport or another rotation. */
  lemma {:induction false} RotationOverwrites(e: Entity, rot: PacketData, ds: seq<PacketData>)
    requires IsRotationClass(rot.packet)
    requires forall i :: 0 <= i < |ds| ==> !ds[i].packet.EntityTeleport? && !IsRotationClass(ds[i].packet)
    ensures TrackAll(Track(e, rot), ds).yaw == Some(rot.packet.yaw)
    ensures TrackAll(Track(e, rot), ds).pitch == Some(rot.packet.pitch)
    decreases |ds|
  {
    if ds != [] {
      var init := ds[..|ds| - 1];
      assert forall i :: 0 <= i < |init| ==> init[i] == ds[i];
      RotationOverwrites(e, rot, init);
    }
  }

  // ---------------------------------------------------------------------------
  // Packets that name several entities (SquashFilter.java:147-153)
  // ---------------------------------------------------------------------------

  /** The loop over `getEntityIds`: a destroy removes each id, any other packet is
      appended to the buffer of each id, creating the entity when needed. */
  function TrackMany(es: map<Int32, Entity>, ids: seq<Int32>, data: PacketData): map<Int32, Entity> {
    if ids == [] then es
    else
      var es' := TrackMany(es, ids[..|ids| - 1], data);
      var id := ids[|ids| - 1];
      if data.packet.DestroyEntities? then es' - {id}
      else es'[id := Lookup(es', id).(packets := Lookup(es', id).packets + [data])]
  }

  /** A destroy removes every named id and keeps every other entity. */
  lemma {:induction false} DestroyRemovesNamed(es: map<Int32, Entity>, ids: seq<Int32>, data: PacketData)
    requires data.packet.DestroyEntities?
    ensures TrackMany(es, ids, data).Keys == es.Keys - set i | i in ids
    ensures forall id :: id in es && id !in ids ==> TrackMany(es, ids, data)[id] == es[id]
  {
    if ids != [] {
      var init := ids[..|ids| - 1];
      DestroyRemovesNamed(es, init, data);
      assert forall i :: i in ids <==> i in init || i == ids[|ids| - 1];
    }
  }

  /** How many times `id` occurs in `ids`. */
  function Count(ids: seq<Int32>, id: Int32): nat {
    if ids == [] then 0 else Count(ids[..|ids| - 1], id) + (if ids[|ids| - 1] == id then 1 else 0)
  }

  function Repeat(data: PacketData, n: nat): (r: seq<PacketData>)
    ensures |r| == n && forall i :: 0 <= i < n ==> r[i] == data
  {
    seq(n, _ => data)
  }

  /** Any other multi-entity packet creates the entities it names that are
      missing and leaves the entities it does not name untouched ... */
  lemma {:induction false} MultiKeepsUnnamed(es: map<Int32, Entity>, ids: seq<Int32>, data: PacketData)
    requires !data.packet.DestroyEntities?
    ensures TrackMany(es, ids, data).Keys == es.Keys + set i | i in ids
    ensures forall id :: id in es && id !in ids ==> TrackMany(es, ids, data)[id] == es[id]
  {
    if ids != [] {
      var init, last := ids[..|ids| - 1], ids[|ids| - 1];
      MultiKeepsUnnamed(es, init, data);
      assert forall i :: i in ids <==> i in init || i == last;
    }
  }

  /** ... and is appended to each named entity's buffer once per occurrence of
      its id; the entity's timestamp and movement state do not change. */
  lemma {:induction false} MultiAppendsToNamed(es: map<Int32, Entity>, ids: seq<Int32>, data: PacketData, id: Int32)
    requires !data.packet.DestroyEntities?
    ensures Lookup(TrackMany(es, ids, data), id)
         == Lookup(es, id).(packets := Lookup(es, id).packets + Repeat(data, Count(ids, id)))
  {
    if ids == [] {
      assert Lookup(es, id).packets + Repeat(data, 0) == Lookup(es, id).packets;
    } else {
      var init, last := ids[..|ids| - 1], ids[|ids| - 1];
      MultiAppendsToNamed(es, init, data, id);
      var base := Lookup(es, id);
      if id == last {
        assert base.packets + Repeat(data, Count(init, id)) + [data] == base.packets + Repeat(data, Count(init, id) + 1);
      }
    }
  }

  // ---------------------------------------------------------------------------
  // The entity's share of the finalized batch (SquashFilter.java:416-452)
  // ---------------------------------------------------------------------------

  /** A buffered packet survives unless it names several entities and one of them
      no longer exists. */
  predicate Emittable(present: set<Int32>, data: PacketData) {
    EntityIdOf(data.packet) == Some(-1) ==> forall i :: i in EntityIdsOf(data.packet) ==> i in present
  }

  function KeptPackets(ps: seq<PacketData>, present: set<Int32>): seq<PacketData> {
    if ps == [] then []
    else KeptPackets(ps[..|ps| - 1], present) + (if Emittable(present, ps[|ps| - 1]) then [ps[|ps| - 1]] else [])
  }

  /** The surviving packets are exactly the emittable buffered ones ... */
  lemma {:induction false} KeptPacketsMembers(ps: seq<PacketData>, present: set<Int32>)
    ensures forall d :: d in KeptPackets(ps, present) <==> d in ps && Emittable(present, d)
  {
    if ps != [] {
      var init := ps[..|ps| - 1];
      KeptPacketsMembers(init, present);
      assert ps == init + [ps[|ps| - 1]];
    }
  }

  /** ... in buffer order: the filter distributes over concatenation. */
  lemma {:induction false} KeptPacketsAppend(a: seq<PacketData>, b: seq<PacketData>, present: set<Int32>)
    ensures KeptPackets(a + b, present) == KeptPackets(a, present) + KeptPackets(b, present)
    decreases |b|
  {
    if b == [] {
      assert a + b == a;
    } else {
      var init := b[..|b| - 1];
      assert (a + b)[..|a + b| - 1] == a + init;
      KeptPacketsAppend(a, init, present);
    }
  }

  /** The relative-move packets for a flushed displacement. */
  function MovePackets(id: Int32, time: int, onGround: bool, steps: seq<Delta>): seq<PacketData> {
    seq(|steps|, i requires 0 <= i < |steps| => PacketData(time, EntityPosition(id, steps[i], onGround)))
  }

  function TeleportPackets(id: Int32, e: Entity): seq<PacketData> {
    if e.loc.Some? then [PacketData(e.lastTimestamp, EntityTeleport(id, e.loc.value, e.onGround))] else []
  }

  function RotationPackets(id: Int32, e: Entity): seq<PacketData> {
    if e.yaw.Some? && e.pitch.Some? then [PacketData(e.lastTimestamp, EntityRotation(id, e.yaw.value, e.pitch.value, e.onGround))] else []
  }

  /** Everything one entity contributes: its surviving buffered packets, a teleport
      to its last location, the clamped moves of the literal flush loop and its
      last rotation, all synthesized packets at the entity's last timestamp. */
  function EntityPackets(id: Int32, e: Entity, present: set<Int32>): seq<PacketData> {
    KeptPackets(e.packets, present) + TeleportPackets(id, e)
      + MovePackets(id, e.lastTimestamp, e.onGround, FlushWhileAll(Displacement(e)).steps)
      + RotationPackets(id, e)
  }

  /** The synthesized position packets carry byte-range deltas that, with the
      residual the loop leaves in the entity, add up to its accumulated
      displacement. */
  lemma EntityMovesAreBounded(id: Int32, e: Entity, present: set<Int32>)
    ensures var steps := FlushWhileAll(Displacement(e)).steps;
            && AllInByteRange(steps)
            && Plus(Total(steps), FlushWhileAll(Displacement(e)).residual) == Displacement(e)
            && |MovePackets(id, e.lastTimestamp, e.onGround, steps)| == |steps|
            && (forall i :: 0 <= i < |steps| ==>
                  && MovePackets(id, e.lastTimestamp, e.onGround, steps)[i].time == e.lastTimestamp
                  && MovePackets(id, e.lastTimestamp, e.onGround, steps)[i].packet.EntityPosition?
                  && MovePackets(id, e.lastTimestamp, e.onGround, steps)[i].packet.move == steps[i])
  {
    FlushWhileAllConserves(Displacement(e));
  }
}
