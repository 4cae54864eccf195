/** The loops of onEnd (SquashFilter.java:379-502), one per store, each proved
    against its share of `Finish`. Every hash-based iteration goes through
    `Enumerate`, and the order it picks is returned so that the caller can name it. */
module SquashEnd {
  import opened Common
  import opened Motion
  import opened Chunks
  import opened Packets
  import opened Entities
  import opened Teams
  import opened Sorting
  import opened SquashModel

  /** `values()` of a map keyed by int: `mainInventoryChanges` and `maps`. */
  method CollectValues<V>(m: map<int, V>) returns (ks: seq<int>, ps: seq<V>)
    ensures IsEnumeration(ks, m.Keys)
    ensures ps == Values(m, ks)
  {
    ks := Enumerate(m.Keys);
    ps := [];
    for i := 0 to |ks|
      invariant |ps| == i
      invariant forall j :: 0 <= j < i ==> ps[j] == m[ks[j]]
    {
      ps := ps + [m[ks[i]]];
    }
  }

  /** Whether a buffered packet survives: every entity a multi-entity packet
      names must still be tracked (the `continue FOR_PACKETS` test). */
  method Survives(data: PacketData, present: set<Int32>) returns (keep: bool)
    ensures keep == Emittable(present, data)
  {
    keep := true;
    if EntityIdOf(data.packet) == Some(-1) {
      var all := EntityIdsOf(data.packet);
      var j := 0;
      while j < |all| && keep
        invariant 0 <= j <= |all|
        invariant keep <==> forall k :: 0 <= k < j ==> all[k] in present
      {
        if all[j] !in present {
          keep := false;
        }
        j := j + 1;
      }
      assert keep ==> forall i :: i in all ==> i in present;
    }
  }

  /** The `FOR_PACKETS` loop: the buffered packets that survive, in order. */
  method CollectKept(packets: seq<PacketData>, present: set<Int32>) returns (ps: seq<PacketData>)
    ensures ps == KeptPackets(packets, present)
  {
    ps := [];
    for i := 0 to |packets|
      invariant ps == KeptPackets(packets[..i], present)
    {
      assert packets[..i + 1][..i] == packets[..i];
      var keep := Survives(packets[i], present);
      if keep {
        ps := ps + [packets[i]];
      }
    }
    assert packets[..|packets|] == packets;
  }

  /** One entity: its surviving buffered packets, the teleport, the flushed moves
      and the rotation. */
  method CollectEntity(id: Int32, e: Entity, present: set<Int32>) returns (ps: seq<PacketData>)
    ensures ps == EntityPackets(id, e, present)
  {
    ps := CollectKept(e.packets, present);
    if e.loc.Some? {
      ps := ps + [PacketData(e.lastTimestamp, EntityTeleport(id, e.loc.value, e.onGround))];
    }
    ghost var synced := ps;
    assert synced == KeptPackets(e.packets, present) + TeleportPackets(id, e);
    var steps, dx, dy, dz := FlushMotion(e.dx, e.dy, e.dz);
    assert steps == FlushWhileAll(Displacement(e)).steps;
    ps := ps + MovePackets(id, e.lastTimestamp, e.onGround, steps);
    if e.yaw.Some? && e.pitch.Some? {
      ps := ps + [PacketData(e.lastTimestamp, EntityRotation(id, e.yaw.value, e.pitch.value, e.onGround))];
    }
    assert ps == synced + MovePackets(id, e.lastTimestamp, e.onGround, steps) + RotationPackets(id, e);
  }

  /** `for (e : entities.entrySet())`. */
  method CollectEntities(es: map<Int32, Entity>) returns (ids: seq<Int32>, ps: seq<PacketData>)
    ensures IsEnumeration(ids, es.Keys)
    ensures ps == EntitiesPart(es, ids)
  {
    ids := Enumerate(es.Keys);
    ps := [];
    for i := 0 to |ids|
      invariant ps == EntitiesPart(es, ids[..i])
    {
      assert ids[..i + 1][..i] == ids[..i];
      var more := CollectEntity(ids[i], es[ids[i]], es.Keys);
      ps := ps + more;
    }
    assert ids[..|ids|] == ids;
  }

  /** `for (e : unloadedChunks.entrySet())`: an unload packet per deferred coordinate. */
  method CollectUnloaded(u: map<Int64, int>) returns (ks: seq<Int64>, ps: seq<PacketData>)
    ensures IsEnumeration(ks, u.Keys)
    ensures ps == UnloadedPart(u, ks)
  {
    ks := Enumerate(u.Keys);
    ps := [];
    for i := 0 to |ks|
      invariant |ps| == i
      invariant forall j :: 0 <= j < i ==> ps[j] == UnloadPacket(ks[j], u[ks[j]])
    {
      var x, z := LongToX(ks[i]), LongToZ(ks[i]);
      ps := ps + [PacketData(u[ks[i]], ChunkColumn(ColumnData(x, z, seq(16, _ => None), None)))];
    }
  }

  /** The cached changes of one section, in its map's iteration order. */
  method CollectVoxels(m: map<int, BlockEntry>) returns (ks: seq<int>, ps: seq<PacketData>)
    ensures IsEnumeration(ks, m.Keys)
    ensures ps == VoxelPackets(m, ks)
  {
    ks := Enumerate(m.Keys);
    ps := [];
    for i := 0 to |ks|
      invariant |ps| == i
      invariant forall j :: 0 <= j < i ==> ps[j] == PacketData(m[ks[j]].time, BlockChange(m[ks[j]].record))
    {
      var pair := m[ks[i]];
      ps := ps + [PacketData(pair.time, BlockChange(pair.record))];
    }
  }

  /** One column: the merged sections at its first appearance, then every
      section's cached block changes. */
  method CollectColumn(c: Column) returns (vox: seq<seq<int>>, ps: seq<PacketData>)
    requires WellFormed(c)
    ensures |vox| == 16
    ensures forall y :: 0 <= y < 16 ==> IsEnumeration(vox[y], c.blocks[y].Keys)
    ensures forall y, i :: 0 <= y < 16 && 0 <= i < |vox[y]| ==> vox[y][i] in c.blocks[y]
    ensures ps == ColumnPackets(c, vox)
  {
    var head := [PacketData(c.firstAppearance, ChunkColumn(ColumnData(c.x, c.z, c.sections, c.biome)))];
    ps := head;
    vox := [];
    for y := 0 to 16
      invariant |vox| == y
      invariant forall y' :: 0 <= y' < y ==> IsEnumeration(vox[y'], c.blocks[y'].Keys)
      invariant ps == head + SectionsPart(c.blocks, vox, y)
    {
      var ks, more := CollectVoxels(c.blocks[y]);
      SectionsPartPrefix(c.blocks, vox, vox + [ks], y);
      vox := vox + [ks];
      ps := ps + more;
    }
  }

  /** `for (chunk : chunks.values())`. */
  method CollectColumns(chunks: map<Int64, Column>) returns (ks: seq<Int64>, voxels: map<Int64, seq<seq<int>>>, ps: seq<PacketData>)
    requires forall k :: k in chunks ==> WellFormed(chunks[k])
    ensures IsEnumeration(ks, chunks.Keys)
    ensures forall k :: k in chunks ==>
              WellFormed(chunks[k]) && k in voxels && |voxels[k]| == 16
              && forall y :: 0 <= y < 16 ==> IsEnumeration(voxels[k][y], chunks[k].blocks[y].Keys)
    ensures forall i :: 0 <= i < |ks| ==> VoxelOrderFits(chunks, voxels, ks[i])
    ensures ps == ColumnsPart(chunks, voxels, ks)
  {
    ks := Enumerate(chunks.Keys);
    voxels := map[];
    ps := [];
    for i := 0 to |ks|
      invariant forall j :: 0 <= j < i ==> ks[j] in voxels && VoxelOrderFits(chunks, voxels, ks[j])
      invariant forall j :: 0 <= j < i ==>
                  forall y :: 0 <= y < 16 ==> IsEnumeration(voxels[ks[j]][y], chunks[ks[j]].blocks[y].Keys)
      invariant ps == ColumnsPart(chunks, voxels, ks[..i])
    {
      var vox, more := CollectColumn(chunks[ks[i]]);
      ColumnsPartStep(chunks, voxels, ks, i, vox);
      voxels := voxels[ks[i] := vox];
      ps := ps + more;
    }
    assert ks[..|ks|] == ks;
  }

  /** `for (team : teams.values())`, each team's added set iterated once. */
  method CollectTeams(teams: map<string, Team>) returns (names: seq<string>, added: map<string, seq<PlayerName>>, ps: seq<Packet>)
    ensures IsEnumeration(names, teams.Keys)
    ensures forall n :: n in teams ==> n in added && IsEnumeration(added[n], teams[n].added)
    ensures ps == TeamsPart(teams, added, names)
  {
    names := Enumerate(teams.Keys);
    added := map[];
    ps := [];
    for i := 0 to |names|
      invariant forall j :: 0 <= j < i ==> names[j] in added && IsEnumeration(added[names[j]], teams[names[j]].added)
      invariant ps == TeamsPart(teams, added, names[..i])
    {
      var ks := Enumerate(teams[names[i]].added);
      TeamsPartStep(teams, added, names, i, ks);
      added := added[names[i] := ks];
      ps := ps + TeamPackets(teams[names[i]], ks);
    }
    assert names[..|names|] == names;
  }

  /** `add(stream, timestamp, packet)` for each packet in turn. */
  method InsertAll(ps: seq<Packet>, cut: int) returns (out: seq<PacketData>)
    ensures out == AtCut(ps, cut)
  {
    out := [];
    for i := 0 to |ps|
      invariant |out| == i
      invariant forall j :: 0 <= j < i ==> out[j] == PacketData(cut, ps[j])
    {
      out := out + [PacketData(cut, ps[i])];
    }
  }

  /** Inserting two runs in turn inserts their concatenation. */
  lemma AtCutAppend(a: seq<Packet>, b: seq<Packet>, cut: int)
    ensures AtCut(a + b, cut) == AtCut(a, cut) + AtCut(b, cut)
  {
  }

  /** The batch onEnd sorts, written as the parts its loops collect. */
  lemma BatchFromParts(s: SquashState, o: Order, head: seq<PacketData>, world: seq<PacketData>,
                       living: seq<PacketData>, unloads: seq<PacketData>, loads: seq<PacketData>)
    requires Inv(s) && IsOrderOf(o, s)
    requires head == s.unhandled + s.currentWorld + s.windows.currentWindow + s.windows.closeWindows
                     + Values(s.windows.mainInventoryChanges, o.inventorySlots) + OptionPacket(s.windows.mainInventory)
    requires world == WorldPackets(s.world, s.lastTimestamp)
                      + StampedOption(s.lastTimestamp, s.world.experience) + StampedOption(s.lastTimestamp, s.world.abilities)
    requires living == EntitiesPart(s.entities, o.entityIds)
    requires unloads == UnloadedPart(s.terrain.unloaded, o.unloaded)
    requires loads == ColumnsPart(s.terrain.chunks, o.voxels, o.columns)
    ensures Batch(s, o) == head + world + living + unloads + loads
  {
    var w1 := WorldPackets(s.world, s.lastTimestamp);
    var w2 := StampedOption(s.lastTimestamp, s.world.experience);
    var w3 := StampedOption(s.lastTimestamp, s.world.abilities);
    AppendThree(head, w1, w2, w3);
  }

  /** What onEnd inserts: the sorted batch, then the team and map packets, all at the cut. */
  lemma FinishFromParts(s: SquashState, o: Order, cut: int, batch: seq<PacketData>,
                        teamPackets: seq<Packet>, mapPackets: seq<Packet>)
    requires Inv(s) && IsOrderOf(o, s)
    requires batch == Batch(s, o)
    requires teamPackets == TeamsPart(s.teams, o.teamAdded, o.teamNames)
    requires mapPackets == Values(s.maps, o.mapIds)
    ensures Finish(s, o, cut) == AtCut(PacketsOf(SortByTime(batch)), cut) + AtCut(teamPackets, cut) + AtCut(mapPackets, cut)
  {
    AtCutAppend(teamPackets, mapPackets, cut);
  }

  // ---------------------------------------------------------------------------
  // Frame lemmas: the parts read the order only at the keys they visit.
  // ---------------------------------------------------------------------------

  lemma {:induction false} SectionsPartPrefix(blocks: seq<map<int, BlockEntry>>, v: seq<seq<int>>, w: seq<seq<int>>, n: nat)
    requires n <= |blocks| && n <= |v| && n <= |w|
    requires forall y :: 0 <= y < n ==> v[y] == w[y]
    requires forall y, i :: 0 <= y < n && 0 <= i < |v[y]| ==> v[y][i] in blocks[y]
    ensures SectionsPart(blocks, v, n) == SectionsPart(blocks, w, n)
  {
    if n > 0 {
      SectionsPartPrefix(blocks, v, w, n - 1);
    }
  }

  lemma {:induction false} ColumnsPartFrame(chunks: map<Int64, Column>, v: map<Int64, seq<seq<int>>>, w: map<Int64, seq<seq<int>>>, ks: seq<Int64>)
    requires forall i :: 0 <= i < |ks| ==> ks[i] in chunks && WellFormed(chunks[ks[i]]) && VoxelOrderFits(chunks, v, ks[i])
    requires forall i :: 0 <= i < |ks| ==> ks[i] in v && ks[i] in w && w[ks[i]] == v[ks[i]]
    ensures forall i :: 0 <= i < |ks| ==> VoxelOrderFits(chunks, w, ks[i])
    ensures ColumnsPart(chunks, v, ks) == ColumnsPart(chunks, w, ks)
  {
    if ks != [] {
      ColumnsPartFrame(chunks, v, w, ks[..|ks| - 1]);
    }
  }

  /** One more column: its order joins the map and its packets the part. */
  lemma ColumnsPartStep(chunks: map<Int64, Column>, voxels: map<Int64, seq<seq<int>>>, ks: seq<Int64>, i: nat, vox: seq<seq<int>>)
    requires i < |ks| && IsEnumeration(ks, chunks.Keys)
    requires forall k :: k in chunks ==> WellFormed(chunks[k])
    requires forall j :: 0 <= j < i ==> ks[j] in voxels && VoxelOrderFits(chunks, voxels, ks[j])
    requires ks[i] in chunks && WellFormed(chunks[ks[i]]) && |vox| == 16 && forall y, n :: 0 <= y < 16 && 0 <= n < |vox[y]| ==> vox[y][n] in chunks[ks[i]].blocks[y]
    ensures forall j :: 0 <= j <= i ==> ks[j] in voxels[ks[i] := vox] && VoxelOrderFits(chunks, voxels[ks[i] := vox], ks[j])
    ensures ColumnsPart(chunks, voxels[ks[i] := vox], ks[..i + 1])
            == ColumnsPart(chunks, voxels, ks[..i]) + ColumnPackets(chunks[ks[i]], vox)
  {
    var w := voxels[ks[i] := vox];
    ColumnsPartFrame(chunks, voxels, w, ks[..i]);
    assert VoxelOrderFits(chunks, w, ks[i]);
    assert ks[..i + 1][..i] == ks[..i];
  }

  /** One more team: its added order joins the map and its packets the part. */
  lemma TeamsPartStep(teams: map<string, Team>, added: map<string, seq<PlayerName>>, names: seq<string>, i: nat, ks: seq<PlayerName>)
    requires i < |names| && IsEnumeration(names, teams.Keys)
    requires forall j :: 0 <= j < i ==> names[j] in added
    ensures TeamsPart(teams, added[names[i] := ks], names[..i + 1])
            == TeamsPart(teams, added, names[..i]) + TeamPackets(teams[names[i]], ks)
  {
    TeamsPartFrame(teams, added, added[names[i] := ks], names[..i]);
    assert names[..i + 1][..i] == names[..i];
  }

  lemma {:induction false} TeamsPartFrame(teams: map<string, Team>, a: map<string, seq<PlayerName>>, b: map<string, seq<PlayerName>>, names: seq<string>)
    requires forall i :: 0 <= i < |names| ==> names[i] in teams && names[i] in a
    requires forall i :: 0 <= i < |names| ==> names[i] in b && b[names[i]] == a[names[i]]
    ensures TeamsPart(teams, a, names) == TeamsPart(teams, b, names)
  {
    if names != [] {
      TeamsPartFrame(teams, a, b, names[..|names| - 1]);
    }
  }
}
