/** The chunk/block diff store of the squash filter: the packed column key, the
    per-voxel index, the value view of one tracked column and the `ChunkData`
    object that updates its two 16-slot arrays in place. */
module Chunks {
  import opened Common

  /** A block position in world coordinates (Java ints). */
  datatype Position = Position(x: Int32, y: Int32, z: Int32)

  /** One block change: where, and the new block state (opaque). */
  datatype BlockRecord = BlockRecord(pos: Position, block: int)

  /** The terrain data of one 16-high section, and a column's biome array (both opaque). */
  datatype Section = Section(content: int)
  datatype Biome = Biome(content: int)

  // ---------------------------------------------------------------------------
  // ChunkData.coordToLong / longToX / longToZ
  // ---------------------------------------------------------------------------

  /** `(long) x << 32 | z & 0xFFFFFFFFL`: x fills the high 32 bits; the OR adds the
      low 32 bits of z, which do not overlap the shifted x. */
  function CoordToLong(x: Int32, z: Int32): Int64 {
    x * TWO_32 + z % TWO_32
  }

  /** `(int) (coord >> 32)`: an arithmetic shift floors toward minus infinity. */
  function LongToX(coord: Int64): Int32 {
    ToInt32(coord / TWO_32)
  }

  /** `(int) (coord & 0xFFFFFFFFL)`. */
  function LongToZ(coord: Int64): Int32 {
    ToInt32(coord % TWO_32)
  }

  lemma DivModUnique(c: int, q: int, r: int)
    requires c == q * TWO_32 + r && 0 <= r < TWO_32
    ensures c / TWO_32 == q && c % TWO_32 == r
  {
  }

  /** longToX and longToZ recover both coordinates of every packed key. */
  lemma CoordRoundTrip(x: Int32, z: Int32)
    ensures LongToX(CoordToLong(x, z)) == x
    ensures LongToZ(CoordToLong(x, z)) == z
  {
    DivModUnique(CoordToLong(x, z), x, z % TWO_32);
  }

  /** ... and packing the recovered coordinates gives the key back, so the packing
      is a bijection between coordinate pairs and 64-bit keys. */
  lemma LongRoundTrip(coord: Int64)
    ensures CoordToLong(LongToX(coord), LongToZ(coord)) == coord
  {
    var q, r := coord / TWO_32, coord % TWO_32;
    assert coord == q * TWO_32 + r;
    assert -0x8000_0000 <= q < 0x8000_0000;
    assert LongToX(coord) == q;
    var z := LongToZ(coord);
    assert z % TWO_32 == r by {
      DivModUnique(z, if z < 0 then -1 else 0, r);
    }
  }

  lemma CoordToLongInjective(x1: Int32, z1: Int32, x2: Int32, z2: Int32)
    requires CoordToLong(x1, z1) == CoordToLong(x2, z2)
    ensures x1 == x2 && z1 == z2
  {
    CoordRoundTrip(x1, z1);
    CoordRoundTrip(x2, z2);
  }

  // ---------------------------------------------------------------------------
  // The packed voxel index and the section index of ChunkData.blockChanges(pos)
  // ---------------------------------------------------------------------------

  /** The low 16 bits of a Java int in two's complement. The index is cast to
      `short`, which keeps only the low 16 bits, and the low 16 bits of a shift or
      an OR depend only on the low 16 bits of the operands, so the whole index can
      be computed in 16 bits. */
  function Bits(v: int): bv16
    requires -0x8000 <= v < 0x8000
  {
    if v >= 0 then v as bv16 else !((-v - 1) as bv16)
  }

  /** Java's `(short)` cast of those 16 bits: two's complement. */
  function ShortOf(b: bv16): int {
    if b < 0x8000 then b as int else -((!b) as int) - 1
  }

  function Pack(x: bv16, y: bv16, z: bv16): bv16 {
    (x << 10) | (y << 5) | z
  }

  /** `(short) ((x % 16) << 10 | (y % 16) << 5 | (z % 16))` with Java's remainder,
      which is negative for negative coordinates. */
  function VoxelIndex(p: Position): int {
    ShortOf(Pack(Bits(JavaRem(p.x, 16)), Bits(JavaRem(p.y, 16)), Bits(JavaRem(p.z, 16))))
  }

  /** `pos.getY() / 16`, truncating; the slot must exist in the 16-slot array. */
  function SectionOf(p: Position): int {
    JavaDiv(p.y, 16)
  }

  predicate SectionInRange(p: Position) {
    0 <= SectionOf(p) < 16
  }

  lemma PackedFieldsAreRecoverable(x: bv16, y: bv16, z: bv16)
    requires x < 16 && y < 16 && z < 16
    ensures var i := Pack(x, y, z);
            i < 0x4000 && (i >> 10) & 15 == x && (i >> 5) & 31 == y && i & 31 == z
  {
  }

  lemma ShortOfSmall(i: bv16)
    requires i < 0x4000
    ensures ShortOf(i) == i as int
  {
  }

  lemma Bv16Injective(i: bv16, j: bv16)
    requires i as int == j as int
    ensures i == j
  {
    assert (i as int) as bv16 == i;
    assert (j as int) as bv16 == j;
  }

  lemma PackInjective(x: bv16, y: bv16, z: bv16, x': bv16, y': bv16, z': bv16)
    requires x < 16 && y < 16 && z < 16 && x' < 16 && y' < 16 && z' < 16
    requires ShortOf(Pack(x, y, z)) == ShortOf(Pack(x', y', z'))
    ensures x == x' && y == y' && z == z'
  {
    PackedFieldsAreRecoverable(x, y, z);
    PackedFieldsAreRecoverable(x', y', z');
    ShortOfSmall(Pack(x, y, z));
    ShortOfSmall(Pack(x', y', z'));
    Bv16Injective(Pack(x, y, z), Pack(x', y', z'));
  }

  lemma BitsOfResidue(r: int)
    requires 0 <= r < 16
    ensures Bits(r) < 16
  {
  }

  lemma BitsOfResidueValue(r: int)
    requires 0 <= r < 16
    ensures Bits(r) as int == r
  {
    assert Bits(r) == r as bv16;
    SmallToBv16(r);
  }

  lemma SmallToBv16(r: int)
    requires 0 <= r < 16
    ensures (r as bv16) as int == r
  {
  }

  lemma BitsInjectiveOnResidues(r: int, r': int)
    requires 0 <= r < 16 && 0 <= r' < 16 && Bits(r) == Bits(r')
    ensures r == r'
  {
    BitsOfResidueValue(r);
    BitsOfResidueValue(r');
  }

  /** For non-negative coordinates the index is a packing of the three residues
      modulo 16, so two voxels get the same index only if they are the same voxel
      of their sections. */
  lemma VoxelIndexInjectiveOnNonNegative(p: Position, q: Position)
    requires p.x >= 0 && p.y >= 0 && p.z >= 0 && q.x >= 0 && q.y >= 0 && q.z >= 0
    requires VoxelIndex(p) == VoxelIndex(q)
    ensures p.x % 16 == q.x % 16 && p.y % 16 == q.y % 16 && p.z % 16 == q.z % 16
  {
    var a, b, c := JavaRem(p.x, 16), JavaRem(p.y, 16), JavaRem(p.z, 16);
    var a', b', c' := JavaRem(q.x, 16), JavaRem(q.y, 16), JavaRem(q.z, 16);
    BitsOfResidue(a); BitsOfResidue(b); BitsOfResidue(c);
    BitsOfResidue(a'); BitsOfResidue(b'); BitsOfResidue(c');
    PackInjective(Bits(a), Bits(b), Bits(c), Bits(a'), Bits(b'), Bits(c'));
    BitsInjectiveOnResidues(a, a');
    BitsInjectiveOnResidues(b, b');
    BitsInjectiveOnResidues(c, c');
  }

  lemma NegativeResidueBits(r: int)
    requires -16 < r < 0
    ensures Bits(r) & 0xFFF0 == 0xFFF0 && ShortOf(Bits(r)) == r
  {
    var k := (-r - 1) as bv16;
    assert k < 16 && k as int == -r - 1;
    assert !!k == k;
  }

  lemma NegativeResidueAbsorbs(x: bv16, y: bv16, z: bv16)
    requires z & 0xFFF0 == 0xFFF0
    ensures Pack(x, y, z) == z
  {
  }

  /** As written, a negative z residue sign-extends over the x and y fields, so the
      index is that residue alone: every voxel of a section with the same negative
      z % 16 shares one index, whatever its x and y. */
  lemma VoxelIndexNegativeZ(p: Position)
    requires JavaRem(p.z, 16) < 0
    ensures VoxelIndex(p) == JavaRem(p.z, 16)
  {
    NegativeResidueBits(JavaRem(p.z, 16));
    NegativeResidueAbsorbs(Bits(JavaRem(p.x, 16)), Bits(JavaRem(p.y, 16)), Bits(JavaRem(p.z, 16)));
  }

  /** An instance: (0, 0, -1) and (0, 1, -1) are distinct voxels of section 0 that
      collide at index -1. */
  lemma VoxelIndexCollidesForNegativeZ()
    ensures VoxelIndex(Position(0, 0, -1)) == VoxelIndex(Position(0, 1, -1)) == -1
    ensures SectionOf(Position(0, 0, -1)) == SectionOf(Position(0, 1, -1)) == 0
  {
    VoxelIndexNegativeZ(Position(0, 0, -1));
    VoxelIndexNegativeZ(Position(0, 1, -1));
  }

  // ---------------------------------------------------------------------------
  // The value view of one tracked column
  // ---------------------------------------------------------------------------

  /** One voxel's cached change. A `None` record is the `MutablePair.of(0l, null)`
      placeholder that blockChanges(pos) creates before the time test. */
  datatype BlockEntry = BlockEntry(time: int, record: Option<BlockRecord>)

  function Placeholder(): BlockEntry {
    BlockEntry(0, None)
  }

  /** A ChunkData: first-appearance time, coordinates, 16 section slots, the biome
      data and one voxel-index map per section. */
  datatype Column = Column(
    firstAppearance: int,
    x: Int32,
    z: Int32,
    sections: seq<Option<Section>>,
    biome: Option<Biome>,
    blocks: seq<map<int, BlockEntry>>)

  predicate WellFormed(c: Column) {
    |c.sections| == 16 && |c.blocks| == 16
  }

  /** `new ChunkData(time, x, z)`: no sections, no biome, no cached block changes.
      (The Java array of maps starts as 16 nulls; an absent map and an empty map
      behave the same everywhere, so both are the empty map here.) */
  function NewColumn(time: int, x: Int32, z: Int32): (c: Column)
    ensures WellFormed(c)
  {
    Column(time, x, z, seq(16, _ => None), None, seq(16, _ => map[]))
  }

  /** No non-null section lies beyond slot 15, where `changes[i]` would throw. */
  predicate SectionsFit(incoming: seq<Option<Section>>) {
    forall i :: 16 <= i < |incoming| ==> incoming[i].None?
  }

  function MergeSections(stored: seq<Option<Section>>, incoming: seq<Option<Section>>): (r: seq<Option<Section>>)
    requires |stored| == 16
    ensures |r| == 16
  {
    seq(16, j requires 0 <= j < 16 => if j < |incoming| && incoming[j].Some? then incoming[j] else stored[j])
  }

  /** ChunkData.update: every non-null slot overwrites, then non-null biome data
      overwrites. The loop visits slots 0..15 before any later slot, so when a
      non-null slot beyond 15 throws, all 16 real slots are already merged and
      only the biome is left unchanged. `ok` is false when it throws. */
  function Merge(c: Column, incoming: seq<Option<Section>>, biome: Option<Biome>): (r: (Column, bool))
    requires WellFormed(c)
    ensures WellFormed(r.0)
  {
    var ok := SectionsFit(incoming);
    (c.(sections := MergeSections(c.sections, incoming),
        biome := if ok && biome.Some? then biome else c.biome),
     ok)
  }

  /** A merge never erases: a null incoming slot or null biome keeps what is
      stored, a non-null one replaces it, and nothing but sections and biome
      changes. */
  lemma MergeNeverErases(c: Column, incoming: seq<Option<Section>>, biome: Option<Biome>, j: int)
    requires WellFormed(c) && 0 <= j < 16
    ensures var (c', ok) := Merge(c, incoming, biome);
            && (j < |incoming| && incoming[j].Some? ==> c'.sections[j] == incoming[j])
            && (j >= |incoming| || incoming[j].None? ==> c'.sections[j] == c.sections[j])
            && (c.sections[j].Some? ==> c'.sections[j].Some?)
            && (c.biome.Some? ==> c'.biome.Some?)
            && (ok && biome.Some? ==> c'.biome == biome)
            && c'.firstAppearance == c.firstAppearance && c'.x == c.x && c'.z == c.z
            && c'.blocks == c.blocks
  {
  }

  /** ChunkData.updateBlock (through blockChanges(pos)): the voxel's entry, or a
      fresh (0, null) placeholder, is replaced by (time, record) only when its time
      is strictly smaller. `ok` is false when the section slot does not exist. */
  function UpdateBlock(c: Column, time: int, rec: BlockRecord): (r: (Column, bool))
    requires WellFormed(c)
    ensures WellFormed(r.0)
  {
    var y := SectionOf(rec.pos);
    if !(0 <= y < 16) then (c, false)
    else (c.(blocks := c.blocks[y := Stamp(c.blocks[y], VoxelIndex(rec.pos), time, rec)]), true)
  }

  /** The time test on one voxel's entry of a section map. */
  function Stamp(m: map<int, BlockEntry>, idx: int, time: int, rec: BlockRecord): map<int, BlockEntry> {
    var pair := if idx in m then m[idx] else Placeholder();
    m[idx := if pair.time < time then BlockEntry(time, Some(rec)) else pair]
  }

  lemma StampCommutes(m: map<int, BlockEntry>, idx: int, t1: int, r1: BlockRecord, t2: int, r2: BlockRecord)
    requires t1 != t2
    ensures Stamp(Stamp(m, idx, t1, r1), idx, t2, r2) == Stamp(Stamp(m, idx, t2, r2), idx, t1, r1)
  {
    var a := Stamp(Stamp(m, idx, t1, r1), idx, t2, r2);
    var b := Stamp(Stamp(m, idx, t2, r2), idx, t1, r1);
    assert a[idx] == b[idx];
    assert a.Keys == b.Keys;
  }

  /** Last writer wins: afterwards the voxel's entry exists, its time is the larger
      of the stored time (0 for a new placeholder) and the new time, and the record
      is the new one exactly when the new time was strictly larger. Every other
      voxel, every other section and all terrain data are untouched. */
  lemma UpdateBlockLastWriterWins(c: Column, time: int, rec: BlockRecord)
    requires WellFormed(c) && SectionInRange(rec.pos)
    ensures var (c', ok) := UpdateBlock(c, time, rec);
            var y, idx := SectionOf(rec.pos), VoxelIndex(rec.pos);
            var before := if idx in c.blocks[y] then c.blocks[y][idx] else Placeholder();
            && ok
            && idx in c'.blocks[y]
            && c'.blocks[y][idx].time == (if before.time < time then time else before.time)
            && (before.time < time ==> c'.blocks[y][idx].record == Some(rec))
            && (before.time >= time ==> c'.blocks[y][idx] == before)
            && (forall k :: k in c.blocks[y] && k != idx ==> k in c'.blocks[y] && c'.blocks[y][k] == c.blocks[y][k])
            && (forall k :: k in c'.blocks[y] ==> k in c.blocks[y] || k == idx)
            && (forall s :: 0 <= s < 16 && s != y ==> c'.blocks[s] == c.blocks[s])
            && c'.sections == c.sections && c'.biome == c.biome
  {
  }

  /** A position whose section slot does not exist changes nothing (Java throws). */
  lemma UpdateBlockOutOfRange(c: Column, time: int, rec: BlockRecord)
    requires WellFormed(c) && !SectionInRange(rec.pos)
    ensures UpdateBlock(c, time, rec) == (c, false)
  {
  }

  /** Two changes of the same voxel at different times leave the same entry in
      whichever order they arrive: the one with the later time, if it beats the
      stored time. */
  lemma UpdateBlockOrderIndependent(c: Column, t1: int, r1: BlockRecord, t2: int, r2: BlockRecord)
    requires WellFormed(c) && SectionInRange(r1.pos)
    requires SectionOf(r1.pos) == SectionOf(r2.pos) && VoxelIndex(r1.pos) == VoxelIndex(r2.pos)
    requires t1 != t2
    ensures UpdateBlock(UpdateBlock(c, t1, r1).0, t2, r2).0 == UpdateBlock(UpdateBlock(c, t2, r2).0, t1, r1).0
  {
    var y := SectionOf(r1.pos);
    StampCommutes(c.blocks[y], VoxelIndex(r1.pos), t1, r1, t2, r2);
    assert c.blocks[y := Stamp(c.blocks[y], VoxelIndex(r1.pos), t1, r1)][y] == Stamp(c.blocks[y], VoxelIndex(r1.pos), t1, r1);
    assert c.blocks[y := Stamp(c.blocks[y], VoxelIndex(r1.pos), t2, r2)][y] == Stamp(c.blocks[y], VoxelIndex(r1.pos), t2, r2);
  }

  // ---------------------------------------------------------------------------
  // ChunkData: the object, with its arrays updated in place
  // ---------------------------------------------------------------------------

  class ChunkData {
    const firstAppearance: int
    const x: Int32
    const z: Int32
    const changes: array<Option<Section>>
    var biomeData: Option<Biome>
    const blockChanges: array<map<int, BlockEntry>>

    ghost predicate Valid() {
      changes.Length == 16 && blockChanges.Length == 16
    }

    /** The column this object currently holds. */
    ghost function View(): (c: Column)
      reads this, changes, blockChanges
      requires Valid()
      ensures WellFormed(c)
    {
      Column(firstAppearance, x, z, changes[..], biomeData, blockChanges[..])
    }

    constructor (firstAppearance: int, x: Int32, z: Int32)
      ensures Valid() && fresh(changes) && fresh(blockChanges)
      ensures View() == NewColumn(firstAppearance, x, z)
    {
      this.firstAppearance := firstAppearance;
      this.x := x;
      this.z := z;
      changes := new Option<Section>[16](_ => None);
      biomeData := None;
      blockChanges := new map<int, BlockEntry>[16](_ => map[]);
      new;
      assert changes[..] == seq(16, _ => None);
      assert blockChanges[..] == seq(16, _ => map[]);
    }

    /** ChunkData.update; `ok` is false where Java throws ArrayIndexOutOfBounds. */
    method Update(newChunks: seq<Option<Section>>, newBiomeData: Option<Biome>) returns (ok: bool)
      requires Valid()
      modifies this, changes
      ensures Valid()
      ensures (View(), ok) == Merge(old(View()), newChunks, newBiomeData)
    {
      ghost var stored := changes[..];
      for i := 0 to |newChunks|
        invariant changes[..] == MergeSections(stored, newChunks[..i])
        invariant forall k :: 16 <= k < i ==> newChunks[k].None?
        invariant biomeData == old(biomeData)
      {
        if newChunks[i].Some? {
          if i >= 16 {
            assert MergeSections(stored, newChunks[..i]) == MergeSections(stored, newChunks);
            return false;
          }
          changes[i] := newChunks[i];
        }
        assert changes[..] == MergeSections(stored, newChunks[..i + 1]);
      }
      assert newChunks[..|newChunks|] == newChunks;
      if newBiomeData.Some? {
        biomeData := newBiomeData;
      }
      return true;
    }

    /** ChunkData.blockChanges(pos): the voxel's entry, after inserting the (0, null)
        placeholder when there is none. `ok` is false where Java throws. */
    method BlockChanges(pos: Position) returns (pair: BlockEntry, ok: bool)
      requires Valid()
      modifies blockChanges
      ensures ok == SectionInRange(pos)
      ensures !ok ==> blockChanges[..] == old(blockChanges[..])
      ensures ok ==>
        var y, idx := SectionOf(pos), VoxelIndex(pos);
        && pair == (if idx in old(blockChanges[y]) then old(blockChanges[y])[idx] else Placeholder())
        && blockChanges[..] == old(blockChanges[..])[y := old(blockChanges[y])[idx := pair]]
    {
      var y := JavaDiv(pos.y, 16);
      if !(0 <= y < 16) {
        return Placeholder(), false;
      }
      var index := VoxelIndex(pos);
      if index in blockChanges[y] {
        pair := blockChanges[y][index];
        assert blockChanges[y][index := pair] == blockChanges[y];
        assert blockChanges[..] == blockChanges[..][y := blockChanges[y][index := pair]];
      } else {
        pair := Placeholder();
        blockChanges[y] := blockChanges[y][index := pair];
      }
      ok := true;
    }

    /** ChunkData.updateBlock. */
    method UpdateBlockAt(time: int, record: BlockRecord) returns (ok: bool)
      requires Valid()
      modifies blockChanges
      ensures (View(), ok) == UpdateBlock(old(View()), time, record)
    {
      var pair;
      pair, ok := BlockChanges(record.pos);
      if !ok {
        return;
      }
      ghost var c := old(View());
      var idx := VoxelIndex(record.pos);
      var y := JavaDiv(record.pos.y, 16);
      assert blockChanges[..] == c.blocks[y := c.blocks[y][idx := pair]];
      if pair.time < time {
        var mid := blockChanges[y];
        assert mid == c.blocks[y][idx := pair];
        var entry := BlockEntry(time, Some(record));
        blockChanges[y] := mid[idx := entry];
        assert mid[idx := entry] == Stamp(c.blocks[y], idx, time, record);
        assert blockChanges[..] == c.blocks[y := Stamp(c.blocks[y], idx, time, record)];
      } else {
        assert c.blocks[y][idx := pair] == Stamp(c.blocks[y], idx, time, record);
      }
    }
  }
}
