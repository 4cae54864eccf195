/** `Collections.sort(result, by time)`: a stable sort of timed packets. */
module Sorting {
  import opened Packets

  predicate SortedByTime(xs: seq<PacketData>) {
    forall i, j :: 0 <= i < j < |xs| ==> xs[i].time <= xs[j].time
  }

  /** Inserts `d` after every trailing element whose time is not larger. */
  function Insert(xs: seq<PacketData>, d: PacketData): seq<PacketData> {
    if xs == [] || xs[|xs| - 1].time <= d.time then xs + [d]
    else Insert(xs[..|xs| - 1], d) + [xs[|xs| - 1]]
  }

  /** The stable sort by time: insertion of each element in arrival order. */
  function SortByTime(xs: seq<PacketData>): seq<PacketData> {
    if xs == [] then [] else Insert(SortByTime(xs[..|xs| - 1]), xs[|xs| - 1])
  }

  /** The packets with time `t`, in order. */
  function OfTime(xs: seq<PacketData>, t: int): seq<PacketData> {
    if xs == [] then []
    else OfTime(xs[..|xs| - 1], t) + (if xs[|xs| - 1].time == t then [xs[|xs| - 1]] else [])
  }

  lemma {:induction false} InsertSorted(xs: seq<PacketData>, d: PacketData)
    requires SortedByTime(xs)
    ensures SortedByTime(Insert(xs, d))
    ensures |Insert(xs, d)| == |xs| + 1
    ensures forall i :: 0 <= i < |Insert(xs, d)| ==> Insert(xs, d)[i] == d || Insert(xs, d)[i] in xs
    decreases |xs|
  {
    if xs != [] && xs[|xs| - 1].time > d.time {
      var init, last := xs[..|xs| - 1], xs[|xs| - 1];
      assert SortedByTime(init);
      InsertSorted(init, d);
      var r := Insert(init, d);
      forall i | 0 <= i < |r| ensures r[i].time <= last.time {
        if r[i] != d {
          assert r[i] in init;
          var k :| 0 <= k < |init| && init[k] == r[i];
          assert xs[k] == r[i];
        }
      }
    }
  }

  lemma {:induction false} InsertMultiset(xs: seq<PacketData>, d: PacketData)
    ensures multiset(Insert(xs, d)) == multiset(xs) + multiset{d}
    decreases |xs|
  {
    if xs != [] && xs[|xs| - 1].time > d.time {
      var init := xs[..|xs| - 1];
      InsertMultiset(init, d);
      assert xs == init + [xs[|xs| - 1]];
    }
  }

  lemma OfTimeAppend(xs: seq<PacketData>, x: PacketData, t: int)
    ensures OfTime(xs + [x], t) == OfTime(xs, t) + (if x.time == t then [x] else [])
  {
    assert (xs + [x])[..|xs|] == xs;
  }

  /** Inserting keeps the order among packets of every time. */
  lemma {:induction false} InsertOfTime(xs: seq<PacketData>, d: PacketData, t: int)
    ensures OfTime(Insert(xs, d), t) == OfTime(xs, t) + (if d.time == t then [d] else [])
    decreases |xs|
  {
    if xs == [] || xs[|xs| - 1].time <= d.time {
      OfTimeAppend(xs, d, t);
    } else {
      var init, last := xs[..|xs| - 1], xs[|xs| - 1];
      InsertOfTime(init, d, t);
      OfTimeAppend(Insert(init, d), last, t);
      assert xs == init + [last];
      OfTimeAppend(init, last, t);
    }
  }

  /** The result is ordered by time ... */
  lemma {:induction false} SortSorted(xs: seq<PacketData>)
    ensures SortedByTime(SortByTime(xs))
  {
    if xs != [] {
      SortSorted(xs[..|xs| - 1]);
      InsertSorted(SortByTime(xs[..|xs| - 1]), xs[|xs| - 1]);
    }
  }

  /** ... is a permutation of the input ... */
  lemma {:induction false} SortPermutation(xs: seq<PacketData>)
    ensures multiset(SortByTime(xs)) == multiset(xs)
  {
    if xs != [] {
      var init := xs[..|xs| - 1];
      SortPermutation(init);
      InsertMultiset(SortByTime(init), xs[|xs| - 1]);
      assert xs == init + [xs[|xs| - 1]];
    }
  }

  /** ... and is stable: packets with equal times keep their input order. */
  lemma {:induction false} SortStable(xs: seq<PacketData>, t: int)
    ensures OfTime(SortByTime(xs), t) == OfTime(xs, t)
  {
    if xs != [] {
      var init := xs[..|xs| - 1];
      SortStable(init, t);
      InsertOfTime(SortByTime(init), xs[|xs| - 1], t);
    }
  }
}
