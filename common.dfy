/** Shared vocabulary: nullable values, Java's 32-bit integers and its truncating
    division, and "some enumeration" of a set, which is all that a Java HashMap or
    HashSet promises about its iteration order. */
module Common {

  /** A Java reference that may be null. */
  datatype Option<T> = None | Some(value: T)

  const TWO_32: int := 0x1_0000_0000

  type Int32 = v: int | -0x8000_0000 <= v < 0x8000_0000
  type Int64 = v: int | -0x8000_0000_0000_0000 <= v < 0x8000_0000_0000_0000

  /** Java's `(int)` narrowing: keep the low 32 bits and read them as two's complement. */
  function ToInt32(v: int): (r: Int32)
    ensures (v - r) % TWO_32 == 0
    ensures -0x8000_0000 <= v < 0x8000_0000 ==> r == v
  {
    var low := v % TWO_32;
    if low >= 0x8000_0000 then low - TWO_32 else low
  }

  /** Java's `/` on int: the quotient is truncated toward zero. */
  function JavaDiv(a: int, b: int): (q: int)
    requires b > 0
    ensures a >= 0 ==> q >= 0 && q * b <= a < q * b + b
    ensures a < 0 ==> q <= 0 && q * b - b < a <= q * b
  {
    if a >= 0 then a / b else -((-a) / b)
  }

  /** Java's `%` on int: the remainder takes the sign of the dividend. */
  function JavaRem(a: int, b: int): (r: int)
    requires b > 0
    ensures a == JavaDiv(a, b) * b + r
    ensures a >= 0 ==> 0 <= r < b
    ensures a < 0 ==> -b < r <= 0
  {
    a - JavaDiv(a, b) * b
  }

  /** `ks` lists every element of `s` exactly once, in no particular order. */
  ghost predicate IsEnumeration<T(!new)>(ks: seq<T>, s: set<T>) {
    && (forall i, j :: 0 <= i < j < |ks| ==> ks[i] != ks[j])
    && (forall k :: k in ks <==> k in s)
  }

  /** An enumeration of a set has exactly as many entries as the set. */
  lemma CardinalityOfEnumeration<T(!new)>(ks: seq<T>, s: set<T>)
    requires IsEnumeration(ks, s)
    ensures |ks| == |s|
  {
    var xs := set i | i in ks;
    assert xs == s;
    assert |ks| == |s| by {
      SeqDistinctCardinality(ks);
    }
  }

  lemma {:induction false} SeqDistinctCardinality<T(!new)>(ks: seq<T>)
    requires forall i, j :: 0 <= i < j < |ks| ==> ks[i] != ks[j]
    ensures |set i | i in ks| == |ks|
  {
    if ks != [] {
      var init := ks[..|ks| - 1];
      SeqDistinctCardinality(init);
      assert (set i | i in ks) == (set i | i in init) + {ks[|ks| - 1]};
      assert ks[|ks| - 1] !in init;
    }
  }

  /** Appending a run of three is appending each in turn. */
  lemma AppendThree<T>(a: seq<T>, b: seq<T>, c: seq<T>, d: seq<T>)
    ensures a + (b + c + d) == a + b + c + d
  {
  }

  /** Iterates a hash-based collection: the order is whatever the choice below makes. */
  method Enumerate<T(==,!new)>(s: set<T>) returns (ks: seq<T>)
    ensures IsEnumeration(ks, s)
  {
    ks := [];
    var rest := s;
    while rest != {}
      invariant forall k :: k in s <==> k in ks || k in rest
      invariant forall k :: k in ks ==> k !in rest
      invariant forall i, j :: 0 <= i < j < |ks| ==> ks[i] != ks[j]
      decreases |rest|
    {
      var k :| k in rest;
      ks := ks + [k];
      rest := rest - {k};
    }
  }
}
