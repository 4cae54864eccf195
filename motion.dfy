/** Fixed-point entity displacement (1/32 block units) and its re-expansion into
    relative-move packets whose per-axis delta fits the wire format's signed byte. */
module Motion {

  /** `POS_MIN` and `POS_MAX` of the filter: Byte.MIN_VALUE and Byte.MAX_VALUE. */
  const POS_MIN: int := -128
  const POS_MAX: int := 127

  /** `Utils.within`: the value clamped into `[lo, hi]`. */
  function Within(v: int, lo: int, hi: int): (r: int)
    requires lo <= hi
    ensures lo <= r <= hi
    ensures lo <= v <= hi ==> r == v
  {
    if v < lo then lo else if v > hi then hi else v
  }

  /** A displacement on the three axes, in 1/32 block units. */
  datatype Delta = Delta(x: int, y: int, z: int)

  function Plus(a: Delta, b: Delta): Delta {
    Delta(a.x + b.x, a.y + b.y, a.z + b.z)
  }

  /** Component-wise sum of a sequence of emitted deltas. */
  function Total(steps: seq<Delta>): Delta {
    if steps == [] then Delta(0, 0, 0) else Plus(Total(steps[..|steps| - 1]), steps[|steps| - 1])
  }

  predicate InByteRange(d: Delta) {
    POS_MIN <= d.x <= POS_MAX && POS_MIN <= d.y <= POS_MAX && POS_MIN <= d.z <= POS_MAX
  }

  predicate AllInByteRange(steps: seq<Delta>) {
    forall i :: 0 <= i < |steps| ==> InByteRange(steps[i])
  }

  function Abs(v: int): nat { if v < 0 then -v else v }

  function Size(d: Delta): nat { Abs(d.x) + Abs(d.y) + Abs(d.z) }

  /** The per-axis clamp of one loop iteration. */
  function Clamp(d: Delta): (m: Delta)
    ensures InByteRange(m)
  {
    Delta(Within(d.x, POS_MIN, POS_MAX), Within(d.y, POS_MIN, POS_MAX), Within(d.z, POS_MIN, POS_MAX))
  }

  function Minus(a: Delta, b: Delta): Delta {
    Delta(a.x - b.x, a.y - b.y, a.z - b.z)
  }

  /** Clamping moves a non-zero axis strictly toward zero and never past it. */
  lemma AxisShrinks(v: int)
    ensures Abs(v - Within(v, POS_MIN, POS_MAX)) <= Abs(v)
    ensures v != 0 ==> Abs(v - Within(v, POS_MIN, POS_MAX)) < Abs(v)
  {
  }

  lemma ClampShrinks(d: Delta)
    requires d.x != 0 || d.y != 0 || d.z != 0
    ensures Size(Minus(d, Clamp(d))) < Size(d)
  {
    AxisShrinks(d.x);
    AxisShrinks(d.y);
    AxisShrinks(d.z);
  }

  /** What a flush loop emits and what it leaves in the accumulator. */
  datatype Flush = Flush(steps: seq<Delta>, residual: Delta)

  lemma {:induction false} TotalPrepend(m: Delta, steps: seq<Delta>)
    ensures Total([m] + steps) == Plus(m, Total(steps))
    decreases |steps|
  {
    if steps == [] {
      assert [m] + steps == [m];
      assert [m][..0] == [];
    } else {
      var init := steps[..|steps| - 1];
      assert ([m] + steps)[..|steps|] == [m] + init;
      TotalPrepend(m, init);
    }
  }

  /** The loop of onEnd exactly as written: it continues only while ALL three axes
      are non-zero, so it stops as soon as any one axis reaches zero. */
  function FlushWhileAll(d: Delta): (r: Flush)
    ensures AllInByteRange(r.steps)
    ensures r.residual.x == 0 || r.residual.y == 0 || r.residual.z == 0
    ensures (d.x == 0 || d.y == 0 || d.z == 0) ==> r == Flush([], d)
    decreases Size(d)
  {
    if d.x != 0 && d.y != 0 && d.z != 0 then
      var m := Clamp(d);
      ClampShrinks(d);
      var rest := FlushWhileAll(Minus(d, m));
      Flush([m] + rest.steps, rest.residual)
    else
      Flush([], d)
  }

  /** Nothing is created or lost: the emitted deltas plus what is left in the
      accumulator add up to the displacement the loop started from. */
  lemma {:induction false} FlushWhileAllConserves(d: Delta)
    ensures Plus(Total(FlushWhileAll(d).steps), FlushWhileAll(d).residual) == d
    decreases Size(d)
  {
    if d.x != 0 && d.y != 0 && d.z != 0 {
      var m := Clamp(d);
      ClampShrinks(d);
      FlushWhileAllConserves(Minus(d, m));
      TotalPrepend(m, FlushWhileAll(Minus(d, m)).steps);
    }
  }

  /** VARIANT, not the code: the loss-free loop that continues while ANY axis is
      non-zero; settled axes keep contributing zero deltas. */
  function FlushWhileAny(d: Delta): (r: Flush)
    ensures AllInByteRange(r.steps)
    ensures r.residual.x == 0 && r.residual.y == 0 && r.residual.z == 0
    decreases Size(d)
  {
    if d.x != 0 || d.y != 0 || d.z != 0 then
      var m := Clamp(d);
      ClampShrinks(d);
      var rest := FlushWhileAny(Minus(d, m));
      Flush([m] + rest.steps, rest.residual)
    else
      Flush([], d)
  }

  /** VARIANT: the loss-free loop emits exactly the accumulated displacement. */
  lemma {:induction false} FlushWhileAnyIsLossFree(d: Delta)
    ensures Total(FlushWhileAny(d).steps) == d
    decreases Size(d)
  {
    if d.x != 0 || d.y != 0 || d.z != 0 {
      var m := Clamp(d);
      ClampShrinks(d);
      FlushWhileAnyIsLossFree(Minus(d, m));
      TotalPrepend(m, FlushWhileAny(Minus(d, m)).steps);
    }
  }

  /** The literal loop emits a prefix of what the loss-free variant emits, and the
      variant, run on the literal loop's residual, emits exactly the rest. */
  lemma {:induction false} LiteralIsPrefixOfVariant(d: Delta)
    ensures FlushWhileAll(d).steps + FlushWhileAny(FlushWhileAll(d).residual).steps
            == FlushWhileAny(d).steps
    decreases Size(d)
  {
    if d.x != 0 && d.y != 0 && d.z != 0 {
      var m := Clamp(d);
      LiteralIsPrefixOfVariant(Minus(d, m));
      var a := FlushWhileAll(Minus(d, m));
      assert FlushWhileAll(d).steps == [m] + a.steps;
      assert FlushWhileAll(d).residual == a.residual;
      assert [m] + a.steps + FlushWhileAny(a.residual).steps
          == [m] + (a.steps + FlushWhileAny(a.residual).steps);
    }
  }

  /** Displacement is lost by the literal loop: a move along one axis alone is never
      emitted, because the other two axes are already zero. */
  lemma SingleAxisDisplacementIsDropped(dx: int)
    requires dx != 0
    ensures FlushWhileAll(Delta(dx, 0, 0)).steps == []
    ensures FlushWhileAll(Delta(dx, 0, 0)).residual == Delta(dx, 0, 0)
    ensures Total(FlushWhileAny(Delta(dx, 0, 0)).steps) == Delta(dx, 0, 0)
  {
    FlushWhileAnyIsLossFree(Delta(dx, 0, 0));
  }

  /** Even with all three axes non-zero the literal loop can stop early: (200, 1, 1)
      settles y and z in one step and leaves 73 units on x. */
  lemma ResidualCanRemain()
    ensures FlushWhileAll(Delta(200, 1, 1)) == Flush([Delta(127, 1, 1)], Delta(73, 0, 0))
  {
    assert Clamp(Delta(200, 1, 1)) == Delta(127, 1, 1);
    assert Minus(Delta(200, 1, 1), Delta(127, 1, 1)) == Delta(73, 0, 0);
    assert FlushWhileAll(Delta(73, 0, 0)) == Flush([], Delta(73, 0, 0));
  }

  lemma FlushWhileAllUnfold(d: Delta)
    requires d.x != 0 && d.y != 0 && d.z != 0
    ensures FlushWhileAll(d).steps == [Clamp(d)] + FlushWhileAll(Minus(d, Clamp(d))).steps
    ensures FlushWhileAll(d).residual == FlushWhileAll(Minus(d, Clamp(d))).residual
  {
  }

  /** One iteration of the loop below keeps its two invariants. */
  lemma FlushLoopStep(steps: seq<Delta>, d: Delta, orig: Delta)
    requires d.x != 0 && d.y != 0 && d.z != 0
    requires steps + FlushWhileAll(d).steps == FlushWhileAll(orig).steps
    requires FlushWhileAll(d).residual == FlushWhileAll(orig).residual
    ensures steps + [Clamp(d)] + FlushWhileAll(Minus(d, Clamp(d))).steps == FlushWhileAll(orig).steps
    ensures FlushWhileAll(Minus(d, Clamp(d))).residual == FlushWhileAll(orig).residual
  {
    FlushWhileAllUnfold(d);
    var rest := FlushWhileAll(Minus(d, Clamp(d))).steps;
    assert steps + [Clamp(d)] + rest == steps + ([Clamp(d)] + rest);
  }

  lemma TotalAppend(steps: seq<Delta>, m: Delta)
    ensures Total(steps + [m]) == Plus(Total(steps), m)
  {
    assert (steps + [m])[..|steps|] == steps;
  }

  /** The displacement loop of onEnd (lines 438-447), with its three mutable axes. */
  method FlushMotion(dx0: int, dy0: int, dz0: int) returns (steps: seq<Delta>, dx: int, dy: int, dz: int)
    ensures Flush(steps, Delta(dx, dy, dz)) == FlushWhileAll(Delta(dx0, dy0, dz0))
    ensures AllInByteRange(steps)
    ensures Plus(Total(steps), Delta(dx, dy, dz)) == Delta(dx0, dy0, dz0)
    ensures dx == 0 || dy == 0 || dz == 0
  {
    steps := [];
    dx, dy, dz := dx0, dy0, dz0;
    while dx != 0 && dy != 0 && dz != 0
      invariant steps + FlushWhileAll(Delta(dx, dy, dz)).steps == FlushWhileAll(Delta(dx0, dy0, dz0)).steps
      invariant FlushWhileAll(Delta(dx, dy, dz)).residual == FlushWhileAll(Delta(dx0, dy0, dz0)).residual
      decreases Size(Delta(dx, dy, dz))
    {
      var mx := Within(dx, POS_MIN, POS_MAX);
      var my := Within(dy, POS_MIN, POS_MAX);
      var mz := Within(dz, POS_MIN, POS_MAX);
      ghost var before := Delta(dx, dy, dz);
      dx := dx - mx;
      dy := dy - my;
      dz := dz - mz;
      var m := Delta(mx, my, mz);
      assert m == Clamp(before) && Delta(dx, dy, dz) == Minus(before, m);
      FlushLoopStep(steps, before, Delta(dx0, dy0, dz0));
      steps := steps + [m];
    }
    assert steps == steps + FlushWhileAll(Delta(dx, dy, dz)).steps;
    FlushWhileAllConserves(Delta(dx0, dy0, dz0));
  }
}
