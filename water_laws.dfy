/** Laws of the water surface model: what one tick, one pass and one disturbance keep. */
module WaterLaws {
  import opened Wrappers
  import opened Springs
  import opened Water

  /** A surface of `n` springs at rest on the base level. */
  function Rest(n: nat): (s: Surface)
    ensures s.WellFormed() && |s.heights| == n
  {
    Surface(seq(n, _ => BASE_WATER_LEVEL), seq(n, _ => 0.0))
  }

  /** The sum of a pointwise sum is the sum of the sums. */
  lemma {:induction false} SumPlus(a: seq<real>, b: seq<real>)
    requires |a| == |b|
    ensures Sum(Plus(a, b)) == Sum(a) + Sum(b)
  {
    if a != [] {
      var n := |a|;
      assert Plus(a, b)[..n - 1] == Plus(a[..n - 1], b[..n - 1]);
      SumPlus(a[..n - 1], b[..n - 1]);
    }
  }

  /** Replacing one element changes the sum by the difference. */
  lemma {:induction false} SumUpdate(s: seq<real>, i: int, x: real)
    requires 0 <= i < |s|
    ensures Sum(s[i := x]) == Sum(s) - s[i] + x
  {
    var n := |s|;
    if i < n - 1 {
      assert s[i := x][..n - 1] == s[..n - 1][i := x];
      SumUpdate(s[..n - 1], i, x);
    } else {
      assert s[i := x][..n - 1] == s[..n - 1];
    }
  }

  /** What a spring hands to a neighbour is exactly what the neighbour hands back with
      the opposite sign. */
  lemma OppositeDeltas(f: real, a: real, b: real)
    ensures f * (a - b) + f * (b - a) == 0.0
  {
    assert f * (b - a) == -(f * (a - b));
  }

  /** Dropping the last spring leaves the deltas of all springs but the new last one
      unchanged. */
  lemma DeltasOfPrefixAgree(h: seq<real>, f: real, k: int)
    requires |h| >= 2 && 0 <= k < |h| - 2
    ensures PassDeltas(h, f)[k] == PassDeltas(h[..|h| - 1], f)[k]
  {
    var h' := h[..|h| - 1];
    assert LeftDeltas(h, f)[k + 1] == LeftDeltas(h', f)[k + 1];
    if k >= 1 {
      assert RightDeltas(h, f)[k - 1] == RightDeltas(h', f)[k - 1];
    }
  }

  /** The new last spring loses what its right neighbour handed it. */
  lemma DeltasOfPrefixLast(h: seq<real>, f: real)
    requires |h| >= 2
    ensures var n := |h|;
      PassDeltas(h, f)[n - 2] == PassDeltas(h[..n - 1], f)[n - 2] + f * (h[n - 1] - h[n - 2])
      && PassDeltas(h, f)[n - 1] == f * (h[n - 2] - h[n - 1])
  {
    var n := |h|;
    var h' := h[..n - 1];
    assert LeftDeltas(h, f)[n - 1] == f * (h[n - 1] - h[n - 2]);
    assert RightDeltas(h, f)[n - 2] == f * (h[n - 2] - h[n - 1]);
    if n >= 3 {
      assert RightDeltas(h, f)[n - 3] == RightDeltas(h', f)[n - 3];
    }
  }

  /** Dropping the last spring changes only the delta of the new last spring (it loses
      its right neighbour) and removes the delta of the dropped one. */
  lemma DeltasOfPrefix(h: seq<real>, f: real)
    requires |h| >= 2
    ensures var n := |h|; var d := PassDeltas(h, f); var d' := PassDeltas(h[..n - 1], f);
      d[..n - 1] == d'[..n - 2] + [d'[n - 2] + f * (h[n - 1] - h[n - 2])]
      && d[n - 1] == f * (h[n - 2] - h[n - 1])
  {
    var n := |h|;
    var d := PassDeltas(h, f);
    var d' := PassDeltas(h[..n - 1], f);
    var rhs := d'[..n - 2] + [d'[n - 2] + f * (h[n - 1] - h[n - 2])];
    DeltasOfPrefixLast(h, f);
    forall k | 0 <= k < n - 1
      ensures d[k] == rhs[k]
    {
      if k < n - 2 {
        DeltasOfPrefixAgree(h, f, k);
      }
    }
    assert d[..n - 1] == rhs;
  }

  /** The deltas of a pass cancel out: every spring receives from its neighbour exactly
      what that neighbour receives from it, with the opposite sign. */
  lemma {:induction false} DeltasSumToZero(h: seq<real>, f: real)
    ensures Sum(PassDeltas(h, f)) == 0.0
  {
    var n := |h|;
    var d := PassDeltas(h, f);
    if n == 1 {
      assert d == [0.0];
      assert d[..0] == [];
    } else if n >= 2 {
      var d' := PassDeltas(h[..n - 1], f);
      DeltasOfPrefix(h, f);
      DeltasSumToZero(h[..n - 1], f);
      assert (d'[..n - 2] + [d'[n - 2] + f * (h[n - 1] - h[n - 2])])[..n - 2] == d'[..n - 2];
      assert Sum(d[..n - 1]) == Sum(d'[..n - 2]) + d'[n - 2] + f * (h[n - 1] - h[n - 2]);
      assert Sum(d') == Sum(d'[..n - 2]) + d'[n - 2];
      OppositeDeltas(f, h[n - 1], h[n - 2]);
    }
  }

  /** One propagation pass conserves the total height and the total velocity. */
  lemma PassConservesTotals(s: Surface, f: real)
    requires s.WellFormed()
    ensures Sum(Pass(s, f).heights) == Sum(s.heights)
    ensures Sum(Pass(s, f).velocities) == Sum(s.velocities)
  {
    var d := PassDeltas(s.heights, f);
    SumPlus(s.heights, d);
    SumPlus(s.velocities, d);
    DeltasSumToZero(s.heights, f);
  }

  /** Any number of passes conserves both totals. */
  lemma {:induction false} PassesConserveTotals(s: Surface, f: real, n: nat)
    requires s.WellFormed()
    ensures Sum(Passes(s, f, n).heights) == Sum(s.heights)
    ensures Sum(Passes(s, f, n).velocities) == Sum(s.velocities)
  {
    if n > 0 {
      PassesConserveTotals(s, f, n - 1);
      PassConservesTotals(Passes(s, f, n - 1), f);
    }
  }

  /** A flat surface produces no deltas, so a pass leaves it as it is. */
  lemma FlatPassIsIdentity(s: Surface, f: real)
    requires s.WellFormed()
    requires forall k :: 0 <= k < |s.heights| ==> s.heights[k] == BASE_WATER_LEVEL
    ensures Pass(s, f) == s
  {
    var d := PassDeltas(s.heights, f);
    forall k | 0 <= k < |d|
      ensures d[k] == 0.0
    {
      OppositeDeltas(f, BASE_WATER_LEVEL, BASE_WATER_LEVEL);
    }
    assert Plus(s.heights, d) == s.heights;
    assert Plus(s.velocities, d) == s.velocities;
  }

  /** A surface that one pass leaves as it is stays so under any number of passes. */
  lemma {:induction false} FixedPointPasses(s: Surface, f: real, passes: nat)
    requires s.WellFormed() && Pass(s, f) == s
    ensures Passes(s, f, passes) == s
  {
    if passes > 0 {
      FixedPointPasses(s, f, passes - 1);
      assert Passes(s, f, passes) == Pass(Passes(s, f, passes - 1), f);
    }
  }

  /** A resting surface stays at rest under any number of passes. */
  lemma RestPasses(n: nat, f: real, passes: nat)
    ensures Passes(Rest(n), f, passes) == Rest(n)
  {
    FlatPassIsIdentity(Rest(n), f);
    FixedPointPasses(Rest(n), f, passes);
  }

  /** Settling leaves a surface whose springs all rest on the base level as it is. */
  lemma SettleAllKeepsRest(s: Surface, stiffness: real, dampening: real, baseLevel: real)
    requires s.WellFormed()
    requires forall k :: 0 <= k < |s.heights| ==> s.heights[k] == baseLevel && s.velocities[k] == 0.0
    ensures SettleAll(s, stiffness, dampening, baseLevel) == s
  {
    var r := SettleAll(s, stiffness, dampening, baseLevel);
    SettleAtRest(stiffness, dampening, baseLevel);
    forall k | 0 <= k < |s.heights|
      ensures r.heights[k] == s.heights[k] && r.velocities[k] == s.velocities[k]
    {
      assert Motion(s.heights[k], s.velocities[k]) == Motion(baseLevel, 0.0);
    }
    assert r.heights == s.heights;
    assert r.velocities == s.velocities;
  }

  /** The surface the constructor builds is a fixed point of `update`. */
  lemma RestIsFixedPoint(n: nat)
    ensures GameTick(Rest(n)) == Rest(n)
  {
    SettleAllKeepsRest(Rest(n), SPRINGS_STIFFNESS, SPRINGS_DAMPENING_FACTOR, BASE_WATER_LEVEL);
    RestPasses(n, WAVES_PROPAGATION_SPREAD_FACTOR, PassCount(WAVES_PROPAGATION_PASSES));
  }

  /** A disturbance adds its speed to the total velocity when the index is in range and
      leaves every height and the total velocity alone otherwise. */
  lemma DisturbMomentum(s: Surface, index: int, speed: real)
    requires s.WellFormed()
    ensures Disturb(s, index, speed).heights == s.heights
    ensures Sum(Disturb(s, index, speed).velocities)
      == Sum(s.velocities) + (if 0 <= index < |s.velocities| then speed else 0.0)
    ensures forall k :: 0 <= k < |s.velocities| && k != index ==>
      Disturb(s, index, speed).velocities[k] == s.velocities[k]
  {
    if 0 <= index < |s.velocities| {
      SumUpdate(s.velocities, index, s.velocities[index] + speed);
    }
  }

  /** `c * a / d` lies in `[0, c]` when `0 <= a <= d`, `d > 0` and `c >= 0`. */
  lemma ScaledRatio(c: real, a: real, d: real)
    requires 0.0 <= a <= d && d > 0.0 && c >= 0.0
    ensures 0.0 <= c * a / d <= c
  {
    MulMono(c, a, d);
    DivMono(c * a, c * d, d);
    Cancel(c, d);
  }

  lemma MulMono(c: real, a: real, d: real)
    requires 0.0 <= a <= d && c >= 0.0
    ensures 0.0 <= c * a <= c * d
  {
  }

  lemma DivMono(x: real, y: real, d: real)
    requires 0.0 <= x <= y && d > 0.0
    ensures 0.0 <= x / d <= y / d
  {
  }

  lemma RoundBounds(q: real, count: nat)
    requires 0.0 <= q <= count as real
    ensures 0 <= Round(q) <= count
  {
  }

  lemma Cancel(c: real, d: real)
    requires d != 0.0
    ensures c * d / d == c
  {
  }

  /** A touch over the water maps to an index between 0 and the spring count; a touch
      outside `[fromX, toX]` maps to nothing. */
  lemma TouchIndexRange(count: nat, fromX: real, toX: real, xWorld: real)
    ensures TouchIndex(count, fromX, toX, xWorld).None? <==> !(fromX <= xWorld <= toX)
    ensures TouchIndex(count, fromX, toX, xWorld).Some? ==>
      0 <= TouchIndex(count, fromX, toX, xWorld).value <= count
  {
    if fromX <= xWorld <= toX && toX != fromX {
      ScaledRatio(count as real, xWorld - fromX, toX - fromX);
      RoundBounds(TouchRatio(count, xWorld - fromX, toX - fromX), count);
    }
  }

  /** A touch exactly on the right end of the water yields the spring count, one past the
      last spring, so the disturbance it asks for is dropped. */
  lemma TouchAtRightEndIsIgnored(s: Surface, fromX: real, toX: real)
    requires s.WellFormed() && fromX < toX
    ensures TouchIndex(|s.heights|, fromX, toX, toX) == Some(|s.heights|)
    ensures Disturb(s, |s.heights|, INPUT_DISTURBANCE) == s
  {
    TouchAtRightEnd(|s.heights|, fromX, toX);
  }

  lemma TouchAtRightEnd(count: nat, fromX: real, toX: real)
    requires fromX < toX
    ensures TouchIndex(count, fromX, toX, toX) == Some(count)
  {
    RoundWhole(count, toX - fromX);
  }

  /** A whole number scaled and divided back rounds to itself. */
  lemma RoundWhole(count: nat, width: real)
    requires width != 0.0
    ensures Round(TouchRatio(count, width, width)) == count
  {
    Cancel(count as real, width);
    assert TouchRatio(count, width, width) == count as real;
  }

}
