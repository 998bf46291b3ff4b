/** The 1-D spring-mesh water surface (water/WaterSimulation.java): a row of springs that
    settle towards the base water level and then exchange height differences with their
    neighbours in a number of two-phase propagation passes. */
module Water {
  import opened Wrappers
  import opened Springs

  /** Heights and velocities of all springs, left to right. */
  datatype Surface = Surface(heights: seq<real>, velocities: seq<real>)
  {
    ghost predicate WellFormed()
    {
      |heights| == |velocities|
    }
  }

  /** Sum of a sequence, folded from the right end. */
  function Sum(s: seq<real>): real
  {
    if s == [] then 0.0 else Sum(s[..|s| - 1]) + s[|s| - 1]
  }

  /** Pointwise sum of two sequences of the same length. */
  function Plus(a: seq<real>, b: seq<real>): (r: seq<real>)
    requires |a| == |b|
    ensures |r| == |a|
  {
    seq(|a|, i requires 0 <= i < |a| => a[i] + b[i])
  }

  /** Tuning of the surface. These private fields of the simulation are initialised once
      and have no setter, so they are constants of the model. The pass count is a float
      in the game, compared with an int loop counter. */
  const WAVES_PROPAGATION_PASSES: real := 4.0
  const WAVES_PROPAGATION_SPREAD_FACTOR: real := 0.2
  const SPRINGS_STIFFNESS: real := 0.025
  const SPRINGS_DAMPENING_FACTOR: real := 0.025
  const BASE_WATER_LEVEL: real := 5.0

  /** Speed injected by a touch on the water. */
  const INPUT_DISTURBANCE: real := 5.0

  /** Horizontal position of spring `i` out of `count`, evenly spaced from `fromX` to `toX`. */
  function SpringX(fromX: real, toX: real, count: int, i: int): real
    requires count >= 2
  {
    fromX + (i as real) * ((toX - fromX) / ((count - 1) as real))
  }

  /** The first spring sits at `fromX`, the last at `toX`, and the positions grow strictly
      from left to right when `fromX < toX`. */
  lemma SpringPlacement(fromX: real, toX: real, count: int, i: int, j: int)
    requires count >= 2
    ensures SpringX(fromX, toX, count, 0) == fromX
    ensures SpringX(fromX, toX, count, count - 1) == toX
    ensures fromX < toX && i < j ==> SpringX(fromX, toX, count, i) < SpringX(fromX, toX, count, j)
  {
    var step := (toX - fromX) / ((count - 1) as real);
    assert ((count - 1) as real) * step == toX - fromX;
    if fromX < toX && i < j {
      assert step > 0.0;
      assert (j as real) * step - (i as real) * step == ((j - i) as real) * step;
    }
  }

  /** Every spring takes one `Settle` step with the same parameters. */
  function SettleAll(s: Surface, stiffness: real, dampening: real, baseLevel: real): (r: Surface)
    requires s.WellFormed()
    ensures r.WellFormed() && |r.heights| == |s.heights|
  {
    var n := |s.heights|;
    Surface(
      seq(n, k requires 0 <= k < n => Settle(Motion(s.heights[k], s.velocities[k]), stiffness, dampening, baseLevel).height),
      seq(n, k requires 0 <= k < n => Settle(Motion(s.heights[k], s.velocities[k]), stiffness, dampening, baseLevel).velocity))
  }

  /** `f * (h[m] - h[m-1])`, what source `m` hands to its left neighbour in a pass
      (0 for the first spring, which has none). */
  function LeftDeltas(h: seq<real>, f: real): (d: seq<real>)
    ensures |d| == |h|
  {
    seq(|h|, m requires 0 <= m < |h| => if m == 0 then 0.0 else f * (h[m] - h[m - 1]))
  }

  /** `f * (h[m] - h[m+1])`, what source `m` hands to its right neighbour in a pass
      (0 for the last spring, which has none). */
  function RightDeltas(h: seq<real>, f: real): (d: seq<real>)
    ensures |d| == |h|
  {
    seq(|h|, m requires 0 <= m < |h| => if m == |h| - 1 then 0.0 else f * (h[m] - h[m + 1]))
  }

  /** What spring `k` has received once the sources `0 .. i-1` have been visited, given
      the left deltas `ld` and right deltas `rd` of the sources: source `k+1` hands it its
      left delta and source `k-1` its right delta. */
  function Inflow(ld: seq<real>, rd: seq<real>, i: int, k: int): real
    requires |ld| == |rd| && 0 <= k < |ld|
  {
    (if k + 1 < i && k + 1 < |ld| then ld[k + 1] else 0.0)
    + (if 1 <= k && k - 1 < i then rd[k - 1] else 0.0)
  }

  /** Visiting source `i` hands its left delta to spring `i - 1` and its right delta to
      spring `i + 1`, and nothing to any other spring. */
  lemma InflowStep(ld: seq<real>, rd: seq<real>, i: int, k: int)
    requires |ld| == |rd| && 0 <= k < |ld| && 0 <= i < |ld|
    ensures Inflow(ld, rd, i + 1, k)
            == Inflow(ld, rd, i, k) + (if k == i - 1 then ld[i] else 0.0) + (if k == i + 1 then rd[i] else 0.0)
  {
  }

  /** What spring `k` has received once the sources `0 .. i-1` of a pass over heights `h`
      have been visited. */
  function Incoming(h: seq<real>, f: real, i: int, k: int): real
    requires 0 <= k < |h|
  {
    Inflow(LeftDeltas(h, f), RightDeltas(h, f), i, k)
  }

  /** The change one pass makes to each spring, all computed from the same heights. */
  function PassDeltas(h: seq<real>, f: real): (d: seq<real>)
    ensures |d| == |h|
  {
    seq(|h|, k requires 0 <= k < |h| => Incoming(h, f, |h|, k))
  }

  /** One propagation pass: the deltas go both into the velocities and into the heights. */
  function Pass(s: Surface, f: real): (r: Surface)
    requires s.WellFormed()
    ensures r.WellFormed() && |r.heights| == |s.heights|
  {
    var d := PassDeltas(s.heights, f);
    Surface(Plus(s.heights, d), Plus(s.velocities, d))
  }

  function Passes(s: Surface, f: real, n: nat): (r: Surface)
    requires s.WellFormed()
    ensures r.WellFormed() && |r.heights| == |s.heights|
  {
    if n == 0 then s else Pass(Passes(s, f, n - 1), f)
  }

  lemma PassesStep(s: Surface, before: Surface, after: Surface, j: nat)
    requires s.WellFormed() && before == Passes(s, WAVES_PROPAGATION_SPREAD_FACTOR, j)
    requires after == Pass(before, WAVES_PROPAGATION_SPREAD_FACTOR)
    ensures after == Passes(s, WAVES_PROPAGATION_SPREAD_FACTOR, j + 1)
  {
  }

  /** How many integers `j >= 0` satisfy `j < passes`: the pass loop compares an int counter
      with the float field. */
  function PassCount(passes: real): nat
  {
    if passes <= 0.0 then 0
    else if passes.Floor as real == passes then passes.Floor
    else passes.Floor + 1
  }

  lemma PassCountBound(passes: real, j: nat)
    ensures (j as real) < passes <==> j < PassCount(passes)
  {
  }

  /** One call of `update`: settle every spring, then run the propagation passes. */
  function Tick(s: Surface, stiffness: real, dampening: real, baseLevel: real, f: real, passes: real): (r: Surface)
    requires s.WellFormed()
    ensures r.WellFormed() && |r.heights| == |s.heights|
  {
    Passes(SettleAll(s, stiffness, dampening, baseLevel), f, PassCount(passes))
  }

  /** `s` with `speed` added to the velocity of spring `index`; a no-op outside the row. */
  function Disturb(s: Surface, index: int, speed: real): (r: Surface)
    requires s.WellFormed()
    ensures r.WellFormed() && |r.heights| == |s.heights|
  {
    if 0 <= index < |s.velocities| then Surface(s.heights, s.velocities[index := s.velocities[index] + speed])
    else s
  }

  /** Java's `Math.round` on a finite value. */
  function Round(r: real): int
  {
    (r + 0.5).Floor
  }

  /** The spring index a touch at `xWorld` disturbs, when the touch is over the water.
      When `fromX == toX` the quotient is 0/0 (NaN) and `Math.round(NaN)` is 0. */
  function TouchIndex(count: nat, fromX: real, toX: real, xWorld: real): Option<int>
  {
    if fromX <= xWorld <= toX then
      if toX == fromX then Some(0)
      else Some(Round(TouchRatio(count, xWorld - fromX, toX - fromX)))
    else None
  }

  /** `count * offset / width`: how many spring spacings of `count` the offset spans. */
  function TouchRatio(count: nat, offset: real, width: real): real
    requires width != 0.0
  {
    (count as real) * offset / width
  }

  /** One call of `update` with the simulation's own tuning. */
  function GameTick(s: Surface): (r: Surface)
    requires s.WellFormed()
    ensures r.WellFormed() && |r.heights| == |s.heights|
  {
    Tick(s, SPRINGS_STIFFNESS, SPRINGS_DAMPENING_FACTOR, BASE_WATER_LEVEL,
         WAVES_PROPAGATION_SPREAD_FACTOR, WAVES_PROPAGATION_PASSES)
  }

  lemma GameTickSteps(s: Surface, settled: Surface, r: Surface)
    requires s.WellFormed()
    requires settled == SettleAll(s, SPRINGS_STIFFNESS, SPRINGS_DAMPENING_FACTOR, BASE_WATER_LEVEL)
    requires r == Passes(settled, WAVES_PROPAGATION_SPREAD_FACTOR, PassCount(WAVES_PROPAGATION_PASSES))
    ensures r == GameTick(s)
  {
  }

  class WaterSimulation {
    const fromX: real
    const toX: real
    /** The springs, left to right; the list is never resized. */
    const springs: seq<Spring>

    /** Each list slot holds its own spring. */
    ghost predicate Valid()
      reads this
    {
      forall i, j :: 0 <= i < j < |springs| ==> springs[i] != springs[j]
    }

    ghost function Heights(): (h: seq<real>)
      reads this, springs
      ensures |h| == |springs|
    {
      seq(|springs|, k reads springs requires 0 <= k < |springs| => springs[k].height)
    }

    ghost function Velocities(): (v: seq<real>)
      reads this, springs
      ensures |v| == |springs|
    {
      seq(|springs|, k reads springs requires 0 <= k < |springs| => springs[k].velocity)
    }

    ghost function State(): (s: Surface)
      reads this, springs
      ensures s.WellFormed() && |s.heights| == |springs|
    {
      Surface(Heights(), Velocities())
    }

    /** Places `springsCount` springs evenly from `fromX` to `toX`, all at rest on the base
        level. The physics body, the shader and the mesh it also creates are not modelled. */
    constructor (springsCount: int, fromX: real, toX: real)
      requires springsCount >= 2
      ensures Valid() && this.fromX == fromX && this.toX == toX && |springs| == springsCount
      ensures forall i :: 0 <= i < springsCount ==> springs[i].x == SpringX(fromX, toX, springsCount, i)
      ensures State() == Surface(seq(springsCount, _ => BASE_WATER_LEVEL), seq(springsCount, _ => 0.0))
    {
      this.fromX := fromX;
      this.toX := toX;
      var placed: seq<Spring> := [];
      var i := 0;
      while i < springsCount
        invariant 0 <= i <= springsCount && |placed| == i
        invariant forall a, b :: 0 <= a < b < i ==> placed[a] != placed[b]
        invariant forall a :: 0 <= a < i ==> fresh(placed[a])
        invariant forall a :: 0 <= a < i ==> placed[a].x == SpringX(fromX, toX, springsCount, a)
        invariant forall a :: 0 <= a < i ==> placed[a].height == BASE_WATER_LEVEL && placed[a].velocity == 0.0
      {
        var x := fromX + (i as real) * ((toX - fromX) / ((springsCount - 1) as real));
        var spring := new Spring(x, BASE_WATER_LEVEL);
        placed := placed + [spring];
        i := i + 1;
      }
      springs := placed;
    }

    /** One fixed tick of the surface: settle every spring, then run the propagation passes
        with one pair of delta buffers allocated for the whole call. */
    method Update()
      requires Valid()
      modifies springs
      ensures State() == GameTick(old(State()))
    {
      ghost var s0 := State();
      SettleSprings();
      ghost var settled := State();
      PropagateWaves();
      GameTickSteps(s0, settled, State());
    }

    /** The propagation loop of `update`: the int counter runs while it is below the float
        pass count, and both delta buffers are allocated once for all passes. */
    method PropagateWaves()
      requires Valid()
      modifies springs
      ensures State() == Passes(old(State()), WAVES_PROPAGATION_SPREAD_FACTOR, PassCount(WAVES_PROPAGATION_PASSES))
    {
      ghost var settled := State();
      var n := |springs|;
      var leftDeltas := new real[n];
      var rightDeltas := new real[n];
      var j := 0;
      assert State() == Passes(settled, WAVES_PROPAGATION_SPREAD_FACTOR, 0);
      PassCountBound(WAVES_PROPAGATION_PASSES, j);
      while (j as real) < WAVES_PROPAGATION_PASSES
        invariant 0 <= j <= PassCount(WAVES_PROPAGATION_PASSES)
        invariant State() == Passes(settled, WAVES_PROPAGATION_SPREAD_FACTOR, j)
        decreases PassCount(WAVES_PROPAGATION_PASSES) - j
      {
        PassCountBound(WAVES_PROPAGATION_PASSES, j);
        ghost var before := State();
        Propagate(leftDeltas, rightDeltas);
        PassesStep(settled, before, State(), j);
        j := j + 1;
      }
      PassCountBound(WAVES_PROPAGATION_PASSES, j);
    }

    /** The settling loop at the start of `update`. */
    method SettleSprings()
      requires Valid()
      modifies springs
      ensures State() == SettleAll(old(State()), SPRINGS_STIFFNESS, SPRINGS_DAMPENING_FACTOR, BASE_WATER_LEVEL)
    {
      var n := |springs|;
      var i := 0;
      while i < n
        invariant 0 <= i <= n
        invariant forall k :: 0 <= k < i ==>
          springs[k].State() == Settle(old(springs[k].State()), SPRINGS_STIFFNESS, SPRINGS_DAMPENING_FACTOR, BASE_WATER_LEVEL)
        invariant forall k :: i <= k < n ==> springs[k].State() == old(springs[k].State())
      {
        springs[i].Update(SPRINGS_STIFFNESS, SPRINGS_DAMPENING_FACTOR, BASE_WATER_LEVEL);
        i := i + 1;
      }
    }

    /** One propagation pass of `update`. Phase 1 only changes velocities, so every delta
        is taken from the heights at the start of the pass; phase 2 adds the same deltas
        to the heights. The first spring has no left neighbour, the last no right one. */
    method Propagate(leftDeltas: array<real>, rightDeltas: array<real>)
      requires Valid() && leftDeltas.Length == |springs| && rightDeltas.Length == |springs|
      requires leftDeltas != rightDeltas
      modifies springs, leftDeltas, rightDeltas
      ensures State() == Pass(old(State()), WAVES_PROPAGATION_SPREAD_FACTOR)
    {
      var n := |springs|;
      ghost var h0 := Heights();
      ghost var v0 := Velocities();
      ghost var ld := LeftDeltas(h0, WAVES_PROPAGATION_SPREAD_FACTOR);
      ghost var rd := RightDeltas(h0, WAVES_PROPAGATION_SPREAD_FACTOR);
      VelocityPhase(leftDeltas, rightDeltas, h0, v0, ld, rd);
      ghost var v1 := Velocities();
      HeightPhase(leftDeltas, rightDeltas, h0, v1, ld, rd);
      ghost var d := PassDeltas(h0, WAVES_PROPAGATION_SPREAD_FACTOR);
      forall k | 0 <= k < n
        ensures Velocities()[k] == Plus(v0, d)[k] && Heights()[k] == Plus(h0, d)[k]
      {
        assert d[k] == Inflow(ld, rd, n, k);
      }
      assert Velocities() == Plus(v0, d);
      assert Heights() == Plus(h0, d);
    }

    /** The first loop of a pass: every source records its deltas and hands them to its
        neighbours' velocities; the heights stay as they were. */
    method VelocityPhase(leftDeltas: array<real>, rightDeltas: array<real>,
                         ghost h0: seq<real>, ghost v0: seq<real>, ghost ld: seq<real>, ghost rd: seq<real>)
      requires Valid() && leftDeltas.Length == |springs| && rightDeltas.Length == |springs| && leftDeltas != rightDeltas
      requires h0 == Heights() && v0 == Velocities()
      requires ld == LeftDeltas(h0, WAVES_PROPAGATION_SPREAD_FACTOR) && rd == RightDeltas(h0, WAVES_PROPAGATION_SPREAD_FACTOR)
      modifies springs, leftDeltas, rightDeltas
      ensures forall k :: 0 <= k < |springs| ==> springs[k].height == h0[k]
      ensures forall k :: 0 <= k < |springs| ==> springs[k].velocity == v0[k] + Inflow(ld, rd, |springs|, k)
      ensures forall m :: 0 < m < |springs| ==> leftDeltas[m] == ld[m]
      ensures forall m :: 0 <= m < |springs| - 1 ==> rightDeltas[m] == rd[m]
    {
      var n := |springs|;
      var i := 0;
      while i < n
        invariant 0 <= i <= n
        invariant forall k :: 0 <= k < n ==> springs[k].height == h0[k]
        invariant forall k :: 0 <= k < n ==> springs[k].velocity == v0[k] + Inflow(ld, rd, i, k)
        invariant forall m :: 0 < m < i ==> leftDeltas[m] == ld[m]
        invariant forall m :: 0 <= m < i && m < n - 1 ==> rightDeltas[m] == rd[m]
      {
        SpreadVelocity(i, leftDeltas, rightDeltas, h0, ld, rd);
        forall k | 0 <= k < n
          ensures springs[k].velocity == v0[k] + Inflow(ld, rd, i + 1, k)
        {
          InflowStep(ld, rd, i, k);
        }
        i := i + 1;
      }
    }

    /** The second loop of a pass: every source hands its recorded deltas to its
        neighbours' heights; the velocities stay as they were. */
    method HeightPhase(leftDeltas: array<real>, rightDeltas: array<real>,
                       ghost h0: seq<real>, ghost v1: seq<real>, ghost ld: seq<real>, ghost rd: seq<real>)
      requires Valid() && leftDeltas.Length == |springs| && rightDeltas.Length == |springs|
      requires |h0| == |springs| && |ld| == |springs| && |rd| == |springs| && v1 == Velocities()
      requires forall k :: 0 <= k < |springs| ==> springs[k].height == h0[k]
      requires forall m :: 0 < m < |springs| ==> leftDeltas[m] == ld[m]
      requires forall m :: 0 <= m < |springs| - 1 ==> rightDeltas[m] == rd[m]
      modifies springs
      ensures forall k :: 0 <= k < |springs| ==> springs[k].velocity == v1[k]
      ensures forall k :: 0 <= k < |springs| ==> springs[k].height == h0[k] + Inflow(ld, rd, |springs|, k)
    {
      var n := |springs|;
      var i := 0;
      while i < n
        invariant 0 <= i <= n
        invariant forall k :: 0 <= k < n ==> springs[k].velocity == v1[k]
        invariant forall k :: 0 <= k < n ==> springs[k].height == h0[k] + Inflow(ld, rd, i, k)
      {
        SpreadHeight(i, leftDeltas, rightDeltas, h0, v1, ld, rd);
        i := i + 1;
      }
    }

    /** Phase 1 of a pass at source `i`: record its left and right deltas, taken from the
        heights at the start of the pass, and add them to its neighbours' velocities. */
    method SpreadVelocity(i: int, leftDeltas: array<real>, rightDeltas: array<real>,
                          ghost h0: seq<real>, ghost ld: seq<real>, ghost rd: seq<real>)
      requires Valid() && 0 <= i < |springs| && |h0| == |springs|
      requires ld == LeftDeltas(h0, WAVES_PROPAGATION_SPREAD_FACTOR) && rd == RightDeltas(h0, WAVES_PROPAGATION_SPREAD_FACTOR)
      requires leftDeltas.Length == |springs| && rightDeltas.Length == |springs| && leftDeltas != rightDeltas
      requires forall k :: 0 <= k < |springs| ==> springs[k].height == h0[k]
      modifies springs, leftDeltas, rightDeltas
      ensures forall k :: 0 <= k < |springs| ==> springs[k].height == h0[k]
      ensures forall k :: 0 <= k < |springs| ==>
        springs[k].velocity == old(springs[k].velocity) + (if k == i - 1 then ld[i] else 0.0) + (if k == i + 1 then rd[i] else 0.0)
      ensures i > 0 ==> leftDeltas[i] == ld[i]
      ensures i < |springs| - 1 ==> rightDeltas[i] == rd[i]
      ensures forall m :: 0 <= m < |springs| && m != i ==> leftDeltas[m] == old(leftDeltas[m]) && rightDeltas[m] == old(rightDeltas[m])
    {
      var n := |springs|;
      var spring := springs[i];
      if i > 0 {
        var leftSpring := springs[i - 1];
        leftDeltas[i] := WAVES_PROPAGATION_SPREAD_FACTOR * (spring.GetHeight() - leftSpring.GetHeight());
        leftSpring.AddVelocity(leftDeltas[i]);
      }
      if i < n - 1 {
        var rightSpring := springs[i + 1];
        rightDeltas[i] := WAVES_PROPAGATION_SPREAD_FACTOR * (spring.GetHeight() - rightSpring.GetHeight());
        rightSpring.AddVelocity(rightDeltas[i]);
      }
    }

    /** Phase 2 of a pass at source `i`: add its recorded deltas to its neighbours' heights. */
    method SpreadHeight(i: int, leftDeltas: array<real>, rightDeltas: array<real>,
                        ghost h0: seq<real>, ghost v1: seq<real>, ghost ld: seq<real>, ghost rd: seq<real>)
      requires Valid() && 0 <= i < |springs| && |h0| == |springs| && |v1| == |springs|
      requires |ld| == |springs| && |rd| == |springs|
      requires leftDeltas.Length == |springs| && rightDeltas.Length == |springs|
      requires i > 0 ==> leftDeltas[i] == ld[i]
      requires i < |springs| - 1 ==> rightDeltas[i] == rd[i]
      requires forall k :: 0 <= k < |springs| ==> springs[k].velocity == v1[k]
      requires forall k :: 0 <= k < |springs| ==> springs[k].height == h0[k] + Inflow(ld, rd, i, k)
      modifies springs
      ensures forall k :: 0 <= k < |springs| ==> springs[k].velocity == v1[k]
      ensures forall k :: 0 <= k < |springs| ==> springs[k].height == h0[k] + Inflow(ld, rd, i + 1, k)
    {
      if i > 0 {
        springs[i - 1].AddHeight(leftDeltas[i]);
      }
      if i < |springs| - 1 {
        springs[i + 1].AddHeight(rightDeltas[i]);
      }
    }

    /** Adds `speed` to the velocity of spring `index`, and does nothing for an index
        outside the row. */
    method DisturbWater(index: int, speed: real)
      requires Valid()
      modifies springs
      ensures State() == Disturb(old(State()), index, speed)
    {
      if index >= 0 && index < |springs| {
        springs[index].AddVelocity(speed);
      }
    }

    /** A touch at `xWorld` over the water disturbs the spring under it with speed 5. */
    method HandleInput(xWorld: real)
      requires Valid()
      modifies springs
      ensures State() == match TouchIndex(|springs|, fromX, toX, xWorld)
                         case Some(index) => Disturb(old(State()), index, INPUT_DISTURBANCE)
                         case None => old(State())
    {
      if xWorld >= fromX && xWorld <= toX {
        var index: int;
        if toX == fromX {
          index := 0;
        } else {
          index := Round(TouchRatio(|springs|, xWorld - fromX, toX - fromX));
        }
        DisturbWater(index, INPUT_DISTURBANCE);
      }
    }

    function GetWaterLevel(): real
    {
      BASE_WATER_LEVEL
    }
  }
}
