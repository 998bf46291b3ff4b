/** An interval of floats (utils/Range.java). `from` and `to` can be moved after
    construction; `extent` and `halfExtent` are fixed when the range is built and are not
    kept in step with later moves. */
module Ranges {
  import opened Wrappers
  import opened Randomness

  /** Java's `Math.max(0, Math.min(1, q))` on a finite quotient. */
  function Clamp01(q: real): (r: real)
    ensures 0.0 <= r <= 1.0
    ensures 0.0 <= q <= 1.0 ==> r == q
    ensures q <= 0.0 ==> r == 0.0
    ensures q >= 1.0 ==> r == 1.0
  {
    if q < 0.0 then 0.0 else if q > 1.0 then 1.0 else q
  }

  class Range {
    const extent: real
    const halfExtent: real
    var from: real
    var to: real

    /** The private constructor: no check, the extent is taken from the arguments. */
    constructor (from: real, to: real)
      ensures this.from == from && this.to == to
      ensures extent == to - from && halfExtent == extent / 2.0
    {
      this.from := from;
      this.to := to;
      extent := to - from;
      halfExtent := (to - from) / 2.0;
    }

    /** `from <= to`, the shape the builders aim for and the mutators keep. */
    ghost predicate Ordered()
      reads this
    {
      from <= to
    }

    /** Inclusive at both ends: only an ordered range contains anything, and an ordered
        range contains both of its ends. */
    predicate Contains(point: real)
      reads this
      ensures Contains(point) ==> Ordered()
      ensures (point == from || point == to) && Ordered() ==> Contains(point)
    {
      point >= from && point <= to
    }

    /** `(point - from) / extent`; the division by a zero extent gives an infinity or NaN in
        Java, which is `None` here. */
    function Percentage(point: real): (r: Option<real>)
      reads this
      ensures r.None? <==> extent == 0.0
      ensures r.Some? ==> r.value * extent == point - from
    {
      if extent == 0.0 then None else Some((point - from) / extent)
    }

    /** `percentage` clamped to `[0, 1]`. With a zero extent the quotient is +infinity after
        `from` (clamped to 1), -infinity before it (clamped to 0), and NaN at `from`, which
        `Math.min` and `Math.max` pass through: `None`. */
    function ClampedPercentage(point: real): (r: Option<real>)
      reads this
      ensures r.Some? ==> 0.0 <= r.value <= 1.0
      ensures r.None? <==> extent == 0.0 && point == from
    {
      match Percentage(point)
      case Some(q) => Some(Clamp01(q))
      case None => if point > from then Some(1.0) else if point < from then Some(0.0) else None
    }

    /** The midpoint of the ends while the extent is still `to - from`, and then inside an
        ordered range. */
    function GetCenter(): (center: real)
      reads this
      ensures extent == to - from && halfExtent == extent / 2.0 ==> center == (from + to) / 2.0
      ensures extent == to - from && halfExtent == extent / 2.0 && Ordered() ==> Contains(center)
    {
      from + halfExtent
    }

    /** `getRandom`: a draw between `from` and `to`, taken with the uniform `unit`. */
    function GetRandom(unit: real): (r: real)
      reads this
      requires 0.0 <= unit < 1.0
      ensures Ordered() ==> Contains(r)
      ensures from < to ==> r < to
    {
      RandomFloat(from, to, unit)
    }

    /** `buildSubRange`: rejects a negative extent or offset, and an end offset beyond
        `this.to` (compared with `to`, not with the length of the range). */
    method BuildSubRange(fromOffset: real, extent: real) returns (r: Result<Range, string>)
      ensures r.Failure? <==> extent < 0.0 || fromOffset < 0.0 || fromOffset + extent > to
      ensures r.Success? ==> (fresh(r.value) && r.value.from == from + fromOffset
                              && r.value.to == from + fromOffset + extent && r.value.extent == extent)
    {
      if extent < 0.0 || fromOffset < 0.0 {
        return Failure("Incorrect sub-range, extent < 0 or offset < 0");
      }
      if fromOffset + extent > to {
        return Failure("Incorrect sub-range, fromOffset + extent > this.to");
      }
      var subRangeFrom := from + fromOffset;
      var sub := new Range(subRangeFrom, subRangeFrom + extent);
      return Success(sub);
    }

    /** The same builder with the end offset compared with the length `to - from`. */
    method BuildSubRangeWithin(fromOffset: real, extent: real) returns (r: Result<Range, string>)
      ensures r.Failure? <==> extent < 0.0 || fromOffset < 0.0 || fromOffset + extent > to - from
      ensures r.Success? ==> (fresh(r.value) && r.value.from == from + fromOffset
                              && r.value.to == from + fromOffset + extent && r.value.extent == extent)
      ensures r.Success? ==> from <= r.value.from <= r.value.to <= to
    {
      if extent < 0.0 || fromOffset < 0.0 {
        return Failure("Incorrect sub-range, extent < 0 or offset < 0");
      }
      if fromOffset + extent > to - from {
        return Failure("Incorrect sub-range, fromOffset + extent > this.to - this.from");
      }
      var subRangeFrom := from + fromOffset;
      var sub := new Range(subRangeFrom, subRangeFrom + extent);
      return Success(sub);
    }

    /** Moves `to` by `v` unless that would put it before `from`. */
    method AddToEnd(v: real)
      modifies this
      ensures from == old(from)
      ensures to == if old(to) + v >= old(from) then old(to) + v else old(to)
      ensures old(Ordered()) ==> Ordered()
    {
      if to + v >= from {
        to := to + v;
      }
    }

    /** Moves `from` by `v` unless that would put it after `to`. */
    method AddToStart(v: real)
      modifies this
      ensures to == old(to)
      ensures from == if old(from) + v <= old(to) then old(from) + v else old(from)
      ensures old(Ordered()) ==> Ordered()
    {
      if from + v <= to {
        from := from + v;
      }
    }

    /** Sets `to` to `v` unless `v` is before `from`. */
    method ChangeEnd(v: real)
      modifies this
      ensures from == old(from)
      ensures to == if v >= old(from) then v else old(to)
      ensures old(Ordered()) ==> Ordered()
    {
      if v >= from {
        to := v;
      }
    }

    /** Sets `from` to `v` unless `v` is after `to`. */
    method ChangeStart(v: real)
      modifies this
      ensures to == old(to)
      ensures from == if v <= old(to) then v else old(from)
      ensures old(Ordered()) ==> Ordered()
    {
      if v <= to {
        from := v;
      }
    }
  }

  /** `buildRangeEx`: an error exactly when `to < from`. */
  method BuildRangeEx(from: real, to: real) returns (r: Result<Range, string>)
    ensures r.Failure? <==> to < from
    ensures r.Success? ==> (fresh(r.value) && r.value.from == from && r.value.to == to
                            && r.value.extent == to - from && r.value.Ordered())
  {
    if to < from {
      return Failure("Incorrect range, y < x");
    }
    var range := new Range(from, to);
    return Success(range);
  }

  /** `buildRange`: never fails; when `to < from` the start is moved to `to + 0.1`, which
      still leaves it after the end. */
  method BuildRange(from: real, to: real) returns (r: Range)
    ensures fresh(r) && r.to == to && r.from == BuildRangeStart(from, to)
    ensures r.extent == to - r.from
  {
    var start := from;
    if to < from {
      start := to + 0.1;
    }
    r := new Range(start, to);
  }

  /** The start `buildRange` keeps. */
  function BuildRangeStart(from: real, to: real): (start: real)
    ensures to < from ==> start > to
    ensures to >= from ==> start == from
  {
    if to < from then to + 0.1 else from
  }

  /** A range built from reversed bounds is not ordered and has a negative extent. */
  lemma BuildRangeStaysReversed(from: real, to: real)
    requires to < from
    ensures BuildRangeStart(from, to) > to
    ensures to - BuildRangeStart(from, to) == -0.1
  {
  }

  /** With a positive extent fixed at `to - from`, the clamped percentage is 0 at or before
      `from`, 1 at or after `to`, and the plain percentage in between. */
  lemma ClampedPercentageShape(r: Range, point: real)
    requires r.extent > 0.0 && r.extent == r.to - r.from
    ensures point <= r.from ==> r.ClampedPercentage(point) == Some(0.0)
    ensures point >= r.to ==> r.ClampedPercentage(point) == Some(1.0)
    ensures r.Contains(point) ==> r.ClampedPercentage(point) == r.Percentage(point)
  {
    QuotientBounds(point - r.from, r.extent);
  }

  lemma QuotientBounds(a: real, d: real)
    requires d > 0.0
    ensures a <= 0.0 ==> a / d <= 0.0
    ensures a >= d ==> a / d >= 1.0
    ensures 0.0 <= a <= d ==> 0.0 <= a / d <= 1.0
  {
  }

  /** The sub-range check compares with `to`: on `[1, 2]`, offset 0.5 and extent 1 pass it
      and give `[1.5, 2.5]`, which reaches past the end of the range. */
  lemma SubRangeCheckLetsOverrunThrough()
    ensures var from, to, fromOffset, extent := 1.0, 2.0, 0.5, 1.0;
      !(extent < 0.0 || fromOffset < 0.0 || fromOffset + extent > to)
      && from + fromOffset + extent > to
  {
  }
}
