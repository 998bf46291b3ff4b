/** The elapsed-time display (utils/NumericRenderer.java): `renderTimer` draws mm:ss, or
    hh:mm:ss past one hour, as a row of equally wide digit and separator glyphs starting
    half the render width left of `x`. A digit outside the ten textures makes the array
    access throw, which the model reports as `None`; otherwise the draws are returned in
    order. */
module NumericRendering {
  import opened Wrappers
  import opened JavaMath

  const TEXTURES_COUNT: int := 10
  const SECONDS_PER_HOUR: real := 3600.0

  datatype Glyph = Digit(n: int) | Separator

  /** One `spriteBatch.draw(texture, x, y, width, height)`. */
  datatype Draw = Draw(glyph: Glyph, x: real, y: real, width: real, height: real)

  /** `(int) Math.round(Math.floor(inputSeconds % 3600 / 60))`. */
  function Minutes(inputSeconds: real): int
  {
    (JavaRemainder(inputSeconds, 3600.0) / 60.0).Floor
  }

  /** `(int) Math.round(Math.floor(inputSeconds % 60))`. */
  function Seconds(inputSeconds: real): int
  {
    JavaRemainder(inputSeconds, 60.0).Floor
  }

  /** `(int) Math.round(Math.floor(inputSeconds / 3600))`. */
  function Hours(inputSeconds: real): int
  {
    (inputSeconds / SECONDS_PER_HOUR).Floor
  }

  /** Whether both digits of `v`, `v / 10` and `v % 10`, index one of the ten textures. With
      Java's truncating division as with Euclidean division, that is `0 <= v < 100`, and
      then the two agree. */
  predicate TwoDigits(v: int)
  {
    0 <= v < 100
  }

  function DigitPair(v: int): seq<Glyph>
    requires TwoDigits(v)
  {
    [Digit(v / 10), Digit(v % 10)]
  }

  /** The hours `renderTimer` shows: only past one hour. */
  function HoursShown(inputSeconds: real): Option<int>
  {
    if inputSeconds > SECONDS_PER_HOUR then Some(Hours(inputSeconds)) else None
  }

  /** The glyphs of a clock face, mm:ss or hh:mm:ss, or `None` when one of the digits has
      no texture. */
  function ClockGlyphs(minutes: int, seconds: int, hours: Option<int>): (glyphs: Option<seq<Glyph>>)
    ensures glyphs.Some? ==> |glyphs.value| == if hours.Some? then 8 else 5
  {
    if !TwoDigits(minutes) || !TwoDigits(seconds) then None
    else
      var minutesAndSeconds := DigitPair(minutes) + [Separator] + DigitPair(seconds);
      match hours
      case None => Some(minutesAndSeconds)
      case Some(h) => if TwoDigits(h) then Some(DigitPair(h) + [Separator] + minutesAndSeconds) else None
  }

  /** The glyphs of a clock face, spelled out digit by digit. */
  lemma ClockGlyphsSpelled(minutes: int, seconds: int, hours: Option<int>)
    requires TwoDigits(minutes) && TwoDigits(seconds) && (hours.Some? ==> TwoDigits(hours.value))
    ensures var clock := [Digit(minutes / 10), Digit(minutes % 10), Separator, Digit(seconds / 10), Digit(seconds % 10)];
      ClockGlyphs(minutes, seconds, hours)
      == Some(if hours.Some? then [Digit(hours.value / 10), Digit(hours.value % 10), Separator] + clock else clock)
  {
    var clock := [Digit(minutes / 10), Digit(minutes % 10), Separator, Digit(seconds / 10), Digit(seconds % 10)];
    assert DigitPair(minutes) + [Separator] + DigitPair(seconds) == clock;
    if hours.Some? {
      assert DigitPair(hours.value) + [Separator] == [Digit(hours.value / 10), Digit(hours.value % 10), Separator];
    }
  }

  /** The glyphs `renderTimer` draws for `inputSeconds`, or `None` when one of its digits
      has no texture. */
  function TimerGlyphs(inputSeconds: real): Option<seq<Glyph>>
  {
    ClockGlyphs(Minutes(inputSeconds), Seconds(inputSeconds), HoursShown(inputSeconds))
  }

  /** The glyph width: a sixth of the render width for mm:ss, an eighth for hh:mm:ss. */
  function GlyphWidth(renderWidth: real, hours: Option<int>): real
  {
    if hours.Some? then renderWidth / 8.0 else renderWidth / 6.0
  }

  /** Glyphs drawn side by side: the first at `left`, the rest from one width further
      right, all at `y` and twice as tall as wide. */
  function Placed(glyphs: seq<Glyph>, left: real, y: real, width: real): (draws: seq<Draw>)
    ensures |draws| == |glyphs|
  {
    if glyphs == [] then []
    else [Draw(glyphs[0], left, y, width, width * 2.0)] + Placed(glyphs[1..], left + width, y, width)
  }

  /** Glyph `i` is drawn at `left + i * width`, and the next one a width further right. */
  lemma {:induction false} PlacedAt(glyphs: seq<Glyph>, left: real, y: real, width: real, i: int)
    requires 0 <= i < |glyphs|
    ensures Placed(glyphs, left, y, width)[i] == Draw(glyphs[i], left + (i as real) * width, y, width, width * 2.0)
    ensures i + 1 < |glyphs| ==> Placed(glyphs, left, y, width)[i + 1].x == Placed(glyphs, left, y, width)[i].x + width
  {
    if i > 0 {
      PlacedAt(glyphs[1..], left + width, y, width, i - 1);
      assert left + width + ((i - 1) as real) * width == left + (i as real) * width;
    }
    if i + 1 < |glyphs| {
      PlacedAt(glyphs[1..], left + width, y, width, i);
      assert left + width + (i as real) * width == left + ((i + 1) as real) * width;
    }
  }

  /** The first glyph goes at `left`, the rest from one width further right. */
  lemma PlacedCons(g: Glyph, rest: seq<Glyph>, left: real, y: real, width: real)
    ensures Placed([g] + rest, left, y, width)
            == [Draw(g, left, y, width, width * 2.0)] + Placed(rest, left + width, y, width)
  {
    assert ([g] + rest)[1..] == rest;
  }

  /** The five glyphs of mm:ss, placed. */
  lemma PlacedFive(g0: Glyph, g1: Glyph, g2: Glyph, g3: Glyph, g4: Glyph, left: real, y: real, width: real)
    ensures Placed([g0, g1, g2, g3, g4], left, y, width)
            == [Draw(g0, left, y, width, width * 2.0), Draw(g1, left + width, y, width, width * 2.0),
                Draw(g2, left + width + width, y, width, width * 2.0),
                Draw(g3, left + width + width + width, y, width, width * 2.0),
                Draw(g4, left + width + width + width + width, y, width, width * 2.0)]
  {
    assert [g0, g1, g2, g3, g4] == [g0] + [g1, g2, g3, g4];
    assert [g1, g2, g3, g4] == [g1] + [g2, g3, g4];
    assert [g2, g3, g4] == [g2] + [g3, g4];
    assert [g3, g4] == [g3] + [g4];
    assert [g4] == [g4] + [];
    PlacedCons(g0, [g1, g2, g3, g4], left, y, width);
    PlacedCons(g1, [g2, g3, g4], left + width, y, width);
    PlacedCons(g2, [g3, g4], left + width + width, y, width);
    PlacedCons(g3, [g4], left + width + width + width, y, width);
    PlacedCons(g4, [], left + width + width + width + width, y, width);
  }

  /** The three glyphs of hh: go first; the rest of the row continues three widths on. */
  lemma PlacedThreeThen(g0: Glyph, g1: Glyph, g2: Glyph, back: seq<Glyph>, left: real, y: real, width: real)
    ensures Placed([g0, g1, g2] + back, left, y, width)
            == [Draw(g0, left, y, width, width * 2.0), Draw(g1, left + width, y, width, width * 2.0),
                Draw(g2, left + width + width, y, width, width * 2.0)]
               + Placed(back, left + width + width + width, y, width)
  {
    assert [g0, g1, g2] + back == [g0] + ([g1, g2] + back);
    assert [g1, g2] + back == [g1] + ([g2] + back);
    PlacedCons(g0, [g1, g2] + back, left, y, width);
    PlacedCons(g1, [g2] + back, left + width, y, width);
    PlacedCons(g2, back, left + width + width, y, width);
  }

  /** The draws of a clock face: its glyphs placed from half the render width left of `x`. */
  function ClockLayout(x: real, y: real, renderWidth: real, minutes: int, seconds: int, hours: Option<int>): Option<seq<Draw>>
  {
    match ClockGlyphs(minutes, seconds, hours)
    case None => None
    case Some(glyphs) => Some(Placed(glyphs, x - renderWidth / 2.0, y, GlyphWidth(renderWidth, hours)))
  }

  /** The draws of `renderTimer`. */
  function TimerLayout(x: real, y: real, renderWidth: real, inputSeconds: real): Option<seq<Draw>>
  {
    ClockLayout(x, y, renderWidth, Minutes(inputSeconds), Seconds(inputSeconds), HoursShown(inputSeconds))
  }

  /** The number two digit glyphs show. */
  function PairValue(tens: Glyph, units: Glyph): int
  {
    (if tens.Digit? then tens.n else 0) * 10 + (if units.Digit? then units.n else 0)
  }

  /** The seconds a row of glyphs shows: mm:ss or hh:mm:ss. */
  function Reading(glyphs: seq<Glyph>): int
  {
    if |glyphs| == 8 then PairValue(glyphs[0], glyphs[1]) * 3600 + PairValue(glyphs[3], glyphs[4]) * 60 + PairValue(glyphs[6], glyphs[7])
    else if |glyphs| == 5 then PairValue(glyphs[0], glyphs[1]) * 60 + PairValue(glyphs[3], glyphs[4])
    else 0
  }

  /** The floor of a non-negative real over a positive integer is the integer quotient of
      its floor, and Java's remainder keeps the fraction on the integer remainder. */
  lemma FloorQuotient(s: real, m: int)
    requires s >= 0.0 && m > 0
    ensures (s / (m as real)).Floor == s.Floor / m
    ensures JavaRemainder(s, m as real).Floor == s.Floor % m
  {
    var n := s.Floor;
    var q := n / m;
    var r := n % m;
    var big := m as real;
    var t := (r as real) + (s - n as real);
    assert 0.0 <= t < big;
    WholeSteps(s, q, m, r, t);
    DivSplit(q as real, big, t);
    FractionBelowOne(t, big);
    FloorShift(q, t / big);
    assert s / big == q as real + t / big;
    assert Truncate(s / big) == q;
    assert JavaRemainder(s, big) == t;
    FloorShift(r, s - n as real);
  }

  lemma WholeSteps(s: real, q: int, m: int, r: int, t: real)
    requires m > 0 && q == s.Floor / m && r == s.Floor % m && t == (r as real) + (s - s.Floor as real)
    ensures s == (q as real) * (m as real) + t
  {
    var n := s.Floor;
    assert n == q * m + r;
    assert (n as real) == ((q * m) as real) + (r as real);
  }

  lemma DivSplit(q: real, big: real, t: real)
    requires big > 0.0
    ensures (q * big + t) / big == q + t / big
  {
  }

  lemma FractionBelowOne(t: real, big: real)
    requires big > 0.0 && 0.0 <= t < big
    ensures 0.0 <= t / big < 1.0
  {
    FractionScaled(t, t / big, big);
  }

  lemma FloorShift(k: int, u: real)
    requires 0.0 <= u < 1.0
    ensures ((k as real) + u).Floor == k
  {
  }

  /** Taking the hour out first does not change the seconds within the minute. */
  lemma SecondsWithinTheHour(n: int)
    requires n >= 0
    ensures (n % 3600) % 60 == n % 60
    ensures (n % 3600) / 60 * 60 + n % 60 == n % 3600
  {
    var a := n / 3600;
    var b := n % 3600;
    assert n == 60 * (60 * a) + b;
    var c := b / 60;
    var d := b % 60;
    assert n == 60 * (60 * a + c) + d;
  }

  /** Minutes and seconds of a non-negative time: the seconds within the hour, split. */
  lemma ClockFields(s: real)
    requires s >= 0.0
    ensures Minutes(s) == (s.Floor % 3600) / 60
    ensures Seconds(s) == s.Floor % 60
    ensures Hours(s) == s.Floor / 3600
    ensures 0 <= Minutes(s) < 60 && 0 <= Seconds(s) < 60
  {
    FloorQuotient(s, 3600);
    FloorQuotient(s, 60);
    var r := JavaRemainder(s, 3600.0);
    assert r >= 0.0;
    FloorQuotient(r, 60);
    assert r.Floor == s.Floor % 3600;
  }

  /** The display reads back the time: past an hour (and below 100 hours) the whole seconds
      as hh:mm:ss, otherwise the whole seconds within the hour as mm:ss; and 100 hours or
      more have no texture for the hour's tens. */
  lemma TimerShowsTheTime(s: real)
    requires s >= 0.0
    ensures s > SECONDS_PER_HOUR && Hours(s) >= 100 ==> TimerGlyphs(s) == None
    ensures s > SECONDS_PER_HOUR && Hours(s) < 100 ==>
      TimerGlyphs(s).Some? && |TimerGlyphs(s).value| == 8 && Reading(TimerGlyphs(s).value) == s.Floor
    ensures s <= SECONDS_PER_HOUR ==>
      TimerGlyphs(s).Some? && |TimerGlyphs(s).value| == 5 && Reading(TimerGlyphs(s).value) == s.Floor % 3600
  {
    ClockFields(s);
    SecondsWithinTheHour(s.Floor);
    var n := s.Floor;
    if s > SECONDS_PER_HOUR {
      assert n >= 3600;
      assert Hours(s) >= 1;
      assert n == (n / 3600) * 3600 + n % 3600;
    }
  }

  /** Every digit drawn has a texture. */
  lemma DigitsHaveTextures(s: real)
    ensures TimerGlyphs(s).Some? ==>
      forall g :: g in TimerGlyphs(s).value && g.Digit? ==> 0 <= g.n < TEXTURES_COUNT
  {
  }

  /** Exactly one hour shows as 00:00, without hours; times below 100 hours, and only
      those past one hour, get the hour digits. */
  lemma OneHourShowsZero()
    ensures TimerGlyphs(3600.0) == Some([Digit(0), Digit(0), Separator, Digit(0), Digit(0)])
    ensures TimerGlyphs(360000.0) == None
  {
    assert (3600.0).Floor == 3600;
    assert (360000.0).Floor == 360000;
    ClockFields(3600.0);
    ClockFields(360000.0);
    assert Minutes(3600.0) == 0 && Seconds(3600.0) == 0;
    assert DigitPair(0) == [Digit(0), Digit(0)];
    assert Hours(360000.0) == 100;
    assert DigitPair(0) + [Separator] + DigitPair(0) == [Digit(0), Digit(0), Separator, Digit(0), Digit(0)];
  }

  /** The glyphs are laid side by side from `x - renderWidth / 2`: hh:mm:ss fills the render
      width, centred on `x`, while mm:ss fills five sixths of it. */
  lemma LayoutSpansTheWidth(x: real, y: real, renderWidth: real, minutes: int, seconds: int, hours: Option<int>)
    requires ClockLayout(x, y, renderWidth, minutes, seconds, hours).Some?
    ensures var draws := ClockLayout(x, y, renderWidth, minutes, seconds, hours).value;
      var w := GlyphWidth(renderWidth, hours);
      (forall i :: 0 <= i < |draws| - 1 ==> draws[i + 1].x == draws[i].x + draws[i].width)
      && draws[0].x == x - renderWidth / 2.0
      && (hours.Some? ==> |draws| == 8 && draws[7].x + w == x + renderWidth / 2.0)
      && (hours.None? ==> |draws| == 5 && draws[4].x + w == x + renderWidth / 3.0)
  {
    var glyphs := ClockGlyphs(minutes, seconds, hours).value;
    var left := x - renderWidth / 2.0;
    var w := GlyphWidth(renderWidth, hours);
    var draws := Placed(glyphs, left, y, w);
    forall i | 0 <= i < |draws| - 1
      ensures draws[i + 1].x == draws[i].x + draws[i].width
    {
      PlacedAt(glyphs, left, y, w, i);
    }
    PlacedAt(glyphs, left, y, w, 0);
    PlacedAt(glyphs, left, y, w, |glyphs| - 1);
  }

  /** `renderTimer`: the three fields of the clock, then the draws. */
  method RenderTimer(x: real, y: real, renderWidth: real, inputSeconds: real) returns (draws: Option<seq<Draw>>)
    ensures draws == TimerLayout(x, y, renderWidth, inputSeconds)
  {
    var minutes := Minutes(inputSeconds);
    var seconds := Seconds(inputSeconds);
    var hours: Option<int> := None;
    if inputSeconds > SECONDS_PER_HOUR {
      hours := Some(Hours(inputSeconds));
    }
    draws := DrawClock(x, y, renderWidth, minutes, seconds, hours);
  }

  /** The drawing part of `renderTimer`, step by step: each glyph is drawn at `renderX`,
      which then advances by one width; what is still to be drawn is always the rest of
      the row from `renderX`. A digit without a texture ends the drawing. */
  method DrawClock(x: real, y: real, renderWidth: real, minutes: int, seconds: int, hours: Option<int>) returns (draws: Option<seq<Draw>>)
    ensures draws == ClockLayout(x, y, renderWidth, minutes, seconds, hours)
  {
    var widthPerTexture: real;
    var heightPerTexture: real;
    var renderX := x - renderWidth / 2.0;
    var drawn: seq<Draw> := [];
    if !TwoDigits(minutes) || !TwoDigits(seconds) {
      return None;
    }
    if hours.Some? {
      widthPerTexture := renderWidth / 8.0;
      heightPerTexture := widthPerTexture * 2.0;
      if !TwoDigits(hours.value) {
        return None;
      }
      drawn := drawn + [Draw(Digit(hours.value / 10), renderX, y, widthPerTexture, heightPerTexture)];
      renderX := renderX + widthPerTexture;
      drawn := drawn + [Draw(Digit(hours.value % 10), renderX, y, widthPerTexture, heightPerTexture)];
      renderX := renderX + widthPerTexture;
      drawn := drawn + [Draw(Separator, renderX, y, widthPerTexture, heightPerTexture)];
      renderX := renderX + widthPerTexture;
    } else {
      widthPerTexture := renderWidth / 6.0;
      heightPerTexture := widthPerTexture * 2.0;
    }
    ghost var hourDraws := drawn;
    ghost var start := renderX;
    drawn := drawn + [Draw(Digit(minutes / 10), renderX, y, widthPerTexture, heightPerTexture)];
    renderX := renderX + widthPerTexture;
    drawn := drawn + [Draw(Digit(minutes % 10), renderX, y, widthPerTexture, heightPerTexture)];
    renderX := renderX + widthPerTexture;
    drawn := drawn + [Draw(Separator, renderX, y, widthPerTexture, heightPerTexture)];
    renderX := renderX + widthPerTexture;
    drawn := drawn + [Draw(Digit(seconds / 10), renderX, y, widthPerTexture, heightPerTexture)];
    renderX := renderX + widthPerTexture;
    drawn := drawn + [Draw(Digit(seconds % 10), renderX, y, widthPerTexture, heightPerTexture)];
    ghost var clock := [Digit(minutes / 10), Digit(minutes % 10), Separator, Digit(seconds / 10), Digit(seconds % 10)];
    PlacedFive(clock[0], clock[1], clock[2], clock[3], clock[4], start, y, widthPerTexture);
    assert drawn == hourDraws + Placed(clock, start, y, widthPerTexture);
    ghost var row: seq<Glyph>;
    if hours.Some? {
      row := [Digit(hours.value / 10), Digit(hours.value % 10), Separator] + clock;
      PlacedThreeThen(row[0], row[1], row[2], clock, x - renderWidth / 2.0, y, widthPerTexture);
    } else {
      row := clock;
    }
    ClockGlyphsSpelled(minutes, seconds, hours);
    assert drawn == Placed(row, x - renderWidth / 2.0, y, widthPerTexture);
    return Some(drawn);
  }
}
