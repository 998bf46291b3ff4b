/** The player's boat (boat/Boat.java): the per-tick update that pins its x, drags it
    towards the monster when eaten, holds it at a frozen y, and latches "upside down" once
    it stays tilted for 1.5 seconds. The Box2D body is reduced to its position and its
    angle in degrees (`Math.toDegrees(body.getAngle())`). */
module Boats {
  import opened Constants
  import opened JavaMath

  const MAX_ALLOWED_BOAT_ANGLE: real := 120.0
  const BOAT_UPSIDE_DOWN_TIMER: real := 1.5
  const MEAL_SIZE_FACTOR: real := 1.5

  /** How long the monster takes to lift its tentacle (Monster.UP_TRANSLATION_ANIMATION_DURATION). */
  const UP_TRANSLATION_ANIMATION_DURATION: real := 2.0

  /** `Math.abs(Math.toDegrees(angle) % 360)`. */
  function ClampedAngle(degrees: real): (c: real)
    ensures 0.0 <= c < 360.0
  {
    var r := JavaRemainder(degrees, 360.0);
    if r < 0.0 then -r else r
  }

  /** The test of `update`: the boat counts as tilted when the clamped angle reaches 120.
      Within one turn either way that is a rotation of at least 120 degrees. */
  predicate Tilted(degrees: real)
    ensures -360.0 < degrees < 360.0 ==> (Tilted(degrees) <==> degrees <= -MAX_ALLOWED_BOAT_ANGLE || degrees >= MAX_ALLOWED_BOAT_ANGLE)
  {
    ClampedAngle(degrees) >= MAX_ALLOWED_BOAT_ANGLE
  }

  /** The y the boat is dragged to while eaten, `deathByKrakenTranslationTimer` seconds in:
      while the tentacle rises it stays between the recorded y and the target. */
  function EatenY(startingY: real, yToBeEaten: real, timer: real): (y: real)
    ensures 0.0 <= timer <= UP_TRANSLATION_ANIMATION_DURATION && startingY <= yToBeEaten ==> startingY <= y <= yToBeEaten
    ensures 0.0 <= timer <= UP_TRANSLATION_ANIMATION_DURATION && yToBeEaten <= startingY ==> yToBeEaten <= y <= startingY
  {
    Interpolate(startingY, yToBeEaten, timer / UP_TRANSLATION_ANIMATION_DURATION)
  }

  /** The drag starts at the recorded y and reaches the target when the tentacle is up. */
  lemma EatenYEnds(startingY: real, yToBeEaten: real)
    ensures EatenY(startingY, yToBeEaten, 0.0) == startingY
    ensures EatenY(startingY, yToBeEaten, UP_TRANSLATION_ANIMATION_DURATION) == yToBeEaten
    ensures EatenY(startingY, yToBeEaten, UP_TRANSLATION_ANIMATION_DURATION / 2.0) == (startingY + yToBeEaten) / 2.0
  {
  }

  /** The point a fraction `f` of the way from `a` to `b`; for `f` in [0, 1] it lies
      between them. */
  function Interpolate(a: real, b: real, f: real): (p: real)
    ensures 0.0 <= f <= 1.0 && a <= b ==> a <= p <= b
    ensures 0.0 <= f <= 1.0 && b <= a ==> b <= p <= a
  {
    var p := a + (b - a) * f;
    InterpolationBetween(a, b, f, p);
    p
  }

  lemma InterpolationBetween(a: real, b: real, f: real, p: real)
    requires p == a + (b - a) * f
    ensures 0.0 <= f <= 1.0 && a <= b ==> a <= p <= b
    ensures 0.0 <= f <= 1.0 && b <= a ==> b <= p <= a
  {
    if 0.0 <= f <= 1.0 {
      var d := b - a;
      assert p - a == d * f;
      assert b - p == d * (1.0 - f);
      if d >= 0.0 {
        ProductOfNonNegatives(d, f);
        ProductOfNonNegatives(d, 1.0 - f);
      } else {
        ProductOfNonNegatives(-d, f);
        ProductOfNonNegatives(-d, 1.0 - f);
        assert (-d) * f == -(d * f) && (-d) * (1.0 - f) == -(d * (1.0 - f));
      }
    }
  }

  lemma ProductOfNonNegatives(x: real, y: real)
    requires x >= 0.0 && y >= 0.0
    ensures x * y >= 0.0
  {
  }

  /** The upside-down timer and latch after one tick with the given tilt. */
  function LatchStep(timer: real, latched: bool, tilted: bool): (next: (real, bool))
    ensures latched ==> next.1
    ensures next.1 && !latched ==> tilted && next.0 >= BOAT_UPSIDE_DOWN_TIMER
    ensures !tilted ==> next.0 == 0.0
    ensures timer >= 0.0 ==> next.0 >= 0.0
  {
    if tilted then
      var t := timer + TIME_STEP;
      (t, latched || t >= BOAT_UPSIDE_DOWN_TIMER)
    else (0.0, latched)
  }

  /** The timer and latch after a run of ticks, `tilts[k]` saying whether tick `k` was tilted. */
  function LatchRun(timer: real, latched: bool, tilts: seq<bool>): (real, bool)
    decreases |tilts|
  {
    if tilts == [] then (timer, latched)
    else
      var next := LatchStep(timer, latched, tilts[0]);
      LatchRun(next.0, next.1, tilts[1..])
  }

  /** Once upside down, always upside down. */
  lemma {:induction false} LatchNeverReleases(timer: real, tilts: seq<bool>)
    ensures LatchRun(timer, true, tilts).1
    decreases |tilts|
  {
    if tilts != [] {
      LatchNeverReleases(LatchStep(timer, true, tilts[0]).0, tilts[1..]);
    }
  }

  /** Starting upright, `n` tilted ticks in a row leave the timer at `n` steps, and latch
      exactly when `n / 60` reaches 1.5, that is from the 90th tick on. */
  lemma {:induction false} TiltedRun(timer: real, n: nat)
    requires timer >= 0.0
    ensures LatchRun(timer, false, seq(n, _ => true))
         == (timer + (n as real) * TIME_STEP, n > 0 && timer + (n as real) * TIME_STEP >= BOAT_UPSIDE_DOWN_TIMER)
    decreases n
  {
    if n > 0 {
      var tilts := seq(n, _ => true);
      assert tilts[1..] == seq(n - 1, _ => true);
      var next := LatchStep(timer, false, true);
      TiltedRun(next.0, n - 1);
      if next.1 {
        LatchNeverReleases(next.0, tilts[1..]);
      }
    }
  }

  /** From a reset timer it takes exactly 90 tilted ticks to latch. */
  lemma NinetyTicksToCapsize()
    ensures !LatchRun(0.0, false, seq(89, _ => true)).1
    ensures LatchRun(0.0, false, seq(90, _ => true)).1
  {
    TiltedRun(0.0, 89);
    TiltedRun(0.0, 90);
  }

  /** An upright tick throws the accumulated time away. */
  lemma UprightTickResets(timer: real, latched: bool, tilts: seq<bool>)
    requires tilts != [] && !tilts[0]
    ensures LatchRun(timer, latched, tilts) == LatchRun(0.0, latched, tilts[1..])
  {
  }

  /** How far the boat is from upright, whichever way it turned: at most 180. */
  function TiltFromUpright(degrees: real): (tilt: real)
    ensures 0.0 <= tilt <= 180.0
  {
    var c := ClampedAngle(degrees);
    if c <= 180.0 then c else 360.0 - c
  }

  /** The test the 120-degree limit describes: tilted by 120 or more from upright. It
      implies the test as written, and within one turn either way it is a rotation of
      120 to 240 degrees. */
  predicate TiltedFromUpright(degrees: real)
    ensures TiltedFromUpright(degrees) ==> Tilted(degrees)
    ensures -360.0 < degrees < 360.0 ==>
              (TiltedFromUpright(degrees) <==>
                 (MAX_ALLOWED_BOAT_ANGLE <= degrees <= 360.0 - MAX_ALLOWED_BOAT_ANGLE
                  || MAX_ALLOWED_BOAT_ANGLE <= -degrees <= 360.0 - MAX_ALLOWED_BOAT_ANGLE))
  {
    TiltFromUpright(degrees) >= MAX_ALLOWED_BOAT_ANGLE
  }

  /** The clamped angle of the opposite rotation is the same. */
  lemma ClampedAngleSymmetric(degrees: real)
    ensures ClampedAngle(-degrees) == ClampedAngle(degrees)
  {
    assert -degrees / 360.0 == -(degrees / 360.0);
  }

  /** The corrected test depends only on the orientation: a full turn or a mirror rotation
      does not change it. */
  lemma TiltedFromUprightIsAnOrientation(degrees: real)
    ensures TiltedFromUpright(degrees + 360.0) == TiltedFromUpright(degrees)
    ensures TiltedFromUpright(-degrees) == TiltedFromUpright(degrees)
  {
    ClampedAngleSymmetric(degrees);
    FullTurn(degrees);
  }

  /** A full turn moves the tilt from upright not at all. */
  lemma FullTurn(degrees: real)
    ensures TiltFromUpright(degrees + 360.0) == TiltFromUpright(degrees)
  {
    var q := degrees / 360.0;
    assert (degrees + 360.0) / 360.0 == q + 1.0;
    if degrees >= 0.0 {
      assert Truncate(q + 1.0) == Truncate(q) + 1;
    } else if degrees <= -360.0 {
      assert Truncate(q + 1.0) == Truncate(q) + 1;
    } else {
      assert Truncate(q + 1.0) == 0 && Truncate(q) == 0;
    }
  }

  /** The test as written tells apart two rotations of the same orientation: at 300
      degrees (60 degrees short of a full turn) the boat counts as upside down, at -60
      degrees it does not. */
  lemma TiltTestDependsOnTurnCount()
    ensures Tilted(300.0) && !Tilted(-60.0)
    ensures !TiltedFromUpright(300.0) && !TiltedFromUpright(-60.0)
  {
    assert Truncate(300.0 / 360.0) == 0;
    assert Truncate(-60.0 / 360.0) == 0;
  }

  /** Every field of a boat, so that a mutator can say which ones it changes. */
  datatype BoatState = BoatState(
    x: real, y: real, angleDegrees: real, upsideDownTimer: real, upsideDown: bool,
    density: real, restitution: real, friction: real, freezeY: bool, freezeToY: real,
    eaten: bool, startingY: real, yToBeEaten: real, deathByKrakenTranslationTimer: real)

  class Boat {
    var x: real
    var y: real
    var angleDegrees: real
    var upsideDownTimer: real
    var upsideDown: bool
    var density: real
    var restitution: real
    var friction: real
    var freezeY: bool
    var freezeToY: real
    var eaten: bool
    var startingY: real
    var yToBeEaten: real
    var deathByKrakenTranslationTimer: real

    ghost function State(): BoatState
      reads this
    {
      BoatState(x, y, angleDegrees, upsideDownTimer, upsideDown, density, restitution, friction,
                freezeY, freezeToY, eaten, startingY, yToBeEaten, deathByKrakenTranslationTimer)
    }

    /** A boat centred at the given point, upright, neither frozen nor eaten. */
    constructor (centerX: real, centerY: real)
      ensures x == centerX && y == centerY && angleDegrees == 0.0
      ensures upsideDownTimer == 0.0 && !upsideDown && !freezeY && !eaten
      ensures density == 0.25 && restitution == 0.3 && friction == 0.25
    {
      x, y, angleDegrees := centerX, centerY, 0.0;
      upsideDownTimer := 0.0;
      upsideDown := false;
      density, restitution, friction := 0.25, 0.3, 0.25;
      freezeY := false;
      freezeToY := 0.0;
      eaten := false;
      startingY, yToBeEaten, deathByKrakenTranslationTimer := 0.0, 0.0, 0.0;
    }

    /** `update`: x is forced to the middle of the view; an eaten boat is dragged along
        `EatenY`, and a frozen y overrides that because it is applied last; the
        upside-down timer and latch take one `LatchStep`. Returns the latch. */
    method Update(deltaTime: real) returns (isUpsideDown: bool)
      modifies this
      ensures x == VIEWPORT_WIDTH / 2.0
      ensures deathByKrakenTranslationTimer
              == if old(eaten) then old(deathByKrakenTranslationTimer) + deltaTime else old(deathByKrakenTranslationTimer)
      ensures y == if old(freezeY) then old(freezeToY)
                   else if old(eaten) then EatenY(old(startingY), old(yToBeEaten), deathByKrakenTranslationTimer)
                   else old(y)
      ensures (upsideDownTimer, upsideDown) == LatchStep(old(upsideDownTimer), old(upsideDown), Tilted(old(angleDegrees)))
      ensures isUpsideDown == upsideDown
      ensures old(upsideDown) ==> upsideDown
      ensures angleDegrees == old(angleDegrees) && freezeY == old(freezeY) && freezeToY == old(freezeToY)
      ensures eaten == old(eaten) && startingY == old(startingY) && yToBeEaten == old(yToBeEaten)
      ensures density == old(density) && restitution == old(restitution) && friction == old(friction)
    {
      x := VIEWPORT_WIDTH / 2.0;

      if eaten {
        deathByKrakenTranslationTimer := deathByKrakenTranslationTimer + deltaTime;
        var eatenY := startingY + ((yToBeEaten - startingY) * (deathByKrakenTranslationTimer / UP_TRANSLATION_ANIMATION_DURATION));
        assert eatenY == EatenY(startingY, yToBeEaten, deathByKrakenTranslationTimer);
        x, y := VIEWPORT_WIDTH / 2.0, eatenY;
      }

      if freezeY {
        x, y := VIEWPORT_WIDTH / 2.0, freezeToY;
      }

      var clampedAngle := ClampedAngle(angleDegrees);
      if clampedAngle >= MAX_ALLOWED_BOAT_ANGLE {
        upsideDownTimer := upsideDownTimer + TIME_STEP;
        if upsideDownTimer >= BOAT_UPSIDE_DOWN_TIMER {
          upsideDown := true;
        }
      } else {
        upsideDownTimer := 0.0;
      }

      return upsideDown;
    }

    function GetDensity(): real
      reads this
    {
      density
    }

    method SetDensity(density: real)
      modifies this
      ensures GetDensity() == density
      ensures State() == old(State()).(density := density)
    {
      this.density := density;
    }

    function GetRestitution(): real
      reads this
    {
      restitution
    }

    method SetRestitution(restitution: real)
      modifies this
      ensures GetRestitution() == restitution
      ensures State() == old(State()).(restitution := restitution)
    {
      this.restitution := restitution;
    }

    function GetFriction(): real
      reads this
    {
      friction
    }

    method SetFriction(friction: real)
      modifies this
      ensures GetFriction() == friction
      ensures State() == old(State()).(friction := friction)
    {
      this.friction := friction;
    }

    function GetX(): real
      reads this
    {
      x
    }

    function IsEaten(): bool
      reads this
    {
      eaten
    }

    /** From now on every `update` holds the boat at `y`. */
    method FreezeY(y: real)
      modifies this
      ensures freezeY && freezeToY == y
      ensures State() == old(State()).(freezeY := true, freezeToY := y)
    {
      freezeY := true;
      freezeToY := y;
    }

    /** Starts the drag towards `yToBeEaten` from the current y. */
    method PrepareToBeEaten(yToBeEaten: real)
      modifies this
      ensures eaten && startingY == old(y) && this.yToBeEaten == yToBeEaten && deathByKrakenTranslationTimer == 0.0
      ensures State() == old(State()).(eaten := true, startingY := old(y), yToBeEaten := yToBeEaten,
                                       deathByKrakenTranslationTimer := 0.0)
    {
      eaten := true;
      startingY := y;
      this.yToBeEaten := yToBeEaten;
      deathByKrakenTranslationTimer := 0.0;
    }

    /** How much bigger the tentacle is drawn while it carries this boat. */
    function GetMealSizeFactor(): (factor: real)
      ensures factor == 1.5
    {
      MEAL_SIZE_FACTOR
    }
  }
}
