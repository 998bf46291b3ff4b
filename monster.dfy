/** The kraken (monster/Monster.java): `eat` grabs an idle meal, and each `render` moves
    the tentacle through the cycle IDLE, UP_TRANSLATION, ANIMATION, DOWN_TRANSLATION and
    back to IDLE. The frame time is a parameter; the only meal in the game is the boat. */
module Monsters {
  import opened JavaMath
  import opened Boats

  datatype AnimationState = IDLE | UP_TRANSLATION | ANIMATION | DOWN_TRANSLATION

  const DOWN_TRANSLATION_ANIMATION_DURATION: real := 2.0
  const TENTACLE_WIDTH: real := 4.0
  const TENTACLE_HEIGHT: real := 5.0
  const TENTACLE_HIGH_POSITION_Y: real := -1.0
  const TENTACLE_LOW_POSITION_Y: real := -TENTACLE_HEIGHT
  const TENTACLE_GRAB_Y_FACTOR: real := 0.85

  /** The tentacle animation: 7 frames of 0.175 seconds, played once. */
  const FRAME_COLS: int := 7
  const FRAME_DURATION: real := 0.175

  /** The state that follows `s` in the cycle. */
  function Successor(s: AnimationState): AnimationState
  {
    match s
    case IDLE => UP_TRANSLATION
    case UP_TRANSLATION => ANIMATION
    case ANIMATION => DOWN_TRANSLATION
    case DOWN_TRANSLATION => IDLE
  }

  /** libGDX's `isAnimationFinished` for a non-looping animation: the frame number
      `(int) (time / frameDuration)` is past the last frame. */
  function AnimationFinished(time: real): bool
  {
    Truncate(time / FRAME_DURATION) > FRAME_COLS - 1
  }

  /** The animation is over exactly once its 7 frames, 1.225 seconds, have played. */
  lemma AnimationFinishedAfterSevenFrames(time: real)
    ensures AnimationFinished(time) <==> time >= 7.0 * FRAME_DURATION
  {
    var q := time / FRAME_DURATION;
    assert time == q * FRAME_DURATION;
  }

  /** The y of the rising tentacle `time` seconds into UP_TRANSLATION. */
  function RisingY(time: real): real
  {
    TENTACLE_LOW_POSITION_Y + time * (TENTACLE_HIGH_POSITION_Y - TENTACLE_LOW_POSITION_Y) / UP_TRANSLATION_ANIMATION_DURATION
  }

  /** The y of the sinking tentacle `time` seconds into DOWN_TRANSLATION, for a meal of the
      given size factor. */
  function SinkingY(time: real, mealSizeFactor: real): real
  {
    TENTACLE_HIGH_POSITION_Y + time * (mealSizeFactor * TENTACLE_LOW_POSITION_Y - TENTACLE_HIGH_POSITION_Y) / DOWN_TRANSLATION_ANIMATION_DURATION
  }

  /** The tentacle rises from -5 to -1 over the two seconds of UP_TRANSLATION, and sinks
      from -1 to `-5 * factor` over DOWN_TRANSLATION. */
  lemma TentacleTravel(mealSizeFactor: real)
    ensures RisingY(0.0) == TENTACLE_LOW_POSITION_Y && RisingY(UP_TRANSLATION_ANIMATION_DURATION) == TENTACLE_HIGH_POSITION_Y
    ensures SinkingY(0.0, mealSizeFactor) == TENTACLE_HIGH_POSITION_Y
    ensures SinkingY(DOWN_TRANSLATION_ANIMATION_DURATION, mealSizeFactor) == mealSizeFactor * TENTACLE_LOW_POSITION_Y
  {
  }

  /** The part of the monster a frame changes. */
  datatype Tentacle = Tentacle(state: AnimationState, animationTime: real, yTentacle: real)

  /** The state changes of one `render` with frame time `dt`: the switch on the state, then
      one more `dt` on the animation time. */
  function Render(k: Tentacle, mealSizeFactor: real, dt: real): Tentacle
  {
    var t := k.animationTime + dt;
    var afterSwitch :=
      match k.state
      case IDLE => k
      case UP_TRANSLATION =>
        if t >= UP_TRANSLATION_ANIMATION_DURATION then Tentacle(ANIMATION, 0.0, RisingY(t))
        else Tentacle(UP_TRANSLATION, t, RisingY(t))
      case ANIMATION =>
        if AnimationFinished(t) then Tentacle(DOWN_TRANSLATION, 0.0, k.yTentacle)
        else Tentacle(ANIMATION, t, k.yTentacle)
      case DOWN_TRANSLATION =>
        if t >= DOWN_TRANSLATION_ANIMATION_DURATION then Tentacle(IDLE, 0.0, SinkingY(t, mealSizeFactor))
        else Tentacle(DOWN_TRANSLATION, t, SinkingY(t, mealSizeFactor));
    afterSwitch.(animationTime := afterSwitch.animationTime + dt)
  }

  /** A render keeps the state or moves it one step along the cycle, never out of IDLE; a
      step restarts the animation time, which then holds just this frame's `dt`. Every frame
      adds `dt` at least once. */
  lemma RenderFollowsCycle(k: Tentacle, mealSizeFactor: real, dt: real)
    ensures var r := Render(k, mealSizeFactor, dt);
      (r.state == k.state || (k.state != IDLE && r.state == Successor(k.state)))
      && (k.state == IDLE ==> r == k.(animationTime := k.animationTime + dt))
      && (r.state != k.state ==> r.animationTime == dt)
      && (r.state == k.state && k.state != IDLE ==> r.animationTime == k.animationTime + 2.0 * dt)
  {
  }

  /** The rising phase ends on time: each render that keeps it rising adds `2 * dt`, and the
      test sees one more `dt`, so the `n`-th render fires once `a + (2n - 1) dt >= 2`. */
  lemma {:induction false} RiseEnds(k: Tentacle, mealSizeFactor: real, dt: real, n: nat)
    requires k.state == UP_TRANSLATION && n >= 1
    requires k.animationTime + ((2 * n - 1) as real) * dt >= UP_TRANSLATION_ANIMATION_DURATION
    ensures RenderRun(k, mealSizeFactor, dt, n).state != UP_TRANSLATION
    decreases n
  {
    var r := Render(k, mealSizeFactor, dt);
    if r.state == UP_TRANSLATION {
      assert n > 1;
      assert r.animationTime == k.animationTime + 2.0 * dt;
      assert r.animationTime + ((2 * (n - 1) - 1) as real) * dt == k.animationTime + ((2 * n - 1) as real) * dt;
      RiseEnds(r, mealSizeFactor, dt, n - 1);
    } else {
      AfterRiseNotRising(r, mealSizeFactor, dt, n - 1);
    }
  }

  /** `n` renders in a row with the same frame time and meal. */
  function RenderRun(k: Tentacle, mealSizeFactor: real, dt: real, n: nat): Tentacle
    decreases n
  {
    if n == 0 then k else RenderRun(Render(k, mealSizeFactor, dt), mealSizeFactor, dt, n - 1)
  }

  /** Past UP_TRANSLATION, no run of frames brings the tentacle back up without going
      through IDLE... */
  lemma {:induction false} AfterRiseNotRising(k: Tentacle, mealSizeFactor: real, dt: real, n: nat)
    requires k.state != UP_TRANSLATION && k.state != IDLE
    ensures RenderRun(k, mealSizeFactor, dt, n).state != UP_TRANSLATION
    decreases n
  {
    if n > 0 {
      var r := Render(k, mealSizeFactor, dt);
      if r.state == IDLE {
        IdleStaysIdle(r, mealSizeFactor, dt, n - 1);
      } else {
        AfterRiseNotRising(r, mealSizeFactor, dt, n - 1);
      }
    }
  }

  /** ... and once IDLE, rendering alone keeps it IDLE: only `eat` starts a cycle. */
  lemma {:induction false} IdleStaysIdle(k: Tentacle, mealSizeFactor: real, dt: real, n: nat)
    requires k.state == IDLE
    ensures RenderRun(k, mealSizeFactor, dt, n).state == IDLE
    decreases n
  {
    if n > 0 {
      IdleStaysIdle(Render(k, mealSizeFactor, dt), mealSizeFactor, dt, n - 1);
    }
  }

  class Monster {
    var state: AnimationState
    var animationTime: real
    var xTentacle: real
    var yTentacle: real
    var currentMeal: Boat?
    var mealSizeFactor: real

    /** A meal is held whenever the tentacle is out. */
    ghost predicate Valid()
      reads this
    {
      state != IDLE ==> currentMeal != null
    }

    ghost function Snapshot(): Tentacle
      reads this
    {
      Tentacle(state, animationTime, yTentacle)
    }

    constructor ()
      ensures Valid() && state == IDLE && animationTime == 0.0 && yTentacle == TENTACLE_HIGH_POSITION_Y
      ensures currentMeal == null
    {
      state := IDLE;
      animationTime := 0.0;
      xTentacle := 0.0;
      yTentacle := TENTACLE_HIGH_POSITION_Y;
      currentMeal := null;
      mealSizeFactor := 0.0;
    }

    /** `eat`: refused (false, nothing changes) unless IDLE; otherwise the meal is stored and
        told to sink to 0.85 * 5 - 1, and the tentacle starts rising from -5 under it. */
    method Eat(eatable: Boat) returns (eaten: bool)
      requires Valid()
      modifies this, eatable
      ensures Valid()
      ensures eaten <==> old(state) == IDLE
      ensures !eaten ==> state == old(state) && animationTime == old(animationTime) && xTentacle == old(xTentacle)
                         && yTentacle == old(yTentacle) && currentMeal == old(currentMeal)
                         && mealSizeFactor == old(mealSizeFactor)
                         && eatable.State() == old(eatable.State())
      ensures eaten ==> currentMeal == eatable && mealSizeFactor == MEAL_SIZE_FACTOR
                        && state == UP_TRANSLATION && animationTime == 0.0
                        && xTentacle == old(eatable.x) - MEAL_SIZE_FACTOR * TENTACLE_WIDTH / 2.0
                        && yTentacle == -TENTACLE_HEIGHT
      ensures eaten ==> eatable.State() == old(eatable.State()).(
                          eaten := true, startingY := old(eatable.y),
                          yToBeEaten := TENTACLE_GRAB_Y_FACTOR * TENTACLE_HEIGHT + TENTACLE_HIGH_POSITION_Y,
                          deathByKrakenTranslationTimer := 0.0)
    {
      if state != IDLE {
        return false;
      }
      currentMeal := eatable;
      mealSizeFactor := eatable.GetMealSizeFactor();
      eatable.PrepareToBeEaten(TENTACLE_GRAB_Y_FACTOR * TENTACLE_HEIGHT + TENTACLE_HIGH_POSITION_Y);
      state := UP_TRANSLATION;
      xTentacle := eatable.GetX() - mealSizeFactor * TENTACLE_WIDTH / 2.0;
      yTentacle := -TENTACLE_HEIGHT;
      animationTime := 0.0;
      return true;
    }

    /** The state changes of `render`: the tentacle follows `Render`, and while it sinks the
        meal is frozen just above it. */
    method RenderFrame(deltaTime: real)
      requires Valid()
      modifies this, currentMeal
      ensures Valid()
      ensures Snapshot() == Render(old(Snapshot()), mealSizeFactor, deltaTime)
      ensures currentMeal == old(currentMeal) && mealSizeFactor == old(mealSizeFactor) && xTentacle == old(xTentacle)
      ensures old(state) == DOWN_TRANSLATION ==>
        currentMeal.State() == old(currentMeal.State()).(
          freezeY := true,
          freezeToY := SinkingY(old(animationTime) + deltaTime, mealSizeFactor) + TENTACLE_HEIGHT * TENTACLE_GRAB_Y_FACTOR)
      ensures old(state) != DOWN_TRANSLATION && currentMeal != null ==> currentMeal.State() == old(currentMeal.State())
    {
      match state {
        case IDLE =>
        case UP_TRANSLATION =>
          animationTime := animationTime + deltaTime;
          yTentacle := RisingY(animationTime);
          if animationTime >= UP_TRANSLATION_ANIMATION_DURATION {
            state := ANIMATION;
            animationTime := 0.0;
          }
        case ANIMATION =>
          animationTime := animationTime + deltaTime;
          if AnimationFinished(animationTime) {
            state := DOWN_TRANSLATION;
            animationTime := 0.0;
          }
        case DOWN_TRANSLATION =>
          animationTime := animationTime + deltaTime;
          yTentacle := SinkingY(animationTime, mealSizeFactor);
          currentMeal.FreezeY(yTentacle + TENTACLE_HEIGHT * TENTACLE_GRAB_Y_FACTOR);
          if animationTime >= DOWN_TRANSLATION_ANIMATION_DURATION {
            state := IDLE;
            animationTime := 0.0;
          }
      }
      animationTime := animationTime + deltaTime;
    }
  }
}
