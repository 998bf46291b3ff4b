/** The frame loop of CoreGame.java: the fixed-timestep accumulator of `doPhysicsStep`
    and `handleInputs`, which forwards the arrow keys to the characters, then handles the
    debug keys and the touch. The subsystems a tick
    updates are recorded as events in the order the loop body calls them. */
module Game {
  import opened Wrappers
  import opened Constants
  import opened Springs
  import opened Water
  import Characters

  /** One call made by the body of the fixed-step loop. */
  datatype TickEvent = CharactersUpdate | WaveEmitterUpdate | SpawnerUpdate | WaterUpdate | WorldStep | BoatUpdate

  /** The calls of one tick, in order. */
  const TICK_ORDER: seq<TickEvent> := [CharactersUpdate, WaveEmitterUpdate, SpawnerUpdate, WaterUpdate, WorldStep, BoatUpdate]

  /** `n` ticks in a row. */
  function Repeat(n: nat): (log: seq<TickEvent>)
    ensures |log| == 6 * n
  {
    if n == 0 then [] else Repeat(n - 1) + TICK_ORDER
  }

  /** Every tick in a run of `n` makes the six calls in the loop's order. */
  lemma {:induction false} RepeatOrder(n: nat, t: nat)
    requires t < n
    ensures Repeat(n)[6 * t..6 * t + 6] == TICK_ORDER
    decreases n
  {
    if t < n - 1 {
      RepeatOrder(n - 1, t);
      assert Repeat(n)[6 * t..6 * t + 6] == Repeat(n - 1)[6 * t..6 * t + 6];
    } else {
      assert Repeat(n)[6 * t..6 * t + 6] == Repeat(n)[|Repeat(n - 1)|..];
    }
  }

  /** `Math.min(deltaTime, MIN_TIME_STEP)`. */
  function FrameTime(deltaTime: real): (f: real)
    ensures f <= MIN_TIME_STEP
    ensures f == deltaTime || f == MIN_TIME_STEP
  {
    if deltaTime < MIN_TIME_STEP then deltaTime else MIN_TIME_STEP
  }

  /** How many whole time steps `total` holds: `floor(total / TIME_STEP)`, and none when
      it is negative. */
  function StepsIn(total: real): (n: nat)
    ensures (n as real) * TIME_STEP <= total || n == 0
    ensures total < ((n + 1) as real) * TIME_STEP
  {
    if total < 0.0 then 0 else (total * 60.0).Floor
  }

  /** With the accumulator below one step, a frame runs at most 15 ticks. */
  lemma AtMostFifteenTicks(accumulator: real, deltaTime: real)
    requires accumulator < TIME_STEP
    ensures StepsIn(accumulator + FrameTime(deltaTime)) <= 15
  {
  }

  /** A frame of at least one step runs at least one tick, and the full clamped frame with an
      empty accumulator runs exactly 15. */
  lemma TickCountExamples(accumulator: real, deltaTime: real)
    requires 0.0 <= accumulator && deltaTime >= TIME_STEP
    ensures StepsIn(accumulator + FrameTime(deltaTime)) >= 1
    ensures StepsIn(0.0 + FrameTime(1.0)) == 15
  {
  }

  /** A switch after a key that toggles it: flipped when the key fired. */
  function Toggled(flag: bool, fired: bool): bool
  {
    if fired then !flag else flag
  }

  datatype Key = F1 | F2 | F3 | F4 | F5 | F6 | F12

  /** A touch at screen column `x` of a window `width` pixels wide. */
  datatype Touch = Touch(x: real, width: real)

  /** The screen x of a touch as a world x: `x / width * VIEWPORT_WIDTH`. */
  function TouchWorldX(t: Touch): (xWorld: real)
    requires t.width > 0.0
    ensures 0.0 <= t.x <= t.width ==> 0.0 <= xWorld <= VIEWPORT_WIDTH
  {
    var xViewportPercent := t.x / t.width;
    xViewportPercent * VIEWPORT_WIDTH
  }

  /** The static debug switches of the game. */
  class DebugFlags {
    var debugMode: bool
    var debugClearColor: bool
    var debugEnableCharacterGeneration: bool
    var debugEnableWaterRendering: bool
    var debugEnableBoatRendering: bool
    var debugEnableWaveGeneration: bool

    /** The initial values of the static fields. */
    constructor ()
      ensures debugMode && !debugClearColor && debugEnableCharacterGeneration
      ensures debugEnableWaterRendering && debugEnableBoatRendering && debugEnableWaveGeneration
    {
      debugMode := true;
      debugClearColor := false;
      debugEnableCharacterGeneration := true;
      debugEnableWaterRendering := true;
      debugEnableBoatRendering := true;
      debugEnableWaveGeneration := true;
    }
  }

  /** A character that has taken the arrow keys: it moves as they ask and its frame is
      mirrored for LEFT and unmirrored for RIGHT. */
  ghost predicate TookKeys(c: Characters.Character, leftPressed: bool, rightPressed: bool)
    reads c
  {
    c.moveState == Characters.KeyMove(leftPressed, rightPressed)
    && (c.moveState == Characters.LEFT ==> c.currentFrameFlipped == Some(true))
    && (c.moveState == Characters.RIGHT ==> c.currentFrameFlipped == Some(false))
  }

  class CoreGame {
    var accumulator: real
    const flags: DebugFlags
    const water: WaterSimulation
    /** The characters of the level, the player's first. */
    var characters: seq<Characters.Character>

    /** The level's water and characters are built by the caller. */
    constructor (flags: DebugFlags, water: WaterSimulation, characters: seq<Characters.Character>)
      ensures this.flags == flags && this.water == water && this.characters == characters && accumulator == 0.0
    {
      this.flags := flags;
      this.water := water;
      this.characters := characters;
      accumulator := 0.0;
    }

    /** `doPhysicsStep`: the clamped frame time is added to the accumulator, one tick runs per
        whole time step in it, and the remainder, below one step, stays. */
    method DoPhysicsStep(deltaTime: real) returns (log: seq<TickEvent>)
      modifies this
      ensures log == Repeat(StepsIn(old(accumulator) + FrameTime(deltaTime)))
      ensures accumulator == old(accumulator) + FrameTime(deltaTime)
                             - (StepsIn(old(accumulator) + FrameTime(deltaTime)) as real) * TIME_STEP
      ensures accumulator < TIME_STEP
      ensures old(accumulator) >= 0.0 && deltaTime >= 0.0 ==> accumulator >= 0.0
    {
      var frameTime := FrameTime(deltaTime);
      accumulator := accumulator + frameTime;
      ghost var total := accumulator;
      ghost var ticks: nat := 0;
      log := [];
      while accumulator >= TIME_STEP
        invariant accumulator == total - (ticks as real) * TIME_STEP
        invariant ticks <= StepsIn(total)
        invariant ticks > 0 ==> accumulator >= 0.0
        invariant log == Repeat(ticks)
        decreases StepsIn(total) - ticks
      {
        log := log + TICK_ORDER;
        accumulator := accumulator - TIME_STEP;
        ticks := ticks + 1;
      }
    }

    /** `handleInputs`: every character first takes the held arrow keys, in list order. A
        character whose frame has never been rendered fails on an arrow key (`completed` is
        false): the characters before it have taken the keys, it is left IDLE, and neither
        the debug keys nor the touch are handled. Otherwise F1 toggles the debug mode; F2
        to F6 toggle their flag and F12 asks for the level to be rebuilt, but only while the
        debug mode (after F1) is on; and a touch is forwarded to the water at its world x. */
    method HandleInputs(leftPressed: bool, rightPressed: bool, justPressed: set<Key>, touch: Option<Touch>)
      returns (completed: bool, resetLevel: bool)
      requires water.Valid()
      requires touch.Some? ==> touch.value.width > 0.0
      modifies flags, water.springs, characters
      ensures completed <==> !(leftPressed || rightPressed)
                             || forall k :: 0 <= k < |characters| ==> old(characters[k].currentFrameFlipped).Some?
      ensures completed ==> forall k :: 0 <= k < |characters| ==> TookKeys(characters[k], leftPressed, rightPressed)
      ensures !(leftPressed || rightPressed) ==>
                forall k :: 0 <= k < |characters| ==> characters[k].currentFrameFlipped == old(characters[k].currentFrameFlipped)
      ensures !completed ==>
                exists i :: 0 <= i < |characters| && old(characters[i].currentFrameFlipped).None?
                            && characters[i].moveState == Characters.IDLE
                            && (forall k :: 0 <= k < i ==> TookKeys(characters[k], leftPressed, rightPressed))
      ensures forall k :: 0 <= k < |characters| ==>
                characters[k].stateTime == old(characters[k].stateTime) && characters[k].colorRow == old(characters[k].colorRow)
                && characters[k].maxXMovementVelocity == old(characters[k].maxXMovementVelocity)
                && characters[k].maxYMovementVelocity == old(characters[k].maxYMovementVelocity)
      ensures flags.debugMode == Toggled(old(flags.debugMode), completed && F1 in justPressed)
      ensures flags.debugEnableWaterRendering == Toggled(old(flags.debugEnableWaterRendering), completed && flags.debugMode && F2 in justPressed)
      ensures flags.debugEnableBoatRendering == Toggled(old(flags.debugEnableBoatRendering), completed && flags.debugMode && F3 in justPressed)
      ensures flags.debugClearColor == Toggled(old(flags.debugClearColor), completed && flags.debugMode && F4 in justPressed)
      ensures flags.debugEnableWaveGeneration == Toggled(old(flags.debugEnableWaveGeneration), completed && flags.debugMode && F5 in justPressed)
      ensures flags.debugEnableCharacterGeneration == Toggled(old(flags.debugEnableCharacterGeneration), completed && flags.debugMode && F6 in justPressed)
      ensures resetLevel == (completed && flags.debugMode && F12 in justPressed)
      ensures water.State() == if !completed then old(water.State()) else
                               match touch
                               case None => old(water.State())
                               case Some(t) =>
                                 match TouchIndex(|water.springs|, water.fromX, water.toX, TouchWorldX(t))
                                 case Some(index) => Disturb(old(water.State()), index, INPUT_DISTURBANCE)
                                 case None => old(water.State())
    {
      completed := ForwardArrowKeys(leftPressed, rightPressed);
      if !completed {
        return false, false;
      }
      resetLevel := HandleDebugKeys(justPressed);
      if touch.Some? {
        var xWorld := TouchWorldX(touch.value);
        water.HandleInput(xWorld);
      }
    }

    /** `characters.forEach(character -> character.handleInputs())`, stopped by the first
        failing character. */
    method ForwardArrowKeys(leftPressed: bool, rightPressed: bool) returns (completed: bool)
      modifies characters
      ensures completed <==> !(leftPressed || rightPressed)
                             || forall k :: 0 <= k < |characters| ==> old(characters[k].currentFrameFlipped).Some?
      ensures completed ==> forall k :: 0 <= k < |characters| ==> TookKeys(characters[k], leftPressed, rightPressed)
      ensures !(leftPressed || rightPressed) ==>
                forall k :: 0 <= k < |characters| ==> characters[k].currentFrameFlipped == old(characters[k].currentFrameFlipped)
      ensures !completed ==>
                exists i :: 0 <= i < |characters| && old(characters[i].currentFrameFlipped).None?
                            && characters[i].moveState == Characters.IDLE
                            && (forall k :: 0 <= k < i ==> TookKeys(characters[k], leftPressed, rightPressed))
      ensures forall k :: 0 <= k < |characters| ==>
                characters[k].stateTime == old(characters[k].stateTime) && characters[k].colorRow == old(characters[k].colorRow)
                && characters[k].maxXMovementVelocity == old(characters[k].maxXMovementVelocity)
                && characters[k].maxYMovementVelocity == old(characters[k].maxYMovementVelocity)
    {
      var i := 0;
      while i < |characters|
        invariant 0 <= i <= |characters|
        invariant leftPressed || rightPressed ==> forall k :: 0 <= k < i ==> old(characters[k].currentFrameFlipped).Some?
        invariant forall k :: 0 <= k < i ==> TookKeys(characters[k], leftPressed, rightPressed)
        invariant !(leftPressed || rightPressed) ==>
                    forall k :: 0 <= k < |characters| ==> characters[k].currentFrameFlipped == old(characters[k].currentFrameFlipped)
        invariant forall k :: 0 <= k < |characters| && characters[k] !in characters[..i] ==>
                    characters[k].currentFrameFlipped == old(characters[k].currentFrameFlipped)
        invariant forall k :: 0 <= k < |characters| ==>
                    characters[k].stateTime == old(characters[k].stateTime) && characters[k].colorRow == old(characters[k].colorRow)
                    && characters[k].maxXMovementVelocity == old(characters[k].maxXMovementVelocity)
                    && characters[k].maxYMovementVelocity == old(characters[k].maxYMovementVelocity)
      {
        var character := characters[i];
        var done := character.HandleInputs(leftPressed, rightPressed);
        if !done {
          return false;
        }
        i := i + 1;
      }
      return true;
    }

    /** The key part of `handleInputs`. */
    method HandleDebugKeys(justPressed: set<Key>) returns (resetLevel: bool)
      modifies flags
      ensures flags.debugMode == Toggled(old(flags.debugMode), F1 in justPressed)
      ensures flags.debugEnableWaterRendering == Toggled(old(flags.debugEnableWaterRendering), flags.debugMode && F2 in justPressed)
      ensures flags.debugEnableBoatRendering == Toggled(old(flags.debugEnableBoatRendering), flags.debugMode && F3 in justPressed)
      ensures flags.debugClearColor == Toggled(old(flags.debugClearColor), flags.debugMode && F4 in justPressed)
      ensures flags.debugEnableWaveGeneration == Toggled(old(flags.debugEnableWaveGeneration), flags.debugMode && F5 in justPressed)
      ensures flags.debugEnableCharacterGeneration == Toggled(old(flags.debugEnableCharacterGeneration), flags.debugMode && F6 in justPressed)
      ensures resetLevel == (flags.debugMode && F12 in justPressed)
    {
      var debugMode, waterRendering, boatRendering, clearColor, waveGeneration, characterGeneration :=
        flags.debugMode, flags.debugEnableWaterRendering, flags.debugEnableBoatRendering,
        flags.debugClearColor, flags.debugEnableWaveGeneration, flags.debugEnableCharacterGeneration;
      resetLevel := false;
      if F1 in justPressed {
        debugMode := !debugMode;
      }
      if debugMode {
        if F2 in justPressed {
          waterRendering := !waterRendering;
        }
        if F3 in justPressed {
          boatRendering := !boatRendering;
        }
        if F4 in justPressed {
          clearColor := !clearColor;
        }
        if F5 in justPressed {
          waveGeneration := !waveGeneration;
        }
        if F6 in justPressed {
          characterGeneration := !characterGeneration;
        }
        if F12 in justPressed {
          resetLevel := true;
        }
      }
      flags.debugMode, flags.debugEnableWaterRendering, flags.debugEnableBoatRendering := debugMode, waterRendering, boatRendering;
      flags.debugClearColor, flags.debugEnableWaveGeneration, flags.debugEnableCharacterGeneration := clearColor, waveGeneration, characterGeneration;
    }
  }
}
