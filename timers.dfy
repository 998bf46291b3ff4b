/** The two fixed-step countdowns of the game: the wave emitter (water/WaveEmitter.java)
    and the AI character spawner (character/CharacterSpawner.java). Each update adds one
    `TIME_STEP` to a timer and fires once the timer reaches the drawn wait; firing resets
    the timer and draws a new wait. The generator's draws are parameters. */
module Timers {
  import opened Wrappers
  import opened Constants
  import opened Randomness
  import opened Ranges
  import opened Springs
  import opened Water
  import opened CharacterResourcesModel

  /** Whether the update that starts with `timer` fires for `wait`. */
  predicate Fires(timer: real, wait: real)
  {
    timer + TIME_STEP >= wait
  }

  /** The timer after `n` updates that did not fire, or `None` once one of them fired. */
  function Quiet(timer: real, wait: real, n: nat): Option<real>
    decreases n
  {
    if n == 0 then Some(timer)
    else if Fires(timer, wait) then None
    else Quiet(timer + TIME_STEP, wait, n - 1)
  }

  /** `n` updates pass without firing exactly when `n` steps added to the timer stay below
      the wait, and the timer then reads `n` steps more. */
  lemma {:induction false} QuietUntilWait(timer: real, wait: real, n: nat)
    ensures Quiet(timer, wait, n) == if n == 0 || timer + (n as real) * TIME_STEP < wait
                                     then Some(timer + (n as real) * TIME_STEP) else None
    decreases n
  {
    if n > 0 && !Fires(timer, wait) {
      QuietUntilWait(timer + TIME_STEP, wait, n - 1);
    }
  }

  /** From a reset timer the first firing is at the update `n` with `(n - 1) / 60 < wait
      <= n / 60`: all earlier updates are quiet and that one fires. */
  lemma FirstFiring(wait: real, n: nat)
    requires n >= 1 && ((n - 1) as real) * TIME_STEP < wait <= (n as real) * TIME_STEP
    ensures Quiet(0.0, wait, n - 1) == Some(((n - 1) as real) * TIME_STEP)
    ensures Fires(((n - 1) as real) * TIME_STEP, wait)
  {
    QuietUntilWait(0.0, wait, n - 1);
  }

  class WaveEmitter {
    const water: WaterSimulation
    const wavePeriodRange: Vector2
    const waveAmplitudeRange: Vector2
    var emitTimer: real
    var nextWaveWaitTime: real
    var nextWaveAmplitude: real

    /** The timer starts at 0 and a wait and an amplitude are drawn from their ranges. */
    constructor (water: WaterSimulation, periodRange: Vector2, amplitudeRange: Vector2, waitUnit: real, amplitudeUnit: real)
      requires 0.0 <= waitUnit < 1.0 && 0.0 <= amplitudeUnit < 1.0
      ensures this.water == water && wavePeriodRange == periodRange && waveAmplitudeRange == amplitudeRange
      ensures emitTimer == 0.0
      ensures nextWaveWaitTime == RandomFloat(periodRange.x, periodRange.y, waitUnit)
      ensures nextWaveAmplitude == RandomFloat(amplitudeRange.x, amplitudeRange.y, amplitudeUnit)
    {
      this.water := water;
      wavePeriodRange := periodRange;
      waveAmplitudeRange := amplitudeRange;
      emitTimer := 0.0;
      nextWaveWaitTime := RandomFloat(periodRange.x, periodRange.y, waitUnit);
      nextWaveAmplitude := RandomFloat(amplitudeRange.x, amplitudeRange.y, amplitudeUnit);
    }

    /** `update`: when the advanced timer reaches the wait, spring 0 is pushed by the drawn
        amplitude, the timer is reset and a new wait and amplitude are drawn; otherwise
        only the timer moves. */
    method Update(waitUnit: real, amplitudeUnit: real)
      requires water.Valid()
      requires 0.0 <= waitUnit < 1.0 && 0.0 <= amplitudeUnit < 1.0
      modifies this, water.springs
      ensures Fires(old(emitTimer), old(nextWaveWaitTime)) ==>
        water.State() == Disturb(old(water.State()), 0, old(nextWaveAmplitude))
        && emitTimer == 0.0
        && nextWaveWaitTime == RandomFloat(wavePeriodRange.x, wavePeriodRange.y, waitUnit)
        && nextWaveAmplitude == RandomFloat(waveAmplitudeRange.x, waveAmplitudeRange.y, amplitudeUnit)
      ensures !Fires(old(emitTimer), old(nextWaveWaitTime)) ==>
        water.State() == old(water.State())
        && emitTimer == old(emitTimer) + TIME_STEP
        && nextWaveWaitTime == old(nextWaveWaitTime) && nextWaveAmplitude == old(nextWaveAmplitude)
    {
      emitTimer := emitTimer + TIME_STEP;
      if emitTimer >= nextWaveWaitTime {
        water.DisturbWater(0, nextWaveAmplitude);
        emitTimer := 0.0;
        nextWaveWaitTime := RandomFloat(wavePeriodRange.x, wavePeriodRange.y, waitUnit);
        nextWaveAmplitude := RandomFloat(waveAmplitudeRange.x, waveAmplitudeRange.y, amplitudeUnit);
      }
    }
  }

  /** A wave pushes the first spring only: the heights stay, and the velocities gain exactly
      the amplitude in total, all of it on spring 0. */
  lemma WavePushesFirstSpring(s: Surface, amplitude: real)
    requires s.WellFormed() && |s.heights| >= 1
    ensures Disturb(s, 0, amplitude).heights == s.heights
    ensures Disturb(s, 0, amplitude).velocities == s.velocities[0 := s.velocities[0] + amplitude]
  {
  }

  /** A call of `CoreGame.spawnCharacter(charIndex, ai, x, y)`. */
  datatype SpawnRequest = SpawnRequest(charIndex: int, aiControlled: bool, x: real, y: real)

  class CharacterSpawner {
    const spawnRangeX: Range
    const spawnRangeY: Range
    const spawnPeriodRange: Range
    var spawnTimer: real
    var nextSpawnWaitTime: real

    constructor (spawnRangeX: Range, spawnRangeY: Range, spawnPeriodRange: Range, waitUnit: real)
      requires 0.0 <= waitUnit < 1.0
      ensures this.spawnRangeX == spawnRangeX && this.spawnRangeY == spawnRangeY && this.spawnPeriodRange == spawnPeriodRange
      ensures spawnTimer == 0.0 && nextSpawnWaitTime == spawnPeriodRange.GetRandom(waitUnit)
    {
      this.spawnRangeX := spawnRangeX;
      this.spawnRangeY := spawnRangeY;
      this.spawnPeriodRange := spawnPeriodRange;
      spawnTimer := 0.0;
      nextSpawnWaitTime := spawnPeriodRange.GetRandom(waitUnit);
    }

    /** `update`: nothing at all while character generation is off; otherwise the timer
        advances and, once it reaches the wait, one AI character of colour 0..3 is requested
        at a point drawn from the two spawn ranges, the timer is reset and a new wait is
        drawn. */
    method Update(generationEnabled: bool, colorOffset: int, unitX: real, unitY: real, waitUnit: real)
      returns (spawn: Option<SpawnRequest>)
      requires 0 <= colorOffset <= PINK - BEIGE
      requires 0.0 <= unitX < 1.0 && 0.0 <= unitY < 1.0 && 0.0 <= waitUnit < 1.0
      modifies this
      ensures !generationEnabled ==> spawn == None && spawnTimer == old(spawnTimer) && nextSpawnWaitTime == old(nextSpawnWaitTime)
      ensures generationEnabled && Fires(old(spawnTimer), old(nextSpawnWaitTime)) ==>
        spawn == Some(SpawnRequest(GetRandomCharacterIndex(colorOffset), true, spawnRangeX.GetRandom(unitX), spawnRangeY.GetRandom(unitY)))
        && spawnTimer == 0.0 && nextSpawnWaitTime == spawnPeriodRange.GetRandom(waitUnit)
      ensures generationEnabled && !Fires(old(spawnTimer), old(nextSpawnWaitTime)) ==>
        spawn == None && spawnTimer == old(spawnTimer) + TIME_STEP && nextSpawnWaitTime == old(nextSpawnWaitTime)
      ensures spawn.Some? ==> BEIGE <= spawn.value.charIndex <= PINK && spawn.value.aiControlled
      ensures spawn.Some? && spawnRangeX.Ordered() ==> spawnRangeX.Contains(spawn.value.x)
      ensures spawn.Some? && spawnRangeY.Ordered() ==> spawnRangeY.Contains(spawn.value.y)
    {
      if !generationEnabled {
        return None;
      }
      spawnTimer := spawnTimer + TIME_STEP;
      spawn := None;
      if spawnTimer >= nextSpawnWaitTime {
        spawnTimer := 0.0;
        var charIndex := GetRandomCharacterIndex(colorOffset);
        spawn := Some(SpawnRequest(charIndex, true, spawnRangeX.GetRandom(unitX), spawnRangeY.GetRandom(unitY)));
        nextSpawnWaitTime := spawnPeriodRange.GetRandom(waitUnit);
      }
    }
  }
}
