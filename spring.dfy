/** One sample point of the water surface (water/Spring.java): a damped oscillator
    whose horizontal position never changes. */
module Springs {

  /** Height and velocity of one spring, the part of its state that moves. */
  datatype Motion = Motion(height: real, velocity: real)

  /** One explicit step of the spring towards `baseLevel`: the velocity is updated
      first, and the height then moves by the NEW velocity. */
  function Settle(m: Motion, stiffness: real, dampening: real, baseLevel: real): Motion
  {
    var acceleration := stiffness * (baseLevel - m.height) - dampening * m.velocity;
    var velocity := m.velocity + acceleration;
    Motion(m.height + velocity, velocity)
  }

  /** `n` successive calls of `Settle` with the same parameters. */
  function SettleTimes(m: Motion, stiffness: real, dampening: real, baseLevel: real, n: nat): Motion
  {
    if n == 0 then m else Settle(SettleTimes(m, stiffness, dampening, baseLevel, n - 1), stiffness, dampening, baseLevel)
  }

  /** A spring at rest on its base level stays there. */
  lemma SettleAtRest(stiffness: real, dampening: real, baseLevel: real)
    ensures Settle(Motion(baseLevel, 0.0), stiffness, dampening, baseLevel) == Motion(baseLevel, 0.0)
  {
  }

  /** Without stiffness and dampening the velocity is kept and the height moves by it. */
  lemma SettleWithoutForces(m: Motion, baseLevel: real)
    ensures Settle(m, 0.0, 0.0, baseLevel) == Motion(m.height + m.velocity, m.velocity)
  {
  }

  /** A spring at rest stays at rest for any number of steps. */
  lemma {:induction false} SettleTimesAtRest(stiffness: real, dampening: real, baseLevel: real, n: nat)
    ensures SettleTimes(Motion(baseLevel, 0.0), stiffness, dampening, baseLevel, n) == Motion(baseLevel, 0.0)
  {
    if n > 0 {
      SettleTimesAtRest(stiffness, dampening, baseLevel, n - 1);
      SettleAtRest(stiffness, dampening, baseLevel);
    }
  }

  /** Without forces, `n` steps move the height by `n` times the velocity. */
  lemma {:induction false} SettleTimesWithoutForces(m: Motion, baseLevel: real, n: nat)
    ensures SettleTimes(m, 0.0, 0.0, baseLevel, n) == Motion(m.height + (n as real) * m.velocity, m.velocity)
  {
    if n > 0 {
      SettleTimesWithoutForces(m, baseLevel, n - 1);
    }
  }

  class Spring {
    /** Horizontal position, fixed at construction. */
    const x: real
    var height: real
    var velocity: real

    /** The velocity keeps Java's field default 0. */
    constructor (x: real, initialHeight: real)
      ensures this.x == x && height == initialHeight && velocity == 0.0
    {
      this.x := x;
      height := initialHeight;
      velocity := 0.0;
    }

    function State(): Motion
      reads this
    {
      Motion(height, velocity)
    }

    method Update(stiffness: real, dampening: real, baseLevel: real)
      modifies this
      ensures State() == Settle(old(State()), stiffness, dampening, baseLevel)
    {
      var heightDelta := baseLevel - height;
      var acceleration := stiffness * heightDelta - dampening * velocity;
      velocity := velocity + acceleration;
      height := height + velocity;
    }

    method AddVelocity(dv: real)
      modifies this
      ensures velocity == old(velocity) + dv && height == old(height)
    {
      velocity := velocity + dv;
    }

    method AddHeight(dh: real)
      modifies this
      ensures height == old(height) + dh && velocity == old(velocity)
    {
      height := height + dh;
    }

    function GetHeight(): real
      reads this
    {
      height
    }

    function GetVelocity(): real
      reads this
    {
      velocity
    }

    function GetX(): real
    {
      x
    }
  }
}
