/** A character on the boat (character/Character.java): the arrow keys choose a move
    state and face the sprite, and the per-tick update asks the physics body for the
    horizontal impulse that brings its x velocity to the move's speed. The body is reduced
    to its mass and x velocity, and the keyboard to two booleans. */
module Characters {
  import opened Wrappers
  import opened Constants

  datatype MoveState = RIGHT | IDLE | LEFT

  /** The x velocity a move asks for: the full speed to the right or to the left, or none. */
  function DesiredVelocity(moveState: MoveState, maxVelocity: real): (v: real)
    requires maxVelocity >= 0.0
    ensures moveState == RIGHT ==> v == maxVelocity
    ensures moveState == LEFT ==> v == -maxVelocity
    ensures moveState == IDLE ==> v == 0.0
    ensures -maxVelocity <= v <= maxVelocity
  {
    match moveState
    case RIGHT => maxVelocity
    case LEFT => -maxVelocity
    case IDLE => 0.0
  }

  /** The impulse `update` applies: the mass times the missing x velocity, and nothing
      vertically. */
  function Impulse(mass: real, velocityX: real, desiredVelocityX: real): Vector2
  {
    Vector2(mass * (desiredVelocityX - velocityX), 0.0)
  }

  /** An impulse changes a body's velocity by impulse / mass, so the one of `update` lands
      the body exactly on the desired x velocity and leaves its y velocity alone. */
  lemma ImpulseReachesDesiredVelocity(mass: real, velocityX: real, velocityY: real, desiredVelocityX: real)
    requires mass > 0.0
    ensures var impulse := Impulse(mass, velocityX, desiredVelocityX);
      velocityX + impulse.x / mass == desiredVelocityX && velocityY + impulse.y / mass == velocityY
  {
    var impulse := Impulse(mass, velocityX, desiredVelocityX);
    assert impulse.x / mass == desiredVelocityX - velocityX;
  }

  /** The move the arrow keys ask for: RIGHT wins over LEFT, and no key means IDLE. */
  function KeyMove(leftPressed: bool, rightPressed: bool): (move: MoveState)
    ensures move == IDLE <==> !leftPressed && !rightPressed
    ensures rightPressed ==> move == RIGHT
    ensures move == LEFT <==> leftPressed && !rightPressed
  {
    if rightPressed then RIGHT else if leftPressed then LEFT else IDLE
  }

  class Character {
    var colorRow: int
    var moveState: MoveState
    var stateTime: real
    /** Whether the current animation frame is mirrored; `None` before the first frame
        is drawn. */
    var currentFrameFlipped: Option<bool>
    var maxXMovementVelocity: real
    var maxYMovementVelocity: real

    /** A new character stands still, with no frame drawn yet. */
    constructor (colorRow: int)
      ensures this.colorRow == colorRow && moveState == IDLE && stateTime == 0.0
      ensures currentFrameFlipped == None
      ensures maxXMovementVelocity == 5.0 && maxYMovementVelocity == 2.0
    {
      this.colorRow := colorRow;
      moveState := IDLE;
      stateTime := 0.0;
      currentFrameFlipped := None;
      maxXMovementVelocity := 5.0;
      maxYMovementVelocity := 2.0;
    }

    /** The state changes of `render`: the animation clock gains the frame time and the
        frame becomes the animation's key frame for the new time. `regionFlipped` says
        whether that key frame is mirrored already (the regions are shared by every
        character of the colour and keep their flip); a mirrored previous frame mirrors the
        new one too. After a render there is always a frame. */
    method RenderFrame(deltaTime: real, regionFlipped: bool)
      modifies this
      ensures stateTime == old(stateTime) + deltaTime
      ensures currentFrameFlipped == Some(old(currentFrameFlipped) == Some(true) || regionFlipped)
      ensures old(currentFrameFlipped) == Some(true) ==> currentFrameFlipped == Some(true)
      ensures colorRow == old(colorRow) && moveState == old(moveState)
      ensures maxXMovementVelocity == old(maxXMovementVelocity) && maxYMovementVelocity == old(maxYMovementVelocity)
    {
      stateTime := stateTime + deltaTime;
      var isFlipped := false;
      if currentFrameFlipped.Some? {
        isFlipped := currentFrameFlipped.value;
      }
      var frameFlipped := regionFlipped;
      if isFlipped && !frameFlipped {
        frameFlipped := true;
      }
      currentFrameFlipped := Some(frameFlipped);
    }

    /** `handleInputs`: no arrow key means IDLE; LEFT mirrors the frame and moves left;
        RIGHT, checked last, wins over LEFT, unmirrors the frame and moves right. Either key
        reads the frame that only a render draws: before the first render a pressed key
        fails (`completed` is false) after the move has been reset to IDLE. */
    method HandleInputs(leftPressed: bool, rightPressed: bool) returns (completed: bool)
      modifies this
      ensures completed <==> !(leftPressed || rightPressed) || old(currentFrameFlipped).Some?
      ensures !completed ==> moveState == IDLE && currentFrameFlipped == None
      ensures completed ==> moveState == KeyMove(leftPressed, rightPressed)
      ensures completed && moveState == LEFT ==> currentFrameFlipped == Some(true)
      ensures completed && moveState == RIGHT ==> currentFrameFlipped == Some(false)
      ensures moveState == IDLE ==> currentFrameFlipped == old(currentFrameFlipped)
      ensures colorRow == old(colorRow) && stateTime == old(stateTime)
      ensures maxXMovementVelocity == old(maxXMovementVelocity) && maxYMovementVelocity == old(maxYMovementVelocity)
    {
      moveState := IDLE;
      if leftPressed {
        if currentFrameFlipped.None? {
          return false;
        }
        if !currentFrameFlipped.value {
          currentFrameFlipped := Some(true);
        }
        moveState := LEFT;
      }
      if rightPressed {
        if currentFrameFlipped.None? {
          return false;
        }
        if currentFrameFlipped.value {
          currentFrameFlipped := Some(false);
        }
        moveState := RIGHT;
      }
      completed := true;
    }

    /** `update`: the impulse asked of a body of the given mass moving at `velocityX`;
        with a positive mass it brings the body to the move's speed. */
    method Update(mass: real, velocityX: real) returns (impulse: Vector2)
      requires maxXMovementVelocity >= 0.0
      ensures impulse.y == 0.0
      ensures impulse == Impulse(mass, velocityX, DesiredVelocity(moveState, maxXMovementVelocity))
      ensures mass > 0.0 ==> velocityX + impulse.x / mass == DesiredVelocity(moveState, maxXMovementVelocity)
    {
      var desiredVelX := 0.0;
      match moveState {
        case RIGHT => desiredVelX := maxXMovementVelocity;
        case LEFT => desiredVelX := -maxXMovementVelocity;
        case IDLE => desiredVelX := 0.0;
      }
      var deltaVelX := desiredVelX - velocityX;
      var impulseX := mass * deltaVelX;
      impulse := Vector2(impulseX, 0.0);
      if mass > 0.0 {
        ImpulseReachesDesiredVelocity(mass, velocityX, 0.0, desiredVelX);
      }
    }
  }
}
