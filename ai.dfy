/** The AI move controllers (character/ai/): each AI character asks its controller for a
    move every tick, given the player's x, its own x and whether it touched the boat
    recently. The four controller classes are one class here whose stored type selects the
    behaviour, exactly as `getRandomAiController` pairs each type with the class of the same
    name. The generator's draws and the frame time are parameters. */
module AiControllers {
  import opened Constants
  import opened Randomness
  import opened Characters

  datatype CharacterAiType = Stalker | Darwin | MadRunner | BellyDancer

  /** `CharacterAiType.values()`, in declaration order. */
  const AI_TYPES: seq<CharacterAiType> := [Stalker, Darwin, MadRunner, BellyDancer]

  /** `getRandomType`: the type at a drawn position of `values()`. */
  function GetRandomType(index: int): (aiType: CharacterAiType)
    requires 0 <= index < |AI_TYPES|
    ensures aiType in AI_TYPES
  {
    AI_TYPES[index]
  }

  /** `getRandomDirection`: a draw of 0 gives LEFT, a draw of 1 RIGHT; never IDLE. */
  function GetRandomDirection(coin: int): (direction: MoveState)
    requires 0 <= coin <= 1
    ensures direction != IDLE
    ensures direction == LEFT <==> coin == 0
  {
    if coin == 0 then LEFT else RIGHT
  }

  // The stalker

  const RANDOM_SEEK_AREA: real := 0.5
  const MIN_WAIT_DURATION: real := 0.2
  const MAX_WAIT_DURATION: real := 0.5

  datatype StalkerPhase = RunningToPos | Waiting | ChoosingTargetPosition

  /** Everything a stalker's `computeMoves` reads and writes besides its inputs. */
  datatype Stalking = Stalking(phase: StalkerPhase, direction: MoveState, targetX: real, waitingTimer: real, waitDuration: real)

  /** Whether a stalker running in `direction` has passed its target. */
  predicate Overshot(direction: MoveState, posX: real, targetX: real)
  {
    (direction == RIGHT && posX > targetX) || (direction == LEFT && posX < targetX)
  }

  /** The stalker's `computeMoves`: the move it returns and its state afterwards. `targetUnit`
      and `waitUnit` are the draws for a new target and a new wait. It only moves while
      running to a target it has not passed, and then its state stays as it was; its
      direction is only ever set to LEFT or RIGHT. */
  function StalkerStep(s: Stalking, playerX: real, posX: real, deltaTime: real, targetUnit: real, waitUnit: real): (step: (MoveState, Stalking))
    requires 0.0 <= targetUnit < 1.0 && 0.0 <= waitUnit < 1.0
    ensures step.0 != IDLE ==> s.phase == RunningToPos && !Overshot(s.direction, posX, s.targetX) && step.1 == s
    ensures s.direction != IDLE ==> step.1.direction != IDLE
  {
    match s.phase
    case RunningToPos =>
      if Overshot(s.direction, posX, s.targetX) then
        if Abs(playerX - posX) > RANDOM_SEEK_AREA then (IDLE, s.(phase := ChoosingTargetPosition))
        else (IDLE, s.(phase := Waiting, waitingTimer := 0.0, waitDuration := RandomFloat(MIN_WAIT_DURATION, MAX_WAIT_DURATION, waitUnit)))
      else if s.targetX > posX then (RIGHT, s)
      else (LEFT, s)
    case Waiting =>
      var timer := s.waitingTimer + deltaTime;
      (IDLE, s.(waitingTimer := timer, phase := if timer >= s.waitDuration then ChoosingTargetPosition else Waiting))
    case ChoosingTargetPosition =>
      var targetX := RandomFloat(playerX - RANDOM_SEEK_AREA, playerX + RANDOM_SEEK_AREA, targetUnit);
      (IDLE, s.(targetX := targetX, direction := if targetX > posX then RIGHT else LEFT, phase := RunningToPos))
  }

  function Abs(x: real): real
  {
    if x < 0.0 then -x else x
  }

  /** Choosing a target: no move yet; the target is drawn within 0.5 of the player, the
      stalker turns towards it and starts running. */
  lemma StalkerChoosesNearThePlayer(s: Stalking, playerX: real, posX: real, deltaTime: real, targetUnit: real, waitUnit: real)
    requires 0.0 <= targetUnit < 1.0 && 0.0 <= waitUnit < 1.0
    requires s.phase == ChoosingTargetPosition
    ensures var (move, next) := StalkerStep(s, playerX, posX, deltaTime, targetUnit, waitUnit);
      move == IDLE && next.phase == RunningToPos
      && playerX - RANDOM_SEEK_AREA <= next.targetX < playerX + RANDOM_SEEK_AREA
      && (next.direction == RIGHT <==> next.targetX > posX) && next.direction != IDLE
  {
  }

  /** Running without having passed the target: the move heads for the target, and
      nothing changes. */
  lemma StalkerRunsToTheTarget(s: Stalking, playerX: real, posX: real, deltaTime: real, targetUnit: real, waitUnit: real)
    requires 0.0 <= targetUnit < 1.0 && 0.0 <= waitUnit < 1.0
    requires s.phase == RunningToPos && !Overshot(s.direction, posX, s.targetX)
    ensures var (move, next) := StalkerStep(s, playerX, posX, deltaTime, targetUnit, waitUnit);
      next == s && move != IDLE && (move == RIGHT <==> s.targetX > posX)
  {
  }

  /** Past the target: the stalker stops; it waits 0.2 to 0.5 seconds when the player is
      within 0.5, and otherwise chooses a new target at once. */
  lemma StalkerStopsPastTheTarget(s: Stalking, playerX: real, posX: real, deltaTime: real, targetUnit: real, waitUnit: real)
    requires 0.0 <= targetUnit < 1.0 && 0.0 <= waitUnit < 1.0
    requires s.phase == RunningToPos && Overshot(s.direction, posX, s.targetX)
    ensures var (move, next) := StalkerStep(s, playerX, posX, deltaTime, targetUnit, waitUnit);
      move == IDLE && next.direction == s.direction && next.targetX == s.targetX
      && (next.phase == Waiting <==> -RANDOM_SEEK_AREA <= playerX - posX <= RANDOM_SEEK_AREA)
      && (next.phase == Waiting ==> next.waitingTimer == 0.0 && MIN_WAIT_DURATION <= next.waitDuration < MAX_WAIT_DURATION)
      && (next.phase != Waiting ==> next.phase == ChoosingTargetPosition)
  {
  }

  /** Waiting: no move; the timer grows by the frame time and the wait ends once it
      reaches the drawn duration. */
  lemma StalkerWaits(s: Stalking, playerX: real, posX: real, deltaTime: real, targetUnit: real, waitUnit: real)
    requires 0.0 <= targetUnit < 1.0 && 0.0 <= waitUnit < 1.0
    requires s.phase == Waiting
    ensures var (move, next) := StalkerStep(s, playerX, posX, deltaTime, targetUnit, waitUnit);
      move == IDLE && next.waitingTimer == s.waitingTimer + deltaTime
      && (next.phase == ChoosingTargetPosition <==> s.waitingTimer + deltaTime >= s.waitDuration)
      && (next.phase != ChoosingTargetPosition ==> next.phase == Waiting)
      && next.direction == s.direction && next.targetX == s.targetX
  {
  }

  /** A freshly chosen target is run towards: asked again from the same x, the stalker
      moves in the direction it just chose. */
  lemma StalkerHeadsForANewTarget(s: Stalking, playerX: real, posX: real, deltaTime: real, targetUnit: real, waitUnit: real,
                                  playerX2: real, deltaTime2: real, targetUnit2: real, waitUnit2: real)
    requires 0.0 <= targetUnit < 1.0 && 0.0 <= waitUnit < 1.0
    requires 0.0 <= targetUnit2 < 1.0 && 0.0 <= waitUnit2 < 1.0
    requires s.phase == ChoosingTargetPosition
    ensures var next := StalkerStep(s, playerX, posX, deltaTime, targetUnit, waitUnit).1;
      StalkerStep(next, playerX2, posX, deltaTime2, targetUnit2, waitUnit2).0 == next.direction
  {
    var next := StalkerStep(s, playerX, posX, deltaTime, targetUnit, waitUnit).1;
    assert !Overshot(next.direction, posX, next.targetX);
  }

  // The mad runner

  const BOAT_PADDING: real := 0.7

  /** Past this x a mad runner going right turns back. */
  const RIGHT_TURN_X: real := VIEWPORT_WIDTH / 2.0 + BOAT_WIDTH / 2.0 - BOAT_PADDING

  /** Before this x a mad runner going left turns back. */
  const LEFT_TURN_X: real := VIEWPORT_WIDTH / 2.0 - BOAT_WIDTH / 2.0 + BOAT_PADDING

  /** The mad runner's `computeMoves`: the move and the direction afterwards. Off the boat
      it stands still and keeps its direction; on it, it runs in its direction and turns
      back, at most once per call, only past the turning point ahead of it. The turning
      points lie well inside each other, so between them it keeps going. */
  function MadRunnerStep(direction: MoveState, posX: real, touchedBoatRecently: bool): (step: (MoveState, MoveState))
    ensures !touchedBoatRecently ==> step.0 == IDLE && step.1 == direction
    ensures touchedBoatRecently ==> step.0 == step.1
    ensures touchedBoatRecently && direction == RIGHT ==> (step.1 == LEFT <==> posX > RIGHT_TURN_X)
    ensures touchedBoatRecently && direction == LEFT ==> (step.1 == RIGHT <==> posX < LEFT_TURN_X)
    ensures touchedBoatRecently && LEFT_TURN_X <= posX <= RIGHT_TURN_X ==> step.1 == direction
    ensures direction != IDLE ==> step.1 != IDLE
    ensures direction == IDLE ==> step.1 == IDLE
  {
    if touchedBoatRecently then
      var turned :=
        if direction == RIGHT && posX > RIGHT_TURN_X then LEFT
        else if direction == LEFT && posX < LEFT_TURN_X then RIGHT
        else direction;
      (turned, turned)
    else (IDLE, direction)
  }

  // Darwin

  /** Darwin's `computeMoves`: it runs in its direction while on the boat and stands still
      otherwise; it never turns. */
  function DarwinMove(direction: MoveState, touchedBoatRecently: bool): (move: MoveState)
    ensures touchedBoatRecently ==> move == direction
    ensures !touchedBoatRecently ==> move == IDLE
  {
    if touchedBoatRecently then direction else IDLE
  }

  /** The belly dancer's `computeMoves`: not implemented, it always stands still. */
  function BellyDancerMove(): (move: MoveState)
    ensures move == IDLE
  {
    IDLE
  }

  class AiController {
    const aiType: CharacterAiType
    var currentDirection: MoveState
    // The stalker's own fields.
    var state: StalkerPhase
    var targetX: real
    var waitingTimer: real
    var waitDuration: real

    ghost predicate Valid()
      reads this
    {
      currentDirection != IDLE
    }

    function Stalk(): Stalking
      reads this
    {
      Stalking(state, currentDirection, targetX, waitingTimer, waitDuration)
    }

    /** The type is stored for good and the direction drawn; a stalker starts by choosing a
        target. */
    constructor (aiType: CharacterAiType, coin: int)
      requires 0 <= coin <= 1
      ensures this.aiType == aiType && currentDirection == GetRandomDirection(coin) && Valid()
      ensures state == ChoosingTargetPosition && targetX == 0.0 && waitingTimer == 0.0 && waitDuration == 0.0
    {
      this.aiType := aiType;
      currentDirection := GetRandomDirection(coin);
      state := ChoosingTargetPosition;
      targetX := 0.0;
      waitingTimer := 0.0;
      waitDuration := 0.0;
    }

    /** `getType`. */
    function GetType(): (aiType: CharacterAiType)
      ensures aiType == this.aiType
    {
      this.aiType
    }

    /** `computeMoves` of the controller class of the stored type. Only the stalker uses the
        frame time and the player's x, and only it and the mad runner change state; the
        touch flag means nothing to the stalker. */
    method ComputeMoves(playerX: real, posX: real, touchedBoatRecently: bool, deltaTime: real, targetUnit: real, waitUnit: real)
      returns (moveState: MoveState)
      requires Valid()
      requires 0.0 <= targetUnit < 1.0 && 0.0 <= waitUnit < 1.0
      modifies this
      ensures Valid()
      ensures aiType == Stalker ==>
        (moveState, Stalk()) == StalkerStep(old(Stalk()), playerX, posX, deltaTime, targetUnit, waitUnit)
      ensures aiType == MadRunner ==>
        (moveState, currentDirection) == MadRunnerStep(old(currentDirection), posX, touchedBoatRecently)
      ensures aiType == Darwin ==> moveState == DarwinMove(currentDirection, touchedBoatRecently)
      ensures aiType == BellyDancer ==> moveState == BellyDancerMove()
      ensures aiType != Stalker ==> Stalk().(direction := old(currentDirection)) == old(Stalk())
      ensures aiType != MadRunner && aiType != Stalker ==> currentDirection == old(currentDirection)
    {
      match aiType {
        case Stalker =>
          moveState := IDLE;
          match state {
            case RunningToPos =>
              if (currentDirection == RIGHT && posX > targetX) || (currentDirection == LEFT && posX < targetX) {
                moveState := IDLE;
                if Abs(playerX - posX) > RANDOM_SEEK_AREA {
                  state := ChoosingTargetPosition;
                } else {
                  state := Waiting;
                  waitingTimer := 0.0;
                  waitDuration := RandomFloat(MIN_WAIT_DURATION, MAX_WAIT_DURATION, waitUnit);
                }
              } else {
                if targetX > posX {
                  moveState := RIGHT;
                } else {
                  moveState := LEFT;
                }
              }
            case Waiting =>
              moveState := IDLE;
              waitingTimer := waitingTimer + deltaTime;
              if waitingTimer >= waitDuration {
                state := ChoosingTargetPosition;
              }
            case ChoosingTargetPosition =>
              targetX := RandomFloat(playerX - RANDOM_SEEK_AREA, playerX + RANDOM_SEEK_AREA, targetUnit);
              if targetX > posX {
                currentDirection := RIGHT;
              } else {
                currentDirection := LEFT;
              }
              state := RunningToPos;
          }
        case MadRunner =>
          moveState := IDLE;
          if touchedBoatRecently {
            if currentDirection == RIGHT {
              if posX > RIGHT_TURN_X {
                currentDirection := LEFT;
              }
            } else if currentDirection == LEFT {
              if posX < LEFT_TURN_X {
                currentDirection := RIGHT;
              }
            }
            moveState := currentDirection;
          }
        case Darwin =>
          moveState := IDLE;
          if touchedBoatRecently {
            moveState := currentDirection;
          }
        case BellyDancer =>
          moveState := IDLE;
      }
    }
  }

  /** `getRandomAiController`: a controller of the drawn type, moving in a drawn direction. */
  method GetRandomAiController(typeIndex: int, coin: int) returns (controller: AiController)
    requires 0 <= typeIndex < |AI_TYPES| && 0 <= coin <= 1
    ensures fresh(controller) && controller.Valid()
    ensures controller.GetType() == GetRandomType(typeIndex)
    ensures controller.state == ChoosingTargetPosition
  {
    var aiType := GetRandomType(typeIndex);
    match aiType {
      case Stalker => controller := new AiController(aiType, coin);
      case Darwin => controller := new AiController(aiType, coin);
      case MadRunner => controller := new AiController(aiType, coin);
      case BellyDancer => controller := new AiController(aiType, coin);
    }
  }
}
