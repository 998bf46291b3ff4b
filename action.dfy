/** The character animations (character/Action.java): each action plays a fixed list of
    columns of the character's row of the sprite sheet. */
module Actions {

  datatype Action = IDLE | CLIMB | JUMP | SWIM | WALK

  /** `Action.values()`, in declaration order. */
  const ACTION_VALUES: seq<Action> := [IDLE, CLIMB, JUMP, SWIM, WALK]

  /** The sprite-sheet columns an action plays, in order. */
  function Frames(action: Action): seq<int>
  {
    match action
    case IDLE => [3]
    case CLIMB => [0, 1]
    case JUMP => [6, 5, 2]
    case SWIM => [7, 8]
    case WALK => [9, 10]
  }

  function GetFramesCount(action: Action): (count: int)
    ensures 1 <= count <= 3
    ensures count == |Frames(action)|
  {
    |Frames(action)|
  }

  /** The column of frame `index`; Java's array access demands an index in range. */
  function GetFrame(action: Action, index: int): (frame: int)
    requires 0 <= index < GetFramesCount(action)
    ensures 0 <= frame <= 10 && frame != 4
    ensures frame in Frames(action)
  {
    Frames(action)[index]
  }

  /** The columns of every action, in `values()` order. */
  function AllFrames(): seq<int>
  {
    Frames(IDLE) + Frames(CLIMB) + Frames(JUMP) + Frames(SWIM) + Frames(WALK)
  }

  /** The actions split the columns 0 to 10 except 4 between them: each such column is
      played by exactly one action, once. */
  lemma FramesPartitionTheRow()
    ensures forall i, j :: 0 <= i < j < |AllFrames()| ==> AllFrames()[i] != AllFrames()[j]
    ensures forall column :: column in AllFrames() <==> 0 <= column <= 10 && column != 4
  {
    assert AllFrames() == [3, 0, 1, 6, 5, 2, 7, 8, 9, 10];
  }

  /** The position of an action in `values()`, its ordinal. */
  function ValuesIndex(action: Action): (j: int)
    ensures 0 <= j < |ACTION_VALUES| && ACTION_VALUES[j] == action
  {
    match action
    case IDLE => 0
    case CLIMB => 1
    case JUMP => 2
    case SWIM => 3
    case WALK => 4
  }

  /** `values()` lists each action exactly once. */
  lemma ActionValuesListEveryAction()
    ensures forall a: Action :: a in ACTION_VALUES
    ensures forall i, j :: 0 <= i < j < |ACTION_VALUES| ==> ACTION_VALUES[i] != ACTION_VALUES[j]
  {
    forall a: Action
      ensures a in ACTION_VALUES
    {
      match a
      case IDLE => assert ACTION_VALUES[0] == a;
      case CLIMB => assert ACTION_VALUES[1] == a;
      case JUMP => assert ACTION_VALUES[2] == a;
      case SWIM => assert ACTION_VALUES[3] == a;
      case WALK => assert ACTION_VALUES[4] == a;
    }
  }
}
