/** The shared character assets (character/CharacterResources.java): one animation per
    colour row of the sprite sheet and per action, built once behind a lazily created
    instance, and the random picks of a character colour and a spawn sound. The sheet is
    reduced to the coordinates of its cells and the generator's draws are parameters. */
module CharacterResourcesModel {
  import opened Randomness
  import opened Actions

  const BEIGE: int := 0
  const BLUE: int := 1
  const GREEN: int := 2
  const PINK: int := 3
  const YELLOW: int := 4

  /** The colours in the order the constructor walks them. */
  const COLORS: seq<int> := [BEIGE, BLUE, GREEN, PINK, YELLOW]

  const SPAWN_SOUNDS_COUNT: int := 4
  const FRAME_COLS: int := 11
  const FRAME_ROWS: int := 5

  /** Seconds per frame of every character animation. */
  const FRAME_DURATION: real := 0.25

  /** A cell of the sprite sheet. */
  datatype TextureRegion = TextureRegion(row: int, column: int)

  /** `allTextureRegions[row]`: the cells of one colour's row. */
  function SheetRow(row: int): (cells: seq<TextureRegion>)
    ensures |cells| == FRAME_COLS
    ensures forall c :: 0 <= c < FRAME_COLS ==> cells[c] == TextureRegion(row, c)
  {
    seq(FRAME_COLS, c => TextureRegion(row, c))
  }

  datatype Animation = Animation(frameDuration: real, keyFrames: seq<TextureRegion>)

  /** The key frames of `action` for a colour: the row's cells at the action's columns. */
  function ActionRegions(action: Action, row: seq<TextureRegion>): (regions: seq<TextureRegion>)
    requires |row| == FRAME_COLS
    ensures |regions| == GetFramesCount(action)
    ensures forall i :: 0 <= i < |regions| ==> regions[i] == row[GetFrame(action, i)]
  {
    seq(GetFramesCount(action), i requires 0 <= i < GetFramesCount(action) => row[GetFrame(action, i)])
  }

  /** Every key frame of a colour's animation is a cell of that colour's row, never the
      unused column 4. */
  lemma AnimationStaysInItsRow(action: Action, color: int)
    ensures forall r :: r in ActionRegions(action, SheetRow(color)) ==>
      r.row == color && 0 <= r.column < FRAME_COLS && r.column != 4
  {
    var regions := ActionRegions(action, SheetRow(color));
    forall r | r in regions
      ensures r.row == color && 0 <= r.column < FRAME_COLS && r.column != 4
    {
      var i :| 0 <= i < |regions| && regions[i] == r;
      assert r == TextureRegion(color, GetFrame(action, i));
    }
  }

  /** `getCharActionTextureRegions`: a new array holding, for each frame of the action, the
      row's cell at that frame's column. */
  method GetCharActionTextureRegions(action: Action, charTextureRegions: seq<TextureRegion>)
    returns (actionTextureRegions: array<TextureRegion>)
    requires |charTextureRegions| == FRAME_COLS
    ensures fresh(actionTextureRegions)
    ensures actionTextureRegions[..] == ActionRegions(action, charTextureRegions)
  {
    var framesCount := GetFramesCount(action);
    actionTextureRegions := new TextureRegion[framesCount];
    var i := 0;
    while i < framesCount
      invariant 0 <= i <= framesCount
      invariant forall k :: 0 <= k < i ==> actionTextureRegions[k] == charTextureRegions[GetFrame(action, k)]
    {
      actionTextureRegions[i] := charTextureRegions[GetFrame(action, i)];
      i := i + 1;
    }
  }

  /** `getRandomCharacterIndex`: an AI colour, never the player's yellow. */
  function GetRandomCharacterIndex(offset: int): (index: int)
    requires 0 <= offset <= PINK - BEIGE
    ensures BEIGE <= index <= PINK && index != YELLOW
  {
    RandomInt(BEIGE, PINK, offset)
  }

  /** `getPlayerCharacterIndex`: the player is the only yellow character. */
  function GetPlayerCharacterIndex(): (index: int)
    ensures index == YELLOW && !(BEIGE <= index <= PINK)
  {
    YELLOW
  }

  /** The index into the four spawn sounds drawn by `getRandomSpawnSound`. */
  function GetRandomSpawnSound(offset: int): (index: int)
    requires 0 <= offset <= SPAWN_SOUNDS_COUNT - 1
    ensures 0 <= index < SPAWN_SOUNDS_COUNT
  {
    RandomInt(0, SPAWN_SOUNDS_COUNT - 1, offset)
  }

  class CharacterResources {
    var characterAnimations: map<int, map<Action, Animation>>

    /** The table holds, for each of the five colours and each action, the animation of
        that action's cells in that colour's row. */
    ghost predicate Complete()
      reads this
    {
      (forall color :: color in characterAnimations <==> BEIGE <= color <= YELLOW)
      && forall color :: color in characterAnimations ==>
           forall action: Action ::
             action in characterAnimations[color]
             && characterAnimations[color][action] == Animation(FRAME_DURATION, ActionRegions(action, SheetRow(color)))
    }

    /** The private constructor: one animation map per colour, one entry per action. */
    constructor ()
      ensures Complete()
    {
      var animations: map<int, map<Action, Animation>> := map[];
      var c := 0;
      while c < |COLORS|
        invariant 0 <= c <= |COLORS|
        invariant forall color :: color in animations <==> BEIGE <= color < c
        invariant forall color :: color in animations ==>
                    forall action: Action ::
                      action in animations[color]
                      && animations[color][action] == Animation(FRAME_DURATION, ActionRegions(action, SheetRow(color)))
      {
        var color := COLORS[c];
        var actionMap := ColorAnimations(color);
        animations := animations[color := actionMap];
        c := c + 1;
      }
      characterAnimations := animations;
    }

    /** `getAnimation`: the table entry; the colour must be one of the five rows. */
    function GetAnimation(action: Action, rowColor: int): (animation: Animation)
      reads this
      requires rowColor in characterAnimations && action in characterAnimations[rowColor]
      ensures Complete() ==> animation == Animation(FRAME_DURATION, ActionRegions(action, SheetRow(rowColor)))
    {
      characterAnimations[rowColor][action]
    }
  }

  /** The inner walk of the constructor: one animation per action of `Action.values()` for
      the given colour row. */
  method ColorAnimations(color: int) returns (actionMap: map<Action, Animation>)
    ensures forall action: Action ::
              action in actionMap && actionMap[action] == Animation(FRAME_DURATION, ActionRegions(action, SheetRow(color)))
  {
    actionMap := map[];
    var charTextureRegions := SheetRow(color);
    var k := 0;
    while k < |ACTION_VALUES|
      invariant 0 <= k <= |ACTION_VALUES|
      invariant forall j :: 0 <= j < k ==> ACTION_VALUES[j] in actionMap
      invariant forall action :: action in actionMap ==>
                  actionMap[action] == Animation(FRAME_DURATION, ActionRegions(action, charTextureRegions))
    {
      var action := ACTION_VALUES[k];
      var regions := GetCharActionTextureRegions(action, charTextureRegions);
      actionMap := actionMap[action := Animation(FRAME_DURATION, regions[..])];
      k := k + 1;
    }
    forall action: Action
      ensures action in actionMap
    {
      var j := ValuesIndex(action);
    }
  }

  /** The static `instance` behind `getInstance`. */
  class ResourcesHolder {
    var instance: CharacterResources?

    ghost predicate Valid()
      reads this, instance
    {
      instance != null ==> instance.Complete()
    }

    constructor ()
      ensures instance == null && Valid()
    {
      instance := null;
    }

    /** `getInstance`: the first call builds the table, every later call returns that same
        object. */
    method GetInstance() returns (resources: CharacterResources)
      requires Valid()
      modifies this
      ensures Valid() && resources == instance && resources.Complete()
      ensures old(instance) != null ==> resources == old(instance)
      ensures old(instance) == null ==> fresh(resources)
    {
      if instance == null {
        instance := new CharacterResources();
      }
      return instance;
    }
  }

  /** Two calls of `getInstance` in a row give the same object. */
  method GetInstanceTwice(holder: ResourcesHolder) returns (first: CharacterResources, second: CharacterResources)
    requires holder.Valid()
    modifies holder
    ensures first == second && first.Complete()
  {
    first := holder.GetInstance();
    second := holder.GetInstance();
  }
}
