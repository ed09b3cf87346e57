/** A tile of the grid: what a press does, and how the tile is decorated in edit mode. */
module AppCard {

  /** Where the user presses: the tile itself, or one of its edit/delete controls. */
  datatype Press = TileBody | EditControl | DeleteControl

  /** What a press causes. */
  datatype Effect = RunAction | RequestEdit | RequestDelete

  /** The edit and delete controls are rendered only on custom tiles in edit mode. */
  predicate ShowsControls(isEditMode: bool, isCustom: bool)
    ensures ShowsControls(isEditMode, isCustom) ==> isCustom
  {
    isEditMode && isCustom
  }

  /** The wiggle animation marks the tiles that can be edited. */
  predicate Wiggles(isEditMode: bool, isCustom: bool)
    ensures Wiggles(isEditMode, isCustom) ==> isEditMode && isCustom
  {
    isEditMode && isCustom
  }

  /** Built-in tiles are dimmed in edit mode (they stay usable). */
  predicate Dimmed(isEditMode: bool, isCustom: bool)
    ensures Dimmed(isEditMode, isCustom) ==> isEditMode && !isCustom
  {
    isEditMode && !isCustom
  }

  /**
   * The effects of one press. A press on the tile runs its action unless the
   * tile is custom and edit mode is on; a control press stops propagation,
   * so it only asks for the edit or the delete. Controls can only be pressed
   * when rendered.
   */
  function Effects(press: Press, isEditMode: bool, isCustom: bool): (r: seq<Effect>)
    requires press != TileBody ==> ShowsControls(isEditMode, isCustom)
    ensures RunAction in r ==> press == TileBody && !(isEditMode && isCustom)
    ensures |r| <= 1
    ensures press == TileBody && isEditMode && isCustom ==> r == []
    ensures press == EditControl ==> r == [RequestEdit]
    ensures press == DeleteControl ==> r == [RequestDelete]
  {
    match press
    case TileBody => if isEditMode && isCustom then [] else [RunAction]
    case EditControl => [RequestEdit]
    case DeleteControl => [RequestDelete]
  }

  /** How many times the tile's action runs. */
  function ActionRuns(effects: seq<Effect>): nat {
    if effects == [] then 0 else (if effects[0] == RunAction then 1 else 0) + ActionRuns(effects[1..])
  }

  /**
   * Outside edit mode, or on a built-in tile, a press on the tile runs the
   * action exactly once; a custom tile in edit mode and the controls never run it.
   */
  lemma ActionRunsOnce(press: Press, isEditMode: bool, isCustom: bool)
    requires press != TileBody ==> ShowsControls(isEditMode, isCustom)
    ensures ActionRuns(Effects(press, isEditMode, isCustom))
            == if press == TileBody && !(isEditMode && isCustom) then 1 else 0
  {
    var r := Effects(press, isEditMode, isCustom);
    if r != [] { assert r[1..] == []; }
  }

  /** Controls, wiggle and dimming: controls and wiggle go together, and never with dimming. */
  lemma DecorationsAgree(isEditMode: bool, isCustom: bool)
    ensures ShowsControls(isEditMode, isCustom) <==> Wiggles(isEditMode, isCustom)
    ensures !(Wiggles(isEditMode, isCustom) && Dimmed(isEditMode, isCustom))
    ensures isEditMode <==> Wiggles(isEditMode, isCustom) || Dimmed(isEditMode, isCustom)
  {
  }
}
