/** The joypad bitmask and its edge detection, plus the top-level screen
    state machine that the START button drives. The button bits are GBDK's
    J_* constants (gb/gb.h is not part of this model). */
module Buttons {

  const J_RIGHT: bv8 := 0x01
  const J_LEFT: bv8 := 0x02
  const J_UP: bv8 := 0x04
  const J_DOWN: bv8 := 0x08
  const J_A: bv8 := 0x10
  const J_B: bv8 := 0x20
  const J_SELECT: bv8 := 0x40
  const J_START: bv8 := 0x80

  predicate Holds(mask: bv8, button: bv8) {
    mask & button != 0
  }

  predicate IsButton(button: bv8) {
    button == J_RIGHT || button == J_LEFT || button == J_UP || button == J_DOWN ||
    button == J_A || button == J_B || button == J_SELECT || button == J_START
  }

  /** update_input's "just pressed" mask: the buttons down now that were up
      on the previous frame. */
  function Pressed(curr: bv8, prev: bv8): (r: bv8)
    ensures r == curr & !prev
  {
    (curr ^ prev) & curr
  }

  lemma PressedIsRisingEdge(curr: bv8, prev: bv8, button: bv8)
    requires IsButton(button)
    ensures Holds(Pressed(curr, prev), button) <==> Holds(curr, button) && !Holds(prev, button)
  {
  }

  /** The top-level screen state (game.state). */
  datatype GameMode = Title | Playing | Pause | Catch

  /** The screen state handle_input leaves, given the state it starts in,
      the "just pressed" mask and the START debounce flag. */
  function ModeAfter(mode: GameMode, pressed: bv8, transition: bool): (r: GameMode)
    ensures r == mode || (mode == Title && r == Playing) || (mode == Playing && r == Pause) ||
            (mode == Pause && r == Playing)
    ensures r != mode <==> Holds(pressed, J_START) && mode != Catch && (mode == Pause ==> !transition)
    ensures r == Catch <==> mode == Catch
  {
    match mode
    case Title => if Holds(pressed, J_START) then Playing else Title
    case Playing => if Holds(pressed, J_START) then Pause else Playing
    case Pause => if Holds(pressed, J_START) && !transition then Playing else Pause
    case Catch => Catch
  }
}
