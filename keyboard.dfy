/**
 * The four "held key" flags of the game and the four GLUT keyboard callbacks
 * that set and clear them (pong.c:61, 140-158).
 *
 * 'w' and 's' drive the left paddle through the ordinary keyboard callbacks;
 * the arrow keys drive the right paddle through the "special" callbacks.
 */
module Keyboard {

  /** GLUT's key codes for the up and down arrow keys. */
  const GlutKeyUp: int := 101
  const GlutKeyDown: int := 103

  /** Which of the four keys are currently held down. */
  datatype Held = Held(up: bool, down: bool, specialUp: bool, specialDown: bool)

  /** No key is held (the initial value of all four globals). */
  const NoneHeld: Held := Held(false, false, false, false)

  /** True when `key` is one the ordinary callbacks react to and it is already held. */
  predicate KeyHeld(h: Held, key: char) {
    (key == 'w' && h.up) || (key == 's' && h.down)
  }

  /** True when `key` is one the special callbacks react to and it is already held. */
  predicate SpecialKeyHeld(h: Held, key: int) {
    (key == GlutKeyUp && h.specialUp) || (key == GlutKeyDown && h.specialDown)
  }

  /** `keypress`: 'w' sets the up flag, 's' the down flag, any other key does nothing. */
  function KeyPress(h: Held, key: char): (r: Held)
    ensures r.up == (h.up || key == 'w')
    ensures r.down == (h.down || key == 's')
    ensures r.specialUp == h.specialUp && r.specialDown == h.specialDown
  {
    if key == 'w' then h.(up := true)
    else if key == 's' then h.(down := true)
    else h
  }

  /** `keyrelease`: 'w' clears the up flag, 's' the down flag, any other key does nothing. */
  function KeyRelease(h: Held, key: char): (r: Held)
    ensures r.up == (h.up && key != 'w')
    ensures r.down == (h.down && key != 's')
    ensures r.specialUp == h.specialUp && r.specialDown == h.specialDown
  {
    if key == 'w' then h.(up := false)
    else if key == 's' then h.(down := false)
    else h
  }

  /** `specialKeypress`: the up arrow sets the special up flag, the down arrow the special down flag. */
  function SpecialKeyPress(h: Held, key: int): (r: Held)
    ensures r.specialUp == (h.specialUp || key == GlutKeyUp)
    ensures r.specialDown == (h.specialDown || key == GlutKeyDown)
    ensures r.up == h.up && r.down == h.down
  {
    if key == GlutKeyUp then h.(specialUp := true)
    else if key == GlutKeyDown then h.(specialDown := true)
    else h
  }

  /** `specialKeyrelease`: the up arrow clears the special up flag, the down arrow the special down flag. */
  function SpecialKeyRelease(h: Held, key: int): (r: Held)
    ensures r.specialUp == (h.specialUp && key != GlutKeyUp)
    ensures r.specialDown == (h.specialDown && key != GlutKeyDown)
    ensures r.up == h.up && r.down == h.down
  {
    if key == GlutKeyUp then h.(specialUp := false)
    else if key == GlutKeyDown then h.(specialDown := false)
    else h
  }

  /** Pressing a key that was not held and releasing it again leaves every flag as it was. */
  lemma PressThenRelease(h: Held, key: char)
    requires !KeyHeld(h, key)
    ensures KeyRelease(KeyPress(h, key), key) == h
  {
  }

  /** The same for the arrow keys. */
  lemma SpecialPressThenRelease(h: Held, key: int)
    requires !SpecialKeyHeld(h, key)
    ensures SpecialKeyRelease(SpecialKeyPress(h, key), key) == h
  {
  }

  /** Releasing a held key and pressing it again also restores every flag. */
  lemma ReleaseThenPress(h: Held, key: char)
    requires KeyHeld(h, key)
    ensures KeyPress(KeyRelease(h, key), key) == h
  {
  }
}
