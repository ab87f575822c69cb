/**
 * The parts of the terminal UI framework the program's logic touches: key
 * events and the events delivered to components. The framework itself is
 * not part of this model; these datatypes carry only what the modelled code
 * reads.
 */
module Realm {

  datatype Key =
    | Backspace | Enter | Left | Right | Up | Down | Home | End | PageUp | PageDown
    | Tab | BackTab | Delete | Insert | Esc | Null
    | Function(number: nat)
    | Char(c: char)

  /** The modifier flags of a key press; a set of CONTROL, ALT and SHIFT. */
  datatype KeyModifiers = KeyModifiers(control: bool, alt: bool, shift: bool)

  const NONE: KeyModifiers := KeyModifiers(false, false, false)
  const CONTROL: KeyModifiers := KeyModifiers(true, false, false)
  const ALT: KeyModifiers := KeyModifiers(false, true, false)
  const SHIFT: KeyModifiers := KeyModifiers(false, false, true)

  /** `a | b` on the flags. */
  function Union(a: KeyModifiers, b: KeyModifiers): (r: KeyModifiers)
    ensures r.control == (a.control || b.control) && r.alt == (a.alt || b.alt) && r.shift == (a.shift || b.shift)
  {
    KeyModifiers(a.control || b.control, a.alt || b.alt, a.shift || b.shift)
  }

  datatype KeyEventKind = Press | Release | Repeat

  datatype KeyEvent = KeyEvent(code: Key, modifiers: KeyModifiers, kind: KeyEventKind)

  /** An event delivered to a component: a key, a user event of the application, or anything else. */
  datatype Event<T> = Keyboard(key: KeyEvent) | User(payload: T) | Tick | Other
}
