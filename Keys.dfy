/** Key events as the terminal delivers them to the input router. Only the key
    codes the router or the SQL tab distinguish are named; every other code
    (Home, End, Delete, function keys, ...) is `Other`. */
module Keys {

  datatype KeyCode =
    | Char(ch: char)
    | Esc
    | Enter
    | Backspace
    | Up
    | Down
    | Left
    | Right
    | PageUp
    | PageDown
    | Tab
    | BackTab
    | Other

  /** A key press; `control` says whether the CONTROL modifier was held. */
  datatype KeyEvent = KeyEvent(code: KeyCode, control: bool) {
    /** Ctrl+X (either case), the quit combination. */
    predicate IsQuit() {
      code.Char? && (code.ch == 'x' || code.ch == 'X') && control
    }
  }
}
