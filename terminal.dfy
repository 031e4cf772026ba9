/**
  The vocabulary the editor shares with its terminal library: 16-bit
  coordinates, the terminal size, the input events the library delivers and
  the output commands the editor queues.
*/
module Terminal {

  /** An unsigned 16-bit integer, the type of every coordinate and dimension. */
  newtype u16 = x: int | 0 <= x < 0x1_0000

  const MaxU16: u16 := 0xFFFF

  /** The terminal size as (columns, rows). */
  type Size = (u16, u16)

  /** The key codes the editor tells apart; every other key is OtherKey. */
  datatype KeyCode =
    | Char(c: char)
    | Left
    | Right
    | Up
    | Down
    | Esc
    | Enter
    | Backspace
    | Tab
    | Delete
    | OtherKey

  datatype KeyModifier = Shift | Control | Alt | Super | Hyper | Meta

  datatype KeyEventKind = Press | Repeat | Release

  /** One keyboard event: the key, the modifiers held and whether it was pressed, repeated or released. */
  datatype KeyEvent = KeyEvent(code: KeyCode, modifiers: set<KeyModifier>, kind: KeyEventKind)

  /** An input event read from the terminal. */
  datatype Event =
    | FocusGained
    | FocusLost
    | Key(key: KeyEvent)
    | Mouse
    | Paste(text: string)
    | Resize(columns: u16, rows: u16)

  /** A command queued on the terminal's output stream. */
  datatype Command =
    | MoveTo(column: u16, row: u16)
    | Print(ch: char)
}
