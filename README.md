# A verified model of a minimal modal terminal editor

This project models the core of a small vi-style terminal editor written in
Rust. The editor keeps a cursor, the terminal size and a mode. In Normal mode
the keys `h`, `j`, `k`, `l` and the arrows move the cursor, `q` quits and `i`
enters Insert mode. In Insert mode Esc returns to Normal mode and every
character key is printed at the cursor. Each turn of the run loop reads the
terminal size, waits for at most one input event, applies the action it
resolves to, and moves the terminal cursor to the editor's cursor.

Modules:

- `Wrappers`: `Option` and `Result`.
- `Terminal`: the terminal library's vocabulary. It has 16-bit coordinates
  (`u16`), the size as (columns, rows), key codes, input events and the two
  output commands the editor queues (`MoveTo`, `Print`).
- `Dispatch`: the modes, the actions and the three event handlers. The
  handlers are pure functions of (mode, event).
- `Transitions`: the editor's fields as a value (`EditorState`). It gives the
  effect of one action (`Apply`), of one loop iteration (`Step`) and of a run
  over a finite sequence of iterations (`Steps`). Each of these yields the
  next state, how the step ended and the commands it queued.
- `EditorLoop`: the `Editor` class. Its fields `size`, `cx`, `cy` and `mode`
  are updated in place, as in the source. A ghost field `queued` logs the
  commands written to the terminal. Every method is proved to follow
  `Transitions`.
- `RunProperties`: lemmas about whole runs.

How the cursor bounds behave:

- MoveDown increments only while `cy < size.1`, so it does not pull a row
  above a shrunk terminal back to the height. MoveRight does the same for the
  column.
- WriteChar never clamps the column, so repeated writes take it any distance
  past the width, up to the u16 limit.
- So the cursor stays within the terminal only while nothing is written and
  the terminal does not shrink (`StepsKeepInBounds`).

`cx += 1` at column 65535 is modelled as in a debug build: the addition
panics and the program ends. The model writes this as the `Panicked` status,
not as a precondition, because the run loop cannot rule it out.

## Model

| member | source | states |
|---|---|---|
| `Dispatch.HandleEvent` | src/main.rs:112-117 | dispatch never fails. Non-key events give no action. Quit and moves occur only in Normal mode and writes only in Insert mode. A mode switch always targets the other mode. |
| `Dispatch.HandleNormalEvent` | src/main.rs:119-132 | Normal mode, both directions: MoveLeft iff Left or `h`, MoveRight iff Right or `l`, MoveUp iff Up or `k`, MoveDown iff Down or `j`, Quit iff `q`, EnterMode(Insert) iff `i`. No action iff the event is not a key or its code is outside those ten. |
| `Dispatch.HandleInsertEvent` | src/main.rs:134-143 | Insert mode: EnterMode(Normal) iff Esc. Every `Char(c)`, including `q`, `h` and `i`, gives WriteChar(c). Every other key and every non-key event gives nothing. |
| `Dispatch.DispatchReadsOnlyKeyCode` | src/main.rs:119-143 | two key events with the same code resolve alike, whatever their modifiers and press/release kind |
| `Dispatch.ModeSwitchKeys` | src/main.rs:127-137 | the only mode switches are `i` in Normal mode (to Insert) and Esc in Insert mode (to Normal) |
| `Transitions.SaturatingSub` | src/main.rs:84 | `u16::saturating_sub`: the difference when it is not negative, otherwise 0 (also used at src/main.rs:92) |
| `Transitions.Apply` | src/main.rs:81-104 | one action leaves the size alone. Only Quit stops, and only a write at column 65535 panics; a stop leaves the state unchanged. The mode changes only on EnterMode. Only WriteChar queues output: move to the cursor, then print. Each action changes only its own coordinate. No action takes the row past max(row, height). The column can pass max(column, width) by at most 1, and only by a write. An in-bounds cursor stays in bounds under every action except WriteChar. |
| `Transitions.MoveUpSaturates` | src/main.rs:83-85 | MoveUp keeps row 0 at 0 and otherwise subtracts exactly 1; nothing else changes |
| `Transitions.MoveLeftSaturates` | src/main.rs:91-93 | MoveLeft keeps column 0 at 0 and otherwise subtracts exactly 1; nothing else changes |
| `Transitions.MoveDownClamps` | src/main.rs:86-90 | MoveDown adds 1 only when the row is below the height. At the height, or above a smaller height, the row is unchanged. `cy <= height` is preserved. Nothing else changes. |
| `Transitions.MoveRightClamps` | src/main.rs:94-98 | MoveRight adds 1 only when the column is below the width. At the width, or above a smaller width, the column is unchanged. `cx <= width` is preserved. Nothing else changes. |
| `Transitions.VerticalMovesInverse` | src/main.rs:83-90 | MoveUp undoes a MoveDown that moved, and MoveDown undoes a MoveUp that moved within the height |
| `Transitions.HorizontalMovesInverse` | src/main.rs:91-98 | MoveLeft undoes a MoveRight that moved, and MoveRight undoes a MoveLeft that moved within the width |
| `Transitions.EnterModeIdempotent` | src/main.rs:99-100 | EnterMode(m) sets the mode to m and nothing else; applying it again changes nothing |
| `Transitions.WriteCharPassesWidth` | src/main.rs:61-67 | at the last column MoveRight stays put, but WriteChar advances the column by one with row and mode unchanged, leaving the terminal's width behind |
| `Transitions.QuitChangesNothing` | src/main.rs:82 | Quit stops the loop, changes no field and queues nothing |
| `Transitions.Step` | src/main.rs:75-108 | one loop iteration takes the size just read. If it goes on, its last output moves the terminal cursor to the editor's cursor. Quit changes nothing but the size. A panic happens only in Insert mode at column 65535. With no event, only the cursor is redrawn. Row and column bounds hold against the new size, the column passing it only by the number of characters printed. |
| `Transitions.Steps` | src/main.rs:75-108 | a run stops at the first iteration that quits or panics. A run that is still going ends by showing the cursor. A panicked run ends in Insert mode at column 65535. |
| `EditorLoop.Editor.constructor` | src/main.rs:44-53 | a new editor is in Normal mode with cursor (0, 0), size (0, 0) and nothing queued |
| `EditorLoop.Editor.Draw` | src/main.rs:55-59 | queues a move of the terminal cursor to (cx, cy) |
| `EditorLoop.Editor.WriteChar` | src/main.rs:61-67 | queues a move to (cx, cy) and a print of the character, then advances cx by one (panic at 65535); the fields follow `Apply` |
| `EditorLoop.Editor.Perform` | src/main.rs:81-104 | the in-place field updates of the action `match` give exactly `Apply`'s next state, output and status |
| `EditorLoop.Editor.Tick` | src/main.rs:76-107 | one in-place loop iteration (size refresh, dispatch, action, draw) gives exactly `Step`'s state, output and status |
| `EditorLoop.Editor.Run` | src/main.rs:69-110 | the loop, run in place over the ticks, ends in `Steps`'s state with `Steps`'s output queued and returns its status |
| `RunProperties.StepsAppend` | src/main.rs:75-108 | a run over `a + b` is the run over `a` followed, if still going, by the run over `b`. After Quit or a panic, later input is never read. |
| `RunProperties.StepsRowBound` | src/main.rs:86-90 | after any run the row is at most the larger of the starting row and every height the terminal reported |
| `RunProperties.StepsColumnBound` | src/main.rs:94-103 | after any run the column exceeds the larger of the starting column and every width reported by at most the number of characters printed |
| `RunProperties.StepsKeepInBounds` | src/main.rs:76-98 | starting in bounds, a run in which the terminal never shrinks and nothing is printed ends with the cursor in bounds |
| `RunProperties.TypingInInsertMode` | src/main.rs:134-143 | typing characters in Insert mode prints each one at the next column of the cursor's row, shows the cursor after each, and ends just after the text, still in Insert mode |
| `RunProperties.InsertKeyKeepsCursor` | src/main.rs:127 | in Normal mode, `i` switches to Insert mode with the cursor unchanged |
| `RunProperties.EscapeKeepsCursor` | src/main.rs:137 | in Insert mode, Esc switches to Normal mode with the cursor unchanged |
| `RunProperties.CharKeyWritesAtCursor` | src/main.rs:138 | in Insert mode, a character key prints the character at (cx, cy) and moves the cursor to (cx + 1, cy) |
| `RunProperties.InsertThenEscape` | src/main.rs:99-100 | `i` then Esc from Normal mode gives back the same state, with the size the second tick reported |
| `RunProperties.QuitFromStart` | src/main.rs:80-82 | a new editor that reads `q` stops at once with the cursor at (0, 0), queues nothing and never reads later input |

## Left out

- Terminal setup at the start of `run` (raw mode, alternate screen, clear; src/main.rs:70-73). It is I/O in the terminal library, which is not part of this model.
- The `Drop` cleanup (src/main.rs:34-41). It leaves the alternate screen and disables raw mode; it is resource release with no state of the editor in it.
- Flushing stdout in `draw` and `Drop`. The model keeps the queued commands as a log; when they reach the terminal is not modelled.
- `terminal::size()`, `event::poll` with its 1000 ms timeout, and `read()` (src/main.rs:76-80). Each loop iteration is a `Tick`: the size read and the event, if one arrived in time. Timing and blocking are not modelled.
- Errors raised by terminal I/O (the `?` operators). Only the success path is modelled. The handlers' `Result` is kept, and they always return `Ok`.
- `main` (src/main.rs:146-149). It only constructs the editor and calls `run`.
- EditorLoop.Editor.Run: the source loops until Quit. The model runs over a finite sequence of ticks and returns `Running` when they run out.
- EditorLoop.Editor.WriteChar: models a debug build, where `cx += 1` at 65535 panics; a release build would wrap to 0 instead.
- Mouse, paste and resize events carry no payload beyond what is shown, and key codes the editor ignores are folded into a few constructors. The editor only tests whether an event is a key and what its code is.
