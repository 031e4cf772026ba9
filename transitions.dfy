/**
  The editor's state and what one action, one tick of the run loop and a
  whole run do to it, as pure functions. The class in module EditorLoop is
  proved to follow these functions.
*/
module Transitions {
  import opened Wrappers
  import opened Terminal
  import opened Dispatch

  /** The fields of the editor: terminal size, cursor column and row, mode. */
  datatype EditorState = EditorState(size: Size, cx: u16, cy: u16, mode: Mode)

  /**
    How a step ends: the loop goes on, the user quit, or `cx += 1` overflowed
    (a panic in a debug build, which ends the program).
  */
  datatype Status = Running | QuitRequested | Panicked

  /** The state after a step, how it ended and the commands it queued. */
  datatype Effect = Effect(next: EditorState, status: Status, output: seq<Command>)

  /** One iteration of the run loop: the size the terminal reported and the event read, if any arrived in time. */
  datatype Tick = Tick(size: Size, event: Option<Event>)

  /** The state a new editor starts in. */
  const Initial: EditorState := EditorState((0, 0), 0, 0, Normal)

  function Max(a: int, b: int): int {
    if a < b then b else a
  }

  /** The cursor lies within the terminal, counting the position one past the last row or column. */
  predicate InBounds(s: EditorState) {
    s.cx <= s.size.0 && s.cy <= s.size.1
  }

  /** How many characters the commands print. */
  function PrintCount(out: seq<Command>): nat {
    if out == [] then 0 else (if out[0].Print? then 1 else 0) + PrintCount(out[1..])
  }

  /** Subtraction on u16 that stops at 0. */
  function SaturatingSub(a: u16, b: u16): (r: u16)
    ensures r as int == Max(0, a as int - b as int)
  {
    if a < b then 0 else a - b
  }

  /** Applies one action to the editor, as the `match` of the run loop and `write_char` do. */
  function Apply(s: EditorState, a: Action): (e: Effect)
    ensures e.next.size == s.size
    ensures e.status == QuitRequested <==> a == Quit
    ensures e.status == Panicked <==> a.WriteChar? && s.cx == MaxU16
    ensures e.status != Running ==> e.next == s
    ensures e.next.mode == if a.EnterMode? then a.target else s.mode
    ensures e.output == if a.WriteChar? then [MoveTo(s.cx, s.cy), Print(a.ch)] else []
    ensures !(a.MoveUp? || a.MoveDown?) ==> e.next.cy == s.cy
    ensures !(a.MoveLeft? || a.MoveRight? || a.WriteChar?) ==> e.next.cx == s.cx
    ensures e.next.cy as int <= Max(s.cy as int, s.size.1 as int)
    ensures e.next.cx as int <= Max(s.cx as int, s.size.0 as int) + (if a.WriteChar? then 1 else 0)
    ensures InBounds(s) && !a.WriteChar? ==> InBounds(e.next)
  {
    match a
    case Quit => Effect(s, QuitRequested, [])
    case MoveUp => Effect(s.(cy := SaturatingSub(s.cy, 1)), Running, [])
    case MoveDown => Effect(if s.cy < s.size.1 then s.(cy := s.cy + 1) else s, Running, [])
    case MoveLeft => Effect(s.(cx := SaturatingSub(s.cx, 1)), Running, [])
    case MoveRight => Effect(if s.cx < s.size.0 then s.(cx := s.cx + 1) else s, Running, [])
    case EnterMode(m) => Effect(s.(mode := m), Running, [])
    case WriteChar(c) =>
      var out := [MoveTo(s.cx, s.cy), Print(c)];
      if s.cx == MaxU16 then Effect(s, Panicked, out)
      else Effect(s.(cx := s.cx + 1), Running, out)
  }

  /**
    One iteration of the run loop: refresh the size, resolve the event (if
    any) under the current mode, apply the action, and move the terminal
    cursor to the editor's cursor unless the loop stops.
  */
  /**
    One turn of the run loop: take the size just read, dispatch the event,
    if any, apply the action and, unless it stopped the loop, show the cursor.
    A tick that goes on ends by showing the cursor; Quit changes nothing but
    the size; a panic comes only from writing at the last u16 column, so only
    in Insert mode; no tick moves the cursor past the terminal's size except
    by printing.
  */
  function Step(s: EditorState, t: Tick): (e: Effect)
    ensures e.next.size == t.size
    ensures e.status == Running ==> e.output != [] && e.output[|e.output| - 1] == MoveTo(e.next.cx, e.next.cy)
    ensures e.status == QuitRequested ==> e.next == s.(size := t.size) && e.output == []
    ensures e.status == Panicked ==> e.next == s.(size := t.size) && e.next.mode == Insert && e.next.cx == MaxU16
    ensures t.event.None? ==> e == Effect(s.(size := t.size), Running, [MoveTo(s.cx, s.cy)])
    ensures e.next.cy as int <= Max(s.cy as int, t.size.1 as int)
    ensures e.next.cx as int <= Max(s.cx as int, t.size.0 as int) + PrintCount(e.output)
  {
    var s1 := s.(size := t.size);
    match t.event
    case None => Effect(s1, Running, [MoveTo(s1.cx, s1.cy)])
    case Some(ev) =>
      match HandleEvent(s1.mode, ev).value
      case None => Effect(s1, Running, [MoveTo(s1.cx, s1.cy)])
      case Some(a) =>
        var e := Apply(s1, a);
        if e.status == Running then
          var show := MoveTo(e.next.cx, e.next.cy);
          Effect(e.next, Running, e.output + [show])
        else e
  }

  /** A run over a finite sequence of ticks; it stops at the first tick that does not end Running. */
  function Steps(s: EditorState, ticks: seq<Tick>): (e: Effect)
    decreases |ticks|
    ensures ticks == [] ==> e == Effect(s, Running, [])
    ensures e.status == Running && ticks != [] ==>
              e.output != [] && e.output[|e.output| - 1] == MoveTo(e.next.cx, e.next.cy)
    ensures e.status == Panicked ==> e.next.mode == Insert && e.next.cx == MaxU16
  {
    if ticks == [] then Effect(s, Running, [])
    else
      var e := Step(s, ticks[0]);
      if e.status != Running then e
      else
        var r := Steps(e.next, ticks[1..]);
        Effect(r.next, r.status, e.output + r.output)
  }

  /** `e` preceded by the commands `done` queued before it. */
  function After(done: seq<Command>, e: Effect): Effect {
    Effect(e.next, e.status, done + e.output)
  }

  /**
    The run loop's progress towards the run `goal`: `done` is queued, the
    editor is in state `s` and, while the loop goes on, `rest` is still to come.
  */
  predicate Progress(goal: Effect, done: seq<Command>, s: EditorState, status: Status, rest: seq<Tick>) {
    if status == Running then goal == After(done, Steps(s, rest))
    else goal == Effect(s, status, done)
  }

  /** Before the first tick, every tick is still to come. */
  lemma ProgressStart(done: seq<Command>, s: EditorState, ticks: seq<Tick>)
    ensures Progress(After(done, Steps(s, ticks)), done, s, Running, ticks[0..])
  {
    assert ticks[0..] == ticks;
  }

  /** One more tick keeps the progress. */
  lemma ProgressAdvance(goal: Effect, done: seq<Command>, s: EditorState, ticks: seq<Tick>, i: nat)
    requires i < |ticks| && Progress(goal, done, s, Running, ticks[i..])
    ensures var e := Step(s, ticks[i]);
      Progress(goal, done + e.output, e.next, e.status, ticks[i + 1..])
  {
    assert ticks[i..][1..] == ticks[i + 1..];
  }

  /** When the ticks run out or the loop stops, the progress is the whole run. */
  lemma ProgressEnd(goal: Effect, done: seq<Command>, s: EditorState, status: Status, rest: seq<Tick>)
    requires Progress(goal, done, s, status, rest)
    requires rest == [] || status != Running
    ensures goal == Effect(s, status, done)
  {
  }

  lemma {:induction false} PrintCountAppend(a: seq<Command>, b: seq<Command>)
    ensures PrintCount(a + b) == PrintCount(a) + PrintCount(b)
    decreases |a|
  {
    if a == [] {
      assert a + b == b;
    } else {
      assert (a + b)[1..] == a[1..] + b;
      PrintCountAppend(a[1..], b);
    }
  }

  lemma PrintCountOne(c: Command)
    ensures PrintCount([c]) == if c.Print? then 1 else 0
  {
    assert [c][1..] == [];
  }

  lemma PrintCountWrite(col: u16, row: u16, c: char)
    ensures PrintCount([MoveTo(col, row), Print(c)]) == 1
  {
    var out := [MoveTo(col, row), Print(c)];
    assert out[1..] == [Print(c)];
    PrintCountOne(Print(c));
  }

  // Properties of single actions.

  /** MoveUp stops at row 0 and otherwise goes up one row; nothing else changes. */
  lemma MoveUpSaturates(s: EditorState)
    ensures var t := Apply(s, MoveUp).next;
      (s.cy == 0 ==> t.cy == 0) && (s.cy > 0 ==> t.cy == s.cy - 1) &&
      t.cx == s.cx && t.size == s.size && t.mode == s.mode
  {
  }

  /** MoveLeft stops at column 0 and otherwise goes left one column; nothing else changes. */
  lemma MoveLeftSaturates(s: EditorState)
    ensures var t := Apply(s, MoveLeft).next;
      (s.cx == 0 ==> t.cx == 0) && (s.cx > 0 ==> t.cx == s.cx - 1) &&
      t.cy == s.cy && t.size == s.size && t.mode == s.mode
  {
  }

  /**
    MoveDown goes down one row only while the row is below the terminal's
    height; at the height, or above a height that shrank, the row stays.
  */
  lemma MoveDownClamps(s: EditorState)
    ensures var t := Apply(s, MoveDown).next;
      (s.cy < s.size.1 ==> t.cy as int == s.cy as int + 1) &&
      (s.cy >= s.size.1 ==> t.cy == s.cy) &&
      (s.cy <= s.size.1 ==> t.cy <= s.size.1) &&
      t.cx == s.cx && t.size == s.size && t.mode == s.mode
  {
  }

  /** MoveRight is MoveDown's counterpart for the column and the terminal's width. */
  lemma MoveRightClamps(s: EditorState)
    ensures var t := Apply(s, MoveRight).next;
      (s.cx < s.size.0 ==> t.cx as int == s.cx as int + 1) &&
      (s.cx >= s.size.0 ==> t.cx == s.cx) &&
      (s.cx <= s.size.0 ==> t.cx <= s.size.0) &&
      t.cy == s.cy && t.size == s.size && t.mode == s.mode
  {
  }

  /** MoveUp undoes a MoveDown that moved, and MoveDown undoes a MoveUp that moved within the height. */
  lemma VerticalMovesInverse(s: EditorState)
    ensures s.cy < s.size.1 ==> Apply(Apply(s, MoveDown).next, MoveUp).next == s
    ensures 0 < s.cy <= s.size.1 ==> Apply(Apply(s, MoveUp).next, MoveDown).next == s
  {
  }

  /** MoveLeft undoes a MoveRight that moved, and MoveRight undoes a MoveLeft that moved within the width. */
  lemma HorizontalMovesInverse(s: EditorState)
    ensures s.cx < s.size.0 ==> Apply(Apply(s, MoveRight).next, MoveLeft).next == s
    ensures 0 < s.cx <= s.size.0 ==> Apply(Apply(s, MoveLeft).next, MoveRight).next == s
  {
  }

  /** EnterMode only sets the mode; a second identical switch changes nothing. */
  lemma EnterModeIdempotent(s: EditorState, m: Mode)
    ensures var e := Apply(s, EnterMode(m));
      e.next == s.(mode := m) && e.status == Running &&
      Apply(e.next, EnterMode(m)) == e
  {
  }

  /**
    WriteChar advances the column with no clamp: from the last column, where
    MoveRight stays put, it leaves the terminal's width behind.
  */
  lemma WriteCharPassesWidth(s: EditorState, c: char)
    requires InBounds(s) && s.cx == s.size.0 && s.cx < MaxU16
    ensures Apply(s, MoveRight).next == s
    ensures var t := Apply(s, WriteChar(c)).next;
      t.cx as int == s.cx as int + 1 && t.cy == s.cy && t.mode == s.mode && !InBounds(t)
  {
  }

  /** Quit stops the loop and leaves the state as it is. */
  lemma QuitChangesNothing(s: EditorState)
    ensures Apply(s, Quit) == Effect(s, QuitRequested, [])
  {
  }
}
