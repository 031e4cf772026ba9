/**
  The mode state machine: how an input event is read under the current mode.
  Dispatch is a pure function of (mode, event); it never fails and never
  touches the editor.
*/
module Dispatch {
  import opened Wrappers
  import opened Terminal

  /** How key presses are read: as commands (Normal) or as text (Insert). */
  datatype Mode = Normal | Insert

  /** What one input event asks the editor to do. */
  datatype Action =
    | Quit
    | MoveUp
    | MoveDown
    | MoveLeft
    | MoveRight
    | WriteChar(ch: char)
    | EnterMode(target: Mode)

  /** The key codes Normal mode binds to an action. */
  const NormalKeys: set<KeyCode> :=
    {Left, Right, Up, Down, Char('h'), Char('l'), Char('k'), Char('j'), Char('q'), Char('i')}

  predicate IsMove(a: Action) {
    a.MoveUp? || a.MoveDown? || a.MoveLeft? || a.MoveRight?
  }

  /** Whether `ev` is a key event with code `code`. */
  predicate IsKey(ev: Event, code: KeyCode) {
    ev.Key? && ev.key.code == code
  }

  /** Resolves an event under `mode` to at most one action. */
  function HandleEvent(mode: Mode, ev: Event): (r: Result<Option<Action>>)
    ensures r.Ok?
    ensures !ev.Key? ==> r.value == None
    ensures r.value.Some? && (r.value.value == Quit || IsMove(r.value.value)) ==> mode == Normal
    ensures r.value.Some? && r.value.value.WriteChar? ==> mode == Insert
    ensures r.value.Some? && r.value.value.EnterMode? ==> r.value.value.target != mode
  {
    match mode
    case Normal => HandleNormalEvent(ev)
    case Insert => HandleInsertEvent(ev)
  }

  /** Normal mode: vi keys and arrows move, `q` quits, `i` enters Insert mode. */
  function HandleNormalEvent(ev: Event): (r: Result<Option<Action>>)
    ensures r.Ok?
    ensures r.value == Some(MoveLeft) <==> IsKey(ev, Left) || IsKey(ev, Char('h'))
    ensures r.value == Some(MoveRight) <==> IsKey(ev, Right) || IsKey(ev, Char('l'))
    ensures r.value == Some(MoveUp) <==> IsKey(ev, Up) || IsKey(ev, Char('k'))
    ensures r.value == Some(MoveDown) <==> IsKey(ev, Down) || IsKey(ev, Char('j'))
    ensures r.value == Some(Quit) <==> IsKey(ev, Char('q'))
    ensures r.value == Some(EnterMode(Insert)) <==> IsKey(ev, Char('i'))
    ensures r.value == None <==> !(ev.Key? && ev.key.code in NormalKeys)
  {
    match ev
    case Key(key) =>
      (match key.code
       case Left | Char('h') => Ok(Some(MoveLeft))
       case Right | Char('l') => Ok(Some(MoveRight))
       case Up | Char('k') => Ok(Some(MoveUp))
       case Down | Char('j') => Ok(Some(MoveDown))
       case Char('q') => Ok(Some(Quit))
       case Char('i') => Ok(Some(EnterMode(Insert)))
       case _ => Ok(None))
    case _ => Ok(None)
  }

  /** Insert mode: Esc returns to Normal mode, every character key is written. */
  function HandleInsertEvent(ev: Event): (r: Result<Option<Action>>)
    ensures r.Ok?
    ensures r.value == Some(EnterMode(Normal)) <==> IsKey(ev, Esc)
    ensures (r.value.Some? && r.value.value.WriteChar?) <==> ev.Key? && ev.key.code.Char?
    ensures ev.Key? && ev.key.code.Char? ==> r.value == Some(WriteChar(ev.key.code.c))
    ensures r.value == None <==> !(IsKey(ev, Esc) || (ev.Key? && ev.key.code.Char?))
  {
    match ev
    case Key(key) =>
      (match key.code
       case Esc => Ok(Some(EnterMode(Normal)))
       case Char(c) => Ok(Some(WriteChar(c)))
       case _ => Ok(None))
    case _ => Ok(None)
  }

  /** Only the key code is consulted: modifiers and press/release kind are ignored. */
  lemma DispatchReadsOnlyKeyCode(mode: Mode, k1: KeyEvent, k2: KeyEvent)
    requires k1.code == k2.code
    ensures HandleEvent(mode, Key(k1)) == HandleEvent(mode, Key(k2))
  {
  }

  /** The mode switches: `i` from Normal and Esc from Insert, and nothing else. */
  lemma ModeSwitchKeys(mode: Mode, ev: Event, target: Mode)
    ensures HandleEvent(mode, ev).value == Some(EnterMode(target)) <==>
            (mode == Normal && target == Insert && IsKey(ev, Char('i'))) ||
            (mode == Insert && target == Normal && IsKey(ev, Esc))
  {
  }
}
