/**
  Properties of whole runs of the editor loop: how runs compose, the bounds
  the cursor keeps, and what typing in Insert mode prints.
*/
module RunProperties {
  import opened Wrappers
  import opened Terminal
  import opened Dispatch
  import opened Transitions

  /** The largest number of rows any tick reported. */
  function MaxRows(ticks: seq<Tick>): int {
    if ticks == [] then 0 else Max(ticks[0].size.1 as int, MaxRows(ticks[1..]))
  }

  /** The largest number of columns any tick reported. */
  function MaxColumns(ticks: seq<Tick>): int {
    if ticks == [] then 0 else Max(ticks[0].size.0 as int, MaxColumns(ticks[1..]))
  }

  /** The terminal never shrinks, starting from `size`. */
  predicate Growing(size: Size, ticks: seq<Tick>)
    decreases |ticks|
  {
    ticks == [] ||
    (size.0 <= ticks[0].size.0 && size.1 <= ticks[0].size.1 && Growing(ticks[0].size, ticks[1..]))
  }

  /** A key press of a character. */
  predicate IsCharKey(t: Tick) {
    t.event.Some? && t.event.value.Key? && t.event.value.key.code.Char?
  }

  /** The characters typed by ticks that are all character keys. */
  function TypedChars(ticks: seq<Tick>): (text: seq<char>)
    requires forall i :: 0 <= i < |ticks| ==> IsCharKey(ticks[i])
    ensures |text| == |ticks|
  {
    if ticks == [] then []
    else
      assert IsCharKey(ticks[0]);
      [ticks[0].event.value.key.code.c] + TypedChars(ticks[1..])
  }

  /**
    What echoing `text` from (col, row) queues: for each character, move to
    its column, print it, then show the cursor one column further right.
  */
  function Echo(col: u16, row: u16, text: seq<char>): seq<Command>
    requires col as int + |text| <= MaxU16 as int
    decreases |text|
  {
    if text == [] then []
    else [MoveTo(col, row), Print(text[0]), MoveTo(col + 1, row)] + Echo(col + 1, row, text[1..])
  }

  /**
    A run over `a + b` is the run over `a` followed, if the loop is still
    going, by the run over `b`; once the loop stops, later input is never read.
  */
  lemma {:induction false} StepsAppend(s: EditorState, a: seq<Tick>, b: seq<Tick>)
    ensures var ea := Steps(s, a);
      Steps(s, a + b) ==
        if ea.status == Running then After(ea.output, Steps(ea.next, b)) else ea
    decreases |a|
  {
    if a == [] {
      assert a + b == b;
    } else {
      assert (a + b)[0] == a[0];
      assert (a + b)[1..] == a[1..] + b;
      var e := Step(s, a[0]);
      if e.status == Running {
        StepsAppend(e.next, a[1..], b);
        var ea' := Steps(e.next, a[1..]);
        if ea'.status == Running {
          var eb := Steps(ea'.next, b);
          assert e.output + (ea'.output + eb.output) == (e.output + ea'.output) + eb.output;
        }
      }
    }
  }

  /** No run leaves the cursor below both its starting row and every height the terminal reported. */
  lemma {:induction false} StepsRowBound(s: EditorState, ticks: seq<Tick>)
    ensures Steps(s, ticks).next.cy as int <= Max(s.cy as int, MaxRows(ticks))
    decreases |ticks|
  {
    if ticks != [] {
      var e := Step(s, ticks[0]);
      if e.status == Running {
        StepsRowBound(e.next, ticks[1..]);
      }
    }
  }

  /**
    The column goes past both its start and every reported width by at most
    the number of characters printed: only writing escapes the clamp.
  */
  lemma {:induction false} StepsColumnBound(s: EditorState, ticks: seq<Tick>)
    ensures var e := Steps(s, ticks);
      e.next.cx as int <= Max(s.cx as int, MaxColumns(ticks)) + PrintCount(e.output)
    decreases |ticks|
  {
    if ticks != [] {
      var e := Step(s, ticks[0]);
      if e.status == Running {
        StepsColumnBound(e.next, ticks[1..]);
        PrintCountAppend(e.output, Steps(e.next, ticks[1..]).output);
      }
    }
  }

  /**
    While the terminal does not shrink and nothing is written, the cursor
    stays within the terminal's size at the end of every run.
  */
  lemma {:induction false} StepsKeepInBounds(s: EditorState, ticks: seq<Tick>)
    requires InBounds(s) && Growing(s.size, ticks)
    requires PrintCount(Steps(s, ticks).output) == 0
    ensures InBounds(Steps(s, ticks).next)
    decreases |ticks|
  {
    if ticks != [] {
      var t := ticks[0];
      var s1 := s.(size := t.size);
      assert InBounds(s1);
      var e := Step(s, t);
      if t.event.Some? && HandleEvent(s1.mode, t.event.value).value.Some? {
        var a := HandleEvent(s1.mode, t.event.value).value.value;
        if a.WriteChar? {
          var ea := Apply(s1, a);
          PrintCountWrite(s1.cx, s1.cy, a.ch);
          if ea.status == Running {
            PrintCountAppend(ea.output, [MoveTo(ea.next.cx, ea.next.cy)]);
            PrintCountAppend(e.output, Steps(e.next, ticks[1..]).output);
          }
          assert false;
        }
      }
      assert InBounds(e.next);
      if e.status == Running {
        PrintCountAppend(e.output, Steps(e.next, ticks[1..]).output);
        StepsKeepInBounds(e.next, ticks[1..]);
      }
    }
  }

  /**
    Typing characters in Insert mode prints each at the next column of the
    cursor's row and leaves the cursor just after the text, still in Insert
    mode, provided the column does not reach the u16 limit.
  */
  lemma {:induction false} TypingInInsertMode(s: EditorState, ticks: seq<Tick>)
    requires s.mode == Insert
    requires forall i :: 0 <= i < |ticks| ==> IsCharKey(ticks[i])
    requires s.cx as int + |ticks| <= MaxU16 as int
    ensures var e := Steps(s, ticks);
      && e.status == Running
      && e.next.mode == Insert
      && e.next.cy == s.cy
      && e.next.cx as int == s.cx as int + |ticks|
      && e.output == Echo(s.cx, s.cy, TypedChars(ticks))
    decreases |ticks|
  {
    if ticks != [] {
      var t := ticks[0];
      assert IsCharKey(t);
      var k := t.event.value.key;
      assert t == Tick(t.size, Some(Key(k)));
      CharKeyWritesAtCursor(s, t.size, k);
      var next := s.(size := t.size, cx := s.cx + 1);
      TypingInInsertMode(next, ticks[1..]);
      var r := Steps(next, ticks[1..]);
      assert Steps(s, ticks) ==
        Effect(r.next, r.status, [MoveTo(s.cx, s.cy), Print(k.code.c), MoveTo(s.cx + 1, s.cy)] + r.output);
      var text := TypedChars(ticks[1..]);
      assert TypedChars(ticks) == [k.code.c] + text;
      assert ([k.code.c] + text)[1..] == text;
    }
  }

  /** In Normal mode, `i` switches to Insert mode and leaves the cursor where it was. */
  lemma InsertKeyKeepsCursor(s: EditorState, size: Size, k: KeyEvent)
    requires s.mode == Normal && k.code == Char('i')
    ensures Step(s, Tick(size, Some(Key(k)))) ==
            Effect(s.(size := size, mode := Insert), Running, [MoveTo(s.cx, s.cy)])
  {
    assert HandleEvent(Normal, Key(k)).value == Some(EnterMode(Insert));
  }

  /** In Insert mode, Esc switches back to Normal mode and leaves the cursor where it was. */
  lemma EscapeKeepsCursor(s: EditorState, size: Size, k: KeyEvent)
    requires s.mode == Insert && k.code == Esc
    ensures Step(s, Tick(size, Some(Key(k)))) ==
            Effect(s.(size := size, mode := Normal), Running, [MoveTo(s.cx, s.cy)])
  {
    assert HandleEvent(Insert, Key(k)).value == Some(EnterMode(Normal));
  }

  /** In Insert mode, a character key prints the character at the cursor and shows the cursor one column right. */
  lemma CharKeyWritesAtCursor(s: EditorState, size: Size, k: KeyEvent)
    requires s.mode == Insert && k.code.Char? && s.cx < MaxU16
    ensures Step(s, Tick(size, Some(Key(k)))) ==
            Effect(s.(size := size, cx := s.cx + 1), Running,
                   [MoveTo(s.cx, s.cy), Print(k.code.c), MoveTo(s.cx + 1, s.cy)])
  {
    assert HandleEvent(Insert, Key(k)).value == Some(WriteChar(k.code.c));
  }

  /** In Normal mode, `i` then Esc returns to the same state, with the size the last tick reported. */
  lemma InsertThenEscape(s: EditorState, size1: Size, size2: Size, k1: KeyEvent, k2: KeyEvent)
    requires s.mode == Normal && k1.code == Char('i') && k2.code == Esc
    ensures var e1 := Step(s, Tick(size1, Some(Key(k1))));
      var e2 := Step(e1.next, Tick(size2, Some(Key(k2))));
      e1.status == Running && e2.status == Running && e2.next == s.(size := size2)
  {
    InsertKeyKeepsCursor(s, size1, k1);
    EscapeKeepsCursor(s.(size := size1, mode := Insert), size2, k2);
  }

  /** A new editor that reads `q` stops at once, with the cursor still at (0, 0). */
  lemma QuitFromStart(size: Size, k: KeyEvent, later: seq<Tick>)
    requires k.code == Char('q')
    ensures Steps(Initial, [Tick(size, Some(Key(k)))] + later) ==
            Effect(Initial.(size := size), QuitRequested, [])
  {
    assert ([Tick(size, Some(Key(k)))] + later)[0] == Tick(size, Some(Key(k)));
  }
}
