/**
  The editor object and its run loop. The fields are updated in place, as in
  the source; every method is proved to follow the functions of module
  Transitions.
*/
module EditorLoop {
  import opened Wrappers
  import opened Terminal
  import opened Dispatch
  import opened Transitions

  class Editor {
    var size: Size
    var cy: u16
    var cx: u16
    var mode: Mode
    /** The commands queued on the terminal's output stream, oldest first. */
    ghost var queued: seq<Command>

    function State(): EditorState
      reads this
    {
      EditorState(size, cx, cy, mode)
    }

    /** A new editor: Normal mode, cursor at (0, 0), size (0, 0) until the first tick. */
    constructor ()
      ensures State() == Initial && queued == []
    {
      size := (0, 0);
      cy := 0;
      cx := 0;
      mode := Normal;
      queued := [];
    }

    /** Moves the terminal cursor to the editor's cursor. */
    method Draw()
      modifies this`queued
      ensures queued == old(queued) + [MoveTo(cx, cy)]
    {
      queued := queued + [MoveTo(cx, cy)];
    }

    /** Prints `c` at the cursor and advances the column by one, without any clamp. */
    method WriteChar(c: char) returns (panicked: bool)
      modifies this`cx, this`queued
      ensures var e := Apply(old(State()), Action.WriteChar(c));
        State() == e.next && queued == old(queued) + e.output && panicked == (e.status == Panicked)
    {
      queued := queued + [MoveTo(cx, cy), Print(c)];
      if cx == MaxU16 {
        // `cx += 1` overflows u16: a debug build panics here
        return true;
      }
      cx := cx + 1;
      panicked := false;
    }

    /** Carries out one action, as the `match` inside the run loop does. */
    method Perform(a: Action) returns (status: Status)
      modifies this
      ensures var e := Apply(old(State()), a);
        State() == e.next && queued == old(queued) + e.output && status == e.status
    {
      status := Running;
      match a
      case Quit =>
        status := QuitRequested;
      case MoveUp =>
        cy := SaturatingSub(cy, 1);
      case MoveDown =>
        if cy < size.1 {
          cy := cy + 1;
        }
      case MoveLeft =>
        cx := SaturatingSub(cx, 1);
      case MoveRight =>
        if cx < size.0 {
          cx := cx + 1;
        }
      case EnterMode(m) =>
        mode := m;
      case WriteChar(c) =>
        var panicked := WriteChar(c);
        if panicked {
          status := Panicked;
        }
    }

    /** One iteration of the run loop. */
    method Tick(t: Tick) returns (status: Status)
      modifies this
      ensures State() == Step(old(State()), t).next
      ensures status == Step(old(State()), t).status
      ensures queued == old(queued) + Step(old(State()), t).output
    {
      size := t.size;
      status := Running;
      if t.event.Some? {
        var resolved := HandleEvent(mode, t.event.value);
        if resolved.value.Some? {
          status := Perform(resolved.value.value);
          if status != Running {
            return;
          }
        }
      }
      Draw();
    }

    /** The run loop over a finite sequence of ticks; it stops when the user quits or the program panics. */
    method Run(ticks: seq<Tick>) returns (status: Status)
      modifies this
      ensures var e := Steps(old(State()), ticks);
        State() == e.next && queued == old(queued) + e.output && status == e.status
    {
      ghost var goal := After(queued, Steps(State(), ticks));
      ProgressStart(queued, State(), ticks);
      status := Running;
      var i := 0;
      while i < |ticks| && status == Running
        invariant i <= |ticks|
        invariant Progress(goal, queued, State(), status, ticks[i..])
      {
        ghost var e := Step(State(), ticks[i]);
        ProgressAdvance(goal, queued, State(), ticks, i);
        status := Tick(ticks[i]);
        assert State() == e.next && status == e.status;
        i := i + 1;
      }
      ProgressEnd(goal, queued, State(), status, ticks[i..]);
    }
  }
}
