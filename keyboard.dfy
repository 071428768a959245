/** The keyboard input: arrow keys and WASD set and clear the four movement
    flags, and the handlers hear of a change only when a flag really
    changed. */
module Keyboard {
  import opened Wrappers
  import opened Movement

  datatype Dir = Up | Down | Left | Right

  /** The `e.code` cases of the switch: each direction has an arrow key and
      a letter key; every other code is unmapped. */
  function KeyDir(code: string): Option<Dir> {
    if code == "ArrowUp" || code == "KeyW" then Some(Up)
    else if code == "ArrowDown" || code == "KeyS" then Some(Down)
    else if code == "ArrowLeft" || code == "KeyA" then Some(Left)
    else if code == "ArrowRight" || code == "KeyD" then Some(Right)
    else None
  }

  function Flag(s: MovementState, d: Dir): bool {
    match d
    case Up => s.up
    case Down => s.down
    case Left => s.left
    case Right => s.right
  }

  function WithFlag(s: MovementState, d: Dir, v: bool): (r: MovementState)
    ensures Flag(r, d) == v
    ensures forall e :: e != d ==> Flag(r, e) == Flag(s, e)
  {
    match d
    case Up => s.(up := v)
    case Down => s.(down := v)
    case Left => s.(left := v)
    case Right => s.(right := v)
  }

  /** A key event's effect on the flags: the flag of the key's direction
      becomes `pressed`; `changed` says whether it was otherwise before. */
  function KeyEvent(s: MovementState, code: string, pressed: bool): (MovementState, bool) {
    match KeyDir(code)
    case None => (s, false)
    case Some(d) => if Flag(s, d) == pressed then (s, false) else (WithFlag(s, d, pressed), true)
  }

  /** A keydown sets exactly the flag of its direction and reports a change
      if and only if that flag was clear; a keyup clears it and reports a
      change if and only if it was set; an unmapped key changes nothing. */
  lemma KeyEventOutcome(s: MovementState, code: string, pressed: bool)
    ensures var (s', changed) := KeyEvent(s, code, pressed);
      && (KeyDir(code).None? ==> s' == s && !changed)
      && (KeyDir(code).Some? ==>
            var d := KeyDir(code).value;
            && Flag(s', d) == pressed
            && (forall e :: e != d ==> Flag(s', e) == Flag(s, e))
            && (changed <==> Flag(s, d) != pressed))
      && (!changed ==> s' == s)
  {
  }

  /** A repeated keydown (auto-repeat) is silent, and so is a second keyup. */
  lemma RepeatIsSilent(s: MovementState, code: string, pressed: bool)
    ensures KeyEvent(KeyEvent(s, code, pressed).0, code, pressed) == (KeyEvent(s, code, pressed).0, false)
  {
  }

  /** Pressing and releasing a key that was not held leaves the flags as
      they were. */
  lemma PressReleaseRestores(s: MovementState, code: string)
    requires KeyDir(code).Some? && !Flag(s, KeyDir(code).value)
    ensures KeyEvent(KeyEvent(s, code, true).0, code, false).0 == s
  {
  }

  /** Both keys of a direction act alike. */
  lemma KeyPairs()
    ensures KeyDir("ArrowUp") == KeyDir("KeyW") == Some(Up)
    ensures KeyDir("ArrowDown") == KeyDir("KeyS") == Some(Down)
    ensures KeyDir("ArrowLeft") == KeyDir("KeyA") == Some(Left)
    ensures KeyDir("ArrowRight") == KeyDir("KeyD") == Some(Right)
  {
  }

  /** createKeyboardController. Handlers receive a copy of the flags (a
      value here), so a state already delivered never changes. */
  class KeyboardController {
    const controller: MovementController<MovementState>
    var state: MovementState
    /** Whether the keydown and keyup listeners are attached. */
    var listening: bool

    ghost predicate Valid()
      reads this, controller
    {
      controller.Valid()
    }

    constructor ()
      ensures Valid() && fresh(controller) && controller.handlers == []
      ensures state == Still && listening
    {
      controller := new MovementController();
      state := Still;
      listening := true;
    }

    /** The keydown listener: `calls` are the handler calls it makes. */
    method OnKeyDown(code: string) returns (calls: seq<Call<MovementState>>)
      requires Valid()
      modifies this
      ensures Valid()
      ensures !old(listening) ==> state == old(state) && calls == []
      ensures old(listening) ==>
        var (s', changed) := KeyEvent(old(state), code, true);
        state == s' && calls == (if changed then NotifyCalls(controller.handlers, s') else [])
      ensures listening == old(listening)
    {
      calls := [];
      if !listening {
        return;
      }
      var changed := false;
      if code == "ArrowUp" || code == "KeyW" {
        if !state.up {
          state := state.(up := true);
          changed := true;
        }
      } else if code == "ArrowDown" || code == "KeyS" {
        if !state.down {
          state := state.(down := true);
          changed := true;
        }
      } else if code == "ArrowLeft" || code == "KeyA" {
        if !state.left {
          state := state.(left := true);
          changed := true;
        }
      } else if code == "ArrowRight" || code == "KeyD" {
        if !state.right {
          state := state.(right := true);
          changed := true;
        }
      }
      if changed {
        calls := controller.Notify(state);
      }
    }

    /** The keyup listener. */
    method OnKeyUp(code: string) returns (calls: seq<Call<MovementState>>)
      requires Valid()
      modifies this
      ensures Valid()
      ensures !old(listening) ==> state == old(state) && calls == []
      ensures old(listening) ==>
        var (s', changed) := KeyEvent(old(state), code, false);
        state == s' && calls == (if changed then NotifyCalls(controller.handlers, s') else [])
      ensures listening == old(listening)
    {
      calls := [];
      if !listening {
        return;
      }
      var changed := false;
      if code == "ArrowUp" || code == "KeyW" {
        if state.up {
          state := state.(up := false);
          changed := true;
        }
      } else if code == "ArrowDown" || code == "KeyS" {
        if state.down {
          state := state.(down := false);
          changed := true;
        }
      } else if code == "ArrowLeft" || code == "KeyA" {
        if state.left {
          state := state.(left := false);
          changed := true;
        }
      } else if code == "ArrowRight" || code == "KeyD" {
        if state.right {
          state := state.(right := false);
          changed := true;
        }
      }
      if changed {
        calls := controller.Notify(state);
      }
    }

    /** cleanup: both listeners are detached, then the handlers cleared. */
    method Cleanup()
      requires Valid()
      modifies this, controller
      ensures Valid() && !listening && controller.handlers == [] && state == old(state)
    {
      listening := false;
      controller.Cleanup();
    }
  }
}
