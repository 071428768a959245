/** The touch input: a single touch moves forward, and dragging it more
    than TOUCH_THRESHOLD pixels sideways steers left or right. */
module Touch {
  import opened Movement

  /** TOUCH_THRESHOLD, in pixels. */
  const TouchThreshold: real := 30.0

  /** One entry of `e.touches`. */
  datatype TouchPoint = TouchPoint(clientX: real, clientY: real)

  function Abs(x: real): (r: real)
    ensures r >= 0.0 && (r == x || r == -x)
  {
    if x < 0.0 then -x else x
  }

  /** touchmove's update of the flags for a horizontal drag of `dx`: both
      sideways flags are cleared, then one is set past the threshold. */
  function Steered(s: MovementState, dx: real): (r: MovementState)
    ensures r.right <==> dx > TouchThreshold
    ensures r.left <==> dx < -TouchThreshold
    ensures !(r.left && r.right)
    ensures Abs(dx) <= TouchThreshold ==> !r.left && !r.right
    ensures r.up == s.up && r.down == s.down
  {
    var cleared := s.(left := false, right := false);
    if Abs(dx) > TouchThreshold then
      if dx > 0.0 then cleared.(right := true) else cleared.(left := true)
    else cleared
  }

  /** touchstart's update of the flags: up is set, nothing else changes. */
  function Started(s: MovementState): (r: MovementState)
    ensures r.up && r.down == s.down && r.left == s.left && r.right == s.right
  {
    s.(up := true)
  }

  /** Whatever the touches, no handler sets `down`: it stays false from the
      start. */
  lemma DownNeverSet(s: MovementState, dx: real)
    requires !s.down
    ensures !Started(s).down && !Steered(s, dx).down && !Still.down
  {
  }

  /** The flags object the touch controller owns and passes, by reference,
      to every handler call. */
  class Flags {
    var up: bool
    var down: bool
    var left: bool
    var right: bool

    function Value(): MovementState
      reads this
    {
      MovementState(up, down, left, right)
    }

    constructor ()
      ensures Value() == Still
    {
      up, down, left, right := false, false, false, false;
    }
  }

  /** createTouchController. The handlers receive the controller's own
      flags object, not a copy: a handler that keeps it sees every later
      change. */
  class TouchController {
    const controller: MovementController<Flags>
    const state: Flags
    var touchStartX: real
    var touchStartY: real
    /** Whether the four touch listeners are attached. */
    var listening: bool

    ghost predicate Valid()
      reads this, controller, state
    {
      controller.Valid() && !state.down
    }

    constructor ()
      ensures Valid() && fresh(controller) && fresh(state)
      ensures controller.handlers == [] && state.Value() == Still
      ensures touchStartX == 0.0 && touchStartY == 0.0 && listening
    {
      controller := new MovementController();
      state := new Flags();
      touchStartX, touchStartY := 0.0, 0.0;
      listening := true;
    }

    /** The touchstart listener: with exactly one touch it records where
        the touch began, sets up and notifies; any other count is ignored. */
    method OnTouchStart(touches: seq<TouchPoint>) returns (calls: seq<Call<Flags>>)
      requires Valid()
      modifies this, state
      ensures Valid() && listening == old(listening)
      ensures old(listening) && |touches| == 1 ==>
        && touchStartX == touches[0].clientX && touchStartY == touches[0].clientY
        && state.Value() == Started(old(state.Value()))
        && calls == NotifyCalls(controller.handlers, state)
      ensures !(old(listening) && |touches| == 1) ==>
        && touchStartX == old(touchStartX) && touchStartY == old(touchStartY)
        && state.Value() == old(state.Value()) && calls == []
    {
      calls := [];
      if listening && |touches| == 1 {
        touchStartX := touches[0].clientX;
        touchStartY := touches[0].clientY;
        state.up := true;
        calls := controller.Notify(state);
      }
    }

    /** The touchmove listener: with exactly one touch it steers by the
        drag since the touch began and notifies. */
    method OnTouchMove(touches: seq<TouchPoint>) returns (calls: seq<Call<Flags>>)
      requires Valid()
      modifies state
      ensures Valid()
      ensures listening && |touches| == 1 ==>
        && state.Value() == Steered(old(state.Value()), touches[0].clientX - touchStartX)
        && calls == NotifyCalls(controller.handlers, state)
      ensures !(listening && |touches| == 1) ==> state.Value() == old(state.Value()) && calls == []
    {
      calls := [];
      if listening && |touches| == 1 {
        var deltaX := touches[0].clientX - touchStartX;
        state.left := false;
        state.right := false;
        if Abs(deltaX) > TouchThreshold {
          if deltaX > 0.0 {
            state.right := true;
          } else {
            state.left := true;
          }
        }
        calls := controller.Notify(state);
      }
    }

    /** The touchend listener, also attached for touchcancel: every flag
        is cleared and the handlers are notified. */
    method OnTouchEnd() returns (calls: seq<Call<Flags>>)
      requires Valid()
      modifies state
      ensures Valid()
      ensures listening ==> state.Value() == Still && calls == NotifyCalls(controller.handlers, state)
      ensures !listening ==> state.Value() == old(state.Value()) && calls == []
    {
      calls := [];
      if listening {
        state.up := false;
        state.down := false;
        state.left := false;
        state.right := false;
        calls := controller.Notify(state);
      }
    }

    /** cleanup: the four listeners are detached, then the handlers cleared. */
    method Cleanup()
      requires Valid()
      modifies this, controller
      ensures Valid() && !listening && controller.handlers == []
      ensures touchStartX == old(touchStartX) && touchStartY == old(touchStartY)
    {
      listening := false;
      controller.Cleanup();
    }
  }
}
