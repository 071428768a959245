/** The movement controller shared by the keyboard and touch inputs: a set
    of handlers that each receive every movement state notified. */
module Movement {

  /** The four direction flags. */
  datatype MovementState = MovementState(up: bool, down: bool, left: bool, right: bool)

  const Still := MovementState(false, false, false, false)

  /** A subscribed handler, known by its identity. */
  type HandlerId = nat

  /** One call of a handler with the state it was given. */
  datatype Call<S> = Call(handler: HandlerId, state: S)

  /** No handler is listed twice: the handlers form a JavaScript Set, kept
      in insertion order (the order `forEach` visits them in). */
  predicate Distinct(hs: seq<HandlerId>) {
    forall i, j :: 0 <= i < j < |hs| ==> hs[i] != hs[j]
  }

  /** `handlers.add(h)`: appended unless already present. */
  function Added(hs: seq<HandlerId>, h: HandlerId): seq<HandlerId> {
    if h in hs then hs else hs + [h]
  }

  /** `handlers.delete(h)`: every other handler stays, in order. */
  function Removed(hs: seq<HandlerId>, h: HandlerId): (r: seq<HandlerId>)
    ensures |r| <= |hs|
  {
    if hs == [] then []
    else if hs[0] == h then Removed(hs[1..], h)
    else [hs[0]] + Removed(hs[1..], h)
  }

  /** After a delete, exactly the other handlers remain, still distinct. */
  lemma {:induction false} RemovedMembers(hs: seq<HandlerId>, h: HandlerId)
    requires Distinct(hs)
    ensures forall x :: x in Removed(hs, h) <==> x in hs && x != h
    ensures Distinct(Removed(hs, h))
    ensures h in hs ==> |Removed(hs, h)| == |hs| - 1
    ensures h !in hs ==> Removed(hs, h) == hs
  {
    if hs != [] {
      var tail := hs[1..];
      assert Distinct(tail);
      RemovedMembers(tail, h);
      assert hs == [hs[0]] + tail;
      assert hs[0] !in tail by {
        forall j | 0 <= j < |tail| ensures tail[j] != hs[0] {
          assert tail[j] == hs[j + 1];
        }
      }
    }
  }

  /** Subscribing keeps the handlers distinct, and subscribing the same
      handler twice leaves a single entry. */
  lemma AddedOutcome(hs: seq<HandlerId>, h: HandlerId)
    requires Distinct(hs)
    ensures Distinct(Added(hs, h)) && h in Added(hs, h)
    ensures forall x :: x in Added(hs, h) <==> x in hs || x == h
    ensures Added(Added(hs, h), h) == Added(hs, h)
  {
  }

  /** The function `subscribe` returns removes exactly the handler it
      subscribed: a new handler subscribed and then unsubscribed leaves the
      handlers as they were. */
  lemma {:induction false} UnsubscribeUndoes(hs: seq<HandlerId>, h: HandlerId)
    requires Distinct(hs) && h !in hs
    ensures Removed(Added(hs, h), h) == hs
  {
    RemovedAppend(hs, h);
    RemovedMembers(hs, h);
  }

  lemma {:induction false} RemovedAppend(hs: seq<HandlerId>, h: HandlerId)
    ensures Removed(hs + [h], h) == Removed(hs, h)
  {
    if hs != [] {
      assert (hs + [h])[1..] == hs[1..] + [h];
      RemovedAppend(hs[1..], h);
    } else {
      assert Removed([h], h) == Removed([], h);
    }
  }

  /** The calls `notify(state)` makes: every handler once, in order. */
  function NotifyCalls<S>(hs: seq<HandlerId>, state: S): (r: seq<Call<S>>)
    ensures |r| == |hs|
  {
    seq(|hs|, k requires 0 <= k < |hs| => Call(hs[k], state))
  }

  /** A handler is called by notify if and only if it is subscribed, and
      exactly once, with the state given. */
  lemma NotifyCallsOnce<S>(hs: seq<HandlerId>, state: S, h: HandlerId)
    requires Distinct(hs)
    ensures Call(h, state) in NotifyCalls(hs, state) <==> h in hs
    ensures forall i, j :: 0 <= i < j < |hs| ==> NotifyCalls(hs, state)[i].handler != NotifyCalls(hs, state)[j].handler
  {
    if h in hs {
      var k :| 0 <= k < |hs| && hs[k] == h;
      assert NotifyCalls(hs, state)[k] == Call(h, state);
    }
  }

  /** createMovementController, over whatever the notifier passes along:
      the keyboard passes copies, the touch input the shared flags object. */
  class MovementController<S> {
    var handlers: seq<HandlerId>

    ghost predicate Valid()
      reads this
    {
      Distinct(handlers)
    }

    constructor ()
      ensures Valid() && handlers == []
    {
      handlers := [];
    }

    /** subscribe; the handler is what the returned function removes. */
    method Subscribe(h: HandlerId)
      requires Valid()
      modifies this
      ensures Valid() && handlers == Added(old(handlers), h)
    {
      if h !in handlers {
        handlers := handlers + [h];
      }
    }

    /** The function `subscribe` returned: `handlers.delete(h)`, which
        answers whether the handler was there. */
    method Unsubscribe(h: HandlerId) returns (removed: bool)
      requires Valid()
      modifies this
      ensures Valid() && handlers == Removed(old(handlers), h)
      ensures removed <==> h in old(handlers)
    {
      RemovedMembers(handlers, h);
      removed := h in handlers;
      handlers := Removed(handlers, h);
    }

    /** notify: each handler is called with the state, in order. */
    method Notify(state: S) returns (calls: seq<Call<S>>)
      ensures |calls| == |handlers|
      ensures forall k :: 0 <= k < |calls| ==> calls[k] == Call(handlers[k], state)
    {
      calls := [];
      for k := 0 to |handlers|
        invariant |calls| == k
        invariant forall j :: 0 <= j < k ==> calls[j] == Call(handlers[j], state)
      {
        calls := calls + [Call(handlers[k], state)];
      }
    }

    /** cleanup: `handlers.clear()`. */
    method Cleanup()
      modifies this
      ensures Valid() && handlers == []
    {
      handlers := [];
    }
  }
}
