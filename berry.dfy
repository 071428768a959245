/** The client's berry counter: a count that never drops below zero, a sound
    on every gain and a notification of the new count on every change. */
module BerryCounter {

  /** A call the counter makes into its dependencies. */
  datatype Effect = PlayBerrySound | CountChanged(count: int)

  /** Math.max(0, count + amount). */
  function Clamp(count: int, amount: int): (r: int)
    ensures r >= 0 && r >= count + amount
    ensures r == 0 || r == count + amount
  {
    if count + amount < 0 then 0 else count + amount
  }

  /** The calls one `add(amount)` makes once the count is `count`. */
  function AddEffects(amount: int, count: int): seq<Effect> {
    (if amount > 0 then [PlayBerrySound] else []) + [CountChanged(count)]
  }

  /** The sound plays if and only if the amount is positive, and the count
      notification comes exactly once, last, with the new count. */
  lemma AddEffectsShape(amount: int, count: int)
    ensures var e := AddEffects(amount, count);
      && (PlayBerrySound in e <==> amount > 0)
      && e[|e| - 1] == CountChanged(count)
      && forall i :: 0 <= i < |e| - 1 ==> !e[i].CountChanged?
  {
  }

  /** Adding a non-negative amount gains exactly that amount; a spend the
      count covers removes exactly that amount. */
  lemma ClampExact(count: int, amount: int)
    requires count >= 0
    ensures amount >= 0 ==> Clamp(count, amount) == count + amount
    ensures amount < 0 && count >= -amount ==> Clamp(count, amount) == count + amount
    ensures count < -amount ==> Clamp(count, amount) == 0
  {
  }

  class Berry {
    var count: int

    ghost predicate Valid()
      reads this
    {
      count >= 0
    }

    /** createBerry: the count starts at 0. */
    constructor ()
      ensures Valid() && count == 0
    {
      count := 0;
    }

    method GetCount() returns (c: int)
      ensures c == count
    {
      c := count;
    }

    method Add(amount: int) returns (effects: seq<Effect>)
      requires Valid()
      modifies this
      ensures Valid() && count == Clamp(old(count), amount)
      ensures effects == AddEffects(amount, count)
    {
      count := if 0 > count + amount then 0 else count + amount;
      effects := [];
      if amount > 0 {
        effects := effects + [PlayBerrySound];
      }
      effects := effects + [CountChanged(count)];
    }
  }
}
