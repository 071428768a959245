/** The seeded random number generator of the client: a mulberry32 stream
    over a 32-bit state, and the float, range, int and shuffle draws built
    on it. */
module SeededRandom {
  import opened Arith

  /** Added to the state before every draw. */
  const Increment: bv32 := 0x6d2b79f5
  const TwoTo32: real := 4294967296.0

  /** The mixing of one mulberry32 draw, from the advanced state to the
      unsigned 32-bit output. `Math.imul` and `| 0` keep the low 32 bits of
      their results, which is bv32 arithmetic; `>>>` is the logical shift. */
  function Mix(s: bv32): bv32 {
    var t1 := (s ^ (s >> 15)) * (s | 1);
    var t2 := t1 ^ (t1 + (t1 ^ (t1 >> 7)) * (t1 | 61));
    t2 ^ (t2 >> 14)
  }

  function Pow2(n: nat): (p: nat)
    ensures p >= 1
  {
    if n == 0 then 1 else 2 * Pow2(n - 1)
  }

  /** The unsigned value of the low `n` bits of `x`, read bit by bit (what
      `>>> 0` yields for n = 32). */
  function Unsigned(x: bv32, n: nat): (v: nat)
    requires n <= 32
    ensures v < Pow2(n)
  {
    if n == 0 then 0 else (if x & 1 == 1 then 1 else 0) + 2 * Unsigned(x >> 1, n - 1)
  }

  /** An unsigned 32-bit value divided by 2^32 lies in [0, 1). */
  function ToUnit(x: bv32): (r: real)
    ensures 0.0 <= r < 1.0
  {
    assert Pow2(32) as real == TwoTo32 by { Pow2Value(); }
    Unsigned(x, 32) as real / TwoTo32
  }

  lemma Pow2Value()
    ensures Pow2(32) == 4294967296
  {
    assert Pow2(8) == 256;
    assert Pow2(16) == 65536;
    assert Pow2(24) == 16777216;
  }

  /** The state after `n` draws from seed `seed`. */
  function StateAfter(seed: bv32, n: nat): bv32 {
    if n == 0 then seed else StateAfter(seed, n - 1) + Increment
  }

  /** The value returned by draw number `k` (from 0) after seeding with `seed`. */
  function Draw(seed: bv32, k: nat): real {
    ToUnit(Mix(StateAfter(seed, k + 1)))
  }

  /** The first `n` values the generator seeded with `seed` returns. */
  function Stream(seed: bv32, n: nat): (r: seq<real>)
    ensures |r| == n
  {
    if n == 0 then [] else Stream(seed, n - 1) + [Draw(seed, n - 1)]
  }

  /** Two generators from the same seed agree: the shorter stream is a
      prefix of the longer one. */
  lemma {:induction false} StreamPrefix(seed: bv32, n: nat, m: nat)
    requires n <= m
    ensures Stream(seed, n) == Stream(seed, m)[..n]
    decreases m
  {
    if n < m {
      StreamPrefix(seed, n, m - 1);
      assert Stream(seed, m)[..m - 1] == Stream(seed, m - 1);
    }
  }

  /** Value k of the stream is draw number k, and lies in [0, 1). */
  lemma StreamDraws(seed: bv32, n: nat, k: nat)
    requires k < n
    ensures Stream(seed, n)[k] == Draw(seed, k) && 0.0 <= Stream(seed, n)[k] < 1.0
  {
    StreamPrefix(seed, k + 1, n);
    assert Stream(seed, n)[k] == Stream(seed, k + 1)[k];
  }

  /** min + u * (max - min): a draw u scaled to the range from min to max. */
  function Scale(min: real, max: real, u: real): real {
    min + u * (max - min)
  }

  lemma ScaleBounds(min: real, max: real, u: real)
    requires 0.0 <= u < 1.0 && min < max
    ensures min <= Scale(min, max, u) < max
  {
    RangeBounds(min, max, u);
  }

  /** Math.floor(u * (i + 1)): an index in [0, i] for u in [0, 1). */
  function Pick(u: real, i: nat): (j: int)
    requires 0.0 <= u < 1.0
    ensures 0 <= j <= i
  {
    RangeBounds(0.0, (i + 1) as real, u);
    (u * (i + 1) as real).Floor
  }

  function Swap<T>(s: seq<T>, i: nat, j: nat): (r: seq<T>)
    requires i < |s| && j < |s|
    ensures |r| == |s|
  {
    s[i := s[j]][j := s[i]]
  }

  predicate InUnit(us: seq<real>) {
    forall k :: 0 <= k < |us| ==> 0.0 <= us[k] < 1.0
  }

  /** The first |us| Fisher-Yates passes over `s`: the pass numbered m
      (from 0) works at index |s| - 1 - m and swaps it with Pick of us[m]. */
  function Passes<T>(s: seq<T>, us: seq<real>): (r: seq<T>)
    requires |us| < |s| || us == []
    requires InUnit(us)
    ensures |r| == |s|
  {
    if us == [] then s
    else
      var i := |s| - |us|;
      Swap(Passes(s, us[..|us| - 1]), i, Pick(us[|us| - 1], i))
  }

  lemma PassesStep<T>(s: seq<T>, us: seq<real>, u: real, i: nat)
    requires i == |s| - |us| - 1 && 0 < i && InUnit(us) && 0.0 <= u < 1.0
    ensures InUnit(us + [u])
    ensures Passes(s, us + [u]) == Swap(Passes(s, us), i, Pick(u, i))
  {
    assert (us + [u])[..|us|] == us;
  }

  lemma AppendSuffix(us: seq<real>, u: real, start: nat)
    requires start <= |us|
    ensures (us + [u])[start..] == us[start..] + [u]
  {
  }

  /** The shuffle is a permutation. */
  lemma {:induction false} PassesPermute<T>(s: seq<T>, us: seq<real>)
    requires |us| < |s| || us == []
    requires InUnit(us)
    ensures multiset(Passes(s, us)) == multiset(s)
  {
    if us != [] {
      var i := |s| - |us|;
      PassesPermute(s, us[..|us| - 1]);
      SwapPermutes(Passes(s, us[..|us| - 1]), i, Pick(us[|us| - 1], i));
    }
  }

  lemma SwapPermutes<T>(s: seq<T>, i: nat, j: nat)
    requires i < |s| && j < |s|
    ensures multiset(Swap(s, i, j)) == multiset(s)
  {
    var t := s[i := s[j]];
    assert multiset(t) == multiset(s) - multiset{s[i]} + multiset{s[j]};
    assert multiset(t[j := s[i]]) == multiset(t) - multiset{t[j]} + multiset{s[i]};
  }

  class Rng {
    ghost const initial: bv32
    var seed: bv32
    /** The values returned so far. */
    ghost var drawn: seq<real>

    ghost predicate Valid()
      reads this
    {
      && seed == StateAfter(initial, |drawn|)
      && forall k :: 0 <= k < |drawn| ==> drawn[k] == Draw(initial, k)
    }

    /** The values returned so far are the first values of the stream of
        the seed, so two generators from the same seed return the same
        values (StreamPrefix). */
    lemma DrawnIsStream()
      requires Valid()
      ensures drawn == Stream(initial, |drawn|)
    {
      forall k | 0 <= k < |drawn|
        ensures drawn[k] == Stream(initial, |drawn|)[k]
      {
        StreamDraws(initial, |drawn|, k);
      }
    }

    /** createSeededRandom: `seed` is the 32-bit pattern of the integer seed. */
    constructor (seed: bv32)
      ensures Valid() && initial == seed && drawn == []
    {
      initial := seed;
      this.seed := seed;
      drawn := [];
    }

    /** float(): advance the state by the increment, then mix. */
    method Float() returns (r: real)
      requires Valid()
      modifies this
      ensures Valid() && drawn == old(drawn) + [r]
      ensures r == Draw(initial, |drawn| - 1) && 0.0 <= r < 1.0
    {
      seed := seed + Increment;
      r := ToUnit(Mix(seed));
      drawn := drawn + [r];
    }

    /** range(min, max): in [min, max) when min < max. */
    method Range(min: real, max: real) returns (r: real)
      requires Valid()
      modifies this
      ensures Valid() && |drawn| == |old(drawn)| + 1 && drawn[..|drawn| - 1] == old(drawn)
      ensures r == Scale(min, max, drawn[|drawn| - 1])
      ensures min < max ==> min <= r < max
    {
      var u := Float();
      r := Scale(min, max, u);
      if min < max {
        ScaleBounds(min, max, u);
      }
    }

    /** int(min, max): in [min, max] for integers min <= max. */
    method Int(min: int, max: int) returns (r: int)
      requires Valid()
      modifies this
      ensures Valid() && |drawn| == |old(drawn)| + 1 && drawn[..|drawn| - 1] == old(drawn)
      ensures r == Scale(min as real, (max + 1) as real, drawn[|drawn| - 1]).Floor
      ensures min <= max ==> min <= r <= max
    {
      var u := Float();
      r := Scale(min as real, (max + 1) as real, u).Floor;
      if min <= max {
        ScaleBounds(min as real, (max + 1) as real, u);
      }
    }

    /** One pass of the shuffle loop: draw, then swap index i with the
        picked index at or below it. */
    method SwapStep<T>(result: array<T>, i: int) returns (u: real)
      requires Valid() && 0 < i < result.Length
      modifies this, result
      ensures Valid() && drawn == old(drawn) + [u] && 0.0 <= u < 1.0
      ensures result[..] == Swap(old(result[..]), i, Pick(u, i))
    {
      u := Float();
      var j := Pick(u, i);
      result[i], result[j] := result[j], result[i];
    }

    /** shuffle(array): a shuffled copy; the input is left as it is and one
        value is drawn for each index from the last down to 1. */
    method Shuffle<T>(a: array<T>) returns (result: array<T>)
      requires Valid()
      modifies this
      ensures Valid() && fresh(result) && result.Length == a.Length
      ensures |old(drawn)| <= |drawn| && drawn[..|old(drawn)|] == old(drawn)
      ensures |drawn| - |old(drawn)| == if a.Length == 0 then 0 else a.Length - 1
      ensures InUnit(drawn[|old(drawn)|..])
      ensures result[..] == Passes(a[..], drawn[|old(drawn)|..])
      ensures multiset(result[..]) == multiset(a[..])
    {
      result := new T[a.Length](k requires 0 <= k < a.Length reads a => a[k]);
      assert result[..] == a[..];
      ghost var start := |drawn|;
      ghost var s0 := a[..];
      var i := a.Length - 1;
      while i > 0
        invariant Valid() && fresh(result) && result.Length == a.Length
        invariant if a.Length == 0 then i == -1 else 0 <= i < a.Length
        invariant start <= |drawn| && drawn[..start] == old(drawn)
        invariant |drawn| - start == a.Length - 1 - i
        invariant InUnit(drawn[start..])
        invariant result[..] == Passes(s0, drawn[start..])
        decreases i
      {
        ghost var before := drawn[start..];
        ghost var prior := drawn;
        var u := SwapStep(result, i);
        AppendSuffix(prior, u, start);
        PassesStep(s0, before, u, i);
        i := i - 1;
      }
      PassesPermute(s0, drawn[start..]);
    }
  }
}
