/**
 * `useDebounce`: despite its name a leading-edge throttle. A call goes through only when at
 * least `delay` milliseconds have passed since the last call that went through; the clock
 * (`Date.now()`) is the input `now`.
 */
module Throttle {
  import opened Wrappers

  const DefaultDelay := 1000

  /** The time of the last accepted call, 0 before any. */
  function LastOr0(accepted: seq<int>): int {
    if accepted == [] then 0 else accepted[|accepted| - 1]
  }

  /** The times of the calls that go through, for calls made at `times` in order. */
  function Accepted(times: seq<int>, delay: int): (r: seq<int>)
    ensures |r| <= |times|
    ensures forall k :: 0 <= k < |r| ==> r[k] in times
  {
    if times == [] then []
    else
      var acc := Accepted(times[..|times| - 1], delay);
      var now := times[|times| - 1];
      assert forall t :: t in times[..|times| - 1] ==> t in times;
      if now - LastOr0(acc) < delay then acc else acc + [now]
  }

  /** Each accepted time is at least `delay` after the one before it, the first at least `delay` after 0. */
  predicate Spaced(ts: seq<int>, delay: int) {
    && (|ts| > 0 ==> ts[0] >= delay)
    && forall i :: 0 < i < |ts| ==> ts[i] - ts[i - 1] >= delay
  }

  /** Whatever the call times, the calls that go through are spaced by `delay`. */
  lemma {:induction false} AcceptedSpaced(times: seq<int>, delay: int)
    ensures Spaced(Accepted(times, delay), delay)
    decreases |times|
  {
    if times != [] {
      AcceptedSpaced(times[..|times| - 1], delay);
    }
  }

  /** With a non-negative delay, spacing between neighbours spaces every pair. */
  lemma {:induction false} SpacedPairwise(ts: seq<int>, delay: int, i: nat, j: nat)
    requires delay >= 0 && Spaced(ts, delay)
    requires i < j < |ts|
    ensures ts[j] - ts[i] >= delay
    decreases j
  {
    if i < j - 1 {
      SpacedPairwise(ts, delay, i, j - 1);
    }
  }

  /** Any two calls that go through are at least `delay` apart. */
  lemma AcceptedApart(times: seq<int>, delay: int, i: nat, j: nat)
    requires delay >= 0
    requires i < j < |Accepted(times, delay)|
    ensures Accepted(times, delay)[j] - Accepted(times, delay)[i] >= delay
  {
    AcceptedSpaced(times, delay);
    SpacedPairwise(Accepted(times, delay), delay, i, j);
  }

  /** The hook's state: the delay it was made with and `lastCallRef.current`. */
  class Debounced<A> {
    const delay: int
    var lastCall: int
    /** The times of every call so far, accepted or not. */
    ghost var calls: seq<int>

    ghost predicate Valid()
      reads this
    {
      lastCall == LastOr0(Accepted(calls, delay))
    }

    constructor (delay: int := DefaultDelay)
      ensures this.delay == delay && lastCall == 0 && calls == []
      ensures Valid()
    {
      this.delay := delay;
      lastCall := 0;
      calls := [];
    }

    /**
     * The debounced callback called at `now` with `args`: dropped when `now - lastCall < delay`;
     * otherwise `lastCall` becomes `now` and the callback runs with `args` (the result).
     */
    method Call(now: int, args: A) returns (invoked: Option<A>)
      requires Valid()
      modifies this
      ensures calls == old(calls) + [now]
      ensures invoked.Some? <==> now - old(lastCall) >= delay
      ensures invoked.Some? ==> invoked.value == args && lastCall == now
      ensures invoked.None? ==> lastCall == old(lastCall)
      ensures Accepted(calls, delay) ==
        if invoked.Some? then Accepted(old(calls), delay) + [now] else Accepted(old(calls), delay)
      ensures Valid()
    {
      calls := calls + [now];
      assert calls[..|calls| - 1] == old(calls);
      if now - lastCall < delay {
        return None;
      }
      lastCall := now;
      invoked := Some(args);
    }
  }

  /** A second submit half a second after the first is dropped; one after the delay goes through. */
  method RepeatedSubmits() returns (first: Option<int>, second: Option<int>, third: Option<int>)
    ensures first == Some(1) && second == None && third == Some(3)
  {
    var submit := new Debounced<int>();
    first := submit.Call(5000, 1);
    second := submit.Call(5500, 2);
    third := submit.Call(6000, 3);
  }
}
