/**
 * The server's HTTP/2 counters (`CustomHttp2Metrics`): two
 * `AtomicInteger`s, the open SSE connections and the price sends in flight.
 * An `AtomicInteger` holds a 32-bit two's-complement value, so
 * `incrementAndGet` at the largest value wraps to the smallest one, and
 * nothing stops a decrement below zero.
 */
module Metrics {
  import Decimals

  const INT_MIN: int := -0x8000_0000
  const INT_MAX: int := 0x7fff_ffff
  const TWO_POW_32: int := 0x1_0000_0000

  predicate IsInt32(x: int) { INT_MIN <= x <= INT_MAX }

  /** The 32-bit two's-complement value congruent to `x`. */
  function Wrap32(x: int): (r: int)
    ensures IsInt32(r)
    ensures IsInt32(x) ==> r == x
  {
    (x - INT_MIN) % TWO_POW_32 + INT_MIN
  }

  /** Wrapping moves a value by a whole number of 2^32 steps. */
  lemma WrapCongruent(x: int)
    ensures (Wrap32(x) - x) % TWO_POW_32 == 0
  {
  }

  /** `incrementAndGet` on a 32-bit counter: the largest value steps to the smallest. */
  function Inc32(x: int): int { if x == INT_MAX then INT_MIN else x + 1 }

  /** `decrementAndGet` on a 32-bit counter: the smallest value steps to the largest. */
  function Dec32(x: int): int { if x == INT_MIN then INT_MAX else x - 1 }

  /** On 32-bit values the counter steps are addition modulo 2^32. */
  lemma StepsWrap(x: int)
    requires IsInt32(x)
    ensures Inc32(x) == Wrap32(x + 1) && IsInt32(Inc32(x))
    ensures Dec32(x) == Wrap32(x - 1) && IsInt32(Dec32(x))
  {
    if x == INT_MAX {
      WrapStep(INT_MIN);
    }
    if x == INT_MIN {
      WrapStep(INT_MAX - TWO_POW_32);
    }
  }

  /** Adding after wrapping is the same as wrapping after adding. */
  lemma WrapAdd(x: int, d: int)
    ensures Wrap32(Wrap32(x) + d) == Wrap32(x + d)
  {
    var w := Wrap32(x);
    WrapCongruent(x);
    var q := (w - x) / TWO_POW_32;
    assert w == x + q * TWO_POW_32;
    WrapShift(x + d, q);
  }

  /** Adding a multiple of 2^32 does not change the wrapped value. */
  lemma {:induction false} WrapShift(x: int, q: int)
    ensures Wrap32(x + q * TWO_POW_32) == Wrap32(x)
    decreases if q < 0 then -q else q
  {
    if q > 0 {
      WrapShift(x, q - 1);
      WrapStep(x + (q - 1) * TWO_POW_32);
    } else if q < 0 {
      WrapShift(x, q + 1);
      WrapStep(x + q * TWO_POW_32);
    }
  }

  lemma WrapStep(x: int)
    ensures Wrap32(x + TWO_POW_32) == Wrap32(x)
  {
  }

  /** A decrement undoes an increment and an increment undoes a decrement, even across the wrap. */
  lemma IncDecInverse(x: int)
    requires IsInt32(x)
    ensures Dec32(Inc32(x)) == x
    ensures Inc32(Dec32(x)) == x
  {
  }

  /** The counters wrap around at the ends of the 32-bit range and have no floor at zero. */
  lemma CounterEdges()
    ensures Inc32(INT_MAX) == INT_MIN
    ensures Dec32(INT_MIN) == INT_MAX
    ensures Dec32(0) == -1
  {
  }

  /** The counter after a run of steps, `true` for an increment and `false` for a decrement. */
  function Counted(start: int, steps: seq<bool>): int
  {
    if steps == [] then start
    else
      var before := Counted(start, steps[..|steps| - 1]);
      if steps[|steps| - 1] then Inc32(before) else Dec32(before)
  }

  /** Increments minus decrements in a run of steps. */
  function Net(steps: seq<bool>): int
  {
    if steps == [] then 0 else Net(steps[..|steps| - 1]) + (if steps[|steps| - 1] then 1 else -1)
  }

  lemma CountedAppend(start: int, steps: seq<bool>, up: bool)
    ensures Counted(start, steps + [up]) == if up then Inc32(Counted(start, steps)) else Dec32(Counted(start, steps))
    ensures Net(steps + [up]) == Net(steps) + if up then 1 else -1
  {
    assert (steps + [up])[..|steps|] == steps;
  }

  /** Whatever the order, a run of steps leaves the net count wrapped to 32 bits. */
  lemma {:induction false} CountedIsWrappedNet(start: int, steps: seq<bool>)
    requires IsInt32(start)
    ensures Counted(start, steps) == Wrap32(start + Net(steps))
  {
    if steps != [] {
      var prefix := steps[..|steps| - 1];
      CountedIsWrappedNet(start, prefix);
      var before := Counted(start, prefix);
      StepsWrap(before);
      WrapAdd(start + Net(prefix), if steps[|steps| - 1] then 1 else -1);
    }
  }

  class CustomHttp2Metrics {
    var activeConnections: int
    var activeStreams: int

    ghost predicate Valid()
      reads this
    {
      IsInt32(activeConnections) && IsInt32(activeStreams)
    }

    /** Both counters start at 0. */
    constructor ()
      ensures Valid()
      ensures activeConnections == 0 && activeStreams == 0
    {
      activeConnections := 0;
      activeStreams := 0;
    }

    method IncrementConnections()
      requires Valid()
      modifies this
      ensures Valid()
      ensures activeConnections == Inc32(old(activeConnections))
      ensures activeStreams == old(activeStreams)
    {
      activeConnections := Inc32(activeConnections);
    }

    method DecrementConnections()
      requires Valid()
      modifies this
      ensures Valid()
      ensures activeConnections == Dec32(old(activeConnections))
      ensures activeStreams == old(activeStreams)
    {
      activeConnections := Dec32(activeConnections);
    }

    method IncrementStreams()
      requires Valid()
      modifies this
      ensures Valid()
      ensures activeStreams == Inc32(old(activeStreams))
      ensures activeConnections == old(activeConnections)
    {
      activeStreams := Inc32(activeStreams);
    }

    method DecrementStreams()
      requires Valid()
      modifies this
      ensures Valid()
      ensures activeStreams == Dec32(old(activeStreams))
      ensures activeConnections == old(activeConnections)
    {
      activeStreams := Dec32(activeStreams);
    }

    method GetActiveConnections() returns (n: int)
      requires Valid()
      ensures n == activeConnections && IsInt32(n)
    {
      n := activeConnections;
    }

    method GetActiveStreams() returns (n: int)
      requires Valid()
      ensures n == activeStreams && IsInt32(n)
    {
      n := activeStreams;
    }

    /**
     * The two log lines `printMetrics` writes, returned instead of logged;
     * each ends in the decimal text of the current counter.
     */
    method PrintMetrics() returns (lines: seq<string>)
      requires Valid()
      ensures |lines| == 2
      ensures lines[0] == "Active HTTP/2 Connections: " + Decimals.IntText(activeConnections)
      ensures lines[1] == "Active HTTP/2 Streams: " + Decimals.IntText(activeStreams)
    {
      var connections := GetActiveConnections();
      var streams := GetActiveStreams();
      lines := ["Active HTTP/2 Connections: " + Decimals.IntText(connections),
                "Active HTTP/2 Streams: " + Decimals.IntText(streams)];
    }
  }
}
