/**
 * The frequency limiter (src/native/stages/common/limiter.cpp and
 * limiter.h). Call number `calls` is due `calls * 1000 / frequency`
 * milliseconds after an anchor time; `wait` sleeps only the deficit to that
 * due time, so the schedule does not drift with the work done between calls.
 *
 * The performance counter becomes a `now` parameter (in counter ticks) and
 * `Sleep` becomes the returned number of milliseconds to sleep.
 */
module Pacing {
  import opened Common

  /** The due time of call `calls`, in milliseconds after the anchor (integer division). */
  function ElapsedMs(calls: nat, frequency: nat): nat
    requires frequency > 0
  {
    calls * 1000 / frequency
  }

  /**
   * The same quantity as limiter.cpp:28 computes it: `calls` is an
   * `unsigned`, so `calls * 1000` is reduced modulo 2^32 before the division.
   */
  function ElapsedMsAsWritten(calls: u32, frequency: u32): nat
    requires frequency > 0
  {
    U32(calls * 1000) / frequency
  }

  /** Performance-counter ticks per millisecond (`performanceFrequency.QuadPart / 1000`). */
  function TicksPerMs(performanceFrequency: int): int
  {
    performanceFrequency / 1000
  }

  /**
   * The counter value at which call `calls` is due, as limiter.cpp:28-29
   * computes it: the due time in milliseconds comes from the wrapped 32-bit
   * product `ElapsedMsAsWritten`.
   */
  function TargetTime(anchor: int, calls: u32, frequency: u32, ticksPerMs: nat): int
    requires frequency > 0
  {
    anchor + ElapsedMsAsWritten(calls, frequency) * ticksPerMs
  }

  /** The anchor after `getWait` reads the clock: a zero start time means "not anchored yet". */
  function Anchor(startTime: int, now: int): int
  {
    if startTime == 0 then now else startTime
  }

  lemma DivBounds(d: int, t: int)
    requires t > 0
    ensures d >= 0 ==> (d / t) * t <= d < (d / t + 1) * t
  {
  }

  /**
   * `getWait`: whole milliseconds until the due time, never negative. A
   * positive wait wakes the caller less than one millisecond before the due
   * time; the wait is zero exactly when the due time is less than one
   * millisecond away or past.
   */
  function WaitMs(anchor: int, calls: u32, frequency: u32, ticksPerMs: nat, now: int): (w: nat)
    requires frequency > 0 && ticksPerMs > 0
    ensures w > 0 ==> now + w * ticksPerMs <= TargetTime(anchor, calls, frequency, ticksPerMs)
                                            < now + (w + 1) * ticksPerMs
    ensures w == 0 <==> TargetTime(anchor, calls, frequency, ticksPerMs) < now + ticksPerMs
  {
    var d := TargetTime(anchor, calls, frequency, ticksPerMs) - now;
    DivBounds(d, ticksPerMs);
    var wait := TruncDiv(d, ticksPerMs);
    if wait > 0 then wait else 0
  }

  /**
   * What `getWait` produces: a number of milliseconds, or the trap of
   * limiter.cpp:28 dividing by a zero frequency. The trap is a processor
   * exception, not a C++ one, so nothing in the program catches it.
   */
  datatype Pace = Paced(ms: nat) | DividedByZero

  /**
   * The failure the model reports for that trap. The source has no message
   * for it: the processing loop catches only `std::exception`, so the trap
   * ends the process.
   */
  const IntegerDivideByZero: string := "integer division by zero"

  /** What a limiter anchored at `startTime` with `calls` calls reports at `now`, anchoring first if need be. */
  function WaitAt(startTime: int, calls: u32, frequency: u32, ticksPerMs: nat, now: int): (p: Pace)
    requires ticksPerMs > 0
    ensures p.DividedByZero? <==> frequency == 0
  {
    if frequency == 0 then DividedByZero else Paced(WaitMs(Anchor(startTime, now), calls, frequency, ticksPerMs, now))
  }

  class Limiter {
    const frequency: u32
    const performanceFrequency: int
    var calls: u32
    var startTime: int

    /** `Limiter(targetFrequency)`: no calls yet and no anchor. */
    constructor (targetFrequency: u32, performanceFrequency: int)
      ensures frequency == targetFrequency && this.performanceFrequency == performanceFrequency
      ensures calls == 0 && startTime == 0
    {
      frequency := targetFrequency;
      this.performanceFrequency := performanceFrequency;
      calls := 0;
      startTime := 0;
    }

    /**
     * The counter resolves milliseconds: `QueryPerformanceFrequency` reports
     * at least 1000 ticks per second, so the divisor `performanceFrequency / 1000`
     * is not zero.
     */
    predicate ClockResolves()
    {
      TicksPerMs(performanceFrequency) > 0
    }

    /** The limiter divides by its frequency too: a zero frequency traps when the limiter is first used. */
    predicate CanPace()
    {
      frequency > 0 && ClockResolves()
    }

    /** `getWait()`: anchors on first use, never changes `calls`; traps on a zero frequency. */
    method GetWait(now: int) returns (wait: Pace)
      requires ClockResolves()
      modifies this`startTime
      ensures startTime == Anchor(old(startTime), now)
      ensures wait == WaitAt(old(startTime), calls, frequency, TicksPerMs(performanceFrequency), now)
    {
      if startTime == 0 {
        startTime := now;
      }
      if frequency == 0 {
        return DividedByZero;
      }
      var elapsedMs := U32(calls * 1000) / frequency;
      var ticksPerMs := performanceFrequency / 1000;
      var nextCallTime := startTime + elapsedMs * ticksPerMs;
      var w := TruncDiv(nextCallTime - now, ticksPerMs);
      wait := Paced(if w > 0 then w else 0);
    }

    /** `wait()`: sleeps exactly the current wait, then counts one call; a trap counts nothing. */
    method Wait(now: int) returns (slept: Pace)
      requires ClockResolves()
      modifies this
      ensures startTime == Anchor(old(startTime), now)
      ensures slept == WaitAt(old(startTime), old(calls), frequency, TicksPerMs(performanceFrequency), now)
      ensures calls == if frequency == 0 then old(calls) else U32(old(calls) + 1)
    {
      slept := GetWait(now);
      if slept.DividedByZero? {
        return;
      }
      calls := U32(calls + 1);
    }

    /** `reset()`: forget all calls and re-anchor at the current time. */
    method Reset(now: int)
      modifies this
      ensures calls == 0 && startTime == now
    {
      calls := 0;
      startTime := now;
    }
  }

  /** On a fresh anchor (no calls yet, clock not behind the anchor) there is nothing to wait for. */
  lemma FirstCallDoesNotWait(startTime: int, now: int, frequency: u32, ticksPerMs: nat)
    requires frequency > 0 && ticksPerMs > 0
    requires startTime == 0 || startTime <= now
    ensures WaitMs(Anchor(startTime, now), 0, frequency, ticksPerMs, now) == 0
  {
  }

  /** `reset()` at time t0 followed by `getWait()` at t1 >= t0 asks for no sleep. */
  lemma ResetThenWaitIsZero(t0: int, t1: int, frequency: u32, ticksPerMs: nat)
    requires frequency > 0 && ticksPerMs > 0
    requires t0 <= t1
    ensures WaitMs(Anchor(t0, t1), 0, frequency, ticksPerMs, t1) == 0
  {
  }

  /** The due time of call n is within one millisecond of the ideal n / frequency seconds. */
  lemma ScheduleWithinOneMs(calls: nat, frequency: nat)
    requires frequency > 0
    ensures ElapsedMs(calls, frequency) * frequency <= calls * 1000
    ensures calls * 1000 < (ElapsedMs(calls, frequency) + 1) * frequency
  {
    DivBounds(calls * 1000, frequency);
  }

  /** Later calls are never due earlier. */
  lemma {:induction false} ScheduleMonotone(c1: nat, c2: nat, frequency: nat)
    requires frequency > 0 && c1 <= c2
    ensures ElapsedMs(c1, frequency) <= ElapsedMs(c2, frequency)
  {
    var e1, e2 := ElapsedMs(c1, frequency), ElapsedMs(c2, frequency);
    ScheduleWithinOneMs(c1, frequency);
    ScheduleWithinOneMs(c2, frequency);
    MulMonotone(1000, c1, c2);
    MulCancel(frequency, e1, e2 + 1);
  }

  /** Up to 4294967 calls the 32-bit product does not wrap and the schedule is as intended. */
  lemma AsWrittenAgreesBeforeWrap(calls: u32, frequency: u32)
    requires frequency > 0 && calls <= 4294967
    ensures ElapsedMsAsWritten(calls, frequency) == ElapsedMs(calls, frequency)
  {
  }

  /**
   * As written, call 4294968 at the default 30 frames per second is due
   * before call 4294967: the 32-bit product wraps and the due time drops
   * by 143165543 ms, about 39.8 hours.
   */
  lemma AsWrittenScheduleRunsBackwards()
    ensures ElapsedMsAsWritten(4294967, 30) == 143165566
    ensures ElapsedMsAsWritten(4294968, 30) == 23
    ensures ElapsedMs(4294968, 30) == 143165600
  {
  }

  /**
   * However many calls have been counted, the wrapped product is below 2^32,
   * so the as-written due time never lies more than (2^32 - 1) / frequency
   * milliseconds after the anchor.
   */
  lemma AsWrittenDeadlineBounded(calls: u32, frequency: u32)
    requires frequency > 0
    ensures ElapsedMsAsWritten(calls, frequency) <= (TwoTo32 - 1) / frequency
  {
    var q, bound := ElapsedMsAsWritten(calls, frequency), (TwoTo32 - 1) / frequency;
    DivBounds(U32(calls * 1000), frequency);
    DivBounds(TwoTo32 - 1, frequency);
    if q > bound {
      MulMonotone(frequency, bound + 1, q);
    }
  }

  /**
   * Once the clock has passed that bound, `getWait` asks for no sleep
   * whatever the call count: after the wrap every later call is due in the
   * past, so pacing stops until `reset()` re-anchors the limiter.
   */
  lemma PacingEndsPastBound(anchor: int, calls: u32, frequency: u32, ticksPerMs: nat, now: int)
    requires frequency > 0 && ticksPerMs > 0
    requires now >= anchor + ((TwoTo32 - 1) / frequency) * ticksPerMs
    ensures WaitMs(anchor, calls, frequency, ticksPerMs, now) == 0
  {
    AsWrittenDeadlineBounded(calls, frequency);
    MulMonotone(ticksPerMs, ElapsedMsAsWritten(calls, frequency), (TwoTo32 - 1) / frequency);
  }

  /**
   * At 30 frames per second that bound is 143165576 ms, 10 ms after call
   * 4294967 is due: from then on, once the clock has passed it, no call of
   * the recording is paced again.
   */
  lemma PacingEndsAtThirtyFps()
    ensures (TwoTo32 - 1) / 30 == 143165576
    ensures ElapsedMsAsWritten(4294967, 30) < (TwoTo32 - 1) / 30
  {
  }

  /**
   * The limiter as it runs keeps the intended schedule until the product
   * wraps: up to 4294967 calls, the counter value a call is due at is the
   * anchor plus the intended `ElapsedMs`, and later calls are due no earlier.
   */
  lemma LimiterKeepsScheduleBeforeWrap(anchor: int, c1: u32, c2: u32, frequency: u32, ticksPerMs: nat)
    requires frequency > 0 && c1 <= c2 <= 4294967
    ensures TargetTime(anchor, c2, frequency, ticksPerMs) == anchor + ElapsedMs(c2, frequency) * ticksPerMs
    ensures TargetTime(anchor, c1, frequency, ticksPerMs) <= TargetTime(anchor, c2, frequency, ticksPerMs)
  {
    AsWrittenAgreesBeforeWrap(c1, frequency);
    AsWrittenAgreesBeforeWrap(c2, frequency);
    ScheduleMonotone(c1, c2, frequency);
    MulMonotone(ticksPerMs, ElapsedMs(c1, frequency), ElapsedMs(c2, frequency));
  }

  /**
   * After the wrap the limiter's deadline jumps back: at 30 frames per
   * second, call 4294968 is due before call 4294967, and no later due
   * time comes back ahead of the clock (`PacingEndsPastBound`).
   */
  lemma LimiterDeadlineJumpsBack(anchor: int, ticksPerMs: nat)
    requires ticksPerMs > 0
    ensures TargetTime(anchor, 4294968, 30, ticksPerMs) < TargetTime(anchor, 4294967, 30, ticksPerMs)
  {
    AsWrittenScheduleRunsBackwards();
    MulMonotone(ticksPerMs, 24, 143165566);
  }

  /**
   * A later reading never asks for a longer sleep: with the same anchor and
   * the same number of calls, the wait only shrinks as the clock advances.
   */
  lemma WaitShrinksAsTimePasses(anchor: int, calls: u32, frequency: u32, ticksPerMs: nat, t1: int, t2: int)
    requires frequency > 0 && ticksPerMs > 0 && t1 <= t2
    ensures WaitMs(anchor, calls, frequency, ticksPerMs, t2) <= WaitMs(anchor, calls, frequency, ticksPerMs, t1)
  {
    var w1, w2 := WaitMs(anchor, calls, frequency, ticksPerMs, t1), WaitMs(anchor, calls, frequency, ticksPerMs, t2);
    if w2 > 0 {
      MulMonotone(ticksPerMs, 1, w2);
      assert w1 > 0;
      MulCancel(ticksPerMs, w2, w1 + 1);
    }
  }

  /**
   * `getWait()` followed later by `wait()` with no call in between (the
   * Desktop Duplication stage's acquire): the second sleeps no longer than
   * the first reported, once the first has anchored the limiter.
   */
  lemma WaitAfterGetWaitIsNoLonger(startTime: int, calls: u32, frequency: u32, ticksPerMs: nat, t1: int, t2: int)
    requires frequency > 0 && ticksPerMs > 0 && t1 <= t2 && Anchor(startTime, t1) != 0
    ensures WaitAt(Anchor(startTime, t1), calls, frequency, ticksPerMs, t2).ms
            <= WaitAt(startTime, calls, frequency, ticksPerMs, t1).ms
  {
    var anchor := Anchor(startTime, t1);
    assert Anchor(anchor, t2) == anchor && Anchor(anchor, t1) == anchor;
    WaitShrinksAsTimePasses(anchor, calls, frequency, ticksPerMs, t1, t2);
  }
}
