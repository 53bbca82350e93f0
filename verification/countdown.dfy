/**
 * The one-second countdown step shared by the app's session transport and by the
 * standalone session-timer component. Both pass the same functional updater to their
 * `seconds` state setter: the counter is inspected BEFORE it is decremented, so the
 * tick that finds it at (or below) zero is the one that stops playback.
 */
module Countdown {

  /** What one tick does: the new counter value and whether playback must stop. */
  datatype TickResult = TickResult(next: int, stop: bool)

  /** The functional updater passed to the seconds setter on every interval tick. */
  function TickUpdate(prev: int): (r: TickResult)
    ensures prev <= 0 ==> r.next == 0 && r.stop
    ensures prev > 0 ==> r.next == prev - 1 && !r.stop
    ensures r.next >= 0
  {
    if prev <= 0 then TickResult(0, true) else TickResult(prev - 1, false)
  }

  /** The transport as the interval sees it: the counter and the playing flag. */
  datatype Clock = Clock(seconds: int, playing: bool)

  /**
   * One firing of the interval. The interval exists only while the clock is playing,
   * so a paused clock is not touched.
   */
  function Step(c: Clock): Clock
  {
    if c.playing then
      var t := TickUpdate(c.seconds);
      Clock(t.next, !t.stop)
    else c
  }

  /** `k` consecutive firings of the interval. */
  function Steps(c: Clock, k: nat): Clock
    decreases k
  {
    if k == 0 then c else Steps(Step(c), k - 1)
  }

  /** A counter that starts non-negative stays non-negative, whatever the number of ticks. */
  lemma {:induction false} StepsKeepNonNegative(c: Clock, k: nat)
    requires c.seconds >= 0
    ensures Steps(c, k).seconds >= 0
    decreases k
  {
    if k > 0 {
      StepsKeepNonNegative(Step(c), k - 1);
    }
  }

  /**
   * From `n` seconds while playing, `n` ticks bring the counter to zero with playback
   * still on, every intermediate tick leaves it playing, and tick `n + 1` stops it.
   */
  lemma {:induction false} CountdownReachesZero(n: nat)
    ensures forall k :: 0 <= k <= n ==> Steps(Clock(n, true), k) == Clock(n - k, true)
    ensures Steps(Clock(n, true), n + 1) == Clock(0, false)
  {
    if n == 0 {
      assert Steps(Clock(0, true), 1) == Steps(Clock(0, false), 0);
    } else {
      CountdownReachesZero(n - 1);
      forall k | 0 <= k <= n
        ensures Steps(Clock(n, true), k) == Clock(n - k, true)
      {
        if k > 0 {
          assert Step(Clock(n, true)) == Clock(n - 1, true);
        }
      }
      assert Step(Clock(n, true)) == Clock(n - 1, true);
    }
  }

  /** Once the clock has stopped, further ticks change nothing: no decrement after zero. */
  lemma {:induction false} StoppedClockIsFixed(c: Clock, k: nat)
    requires !c.playing
    ensures Steps(c, k) == c
  {
    if k > 0 {
      StoppedClockIsFixed(c, k - 1);
    }
  }

  /**
   * No decrement after zero: from `n` seconds while playing, every run of more
   * than `n` ticks ends stopped at 0.
   */
  lemma {:induction false} NoDecrementAfterZero(n: nat)
    ensures forall k :: k > n ==> Steps(Clock(n, true), k) == Clock(0, false)
  {
    forall k | k > n
      ensures Steps(Clock(n, true), k) == Clock(0, false)
    {
      StopsAfterZero(n, k);
    }
  }

  lemma {:induction false} StopsAfterZero(n: nat, k: nat)
    requires k > n
    ensures Steps(Clock(n, true), k) == Clock(0, false)
    decreases n
  {
    if n == 0 {
      assert Step(Clock(0, true)) == Clock(0, false);
      StoppedClockIsFixed(Clock(0, false), k - 1);
    } else {
      assert Step(Clock(n, true)) == Clock(n - 1, true);
      StopsAfterZero(n - 1, k - 1);
    }
  }
}
