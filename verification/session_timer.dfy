/**
 * The standalone session-timer component: a 25-minute countdown with a
 * start/pause button and a reset button. Its `seconds`, `isRunning` and interval
 * handle are state the component updates in place, so it is a class here.
 */
module SessionTimerComponent {
  import opened Countdown

  /** The initial and reset value of the counter: 25:00. */
  const DefaultSeconds: int := 1500

  class SessionTimer {
    var seconds: int
    var isRunning: bool
    /** True while a one-second interval is registered and not yet cleared. */
    var intervalActive: bool

    /**
     * The counter never leaves [0, 1500], and an interval is registered exactly
     * while the timer runs, so ticks fire only while running.
     */
    ghost predicate Valid()
      reads this
    {
      0 <= seconds <= DefaultSeconds && intervalActive == isRunning
    }

    /** Mount: `seconds = 1500`, not running; the running-state effect registers nothing. */
    constructor ()
      ensures Valid()
      ensures seconds == DefaultSeconds && !isRunning && !intervalActive
    {
      seconds := DefaultSeconds;
      isRunning := false;
      intervalActive := false;
    }

    /**
     * The effect keyed on `isRunning`: the previous run's cleanup clears the interval,
     * then the body registers a new one when running and clears it otherwise.
     */
    method RunningEffect()
      modifies this`intervalActive
      ensures intervalActive == isRunning
    {
      intervalActive := false;
      if isRunning {
        intervalActive := true;
      } else {
        intervalActive := false;
      }
    }

    /**
     * One firing of the interval. The counter is checked before it is decremented:
     * at zero it stays at zero and the timer stops; otherwise it drops by one and
     * the running flag is untouched.
     */
    method Tick()
      requires Valid() && intervalActive
      modifies this
      ensures Valid()
      ensures old(seconds) <= 0 ==> seconds == 0 && !isRunning
      ensures old(seconds) > 0 ==> seconds == old(seconds) - 1 && isRunning == old(isRunning)
    {
      var t := TickUpdate(seconds);
      seconds := t.next;
      if t.stop {
        isRunning := false;
        RunningEffect();
      }
    }

    /** The start/pause button negates `isRunning`; there is no check on `seconds`. */
    method Toggle()
      requires Valid()
      modifies this
      ensures Valid()
      ensures isRunning == !old(isRunning) && seconds == old(seconds)
    {
      isRunning := !isRunning;
      RunningEffect();
    }

    /** `handleReset`: stops the timer and re-arms 25:00 from any state. */
    method HandleReset()
      requires Valid()
      modifies this
      ensures Valid()
      ensures !isRunning && seconds == DefaultSeconds
    {
      var wasRunning := isRunning;
      isRunning := false;
      seconds := DefaultSeconds;
      if wasRunning {
        RunningEffect();
      }
    }
  }
}
