/**
  The millisecond timer every duration of the firmware is tracked with.
  The current tick (the firmware's `millis()`) is passed in as `now`; it
  is an unsigned 32-bit counter, so the elapsed time is computed with
  32-bit wrap-around, as unsigned subtraction does.
 */
module Timer {
  import opened ArduinoString

  const TICK_MODULUS: int := 0x1_0000_0000

  /** Milliseconds from tick `start` to tick `now`, modulo 2^32. */
  function Elapsed(start: uint32, now: uint32): (e: uint32)
    ensures start <= now ==> e == now - start
    ensures now < start ==> e == now + TICK_MODULUS - start
  {
    (now - start) % TICK_MODULUS
  }

  /** The observable state of a timer. */
  datatype TimerState = TimerState(running: bool, startTick: uint32, duration: uint32)

  class SimpleTimer {
    var running: bool
    var startTick: uint32
    var duration: uint32

    function State(): (state: TimerState)
      reads this
    {
      TimerState(running, startTick, duration)
    }

    /** A new timer is stopped. */
    constructor ()
      ensures State() == TimerState(false, 0, 0)
    {
      running, startTick, duration := false, 0, 0;
    }

    /** Arms the timer with `d` milliseconds, counting from `now`. */
    method Start(d: uint32, now: uint32)
      modifies this
      ensures State() == TimerState(true, now, d)
    {
      duration := d;
      startTick := now;
      running := true;
    }

    /** Re-arms the timer from `now` with the duration it was last started with. */
    method Restart(now: uint32)
      modifies this
      ensures State() == TimerState(true, now, old(duration))
    {
      startTick := now;
      running := true;
    }

    /** Stops the timer; the armed duration is kept for a later restart. */
    method Stop()
      modifies this
      ensures State() == old(State()).(running := false)
    {
      running := false;
    }

    /** Whether the timer is armed; a timer that is not armed never times out. */
    function IsTimerRunning(): (r: bool)
      reads this
      ensures r == State().running
      ensures !r ==> forall now: uint32 :: !IsTimeout(now)
    {
      running
    }

    /** Whether the armed duration has elapsed at tick `now`. A stopped timer
        never times out; a running timer armed with 0 has always timed out. */
    function IsTimeout(now: uint32): (r: bool)
      reads this
      ensures r ==> running
      ensures running && duration == 0 ==> r
      ensures r <==> running && duration <= Elapsed(startTick, now)
    {
      running && Elapsed(startTick, now) >= duration
    }
  }

  /** Once timed out, a timer stays timed out while time moves on (before
      the 32-bit tick counter wraps past the start tick). */
  lemma TimeoutPersists(t: SimpleTimer, now: uint32, later: uint32)
    requires t.IsTimeout(now)
    requires Elapsed(t.startTick, now) <= Elapsed(t.startTick, later)
    ensures t.IsTimeout(later)
  {
  }

  /** A timer just armed with a positive duration has not timed out, and does
      not until that duration has elapsed. */
  lemma NoTimeoutBeforeDuration(t: SimpleTimer, now: uint32)
    requires t.running
    requires Elapsed(t.startTick, now) < t.duration
    ensures !t.IsTimeout(now)
  {
  }

  /**
    The sequence of checks of the firmware's timer test, in order: a new
    timer, `start(0)`, `stop()`, `restart()`, `start(0)` again and then
    `start(100)`. `ticks[k]` is what `millis()` reads at the k-th call that
    reads it; only the last query has to come within 100 ms of `start(100)`.
   */
  method TestSimpleTimer(ticks: seq<uint32>) returns (observed: seq<bool>)
    requires |ticks| == 10
    requires Elapsed(ticks[8], ticks[9]) < 100
    ensures observed == [false, false, true, true, true, false, false, true, true, true, false]
  {
    var testTimer := new SimpleTimer();

    /* Timer must be stopped */
    observed := [testTimer.IsTimerRunning(), testTimer.IsTimeout(ticks[0])];

    /* Start and check */
    testTimer.Start(0, ticks[1]);
    observed := observed + [testTimer.IsTimerRunning(), testTimer.IsTimeout(ticks[2]), testTimer.IsTimerRunning()];

    /* Stop timer and check again */
    testTimer.Stop();
    observed := observed + [testTimer.IsTimerRunning(), testTimer.IsTimeout(ticks[3])];

    /* Restart timer */
    testTimer.Restart(ticks[4]);
    observed := observed + [testTimer.IsTimerRunning(), testTimer.IsTimeout(ticks[5])];

    /* Start timer and start it again after timeout */
    testTimer.Start(0, ticks[6]);
    observed := observed + [testTimer.IsTimeout(ticks[7])];
    testTimer.Start(100, ticks[8]);
    observed := observed + [testTimer.IsTimeout(ticks[9])];
    testTimer.Stop();
  }
}
