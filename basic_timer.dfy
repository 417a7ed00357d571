/**
 * src/utils/Timer.ts: a stopwatch without pause. `performance.now()` is the
 * parameter `now`.
 */
module BasicTimer {

  class Timer {
    var startT: real

    constructor ()
      ensures startT == 0.0
    {
      startT := 0.0;
    }

    /** `start()`: from now on the timer measures from `now`. */
    method Start(now: real)
      modifies this
      ensures startT == now
      ensures now != 0.0 ==> Started() && forall t :: Elapsed(t) == t - now
      ensures now == 0.0 ==> !Started() && forall t :: Elapsed(t) == 0.0
    {
      startT := now;
    }

    /** `started`: the start time is non-zero. */
    predicate Started()
      reads this
    {
      startT != 0.0
    }

    /** `elapsed` at time `now`: 0 before the start, then the time since the start. */
    function Elapsed(now: real): (r: real)
      reads this
      ensures !Started() ==> r == 0.0
      ensures Started() ==> startT + r == now
    {
      if startT == 0.0 then 0.0 else now - startT
    }
  }

  /** A timer's reading grows with the clock once it has started. */
  lemma ElapsedGrows(timer: Timer, t1: real, t2: real)
    requires timer.Started() && t1 <= t2
    ensures timer.Elapsed(t1) <= timer.Elapsed(t2)
  {
  }
}
