/**
 * src/utils/classes/Timer.ts: a game timer that can be started with an
 * offset (a positive offset counts down before zero), paused and resumed.
 * Time spent paused is accumulated in `pausedTime` and not counted as
 * elapsed. `performance.now()` is the parameter `now`; the readings one call
 * takes are the same instant. The development-build assertions that the
 * pause time is truthy (non-zero) are preconditions.
 */
module PausableTimer {
  import opened Wrappers

  /**
   * What `elapsed` reports at time `now` for the given fields: nothing
   * before the start, otherwise the time since the start less the time
   * spent paused, a pause in progress counted up to `now`.
   */
  function ElapsedOf(startT: real, pausedT: Option<real>, pausedTime: real, now: real): real {
    if startT == 0.0 then 0.0
    else
      var paused := pausedTime + (if pausedT.Some? then now - pausedT.value else 0.0);
      now - startT - paused
  }

  /** While a pause is in progress the reported time stands still. */
  lemma PausedStandsStill(startT: real, pausedAt: real, pausedTime: real, t1: real, t2: real)
    ensures ElapsedOf(startT, Some(pausedAt), pausedTime, t1) == ElapsedOf(startT, Some(pausedAt), pausedTime, t2)
  {
  }

  /** Outside a pause the reported time advances with the clock. */
  lemma RunningAdvances(startT: real, pausedTime: real, t1: real, t2: real)
    requires startT != 0.0
    ensures ElapsedOf(startT, None, pausedTime, t2) == ElapsedOf(startT, None, pausedTime, t1) + (t2 - t1)
  {
  }

  /** Just after `start` the timer reports minus the offset. */
  lemma StartReportsOffset(now: real, offset: real)
    requires now + offset != 0.0
    ensures ElapsedOf(now + offset, None, 0.0, now) == -offset
  {
  }

  /** Pausing again at `p2` after pausing at `p1` counts the time between the two pauses as elapsed. */
  lemma RepeatedPause(startT: real, p1: real, p2: real, pausedTime: real, now: real)
    requires startT != 0.0
    ensures ElapsedOf(startT, Some(p2), pausedTime, now) == ElapsedOf(startT, Some(p1), pausedTime, now) + (p2 - p1)
  {
  }

  class Timer {
    var startT: real
    var pausedT: Option<real>
    var pausedTime: real
    const offset: real

    /** `new Timer({ offset })`: not started, not paused. */
    constructor (offset: real)
      ensures startT == 0.0 && pausedT == None && pausedTime == 0.0 && this.offset == offset
    {
      startT := 0.0;
      pausedT := None;
      pausedTime := 0.0;
      this.offset := offset;
    }

    /** `started`: the start time is non-zero. */
    predicate Started()
      reads this
    {
      startT != 0.0
    }

    /** `paused`. */
    predicate Paused()
      reads this
    {
      pausedT.Some?
    }

    /** What `elapsed` would report at time `t`. */
    function ElapsedAt(t: real): real
      reads this
    {
      ElapsedOf(startT, pausedT, pausedTime, t)
    }

    /** `start()`. */
    method Start(now: real)
      modifies this
      ensures startT == now + offset && pausedT == old(pausedT) && pausedTime == old(pausedTime)
      ensures Started() <==> now + offset != 0.0
    {
      startT := now + offset;
    }

    /** `pause()`: an earlier pause start is overwritten. */
    method Pause(now: real)
      modifies this
      ensures pausedT == Some(now) && startT == old(startT) && pausedTime == old(pausedTime)
      ensures Paused()
    {
      pausedT := Some(now);
    }

    /** `resume()`: the pause is added to the paused time and the clock runs on from where it stood. */
    method Resume(now: real)
      requires pausedT.Some? && pausedT.value != 0.0
      modifies this
      ensures pausedTime == old(pausedTime) + (now - old(pausedT).value)
      ensures pausedT == None && startT == old(startT)
      ensures !Paused()
      ensures forall t :: Started() ==> ElapsedAt(t) == old(ElapsedAt(now)) + (t - now)
    {
      pausedTime := pausedTime + (now - pausedT.value);
      pausedT := None;
    }

    /**
     * `elapsed`. While paused it moves the pause start to `now`, which
     * changes no reading at any time: what it reports, and would report
     * later or after a `resume`, stays the same.
     */
    method Elapsed(now: real) returns (r: real)
      requires Started() && Paused() ==> pausedT.value != 0.0
      modifies this
      ensures r == old(ElapsedAt(now))
      ensures startT == old(startT)
      ensures Paused() == old(Paused())
      ensures forall t :: ElapsedAt(t) == old(ElapsedAt(t))
      ensures !old(Started()) || !old(Paused()) ==> pausedT == old(pausedT) && pausedTime == old(pausedTime)
    {
      if startT == 0.0 {
        return 0.0;
      }
      if pausedT.Some? {
        pausedTime := pausedTime + (now - pausedT.value);
        pausedT := Some(now);
      }
      r := now - startT - pausedTime;
    }
  }
}
