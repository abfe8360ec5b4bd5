/**
  The stopwatch of code/EventTimer.py: two optional tick readings (in
  milliseconds), a start and an end. The clock is not read by the model:
  every operation that reads it takes the current tick as `now`.
*/
module Timing {
  import opened Wrappers

  class EventTimer {
    var startTime: Option<int>
    var endTime: Option<int>

    /** A fresh timer is not running and reads 0 seconds. */
    constructor ()
      ensures startTime == None && endTime == None
      ensures !IsRunning() && forall now :: Duration(now) == 0.0
    {
      startTime := None;
      endTime := None;
    }

    /** Running: started and not stopped since. */
    predicate IsRunning()
      reads this
    {
      startTime.Some? && endTime.None?
    }

    /**
      Elapsed seconds: 0 before the first start; while running, the time since
      the start; once stopped, the time between start and stop.
    */
    function Duration(now: int): (seconds: real)
      reads this
      ensures startTime.None? ==> seconds == 0.0
      ensures IsRunning() ==> seconds == (now - startTime.value) as real / 1000.0
      ensures startTime.Some? && endTime.Some? ==> seconds == (endTime.value - startTime.value) as real / 1000.0
    {
      if startTime.None? then 0.0
      else if IsRunning() then (now - startTime.value) as real / 1000.0
      else (endTime.value - startTime.value) as real / 1000.0
    }

    /** Records the current tick as the start and clears the end: the timer runs from 0. */
    method Start(now: int)
      modifies this
      ensures startTime == Some(now) && endTime == None
      ensures IsRunning() && Duration(now) == 0.0
    {
      startTime := Some(now);
      endTime := None;
    }

    /**
      Records the current tick as the end, provided the timer was ever
      started (a second stop overwrites the first). A running timer stopped
      at `now` keeps reading what it read at `now`, whatever the later tick.
    */
    method Stop(now: int)
      modifies this
      ensures old(startTime).None? ==> startTime == old(startTime) && endTime == old(endTime)
      ensures old(startTime).Some? ==> startTime == old(startTime) && endTime == Some(now)
      ensures old(startTime).Some? ==> !IsRunning()
      ensures old(IsRunning()) ==> forall later :: Duration(later) == old(Duration(now))
    {
      if startTime.Some? {
        endTime := Some(now);
      }
    }
  }

  /** Once stopped, a timer's reading does not depend on the current tick. */
  lemma StoppedReadingIsFixed(t: EventTimer, now: int, later: int)
    requires !t.IsRunning()
    ensures t.Duration(now) == t.Duration(later)
  {
  }
}
