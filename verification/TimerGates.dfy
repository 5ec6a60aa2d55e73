/**
 A gate wraps a runtime timer and a channel of one signal.  That the timer expires, marks the gate
 inactive and leaves its signal is one event here.
 */
module TimerGates {
  /** Times are in nanoseconds; `at` is when an armed timer expires. */
  datatype Gate = Gate(active: bool, armed: bool, at: int, signal: bool)

  const NEW_GATE := Gate(false, false, 0, false)

  /** An armed timer keeps an earlier wake-up time. */
  function Updated(g: Gate, time: int): Gate {
    Gate(true, true, if g.armed && g.at < time then g.at else time, g.signal)
  }

  function Stopped(g: Gate): Gate {
    g.(active := false, armed := false)
  }

  function Fired(g: Gate): Gate {
    Gate(false, false, g.at, true)
  }

  function Consumed(g: Gate): Gate {
    g.(signal := false)
  }

  predicate InactiveOrFiresAfter(g: Gate, time: int) {
    !g.active || g.at > time
  }

  predicate WellFormed(g: Gate) {
    g.active <==> g.armed
  }

  /** The gate has signalled, or will by itself no later than `time`. */
  predicate Covers(g: Gate, time: int) {
    g.signal || (g.armed && g.at <= time)
  }

  /** The caller's pattern: update only when inactive or set to a later time. */
  function UpdatedIfLater(g: Gate, time: int): Gate {
    if InactiveOrFiresAfter(g, time) then Updated(g, time) else g
  }

  /** However often it is updated, a gate covers the new time and still covers what it covered. */
  lemma UpdatingCovers(g: Gate, time: int, other: int)
    requires WellFormed(g)
    ensures WellFormed(Updated(g, time)) && WellFormed(UpdatedIfLater(g, time))
    ensures Covers(Updated(g, time), time) && Covers(UpdatedIfLater(g, time), time)
    ensures Covers(g, other) ==> Covers(Updated(g, time), other) && Covers(UpdatedIfLater(g, time), other)
  {
  }

  /** A time nobody asked for is covered only if it was covered before, or is no earlier than the new time. */
  lemma UpdatingIsNeverEarly(g: Gate, time: int, other: int)
    requires WellFormed(g) && Covers(Updated(g, time), other)
    ensures Covers(g, other) || time <= other
  {
  }

  class LocalTimerGate {
    var isActive: bool
    var nextWakeupTime: int
    var timerArmed: bool
    var fireChan: bool

    function State(): Gate
      reads this
    {
      Gate(isActive, timerArmed, nextWakeupTime, fireChan)
    }

    constructor ()
      ensures State() == NEW_GATE
    {
      isActive, nextWakeupTime, timerArmed, fireChan := false, 0, false, false;
    }

    /** Stopping the runtime timer tells whether it was still armed. */
    method StopTimer() returns (wasArmed: bool)
      modifies this`timerArmed
      ensures wasArmed == old(timerArmed) && !timerArmed
    {
      wasArmed := timerArmed;
      timerArmed := false;
    }

    /** Resets to the previous wake-up time when that is sooner and was still to come. */
    method Update(nextTime: int) returns (changed: bool)
      modifies this
      ensures State() == Updated(old(State()), nextTime)
      ensures changed <==> !(old(timerArmed) && old(nextWakeupTime) < nextTime)
    {
      isActive := true;
      var wasArmed := StopTimer();
      if wasArmed && nextWakeupTime < nextTime {
        timerArmed := true;
        return false;
      }
      nextWakeupTime := nextTime;
      timerArmed := true;
      return true;
    }

    method Stop()
      modifies this
      ensures State() == Stopped(old(State()))
    {
      isActive := false;
      var _ := StopTimer();
    }

    /** The timer expires; a signal nobody has consumed yet is not doubled. */
    method Expire()
      requires timerArmed
      modifies this
      ensures State() == Fired(old(State()))
    {
      timerArmed := false;
      isActive := false;
      if !fireChan {
        fireChan := true;
      }
    }

    method Consume()
      requires fireChan
      modifies this`fireChan
      ensures State() == Consumed(old(State()))
    {
      fireChan := false;
    }
  }
}
