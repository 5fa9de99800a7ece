/** The fake clock of certwatch/clock.py: waiting advances time unless the event is set. */
module Clock {
  class FakeClock {
    var t: int
    var sleeps: seq<nat>

    constructor (start: int)
      ensures t == start && sleeps == []
    {
      t, sleeps := start, [];
    }

    /** Time passes while the caller is at work. */
    method Advance(seconds: nat)
      modifies this`t
      ensures t == old(t) + seconds
    {
      t := t + seconds;
    }

    /** Records the wait; an event already set ends it before any time passes. */
    method WaitFor(seconds: nat, eventSet: bool) returns (woke: bool)
      modifies this
      ensures woke == eventSet
      ensures sleeps == old(sleeps) + [seconds]
      ensures t == old(t) + (if eventSet then 0 else seconds)
    {
      sleeps := sleeps + [seconds];
      if !eventSet {
        t := t + seconds;
      }
      return eventSet;
    }
  }
}
