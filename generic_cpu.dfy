/**
 * The processor base class: program counter, a fixed 32-entry call stack and
 * its pointer, the run/pause flags and a registry of up to eight periodic
 * timers. The clock thread that drives `oneCycle` is not part of this model;
 * only the flag effects of `run` and `stop` are.
 */
module GenericCpu {

  const MaxCallStackDepth: int := 32
  const MaxTimers: int := 8

  /** The interval stored for a timer slot that is not registered. */
  const Unregistered: real := -1.0

  class GenericCpu {
    var pc: int
    var callStack: array<int>
    var sp: int
    var running: bool
    var paused: bool
    /** Timer periods in nanoseconds; `Unregistered` marks a free slot. */
    var timerIntervals: array<real>

    ghost predicate Valid()
      reads this
    {
      callStack.Length == MaxCallStackDepth
      && timerIntervals.Length == MaxTimers
      && callStack != timerIntervals as object
    }

    /** Every timer slot starts unregistered; the registers and flags start cleared. */
    constructor ()
      ensures Valid() && fresh(callStack) && fresh(timerIntervals)
      ensures pc == 0 && sp == 0 && !running && !paused
      ensures forall k :: 0 <= k < MaxCallStackDepth ==> callStack[k] == 0
      ensures forall k :: 0 <= k < MaxTimers ==> timerIntervals[k] == Unregistered
    {
      pc := 0;
      sp := 0;
      running := false;
      paused := false;
      var intervals := new real[MaxTimers];
      var i := 0;
      while i < MaxTimers
        invariant 0 <= i <= MaxTimers
        invariant forall k :: 0 <= k < i ==> intervals[k] == Unregistered
      {
        intervals[i] := Unregistered;
        i := i + 1;
      }
      timerIntervals := intervals;
      callStack := new int[MaxCallStackDepth](_ => 0);
    }

    /** Stores the interval for slot `timerId` if it is a valid slot 0..7; otherwise nothing changes. */
    method RegisterTimer(timerId: int, interval: real)
      requires Valid()
      modifies timerIntervals
      ensures Valid()
      ensures timerIntervals[..] ==
        if 0 <= timerId < MaxTimers then old(timerIntervals[..])[timerId := interval]
        else old(timerIntervals[..])
    {
      if timerId >= 0 && timerId < MaxTimers {
        timerIntervals[timerId] := interval;
      }
    }

    /** Frees slot `timerId` for ids 1..7 only: slot 0 can never be freed. */
    method DeregisterTimer(timerId: int)
      requires Valid()
      modifies timerIntervals
      ensures Valid()
      ensures timerIntervals[..] ==
        if 0 < timerId < MaxTimers then old(timerIntervals[..])[timerId := Unregistered]
        else old(timerIntervals[..])
      ensures timerIntervals[0] == old(timerIntervals[0])
    {
      if timerId > 0 && timerId < MaxTimers {
        timerIntervals[timerId] := Unregistered;
      }
    }

    /** Sets the running flag; a second call has no further effect. */
    method Run()
      modifies this`running
      ensures running
      ensures HasStartedRunning() && IsPaused() == paused
    {
      if !running {
        running := true;
      }
    }

    /** Clears both flags; the program counter and stack are kept. */
    method Stop()
      modifies this`running, this`paused
      ensures !running && !paused
      ensures !HasStartedRunning() && !IsPaused()
    {
      running := false;
      paused := false;
    }

    function HasStartedRunning(): (r: bool)
      reads this
      ensures r <==> running
    {
      running
    }

    method Pause()
      modifies this`paused
      ensures paused
      ensures IsPaused() == HasStartedRunning()
    {
      paused := true;
    }

    method Resume()
      modifies this`paused
      ensures !paused
      ensures !IsPaused()
    {
      paused := false;
    }

    /** Paused counts only while the processor is running. */
    function IsPaused(): (r: bool)
      reads this
      ensures r <==> paused && running
      ensures r ==> HasStartedRunning()
    {
      paused && running
    }
  }
}
