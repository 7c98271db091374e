/** The countdown engine: a duration in seconds, the seconds still to go and
    whether the one-second interval is active. The interval itself is not
    modelled; each firing of it is an explicit call of `Tick`. */
module Countdown {

  /** The fields of a `Timer`, as a value. Durations are in seconds. */
  datatype TimerState = TimerState(initialDuration: int, remaining: int, isRunning: bool)
  {
    /** `start()`: marks the timer running, unless it already runs. */
    function Start(): (t: TimerState)
      ensures t.isRunning
      ensures t.initialDuration == initialDuration && t.remaining == remaining
      ensures isRunning ==> t == this
    {
      if isRunning then this else TimerState(initialDuration, remaining, true)
    }

    /** `pause()`: marks the timer stopped, unless it already is. */
    function Pause(): (t: TimerState)
      ensures !t.isRunning
      ensures t.initialDuration == initialDuration && t.remaining == remaining
      ensures !isRunning ==> t == this
    {
      if !isRunning then this else TimerState(initialDuration, remaining, false)
    }

    /** `reset(newMinutes)`: stops the timer, takes `newMinutes` minutes as the new
        duration unless it is 0 (the missing argument and every other falsy one),
        and winds the count back to the full duration. */
    function Reset(newMinutes: int): (t: TimerState)
      ensures !t.isRunning && t.remaining == t.initialDuration
      ensures newMinutes == 0 ==> t.initialDuration == initialDuration
      ensures newMinutes != 0 ==> t.initialDuration == 60 * newMinutes
    {
      var paused := Pause();
      var duration := if newMinutes != 0 then newMinutes * 60 else paused.initialDuration;
      TimerState(duration, duration, false)
    }

    /** One firing of the interval. It only exists while the timer runs; it takes
        one second off and, once the count is at or below zero, completes: it
        pauses and then reports that the completion callback is due. */
    function Tick(): (r: TickResult)
      ensures !isRunning ==> r == TickResult(this, false)
      ensures isRunning ==>
        && r.state.remaining == remaining - 1
        && r.state.initialDuration == initialDuration
        && r.completed == (remaining <= 1)
        && r.state.isRunning == !r.completed
    {
      if !isRunning then TickResult(this, false)
      else
        var counted := TimerState(initialDuration, remaining - 1, true);
        if counted.remaining <= 0 then TickResult(counted.Pause(), true)
        else TickResult(counted, false)
    }

    /** What a timer built from a positive number of minutes keeps: the count
        stays within the duration, and a running timer has time left. */
    predicate Healthy()
    {
      0 < initialDuration && 0 <= remaining <= initialDuration && (isRunning ==> 0 < remaining)
    }
  }

  /** The state after one tick, and whether the tick completed the countdown. */
  datatype TickResult = TickResult(state: TimerState, completed: bool)

  /** `new Timer(minutes, ...)`. */
  function Init(minutes: int): (t: TimerState)
    ensures t.initialDuration == 60 * minutes && t.remaining == t.initialDuration && !t.isRunning
  {
    TimerState(minutes * 60, minutes * 60, false)
  }

  /** The state after `n` firings of the interval, and how many of them
      completed the countdown. */
  datatype TickRun = TickRun(state: TimerState, completions: nat)

  function Ticks(t: TimerState, n: nat): (r: TickRun)
    decreases n
  {
    if n == 0 then TickRun(t, 0)
    else
      var first := t.Tick();
      var rest := Ticks(first.state, n - 1);
      TickRun(rest.state, rest.completions + if first.completed then 1 else 0)
  }

  /** Starting a running timer or pausing a stopped one changes nothing. */
  lemma StartPauseIdempotent(t: TimerState)
    ensures t.Start().Start() == t.Start()
    ensures t.Pause().Pause() == t.Pause()
  {
  }

  /** A timer built from a positive number of minutes is healthy. */
  lemma InitHealthy(minutes: int)
    requires 0 < minutes
    ensures Init(minutes).Healthy()
  {
  }

  /** Ticks, pauses and resets to a positive duration keep a timer healthy;
      so does a start when there is time left. */
  lemma StepsKeepHealthy(t: TimerState, newMinutes: int)
    requires t.Healthy()
    ensures t.Tick().state.Healthy()
    ensures t.Pause().Healthy()
    ensures 0 < t.remaining ==> t.Start().Healthy()
    ensures 0 <= newMinutes ==> t.Reset(newMinutes).Healthy()
  {
  }

  /** The guard in `start` does not look at the count: a finished timer that is
      started again goes below zero on its next tick. */
  lemma StartWhenFinished(duration: int)
    ensures TimerState(duration, 0, false).Start().Tick().state.remaining == -1
  {
  }

  /** While the interval is stopped, ticks do nothing. */
  lemma {:induction false} PausedTicksIdle(t: TimerState, n: nat)
    requires !t.isRunning
    ensures Ticks(t, n) == TickRun(t, 0)
  {
    if n > 0 {
      PausedTicksIdle(t, n - 1);
    }
  }

  /** Fewer ticks than the seconds left take exactly that many seconds off and
      leave the timer running, without completing. */
  lemma {:induction false} TicksCountDown(t: TimerState, n: nat)
    requires t.isRunning && n < t.remaining
    ensures Ticks(t, n) == TickRun(TimerState(t.initialDuration, t.remaining - n, true), 0)
    decreases n
  {
    if n > 0 {
      TicksCountDown(t.Tick().state, n - 1);
    }
  }

  /** A running timer with `remaining` seconds left stops at exactly zero after
      `remaining` ticks, having completed exactly once; any later ticks change
      nothing and complete nothing. */
  lemma {:induction false} TicksCompleteOnce(t: TimerState, extra: nat)
    requires t.isRunning && 0 < t.remaining
    ensures Ticks(t, t.remaining + extra) == TickRun(TimerState(t.initialDuration, 0, false), 1)
    decreases t.remaining
  {
    var next := t.Tick().state;
    if t.remaining == 1 {
      PausedTicksIdle(next, extra);
    } else {
      TicksCompleteOnce(next, extra);
    }
  }

  /** The countdown engine. `onTick` and `onComplete` are the caller's: the
      caller shows the count after every `Tick` and `Reset`, and runs its
      completion handler when `Tick` answers `true`. */
  class Timer {
    var initialDuration: int
    var remaining: int
    var isRunning: bool

    function State(): (t: TimerState)
      reads this
    {
      TimerState(initialDuration, remaining, isRunning)
    }

    constructor (minutes: int)
      ensures State() == Init(minutes)
    {
      initialDuration := minutes * 60;
      remaining := minutes * 60;
      isRunning := false;
    }

    method Start()
      modifies this
      ensures State() == old(State()).Start()
    {
      if isRunning {
        return;
      }
      isRunning := true;
    }

    method Pause()
      modifies this
      ensures State() == old(State()).Pause()
    {
      if !isRunning {
        return;
      }
      isRunning := false;
    }

    method Reset(newMinutes: int)
      modifies this
      ensures State() == old(State()).Reset(newMinutes)
    {
      Pause();
      if newMinutes != 0 {
        initialDuration := newMinutes * 60;
      }
      remaining := initialDuration;
    }

    /** `complete()`: pauses first; the completion callback runs afterwards,
        in the caller. */
    method Complete()
      modifies this
      ensures State() == old(State()).Pause()
    {
      Pause();
    }

    /** The body of the interval; does nothing when no interval is active. */
    method Tick() returns (completed: bool)
      modifies this
      ensures TickResult(State(), completed) == old(State()).Tick()
    {
      if !isRunning {
        return false;
      }
      remaining := remaining - 1;
      completed := remaining <= 0;
      if completed {
        Complete();
      }
    }
  }
}
