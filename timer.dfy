/** The countdown / stopwatch of miscellaneous.py (class Timer).

    The wall clock is an explicit argument `now` (seconds, a real), read once
    per call. The counter sound is not modelled, but the `last_count` field it
    guards is. A duration is an optional whole number of seconds (None in
    Python). */
module Timers {
  import opened Common

  /** The fields of a Timer that its methods change. */
  datatype TimerState = TimerState(startTime: Option<real>, currTime: Option<int>,
                                   hasStarted: bool, hasEnded: bool, lastCount: Option<int>)

  /** The state after construction and after reset. */
  const Fresh := TimerState(None, None, false, false, None)

  /** A started timer has a start time, an unstarted one has none, and only a
      started timer can have ended. */
  predicate Consistent(s: TimerState) {
    (s.hasStarted <==> s.startTime.Some?) && (s.hasEnded ==> s.hasStarted)
  }

  /** Python's truthiness of the duration: None and 0 are false. */
  predicate HasDuration(duration: Option<int>) {
    duration.Some? && duration.value != 0
  }

  /** Seconds since the start. */
  function Elapsed(s: TimerState, now: real): real
    requires s.startTime.Some?
  {
    now - s.startTime.value
  }

  /** start (miscellaneous.py:22-28). */
  function StartStep(s: TimerState, now: real): TimerState {
    if s.hasStarted then s
    else s.(startTime := Some(now), currTime := None, hasStarted := true)
  }

  /** is_over (miscellaneous.py:37-47): the new state and the answer. */
  function IsOverStep(s: TimerState, duration: Option<int>, now: real): (TimerState, bool)
    requires Consistent(s)
  {
    if !s.hasStarted || !HasDuration(duration) || s.hasEnded then (s, false)
    else
      var ended := Elapsed(s, now) >= duration.value as real;
      (s.(hasEnded := ended), ended)
  }

  /** The count get_time reports: whole seconds elapsed, or whole seconds
      left when counting down. */
  function Count(s: TimerState, duration: Option<int>, reverse: bool, now: real): int
    requires s.startTime.Some? && (reverse ==> duration.Some?)
  {
    if reverse then duration.value - Elapsed(s, now).Floor else Elapsed(s, now).Floor
  }

  /** get_time raises a TypeError when it subtracts from or compares with a
      missing duration: counting down, or a sound check that reaches the
      comparison with the duration. */
  predicate GetTimeDefined(s: TimerState, duration: Option<int>, hasSound: bool, reverse: bool, now: real)
    requires Consistent(s)
  {
    !s.hasStarted || duration.Some? ||
    (!reverse && !(hasSound && s.lastCount != Some(Elapsed(s, now).Floor)))
  }

  /** get_time (miscellaneous.py:49-62): the new state and the reported
      count, None before the timer starts. The sound branch records the
      count it announced. */
  function GetTimeStep(s: TimerState, duration: Option<int>, hasSound: bool, reverse: bool, now: real): (TimerState, Option<int>)
    requires Consistent(s) && GetTimeDefined(s, duration, hasSound, reverse, now)
  {
    if !s.hasStarted then (s, None)
    else
      var t := Count(s, duration, reverse, now);
      var s1 := s.(currTime := Some(t));
      if hasSound && s.lastCount != Some(t) && !(Elapsed(s, now) >= duration.value as real)
      then (s1.(lastCount := Some(t)), Some(t))
      else (s1, Some(t))
  }

  /** Every step keeps a timer consistent. */
  lemma StepsConsistent(s: TimerState, duration: Option<int>, hasSound: bool, reverse: bool, now: real)
    requires Consistent(s)
    ensures Consistent(Fresh) && Consistent(StartStep(s, now))
    ensures Consistent(IsOverStep(s, duration, now).0)
    ensures GetTimeDefined(s, duration, hasSound, reverse, now) ==>
      Consistent(GetTimeStep(s, duration, hasSound, reverse, now).0)
  {
  }

  /** is_over answers True exactly when the timer runs, has a duration, has
      not ended yet and the duration has elapsed; it changes nothing but the
      ended flag, which it sets to its answer whenever it gets past the early
      return. */
  lemma IsOverWhen(s: TimerState, duration: Option<int>, now: real)
    requires Consistent(s)
    ensures IsOverStep(s, duration, now).1 <==>
      s.hasStarted && HasDuration(duration) && !s.hasEnded && now - s.startTime.value >= duration.value as real
    ensures IsOverStep(s, duration, now).0 == s.(hasEnded := IsOverStep(s, duration, now).0.hasEnded)
    ensures s.hasEnded ==> IsOverStep(s, duration, now) == (s, false)
  {
  }

  /** get_time reports None exactly before the timer starts, and a forward
      count is the floor of the elapsed time, whether or not the timer has a
      duration (the game timer has none); for a timer with a duration the
      counts up and down at one instant add up to the duration. */
  lemma GetTimeCounts(s: TimerState, duration: Option<int>, hasSound: bool, now: real)
    requires Consistent(s) && GetTimeDefined(s, duration, hasSound, false, now)
    ensures GetTimeStep(s, duration, hasSound, false, now).1.None? <==> !s.hasStarted
    ensures s.hasStarted ==>
      var up := GetTimeStep(s, duration, hasSound, false, now).1.value;
      up as real <= now - s.startTime.value < up as real + 1.0
    ensures duration.Some? && s.hasStarted ==>
      GetTimeStep(s, duration, hasSound, false, now).1.value + GetTimeStep(s, duration, hasSound, true, now).1.value
      == duration.value
  {
  }

  /** A call made on a timer, for reasoning about runs of calls. */
  datatype TimerCall = CallStart(now: real) | CallReset | CallIsOver(now: real) | CallGetTime(reverse: bool, now: real)

  predicate NoReset(calls: seq<TimerCall>) {
    forall k :: 0 <= k < |calls| ==> !calls[k].CallReset?
  }

  /** The state after one call on a timer with a duration. */
  function Apply(s: TimerState, duration: Option<int>, hasSound: bool, call: TimerCall): (r: TimerState)
    requires Consistent(s) && duration.Some?
    ensures Consistent(r)
  {
    match call
    case CallStart(now) => StartStep(s, now)
    case CallReset => Fresh
    case CallIsOver(now) => IsOverStep(s, duration, now).0
    case CallGetTime(reverse, now) => GetTimeStep(s, duration, hasSound, reverse, now).0
  }

  /** The state after a run of calls. */
  function Run(s: TimerState, duration: Option<int>, hasSound: bool, calls: seq<TimerCall>): TimerState
    requires Consistent(s) && duration.Some?
    decreases |calls|
  {
    if calls == [] then s
    else Run(Apply(s, duration, hasSound, calls[0]), duration, hasSound, calls[1..])
  }

  /** How many of the is_over calls in a run answer True. */
  function Fires(s: TimerState, duration: Option<int>, hasSound: bool, calls: seq<TimerCall>): nat
    requires Consistent(s) && duration.Some?
    decreases |calls|
  {
    if calls == [] then 0
    else
      (if calls[0].CallIsOver? && IsOverStep(s, duration, calls[0].now).1 then 1 else 0)
      + Fires(Apply(s, duration, hasSound, calls[0]), duration, hasSound, calls[1..])
  }

  lemma NoResetTail(calls: seq<TimerCall>)
    requires calls != [] && NoReset(calls)
    ensures !calls[0].CallReset? && NoReset(calls[1..])
  {
    forall k | 0 <= k < |calls[1..]| ensures !calls[1..][k].CallReset? {
      assert calls[1..][k] == calls[k + 1];
    }
  }

  /** The latch: once a timer has ended, start, get_time and is_over keep it
      ended and is_over never answers True again before a reset. */
  lemma {:induction false} EndedStaysSilent(s: TimerState, duration: Option<int>, hasSound: bool, calls: seq<TimerCall>)
    requires Consistent(s) && duration.Some? && s.hasEnded && NoReset(calls)
    ensures Fires(s, duration, hasSound, calls) == 0
    ensures Run(s, duration, hasSound, calls).hasEnded
    decreases |calls|
  {
    if calls != [] {
      NoResetTail(calls);
      EndedStaysSilent(Apply(s, duration, hasSound, calls[0]), duration, hasSound, calls[1..]);
    }
  }

  /** Between two resets is_over answers True at most once. */
  lemma {:induction false} FiresAtMostOnce(s: TimerState, duration: Option<int>, hasSound: bool, calls: seq<TimerCall>)
    requires Consistent(s) && duration.Some? && NoReset(calls)
    ensures Fires(s, duration, hasSound, calls) <= 1
    ensures s.hasEnded ==> Fires(s, duration, hasSound, calls) == 0
    decreases |calls|
  {
    if s.hasEnded {
      EndedStaysSilent(s, duration, hasSound, calls);
    } else if calls != [] {
      NoResetTail(calls);
      var s' := Apply(s, duration, hasSound, calls[0]);
      FiresAtMostOnce(s', duration, hasSound, calls[1..]);
      if calls[0].CallIsOver? && IsOverStep(s, duration, calls[0].now).1 {
        EndedStaysSilent(s', duration, hasSound, calls[1..]);
      }
    }
  }

  /** A Timer object. Duration and sound flag are fixed at construction. */
  class Timer {
    var startTime: Option<real>
    var currTime: Option<int>
    const duration: Option<int>
    var hasStarted: bool
    var hasEnded: bool
    const hasSound: bool
    var lastCount: Option<int>

    function State(): TimerState
      reads this
    {
      TimerState(startTime, currTime, hasStarted, hasEnded, lastCount)
    }

    ghost predicate Valid()
      reads this
    {
      Consistent(State())
    }

    /** Timer.__init__ (miscellaneous.py:8-18). */
    constructor (duration: Option<int>, hasSound: bool)
      ensures Valid() && State() == Fresh
      ensures this.duration == duration && this.hasSound == hasSound
    {
      startTime, currTime := None, None;
      this.duration := duration;
      hasStarted, hasEnded := false, false;
      this.hasSound := hasSound;
      lastCount := None;
    }

    /** start (miscellaneous.py:22-28). */
    method Start(now: real)
      requires Valid()
      modifies this
      ensures Valid() && State() == StartStep(old(State()), now)
    {
      if hasStarted {
        return;
      }
      startTime := Some(now);
      currTime := None;
      hasStarted := true;
    }

    /** reset (miscellaneous.py:30-35). */
    method Reset()
      modifies this
      ensures Valid() && State() == Fresh
    {
      startTime := None;
      currTime := None;
      hasStarted := false;
      hasEnded := false;
      lastCount := None;
    }

    /** is_over (miscellaneous.py:37-47). */
    method IsOver(now: real) returns (over: bool)
      requires Valid()
      modifies this
      ensures Valid() && (State(), over) == IsOverStep(old(State()), duration, now)
    {
      if !hasStarted || !HasDuration(duration) || hasEnded {
        return false;
      }
      hasEnded := now - startTime.value >= duration.value as real;
      return hasEnded;
    }

    /** get_time (miscellaneous.py:49-62), without playing the sound. */
    method GetTime(reverse: bool, now: real) returns (t: Option<int>)
      requires Valid() && GetTimeDefined(State(), duration, hasSound, reverse, now)
      modifies this
      ensures Valid() && (State(), t) == GetTimeStep(old(State()), duration, hasSound, reverse, now)
    {
      if !hasStarted {
        return None;
      }
      if reverse {
        currTime := Some(duration.value - (now - startTime.value).Floor);
      } else {
        currTime := Some((now - startTime.value).Floor);
      }
      if hasSound && lastCount != currTime && !(now - startTime.value >= duration.value as real) {
        lastCount := currTime;
      }
      return currTime;
    }
  }
}
