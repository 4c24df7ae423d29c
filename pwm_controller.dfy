/**
 * PWM control of on/off valves: a duty cycle in percent becomes an ON phase
 * and an OFF phase per period, each no shorter than its minimum, and a
 * per-valve schedule table records the pending timer handles.
 *
 * The host's effects are logged instead of performed: switch commands in
 * `commands`, timers scheduled with `async_track_point_in_time` in `timers`
 * (a timer's handle is its index there) and invoked cancel handles in
 * `cancelled`.
 */
module PWM {
  import opened Base

  const PERIOD_DEFAULT: real := 1800.0
  const MIN_ON_TIME_DEFAULT: real := 300.0
  const MIN_OFF_TIME_DEFAULT: real := 300.0

  /** One entry of `_schedules`: pending cancel handles, the duty and the phase lengths. */
  datatype Schedule = Schedule(onCancel: Option<nat>, offCancel: Option<nat>, duty: real, onTime: real, offTime: real)

  /** The callback a timer fires. */
  datatype Event =
    | OffEvent(valve: string, offTime: real, duty: real)
    | OnEvent(valve: string, onTime: real, offTime: real, duty: real)

  datatype Timer = Timer(delay: real, event: Event)

  /** The cancel handles an entry holds (a present handle is truthy). */
  function Pending(s: Schedule): (hs: set<nat>)
    ensures forall h :: h in hs <==> (s.onCancel == Some(h) || s.offCancel == Some(h))
  {
    (if s.onCancel.Some? then {s.onCancel.value} else {}) +
    (if s.offCancel.Some? then {s.offCancel.value} else {})
  }

  /** The handles `cancel_schedule` invokes for an entry: ON first, then OFF. */
  function PendingList(s: Schedule): (hs: seq<nat>)
    ensures |hs| <= 2
    ensures forall h :: h in hs <==> h in Pending(s)
  {
    (if s.onCancel.Some? then [s.onCancel.value] else []) +
    (if s.offCancel.Some? then [s.offCancel.value] else [])
  }

  /** Every cancel handle the table holds. */
  ghost function AllPending(table: map<string, Schedule>): set<nat>
  {
    set v, h | v in table && h in Pending(table[v]) :: h
  }

  /** `entity.split(".")[0]`: everything before the first dot. */
  function Domain(entity: string): (d: string)
    ensures d <= entity && '.' !in d
    ensures |d| < |entity| ==> entity[|d|] == '.'
  {
    if |entity| == 0 || entity[0] == '.' then "" else [entity[0]] + Domain(entity[1..])
  }

  /** The error `set_duty_cycle` raises, checked before anything changes. */
  function DutyError(entity: string, duty: real): (r: Option<string>)
    ensures r.None? <==> (0.0 <= duty <= 100.0 && Domain(entity) == "switch")
  {
    if !(0.0 <= duty <= 100.0) then Some("Duty cycle must be 0-100%")
    else if Domain(entity) != "switch" then Some("PWM controller only supports switch entities")
    else None
  }

  /**
   * The ON and OFF phase lengths of a partial duty: on = duty/100·period and
   * off = period − on (from the unraised on time), each then raised to its
   * minimum.
   */
  function OnOffTimes(period: real, minOn: real, minOff: real, duty: real): (r: (real, real))
    ensures r.0 >= minOn && r.1 >= minOff
    ensures r.0 >= duty / 100.0 * period && r.1 >= period - duty / 100.0 * period
    ensures r.0 == duty / 100.0 * period || r.0 == minOn
    ensures r.1 == period - duty / 100.0 * period || r.1 == minOff
  {
    var onTime := (duty / 100.0) * period;
    var offTime := period - onTime;
    (if onTime < minOn then minOn else onTime, if offTime < minOff then minOff else offTime)
  }

  /**
   * Raising a phase only lengthens the cycle: ON + OFF is never shorter than
   * the period, and equals it with the ON share being exactly the duty when
   * neither minimum applies.
   */
  lemma {:induction false} CycleLength(period: real, minOn: real, minOff: real, duty: real)
    ensures var (on, off) := OnOffTimes(period, minOn, minOff, duty);
      on + off >= period &&
      (duty / 100.0 * period >= minOn && period - duty / 100.0 * period >= minOff ==>
        on + off == period && on == duty / 100.0 * period)
  {
  }

  /** With the defaults (1800 s, 300 s minima), 65 % is 1170 s ON and 630 s OFF. */
  lemma DefaultSplit()
    ensures OnOffTimes(PERIOD_DEFAULT, MIN_ON_TIME_DEFAULT, MIN_OFF_TIME_DEFAULT, 65.0) == (1170.0, 630.0)
    ensures OnOffTimes(PERIOD_DEFAULT, MIN_ON_TIME_DEFAULT, MIN_OFF_TIME_DEFAULT, 5.0) == (300.0, 1710.0)
  {
  }

  class PWMController {
    const period: real
    const minOnTime: real
    const minOffTime: real
    var schedules: map<string, Schedule>
    var commands: seq<(string, bool)>
    var timers: seq<Timer>
    var cancelled: seq<nat>

    /** Every handle in the table was issued by a scheduled timer. */
    ghost predicate Valid()
      reads this
    {
      forall v, h :: v in schedules && h in Pending(schedules[v]) ==> h < |timers|
    }

    constructor (period: real, minOnTime: real, minOffTime: real)
      ensures Valid()
      ensures this.period == period && this.minOnTime == minOnTime && this.minOffTime == minOffTime
      ensures schedules == map[] && commands == [] && timers == [] && cancelled == []
    {
      this.period := period;
      this.minOnTime := minOnTime;
      this.minOffTime := minOffTime;
      schedules := map[];
      commands := [];
      timers := [];
      cancelled := [];
    }

    /** `_turn_valve`: one switch command; a failing service call is only logged. */
    method TurnValve(valve: string, on: bool)
      modifies this
      ensures commands == old(commands) + [(valve, on)]
      ensures schedules == old(schedules) && timers == old(timers) && cancelled == old(cancelled)
    {
      commands := commands + [(valve, on)];
    }

    /** `async_track_point_in_time`: schedules `event` after `delay` seconds and returns its handle. */
    method Track(delay: real, event: Event) returns (h: nat)
      modifies this
      ensures h == old(|timers|) && timers == old(timers) + [Timer(delay, event)]
      ensures schedules == old(schedules) && commands == old(commands) && cancelled == old(cancelled)
    {
      h := |timers|;
      timers := timers + [Timer(delay, event)];
    }

    /**
     * `cancel_schedule`: nothing for an unknown valve; otherwise the pending
     * ON and OFF handles are invoked and only that valve's entry is removed.
     */
    method CancelSchedule(valve: string)
      requires Valid()
      modifies this
      ensures Valid()
      ensures schedules == old(schedules) - {valve}
      ensures valve !in old(schedules) ==> cancelled == old(cancelled)
      ensures valve in old(schedules) ==> cancelled == old(cancelled) + PendingList(old(schedules)[valve])
      ensures commands == old(commands) && timers == old(timers)
    {
      if valve !in schedules {
        return;
      }
      var schedule := schedules[valve];
      if schedule.onCancel.Some? {
        cancelled := cancelled + [schedule.onCancel.value];
      }
      if schedule.offCancel.Some? {
        cancelled := cancelled + [schedule.offCancel.value];
      }
      schedules := schedules - {valve};
    }

    /**
     * `cancel_all_schedules`: cancels every valve's schedule; the table ends
     * empty and exactly the pending handles of the old table were invoked.
     */
    method CancelAllSchedules()
      requires Valid()
      modifies this
      ensures Valid()
      ensures schedules == map[]
      ensures |cancelled| >= |old(cancelled)| && cancelled[..|old(cancelled)|] == old(cancelled)
      ensures forall h :: h in AllPending(old(schedules)) ==> h in cancelled
      ensures forall i :: |old(cancelled)| <= i < |cancelled| ==> cancelled[i] in AllPending(old(schedules))
      ensures commands == old(commands) && timers == old(timers)
    {
      var remaining := schedules.Keys;
      while remaining != {}
        invariant Valid()
        invariant schedules.Keys == remaining
        invariant forall v :: v in schedules ==> v in old(schedules) && schedules[v] == old(schedules)[v]
        invariant |cancelled| >= |old(cancelled)| && cancelled[..|old(cancelled)|] == old(cancelled)
        invariant forall v, h :: v in old(schedules) && v !in remaining && h in Pending(old(schedules)[v]) ==> h in cancelled
        invariant forall i :: |old(cancelled)| <= i < |cancelled| ==> cancelled[i] in AllPending(old(schedules))
        invariant commands == old(commands) && timers == old(timers)
        decreases remaining
      {
        var v :| v in remaining;
        ghost var before := cancelled;
        CancelSchedule(v);
        forall i | |old(cancelled)| <= i < |cancelled|
          ensures cancelled[i] in AllPending(old(schedules))
        {
          if i >= |before| {
            assert cancelled[i] in Pending(old(schedules)[v]);
          } else {
            assert cancelled[i] == before[i];
          }
        }
        forall w, h | w in old(schedules) && w !in remaining - {v} && h in Pending(old(schedules)[w])
          ensures h in cancelled
        {
          if w != v {
            assert h in before;
            var j :| 0 <= j < |before| && before[j] == h;
            assert cancelled[j] == h;
          }
        }
        remaining := remaining - {v};
      }
    }

    /**
     * `_start_pwm_cycle`: the valve is switched ON, the OFF event is scheduled
     * after `onTime`, and the valve's entry is replaced by one holding only
     * that OFF handle.
     */
    method StartPwmCycle(valve: string, onTime: real, offTime: real, duty: real)
      requires Valid()
      modifies this
      ensures Valid()
      ensures commands == old(commands) + [(valve, true)]
      ensures timers == old(timers) + [Timer(onTime, OffEvent(valve, offTime, duty))]
      ensures schedules == old(schedules)[valve := Schedule(None, Some(|old(timers)|), duty, onTime, offTime)]
      ensures cancelled == old(cancelled)
    {
      TurnValve(valve, true);
      var offCancel := Track(onTime, OffEvent(valve, offTime, duty));
      schedules := schedules[valve := Schedule(None, Some(offCancel), duty, onTime, offTime)];
    }

    /**
     * `set_duty_cycle`: an out-of-range duty or a non-switch entity raises
     * before anything changes. Otherwise the valve's schedule is cancelled;
     * duty 0 switches it OFF and duty 100 ON with no entry left for it; a
     * partial duty starts a cycle with the phase lengths of `OnOffTimes`.
     * Other valves' entries are never touched.
     */
    method SetDutyCycle(valve: string, duty: real) returns (r: Status)
      requires Valid()
      modifies this
      ensures Valid()
      ensures DutyError(valve, duty).Some? ==>
        r == Raised(DutyError(valve, duty).value) && schedules == old(schedules) && commands == old(commands) &&
        timers == old(timers) && cancelled == old(cancelled)
      ensures DutyError(valve, duty).None? ==> r == Ok
      ensures DutyError(valve, duty).None? ==>
        cancelled == old(cancelled) + (if valve in old(schedules) then PendingList(old(schedules)[valve]) else [])
      ensures DutyError(valve, duty).None? && (duty <= 0.0 || duty >= 100.0) ==>
        schedules == old(schedules) - {valve} &&
        commands == old(commands) + [(valve, duty >= 100.0)] && timers == old(timers)
      ensures DutyError(valve, duty).None? && 0.0 < duty < 100.0 ==>
        var (on, off) := OnOffTimes(period, minOnTime, minOffTime, duty);
        schedules == (old(schedules) - {valve})[valve := Schedule(None, Some(|old(timers)|), duty, on, off)] &&
        commands == old(commands) + [(valve, true)] &&
        timers == old(timers) + [Timer(on, OffEvent(valve, off, duty))]
      ensures forall v :: v != valve ==>
        (v in schedules <==> v in old(schedules)) && (v in schedules ==> schedules[v] == old(schedules)[v])
    {
      if !(0.0 <= duty <= 100.0) {
        return Raised("Duty cycle must be 0-100%");
      }
      if Domain(valve) != "switch" {
        return Raised("PWM controller only supports switch entities");
      }
      CancelSchedule(valve);
      if duty <= 0.0 {
        TurnValve(valve, false);
        return Ok;
      }
      if duty >= 100.0 {
        TurnValve(valve, true);
        return Ok;
      }
      var onTime := (duty / 100.0) * period;
      var offTime := period - onTime;
      if onTime < minOnTime {
        onTime := minOnTime;
      }
      if offTime < minOffTime {
        offTime := minOffTime;
      }
      StartPwmCycle(valve, onTime, offTime, duty);
      return Ok;
    }

    /**
     * `_handle_off_event`: the valve is switched OFF and the next ON event is
     * scheduled after `offTime`, carrying the stored ON time (0 without an
     * entry); the entry, only if the valve still has one, then holds that ON
     * handle and no OFF handle.
     */
    method HandleOffEvent(valve: string, offTime: real, duty: real)
      requires Valid()
      modifies this
      ensures Valid()
      ensures commands == old(commands) + [(valve, false)]
      ensures var onTime := if valve in old(schedules) then old(schedules)[valve].onTime else 0.0;
        timers == old(timers) + [Timer(offTime, OnEvent(valve, onTime, offTime, duty))]
      ensures valve in old(schedules) ==>
        schedules == old(schedules)[valve := old(schedules)[valve].(onCancel := Some(|old(timers)|), offCancel := None)]
      ensures valve !in old(schedules) ==> schedules == old(schedules)
      ensures cancelled == old(cancelled)
    {
      TurnValve(valve, false);
      var onTime := if valve in schedules then schedules[valve].onTime else 0.0;
      var onCancel := Track(offTime, OnEvent(valve, onTime, offTime, duty));
      if valve in schedules {
        schedules := schedules[valve := schedules[valve].(onCancel := Some(onCancel), offCancel := None)];
      }
    }

    /** `_handle_on_event`: starts the next cycle with the same phase lengths. */
    method HandleOnEvent(valve: string, onTime: real, offTime: real, duty: real)
      requires Valid()
      modifies this
      ensures Valid()
      ensures commands == old(commands) + [(valve, true)]
      ensures timers == old(timers) + [Timer(onTime, OffEvent(valve, offTime, duty))]
      ensures schedules == old(schedules)[valve := Schedule(None, Some(|old(timers)|), duty, onTime, offTime)]
      ensures cancelled == old(cancelled)
    {
      StartPwmCycle(valve, onTime, offTime, duty);
    }
  }
}
