/**
 * The thermostat entity's control loop and its MPC failsafe: each control
 * cycle either runs the PI fallback or attempts MPC; MPC failures are
 * counted, three in a row disable MPC until a retry interval has passed,
 * and a degraded MPC returns to "active" after five successes in a row.
 * The MPC attempt itself (forecast, optimisation, timeout) is an input.
 */
module Climate {
  import opened Base
  import PI
  import MPC

  const MPC_MAX_FAILURES: nat := 3
  const MPC_RETRY_INTERVAL: real := 3600.0
  const MPC_SUCCESS_COUNT_TO_RECOVER: nat := 5
  const MPC_TIMEOUT_REASON: string := "Timeout (>10.0s)"
  /** `UPDATE_INTERVAL`: the PI fallback always steps with 600 s. */
  const UPDATE_INTERVAL: real := 600.0
  /** The control-quality history keeps the last 144 cycles (24 h at 10 min). */
  const ERROR_HISTORY_LENGTH: nat := 144
  /** A valve opened more than 5 % counts as heating. */
  const HEATING_VALVE_THRESHOLD: real := 5.0
  const DEFAULT_MIN_TEMP: real := 15.0
  const DEFAULT_TARGET_TEMP: real := 21.0

  const CONTROLLER_TYPE_PI: string := "PI"
  const CONTROLLER_TYPE_MPC: string := "MPC"
  const PRESET_HOME: string := "home"
  const PRESET_AWAY: string := "away"
  const PRESET_SLEEP: string := "sleep"

  /** The message of the IndexError raised by reading the first input of an empty solution. */
  const EMPTY_SOLUTION_REASON: string := "Exception: index 0 is out of bounds for axis 0 with size 0"

  datatype HvacMode = Heat | Off
  datatype HvacAction = ActionOff | ActionHeating | ActionIdle
  datatype MpcStatus = Active | Degraded | Disabled

  /** The persistent notifications the failsafe raises. */
  datatype Notice = MpcDegraded(reason: string) | MpcDisabled(reason: string) | MpcRecovered

  /** What one MPC attempt came to: the forecast raised, the computation timed out or raised, or it returned a result. */
  datatype MpcAttempt =
    | ForecastFailed(error: string)
    | TimedOut
    | Threw(error: string)
    | Returned(result: MPC.MPCResult)

  /** The failsafe fields of the entity. */
  datatype FailsafeState = FailsafeState(
    status: MpcStatus, failureCount: nat, successCount: nat,
    lastFailureReason: Option<string>, lastFailureTime: Option<real>, disabled: bool)

  function InitialFailsafe(): FailsafeState
  {
    FailsafeState(Active, 0, 0, None, None, false)
  }

  /**
   * The relations the failsafe keeps between its fields: MPC is disabled
   * exactly when the status says so and exactly when the failure count has
   * reached the maximum; "active" has no failures outstanding; "degraded"
   * has not yet collected the successes that would recover it.
   */
  ghost predicate Consistent(f: FailsafeState)
  {
    (f.disabled <==> f.status == Disabled) &&
    (f.disabled <==> f.failureCount >= MPC_MAX_FAILURES) &&
    (f.status == Active ==> f.failureCount == 0) &&
    (f.status == Degraded ==> f.successCount < MPC_SUCCESS_COUNT_TO_RECOVER)
  }

  /** `_handle_mpc_failure`'s bookkeeping. */
  function RecordFailure(f: FailsafeState, reason: string, now: real): FailsafeState
  {
    var g := f.(failureCount := f.failureCount + 1, successCount := 0,
                lastFailureReason := Some(reason), lastFailureTime := Some(now));
    if g.failureCount >= MPC_MAX_FAILURES then g.(disabled := true, status := Disabled)
    else g.(status := Degraded)
  }

  /** The notification a failure raises: "disabled" at the limit, "degraded" on the first failure only. */
  function FailureNotice(f: FailsafeState, reason: string): Option<Notice>
  {
    var n := f.failureCount + 1;
    if n >= MPC_MAX_FAILURES then Some(MpcDisabled(reason))
    else if n == 1 then Some(MpcDegraded(reason))
    else None
  }

  /** The success bookkeeping of `_async_control_with_mpc`. */
  function RecordSuccess(f: FailsafeState): FailsafeState
  {
    var g := f.(failureCount := 0, successCount := f.successCount + 1, lastFailureReason := None);
    if g.status == Degraded && g.successCount >= MPC_SUCCESS_COUNT_TO_RECOVER then
      g.(status := Active, successCount := 0)
    else g
  }

  function RecoveryNotice(f: FailsafeState): Option<Notice>
  {
    if f.status == Degraded && f.successCount + 1 >= MPC_SUCCESS_COUNT_TO_RECOVER then Some(MpcRecovered) else None
  }

  /**
   * Whether a disabled MPC may be retried: a failure time is recorded (and,
   * as Python's truth test reads it, is not 0.0) and more than the retry
   * interval has elapsed since.
   */
  predicate RetryDue(f: FailsafeState, now: real)
  {
    f.lastFailureTime.Some? && f.lastFailureTime.value != 0.0 && now - f.lastFailureTime.value > MPC_RETRY_INTERVAL
  }

  /** The failsafe after the disabled check: re-enabled when a retry is due. */
  function Gate(f: FailsafeState, now: real): FailsafeState
  {
    if f.disabled && RetryDue(f, now) then f.(disabled := false, failureCount := 0, status := Active) else f
  }

  /** Whether the cycle goes on to attempt MPC. */
  predicate AttemptsMpc(f: FailsafeState, now: real, modelAvailable: bool)
  {
    modelAvailable && (!f.disabled || RetryDue(f, now))
  }

  /** How a control cycle with a known room temperature ends. */
  datatype Route =
    | PiOnly                              // no trained model, or MPC disabled
    | MpcApplied(u: real)                 // MPC succeeded and its first input is applied
    | MpcFailed(reason: string)           // MPC failed; PI steps instead
    | MpcSucceededEmpty                   // MPC reported success with no inputs: counted, then failed on reading u[0]

  /** How an MPC attempt that went ahead ends. */
  function AttemptRoute(attempt: MpcAttempt): (r: Route)
    ensures r != PiOnly
  {
    match attempt
    case ForecastFailed(e) => MpcFailed("Forecast failed: " + e)
    case TimedOut => MpcFailed(MPC_TIMEOUT_REASON)
    case Threw(e) => MpcFailed("Exception: " + e)
    case Returned(result) =>
      if !result.success then MpcFailed("Optimization failed: " + result.message)
      else if |result.uOptimal| == 0 then MpcSucceededEmpty
      else MpcApplied(result.uOptimal[0])
  }

  function RouteOf(f: FailsafeState, now: real, modelAvailable: bool, attempt: MpcAttempt): Route
  {
    if AttemptsMpc(f, now, modelAvailable) then AttemptRoute(attempt) else PiOnly
  }

  /** The failsafe after an MPC attempt that went ahead from `g`. */
  function AttemptFailsafe(g: FailsafeState, now: real, attempt: MpcAttempt): FailsafeState
  {
    match AttemptRoute(attempt)
    case PiOnly => g
    case MpcApplied(_) => RecordSuccess(g)
    case MpcFailed(reason) => RecordFailure(g, reason, now)
    case MpcSucceededEmpty => RecordFailure(RecordSuccess(g), EMPTY_SOLUTION_REASON, now)
  }

  function AsSeq(n: Option<Notice>): seq<Notice>
  {
    if n.Some? then [n.value] else []
  }

  /** The notifications an MPC attempt that went ahead from `g` raises, in order. */
  function AttemptNotices(g: FailsafeState, now: real, attempt: MpcAttempt): seq<Notice>
  {
    match AttemptRoute(attempt)
    case PiOnly => []
    case MpcApplied(_) => AsSeq(RecoveryNotice(g))
    case MpcFailed(reason) => AsSeq(FailureNotice(g, reason))
    case MpcSucceededEmpty =>
      AsSeq(RecoveryNotice(g)) + AsSeq(FailureNotice(RecordSuccess(g), EMPTY_SOLUTION_REASON))
  }

  /** The failsafe after one control cycle. */
  function CycleFailsafe(f: FailsafeState, now: real, modelAvailable: bool, attempt: MpcAttempt): FailsafeState
  {
    if AttemptsMpc(f, now, modelAvailable) then AttemptFailsafe(Gate(f, now), now, attempt) else f
  }

  /** The notifications one control cycle raises, in order. */
  function CycleNotices(f: FailsafeState, now: real, modelAvailable: bool, attempt: MpcAttempt): seq<Notice>
  {
    if AttemptsMpc(f, now, modelAvailable) then AttemptNotices(Gate(f, now), now, attempt) else []
  }

  /**
   * Every MPC failure counts one more failure, clears the success streak
   * and records reason and time; reaching MPC_MAX_FAILURES disables MPC,
   * anything less leaves it degraded. The first failure raises the
   * "degraded" notice, the disabling one the "disabled" notice.
   */
  lemma FailureTransition(f: FailsafeState, reason: string, now: real)
    ensures var g := RecordFailure(f, reason, now);
      g.failureCount == f.failureCount + 1 && g.successCount == 0 &&
      g.lastFailureReason == Some(reason) && g.lastFailureTime == Some(now) &&
      (g.failureCount >= MPC_MAX_FAILURES ==> g.disabled && g.status == Disabled) &&
      (g.failureCount < MPC_MAX_FAILURES ==> g.disabled == f.disabled && g.status == Degraded) &&
      (FailureNotice(f, reason) == Some(MpcDegraded(reason)) <==> g.failureCount == 1) &&
      (FailureNotice(f, reason) == Some(MpcDisabled(reason)) <==> g.disabled && g.failureCount >= MPC_MAX_FAILURES)
  {
  }

  /**
   * Every MPC success clears the failure count and reason and extends the
   * success streak; a degraded MPC that reaches MPC_SUCCESS_COUNT_TO_RECOVER
   * becomes active with the streak restarted, and an active one only counts.
   */
  lemma SuccessTransition(f: FailsafeState)
    ensures var g := RecordSuccess(f);
      g.failureCount == 0 && g.lastFailureReason == None && g.lastFailureTime == f.lastFailureTime &&
      g.disabled == f.disabled &&
      (f.status == Degraded && f.successCount + 1 >= MPC_SUCCESS_COUNT_TO_RECOVER ==>
         g.status == Active && g.successCount == 0 && RecoveryNotice(f) == Some(MpcRecovered)) &&
      (!(f.status == Degraded && f.successCount + 1 >= MPC_SUCCESS_COUNT_TO_RECOVER) ==>
         g.status == f.status && g.successCount == f.successCount + 1 && RecoveryNotice(f) == None)
  {
  }

  /**
   * While MPC is disabled it is not attempted unless a retry is due; a due
   * retry clears the flag and the failure count and marks MPC active in the
   * same cycle.
   */
  lemma RetryGate(f: FailsafeState, now: real, modelAvailable: bool, attempt: MpcAttempt)
    requires f.disabled
    ensures !RetryDue(f, now) ==>
      RouteOf(f, now, modelAvailable, attempt) == PiOnly && CycleFailsafe(f, now, modelAvailable, attempt) == f
    ensures RetryDue(f, now) ==>
      var g := Gate(f, now);
      !g.disabled && g.failureCount == 0 && g.status == Active &&
      (modelAvailable ==> RouteOf(f, now, modelAvailable, attempt) != PiOnly)
  {
  }

  /** A control cycle keeps the failsafe consistent. */
  lemma {:induction false} CycleKeepsConsistent(f: FailsafeState, now: real, modelAvailable: bool, attempt: MpcAttempt)
    requires Consistent(f)
    ensures Consistent(CycleFailsafe(f, now, modelAvailable, attempt))
  {
    if AttemptsMpc(f, now, modelAvailable) {
      var g := Gate(f, now);
      assert Consistent(g) && !g.disabled;
      match AttemptRoute(attempt)
      case PiOnly =>
      case MpcApplied(_) =>
      case MpcFailed(reason) =>
      case MpcSucceededEmpty =>
        assert !RecordSuccess(g).disabled;
    }
  }

  /** `n` failures in a row. */
  function Failures(f: FailsafeState, reason: string, now: real, n: nat): FailsafeState
    decreases n
  {
    if n == 0 then f else RecordFailure(Failures(f, reason, now, n - 1), reason, now)
  }

  /** `n` successes in a row. */
  function Successes(f: FailsafeState, n: nat): FailsafeState
    decreases n
  {
    if n == 0 then f else RecordSuccess(Successes(f, n - 1))
  }

  /**
   * From a fresh failsafe, n consecutive failures leave MPC degraded while
   * n < 3 and disabled from the third on.
   */
  lemma {:induction false} ConsecutiveFailures(reason: string, now: real, n: nat)
    ensures Failures(InitialFailsafe(), reason, now, n).failureCount == n
    ensures Failures(InitialFailsafe(), reason, now, n).disabled <==> n >= MPC_MAX_FAILURES
    ensures Failures(InitialFailsafe(), reason, now, n).status ==
      (if n == 0 then Active else if n < MPC_MAX_FAILURES then Degraded else Disabled)
    decreases n
  {
    if n > 0 {
      ConsecutiveFailures(reason, now, n - 1);
    }
  }

  /**
   * A degraded MPC with no success streak stays degraded for the first four
   * successes and becomes active, with the streak reset, on the fifth.
   */
  lemma {:induction false} RecoveryAfterSuccesses(f: FailsafeState, n: nat)
    requires f.status == Degraded && f.successCount == 0
    requires n <= MPC_SUCCESS_COUNT_TO_RECOVER
    ensures n < MPC_SUCCESS_COUNT_TO_RECOVER ==> Successes(f, n).status == Degraded && Successes(f, n).successCount == n
    ensures n == MPC_SUCCESS_COUNT_TO_RECOVER ==> Successes(f, n).status == Active && Successes(f, n).successCount == 0
    decreases n
  {
    if n > 0 {
      RecoveryAfterSuccesses(f, n - 1);
    }
  }

  /** In "active", successes only extend the streak. */
  lemma {:induction false} ActiveSuccessesCount(f: FailsafeState, n: nat)
    requires f.status == Active
    ensures Successes(f, n).status == Active
    ensures Successes(f, n).successCount == f.successCount + n
    ensures Successes(f, n).failureCount == (if n == 0 then f.failureCount else 0)
    decreases n
  {
    if n > 0 {
      ActiveSuccessesCount(f, n - 1);
    }
  }

  /**
   * The target after `async_set_preset_mode`: "away" lowers it by 3 °C and
   * "sleep" by 1 °C, never below the minimum temperature; other presets keep it.
   */
  function PresetTarget(preset: string, target: real, minTemp: real): (t: real)
    ensures preset == PRESET_AWAY ==> t == Max(minTemp, target - 3.0)
    ensures preset == PRESET_SLEEP ==> t == Max(minTemp, target - 1.0)
    ensures preset != PRESET_AWAY && preset != PRESET_SLEEP ==> t == target
  {
    if preset == PRESET_AWAY then Max(minTemp, target - 3.0)
    else if preset == PRESET_SLEEP then Max(minTemp, target - 1.0)
    else target
  }

  /** Away and sleep never go below the minimum, never raise the target, and lower it by at most 3 and 1 °C. */
  lemma PresetBounds(preset: string, target: real, minTemp: real)
    requires preset == PRESET_AWAY || preset == PRESET_SLEEP
    ensures PresetTarget(preset, target, minTemp) >= minTemp
    ensures target >= minTemp ==> PresetTarget(preset, target, minTemp) <= target
    ensures PresetTarget(preset, target, minTemp) >= target - (if preset == PRESET_AWAY then 3.0 else 1.0)
  {
  }

  /** The HVAC action shown: off when the mode is off, heating above 5 % valve opening, idle otherwise. */
  function ActionOf(mode: HvacMode, valvePosition: real): (a: HvacAction)
    ensures a == ActionOff <==> mode.Off?
    ensures a == ActionHeating <==> (mode.Heat? && valvePosition > HEATING_VALVE_THRESHOLD)
  {
    if mode == Off then ActionOff
    else if valvePosition > HEATING_VALVE_THRESHOLD then ActionHeating
    else ActionIdle
  }

  /** `deque.append` on a deque with maxlen 144: the newest entry last, the oldest dropped when full. */
  function AppendError(errors: seq<(real, real)>, e: (real, real)): (r: seq<(real, real)>)
    requires |errors| <= ERROR_HISTORY_LENGTH
    ensures |r| == (if |errors| < ERROR_HISTORY_LENGTH then |errors| + 1 else ERROR_HISTORY_LENGTH)
    ensures r[|r| - 1] == e
    ensures r[..|r| - 1] == errors[|errors| + 1 - |r|..]
  {
    var s := errors + [e];
    if |s| > ERROR_HISTORY_LENGTH then s[1..] else s
  }

  /** The errors recorded at or after the cutoff time, oldest first. */
  function Recent(errors: seq<(real, real)>, cutoff: real): (r: seq<real>)
    ensures |r| <= |errors|
    decreases |errors|
  {
    if |errors| == 0 then []
    else (if errors[0].0 >= cutoff then [errors[0].1] else []) + Recent(errors[1..], cutoff)
  }

  /** Some entry at or after the cutoff recorded the error x. */
  predicate RecordedSince(errors: seq<(real, real)>, cutoff: real, x: real)
  {
    exists i :: 0 <= i < |errors| && errors[i].0 >= cutoff && errors[i].1 == x
  }

  /**
   * Each error in the window was recorded at or after the cutoff, and the
   * window holds every entry exactly when none is older than the cutoff.
   */
  lemma {:induction false} RecentIsWindow(errors: seq<(real, real)>, cutoff: real)
    ensures forall j :: 0 <= j < |Recent(errors, cutoff)| ==> RecordedSince(errors, cutoff, Recent(errors, cutoff)[j])
    ensures |Recent(errors, cutoff)| == |errors| <==> forall i :: 0 <= i < |errors| ==> errors[i].0 >= cutoff
    decreases |errors|
  {
    if |errors| > 0 {
      var tail := errors[1..];
      RecentIsWindow(tail, cutoff);
      var r := Recent(errors, cutoff);
      var rest := Recent(tail, cutoff);
      var head: seq<real> := if errors[0].0 >= cutoff then [errors[0].1] else [];
      assert r == head + rest;
      forall j | 0 <= j < |r| ensures RecordedSince(errors, cutoff, r[j]) {
        if j < |head| {
          assert errors[0].0 >= cutoff && errors[0].1 == r[j];
        } else {
          assert r[j] == rest[j - |head|];
          assert RecordedSince(tail, cutoff, rest[j - |head|]);
          var i :| 0 <= i < |tail| && tail[i].0 >= cutoff && tail[i].1 == r[j];
          assert errors[i + 1] == tail[i];
        }
      }
      if forall i :: 0 <= i < |errors| ==> errors[i].0 >= cutoff {
        forall i | 0 <= i < |tail| ensures tail[i].0 >= cutoff {
          assert tail[i] == errors[i + 1];
        }
      }
      if |r| == |errors| {
        assert errors[0].0 >= cutoff && |rest| == |tail|;
        forall i | 0 <= i < |errors| ensures errors[i].0 >= cutoff {
          if i > 0 { assert errors[i] == tail[i - 1]; }
        }
      }
    }
  }

  /** Filtering by the cutoff distributes over concatenation: the window keeps the history's order. */
  lemma {:induction false} RecentAppend(a: seq<(real, real)>, b: seq<(real, real)>, cutoff: real)
    ensures Recent(a + b, cutoff) == Recent(a, cutoff) + Recent(b, cutoff)
    decreases |a|
  {
    if |a| == 0 {
      assert a + b == b;
    } else {
      var ab := a + b;
      assert ab[0] == a[0] && ab[1..] == a[1..] + b;
      var head: seq<real> := if a[0].0 >= cutoff then [a[0].1] else [];
      assert Recent(ab, cutoff) == head + Recent(a[1..] + b, cutoff);
      assert Recent(a, cutoff) == head + Recent(a[1..], cutoff);
      RecentAppend(a[1..], b, cutoff);
      assert head + (Recent(a[1..], cutoff) + Recent(b, cutoff)) == (head + Recent(a[1..], cutoff)) + Recent(b, cutoff);
    }
  }

  /** A newly appended error is in the window exactly when its time is at or after the cutoff, and it comes last. */
  lemma RecentOfNewest(errors: seq<(real, real)>, e: (real, real), cutoff: real)
    ensures Recent(errors + [e], cutoff) == Recent(errors, cutoff) + (if e.0 >= cutoff then [e.1] else [])
  {
    RecentAppend(errors, [e], cutoff);
    assert Recent([e], cutoff) == (if e.0 >= cutoff then [e.1] else []) + Recent([], cutoff);
  }

  function Squares(s: seq<real>): (r: seq<real>)
    ensures |r| == |s|
    ensures forall i :: 0 <= i < |s| ==> r[i] == s[i] * s[i]
  {
    seq(|s|, i requires 0 <= i < |s| => s[i] * s[i])
  }

  /**
   * `get_control_quality_rmse`: the root mean square of the errors within
   * the window, or nothing with fewer than six of them.
   */
  function ControlQualityRmse(errors: seq<(real, real)>, now: real, windowHours: real, libm: Libm): (r: Option<real>)
    ensures r.None? <==> |Recent(errors, now - windowHours * 3600.0)| < 6
    ensures SqrtLawful(libm) && r.Some? ==> r.value >= 0.0
    ensures SqrtLawful(libm) && r.Some? ==>
      var recent := Recent(errors, now - windowHours * 3600.0);
      r.value * r.value == Sum(Squares(recent)) / (|recent| as real)
  {
    var recent := Recent(errors, now - windowHours * 3600.0);
    if |recent| < 6 then None
    else
      var sq := Squares(recent);
      forall i | 0 <= i < |sq| ensures sq[i] >= 0.0 {
        SquareNonNegative(recent[i]);
      }
      SumNonNegative(sq);
      Some(Sqrt(libm, Sum(sq) / (|sq| as real)))
  }

  /** The PI fallback's tuning as the entity creates it. */
  function FallbackGains(): PI.Gains
  {
    PI.Gains(PI.KP_DEFAULT, PI.TI_DEFAULT, PI.DT_DEFAULT, 0.0, 100.0, PI.ANTI_WINDUP_LIMIT_DEFAULT)
  }

  /** The adaptive thermostat entity: target, mode, valve, controller choice, failsafe and error history. */
  class Thermostat {
    const minTemp: real
    const pi: PI.PIController
    var hvacMode: HvacMode
    var hvacAction: HvacAction
    var presetMode: string
    var currentTemperature: Option<real>
    var targetTemperature: real
    var valvePosition: real
    var heatingDemand: real
    var controllerType: string
    var lastControlOutput: Option<real>
    // `_mpc_status`, `_mpc_failure_count`, `_mpc_success_count`,
    // `_mpc_last_failure_reason`, `_mpc_last_failure_time` and
    // `_mpc_permanently_disabled`, held together as one record
    var failsafe: FailsafeState
    var mpcInitialised: bool
    var temperatureErrors: seq<(real, real)>
    var notifications: seq<Notice>

    ghost predicate Valid()
      reads this, pi
    {
      pi.Tuning() == FallbackGains() &&
      Consistent(failsafe) &&
      |temperatureErrors| <= ERROR_HISTORY_LENGTH
    }

    constructor (minTemp: real)
      ensures Valid() && fresh(pi)
      ensures this.minTemp == minTemp
      ensures hvacMode == Heat && presetMode == PRESET_HOME && currentTemperature == None
      ensures targetTemperature == DEFAULT_TARGET_TEMP && valvePosition == 0.0
      ensures controllerType == CONTROLLER_TYPE_PI && lastControlOutput == None
      ensures failsafe == InitialFailsafe() && !mpcInitialised
      ensures temperatureErrors == [] && notifications == [] && pi.state == PI.InitialState()
    {
      this.minTemp := minTemp;
      pi := new PI.PIController(PI.KP_DEFAULT, PI.TI_DEFAULT, PI.DT_DEFAULT, 0.0, 100.0, PI.ANTI_WINDUP_LIMIT_DEFAULT);
      hvacMode := Heat;
      hvacAction := ActionIdle;
      presetMode := PRESET_HOME;
      currentTemperature := None;
      targetTemperature := DEFAULT_TARGET_TEMP;
      valvePosition := 0.0;
      heatingDemand := 0.0;
      controllerType := CONTROLLER_TYPE_PI;
      lastControlOutput := None;
      failsafe := InitialFailsafe();
      mpcInitialised := false;
      temperatureErrors := [];
      notifications := [];
    }

    /** `_set_valve_position`: the valve position and the heating demand both become the given value. */
    method SetValvePosition(position: real)
      modifies this
      ensures valvePosition == position && heatingDemand == position
      ensures failsafe == old(failsafe) && lastControlOutput == old(lastControlOutput)
      ensures controllerType == old(controllerType) && temperatureErrors == old(temperatureErrors)
      ensures notifications == old(notifications) && mpcInitialised == old(mpcInitialised)
      ensures targetTemperature == old(targetTemperature) && currentTemperature == old(currentTemperature)
      ensures hvacMode == old(hvacMode) && presetMode == old(presetMode)
    {
      valvePosition := position;
      heatingDemand := position;
    }

    /**
     * `_async_control_with_pi`: one PI step from the room temperature to the
     * target with dt = 600 s, applied to the valve and kept as the last
     * control output.
     */
    method ControlWithPi()
      requires Valid() && currentTemperature.Some?
      modifies this, pi
      ensures Valid()
      ensures var (s, u) := PI.Step(FallbackGains(), old(pi.state), targetTemperature, old(currentTemperature).value, UPDATE_INTERVAL);
        pi.state == s && valvePosition == u && heatingDemand == u && lastControlOutput == Some(u)
      ensures 0.0 <= valvePosition <= 100.0
      ensures controllerType == CONTROLLER_TYPE_PI
      ensures failsafe == old(failsafe) && temperatureErrors == old(temperatureErrors)
      ensures notifications == old(notifications) && mpcInitialised == old(mpcInitialised)
      ensures targetTemperature == old(targetTemperature) && currentTemperature == old(currentTemperature)
      ensures hvacMode == old(hvacMode) && presetMode == old(presetMode)
    {
      controllerType := CONTROLLER_TYPE_PI;
      var r := pi.Update(targetTemperature, currentTemperature.value, Some(UPDATE_INTERVAL));
      var valve := r.value;
      SetValvePosition(valve);
      lastControlOutput := Some(valve);
    }

    /**
     * `_handle_mpc_failure`: count the failure, disable MPC at the limit or
     * mark it degraded, raise the matching notice, then run the PI fallback.
     */
    method HandleMpcFailure(reason: string, now: real)
      requires Valid() && currentTemperature.Some?
      requires !failsafe.disabled
      modifies this, pi
      ensures Valid()
      ensures failsafe == RecordFailure(old(failsafe), reason, now)
      ensures notifications == old(notifications) + AsSeq(FailureNotice(old(failsafe), reason))
      ensures var (s, u) := PI.Step(FallbackGains(), old(pi.state), targetTemperature, old(currentTemperature).value, UPDATE_INTERVAL);
        pi.state == s && valvePosition == u && lastControlOutput == Some(u)
      ensures controllerType == CONTROLLER_TYPE_PI
      ensures temperatureErrors == old(temperatureErrors) && mpcInitialised == old(mpcInitialised)
      ensures targetTemperature == old(targetTemperature) && currentTemperature == old(currentTemperature)
      ensures hvacMode == old(hvacMode) && presetMode == old(presetMode)
    {
      var f := failsafe;
      notifications := notifications + AsSeq(FailureNotice(f, reason));
      failsafe := RecordFailure(f, reason, now);
      ControlWithPi();
    }

    /** The success branch of `_async_control_with_mpc`, before the first input is applied. */
    method RecordMpcSuccess()
      requires Valid() && !failsafe.disabled
      modifies this
      ensures Valid()
      ensures failsafe == RecordSuccess(old(failsafe))
      ensures notifications == old(notifications) + AsSeq(RecoveryNotice(old(failsafe)))
      ensures valvePosition == old(valvePosition) && lastControlOutput == old(lastControlOutput)
      ensures controllerType == old(controllerType)
      ensures temperatureErrors == old(temperatureErrors) && mpcInitialised == old(mpcInitialised)
      ensures targetTemperature == old(targetTemperature) && currentTemperature == old(currentTemperature)
      ensures hvacMode == old(hvacMode) && presetMode == old(presetMode)
    {
      var f := failsafe;
      notifications := notifications + AsSeq(RecoveryNotice(f));
      failsafe := RecordSuccess(f);
    }

    /**
     * `_async_control_with_mpc`: skip to PI while disabled unless a retry is
     * due (which re-enables MPC), then attempt MPC.
     */
    method ControlWithMpc(now: real, attempt: MpcAttempt)
      requires Valid() && currentTemperature.Some?
      modifies this, pi
      ensures Valid()
      ensures targetTemperature == old(targetTemperature) && currentTemperature == old(currentTemperature)
      ensures hvacMode == old(hvacMode) && presetMode == old(presetMode)
      ensures temperatureErrors == old(temperatureErrors)
      ensures failsafe == CycleFailsafe(old(failsafe), now, true, attempt)
      ensures notifications == old(notifications) + CycleNotices(old(failsafe), now, true, attempt)
      ensures mpcInitialised == (old(mpcInitialised) || AttemptsMpc(old(failsafe), now, true))
      ensures var route := RouteOf(old(failsafe), now, true, attempt);
        (route.MpcApplied? ==>
          valvePosition == route.u && lastControlOutput == Some(route.u) &&
          pi.state == old(pi.state) && controllerType == CONTROLLER_TYPE_MPC) &&
        (!route.MpcApplied? ==>
          var (s, u) := PI.Step(FallbackGains(), old(pi.state), targetTemperature, old(currentTemperature).value, UPDATE_INTERVAL);
          pi.state == s && valvePosition == u && lastControlOutput == Some(u) && controllerType == CONTROLLER_TYPE_PI)
    {
      if failsafe.disabled {
        if RetryDue(failsafe, now) {
          failsafe := Gate(failsafe, now);
        } else {
          ControlWithPi();
          return;
        }
      }
      assert failsafe == Gate(old(failsafe), now);
      RunMpc(now, attempt);
    }

    /** The MPC attempt of `_async_control_with_mpc`, once MPC is enabled. */
    method RunMpc(now: real, attempt: MpcAttempt)
      requires Valid() && currentTemperature.Some? && !failsafe.disabled
      modifies this, pi
      ensures Valid()
      ensures targetTemperature == old(targetTemperature) && currentTemperature == old(currentTemperature)
      ensures hvacMode == old(hvacMode) && presetMode == old(presetMode)
      ensures temperatureErrors == old(temperatureErrors) && mpcInitialised
      ensures failsafe == AttemptFailsafe(old(failsafe), now, attempt)
      ensures notifications == old(notifications) + AttemptNotices(old(failsafe), now, attempt)
      ensures var route := AttemptRoute(attempt);
        (route.MpcApplied? ==>
          valvePosition == route.u && lastControlOutput == Some(route.u) &&
          pi.state == old(pi.state) && controllerType == CONTROLLER_TYPE_MPC) &&
        (!route.MpcApplied? ==>
          var (s, u) := PI.Step(FallbackGains(), old(pi.state), targetTemperature, old(currentTemperature).value, UPDATE_INTERVAL);
          pi.state == s && valvePosition == u && lastControlOutput == Some(u) && controllerType == CONTROLLER_TYPE_PI)
    {
      controllerType := CONTROLLER_TYPE_MPC;
      if !mpcInitialised {
        mpcInitialised := true;
      }
      match AttemptRoute(attempt) {
        case MpcFailed(reason) =>
          HandleMpcFailure(reason, now);
        case MpcSucceededEmpty =>
          HandleEmptySolution(now);
        case MpcApplied(valve) =>
          ApplyMpcOutput(valve);
      }
    }

    /** A successful optimisation whose input sequence is empty: a success, then a failure. */
    method HandleEmptySolution(now: real)
      requires Valid() && currentTemperature.Some? && !failsafe.disabled
      modifies this, pi
      ensures Valid()
      ensures failsafe == RecordFailure(RecordSuccess(old(failsafe)), EMPTY_SOLUTION_REASON, now)
      ensures notifications == old(notifications) + AsSeq(RecoveryNotice(old(failsafe))) +
        AsSeq(FailureNotice(RecordSuccess(old(failsafe)), EMPTY_SOLUTION_REASON))
      ensures var (s, u) := PI.Step(FallbackGains(), old(pi.state), targetTemperature, old(currentTemperature).value, UPDATE_INTERVAL);
        pi.state == s && valvePosition == u && lastControlOutput == Some(u)
      ensures controllerType == CONTROLLER_TYPE_PI
      ensures temperatureErrors == old(temperatureErrors) && mpcInitialised == old(mpcInitialised)
      ensures targetTemperature == old(targetTemperature) && currentTemperature == old(currentTemperature)
      ensures hvacMode == old(hvacMode) && presetMode == old(presetMode)
    {
      RecordMpcSuccess();
      HandleMpcFailure(EMPTY_SOLUTION_REASON, now);
    }

    /** A successful optimisation: record the success and apply the first input to the valve. */
    method ApplyMpcOutput(valve: real)
      requires Valid() && !failsafe.disabled
      modifies this
      ensures Valid()
      ensures failsafe == RecordSuccess(old(failsafe))
      ensures notifications == old(notifications) + AsSeq(RecoveryNotice(old(failsafe)))
      ensures valvePosition == valve && lastControlOutput == Some(valve)
      ensures controllerType == old(controllerType)
      ensures temperatureErrors == old(temperatureErrors) && mpcInitialised == old(mpcInitialised)
      ensures targetTemperature == old(targetTemperature) && currentTemperature == old(currentTemperature)
      ensures hvacMode == old(hvacMode) && presetMode == old(presetMode)
    {
      RecordMpcSuccess();
      SetValvePosition(valve);
      lastControlOutput := Some(valve);
    }

    /**
     * What a heating cycle with a known room temperature leaves behind: the
     * failsafe and notifications of the cycle's route; the MPC input or the
     * PI fallback's step on the valve, as the last output and in the PI
     * state; and the temperature error appended to the history.
     */
    twostate predicate CycleDone(now: real, modelAvailable: bool, attempt: MpcAttempt)
      requires old(currentTemperature).Some? && old(|temperatureErrors|) <= ERROR_HISTORY_LENGTH
      reads this, pi
    {
      var T := old(currentTemperature).value;
      var route := RouteOf(old(failsafe), now, modelAvailable, attempt);
      failsafe == CycleFailsafe(old(failsafe), now, modelAvailable, attempt) &&
      notifications == old(notifications) + CycleNotices(old(failsafe), now, modelAvailable, attempt) &&
      (route.MpcApplied? ==>
        valvePosition == route.u && lastControlOutput == Some(route.u) &&
        pi.state == old(pi.state) && controllerType == CONTROLLER_TYPE_MPC) &&
      (!route.MpcApplied? ==>
        var (s, u) := PI.Step(FallbackGains(), old(pi.state), targetTemperature, T, UPDATE_INTERVAL);
        pi.state == s && valvePosition == u && lastControlOutput == Some(u) && controllerType == CONTROLLER_TYPE_PI) &&
      temperatureErrors == AppendError(old(temperatureErrors), (now, targetTemperature - T))
    }

    /** The mode-off branch of a control update: the valve closed, PI reset and nothing else of the loop touched. */
    twostate predicate HeatingStopped()
      reads this, pi
    {
      valvePosition == 0.0 && heatingDemand == 0.0 && pi.state == PI.InitialState() && lastControlOutput == None &&
      failsafe == old(failsafe) && notifications == old(notifications) &&
      temperatureErrors == old(temperatureErrors) && controllerType == old(controllerType)
    }

    /** A control update without a room temperature: no control state changes. */
    twostate predicate NothingControlled()
      reads this, pi
    {
      valvePosition == old(valvePosition) && heatingDemand == old(heatingDemand) && pi.state == old(pi.state) &&
      lastControlOutput == old(lastControlOutput) && failsafe == old(failsafe) && notifications == old(notifications) &&
      temperatureErrors == old(temperatureErrors) && controllerType == old(controllerType)
    }

    /**
     * `_async_control_heating`: with the mode off, close the valve, reset
     * PI and forget the last output; without a room temperature do nothing;
     * otherwise run MPC when a trained model exists and PI when not, then
     * record the temperature error.
     */
    method ControlHeating(now: real, modelAvailable: bool, attempt: MpcAttempt)
      requires Valid()
      modifies this, pi
      ensures Valid()
      ensures targetTemperature == old(targetTemperature) && currentTemperature == old(currentTemperature)
      ensures hvacMode == old(hvacMode) && presetMode == old(presetMode)
      ensures old(hvacMode) == Off ==> HeatingStopped()
      ensures old(hvacMode) == Heat && old(currentTemperature).None? ==>
        unchanged(this) && unchanged(pi)
      ensures old(hvacMode) == Heat && old(currentTemperature).Some? ==> CycleDone(now, modelAvailable, attempt)
    {
      if hvacMode == Off {
        SetValvePosition(0.0);
        pi.Reset();
        lastControlOutput := None;
        return;
      }
      if currentTemperature.None? {
        return;
      }
      ControlCycle(now, modelAvailable, attempt);
    }

    /**
     * A heating cycle with a known room temperature: MPC when a trained
     * model exists, PI when not, then the temperature error is recorded.
     */
    method ControlCycle(now: real, modelAvailable: bool, attempt: MpcAttempt)
      requires Valid() && currentTemperature.Some?
      modifies this, pi
      ensures Valid()
      ensures targetTemperature == old(targetTemperature) && currentTemperature == old(currentTemperature)
      ensures hvacMode == old(hvacMode) && presetMode == old(presetMode)
      ensures CycleDone(now, modelAvailable, attempt)
    {
      if modelAvailable {
        ControlWithMpc(now, attempt);
      } else {
        ControlWithPi();
      }
      var error := targetTemperature - currentTemperature.value;
      temperatureErrors := AppendError(temperatureErrors, (now, error));
    }

    /** `async_set_temperature`: a missing temperature does nothing; otherwise set the target and run a cycle. */
    method SetTemperature(temperature: Option<real>, now: real, modelAvailable: bool, attempt: MpcAttempt)
      requires Valid()
      modifies this, pi
      ensures Valid()
      ensures temperature.None? ==> unchanged(this) && unchanged(pi)
      ensures targetTemperature == (if temperature.Some? then temperature.value else old(targetTemperature))
      ensures hvacMode == old(hvacMode) && presetMode == old(presetMode) && currentTemperature == old(currentTemperature)
      ensures temperature.Some? && old(hvacMode) == Off ==> HeatingStopped()
      ensures temperature.Some? && old(hvacMode) == Heat && old(currentTemperature).None? ==> NothingControlled()
      ensures temperature.Some? && old(hvacMode) == Heat && old(currentTemperature).Some? ==>
        CycleDone(now, modelAvailable, attempt)
    {
      if temperature.None? {
        return;
      }
      targetTemperature := temperature.value;
      ControlHeating(now, modelAvailable, attempt);
    }

    /** `async_set_hvac_mode`: off closes the valve and shows "off"; heat runs a control cycle. */
    method SetHvacMode(mode: HvacMode, now: real, modelAvailable: bool, attempt: MpcAttempt)
      requires Valid()
      modifies this, pi
      ensures Valid()
      ensures hvacMode == mode
      ensures targetTemperature == old(targetTemperature) && presetMode == old(presetMode)
      ensures currentTemperature == old(currentTemperature)
      ensures mode == Off ==> valvePosition == 0.0 && hvacAction == ActionOff && failsafe == old(failsafe)
      ensures mode == Off ==> pi.state == old(pi.state) && temperatureErrors == old(temperatureErrors)
      ensures mode == Heat && old(currentTemperature).None? ==> NothingControlled()
      ensures mode == Heat && old(currentTemperature).Some? ==> CycleDone(now, modelAvailable, attempt)
    {
      hvacMode := mode;
      if mode == Off {
        SetValvePosition(0.0);
        hvacAction := ActionOff;
      } else {
        ControlHeating(now, modelAvailable, attempt);
      }
    }

    /** `async_set_preset_mode`: record the preset, adjust the target, and run a control cycle. */
    method SetPresetMode(preset: string, now: real, modelAvailable: bool, attempt: MpcAttempt)
      requires Valid()
      modifies this, pi
      ensures Valid()
      ensures presetMode == preset
      ensures targetTemperature == PresetTarget(preset, old(targetTemperature), minTemp)
      ensures hvacMode == old(hvacMode) && currentTemperature == old(currentTemperature)
      ensures old(hvacMode) == Off ==> HeatingStopped()
      ensures old(hvacMode) == Heat && old(currentTemperature).None? ==> NothingControlled()
      ensures old(hvacMode) == Heat && old(currentTemperature).Some? ==> CycleDone(now, modelAvailable, attempt)
    {
      presetMode := preset;
      if preset == PRESET_AWAY {
        targetTemperature := Max(minTemp, targetTemperature - 3.0);
      } else if preset == PRESET_SLEEP {
        targetTemperature := Max(minTemp, targetTemperature - 1.0);
      }
      ControlHeating(now, modelAvailable, attempt);
    }

    /** The HVAC-action update of `async_update` and `_handle_coordinator_update`. */
    method UpdateHvacAction()
      modifies this
      ensures hvacAction == ActionOf(hvacMode, valvePosition)
      ensures hvacMode == old(hvacMode) && valvePosition == old(valvePosition)
    {
      if hvacMode == Off {
        hvacAction := ActionOff;
      } else if valvePosition > HEATING_VALVE_THRESHOLD {
        hvacAction := ActionHeating;
      } else {
        hvacAction := ActionIdle;
      }
    }
  }
}
