# Adaptive thermal control: a verified model of the control engine

This project is a Dafny model of the control engine in the Home Assistant
integration `adaptive_thermal_control`. The integration heats rooms with
hydronic radiators or floor heating. For each room it learns a 1R1C thermal
model: a resistance R to the outdoors and a capacity C. It then drives the
room's valves with a model-predictive controller (MPC), and falls back to
a PI controller when MPC is unavailable.

The model covers these parts, one Dafny module per Python module:

- `Thermal` (`thermal_model.py`): parameter validation, the zero-order-hold
  discretisation A = exp(−dt/(R·C)), B = R·(1 − A), Bd = 1 − A, one-step
  prediction, trajectories and the steady-state heating power.
- `Estimator` (`parameter_estimator.py`): recursive least squares with a
  forgetting factor over θ = [a, b, c], the recovery of R and C from θ, and
  the estimator object that updates θ and its covariance P in place.
- `PI` (`pi_controller.py`): the PI fallback with conditional-integration
  anti-windup and clamped integral and output.
- `MPC` (`mpc_controller.py`): horizon configuration, forecast padding,
  warm start, the cost function and rate constraints given to the
  optimiser, the predicted trajectory, and what the controller does with
  the optimiser's answer.
- `Tuner` (`mpc_tuner.py`): the weight grid search sorted by combined
  score, the Pareto filter and the recommendation by preference.
- `Coordinator` (`coordinator.py`): per-zone heating demands and fair-share
  scaling against the boiler's maximum power.
- `Forecast` (`forecast_provider.py`): the outdoor-temperature forecast
  read from a weather entity, interpolated onto the controller's grid, with
  a constant fallback.
- `Preprocessing` (`data_preprocessing.py`): outlier masks, gap
  interpolation, resampling, the moving-average filter and the
  preprocessing pipeline.
- `Trainer` (`model_trainer.py`): error metrics, alignment of recorded
  histories, and training with its success criteria.
- `Validator` (`model_validator.py`): one-step and multi-step validation
  and k-fold cross-validation.
- `Climate` (`climate.py`): the thermostat's control cycle and its MPC
  failsafe. Failures are counted, three in a row disable MPC for an hour,
  and five successes in a row take a degraded MPC back to "active". The
  module also covers presets, HVAC modes and the HVAC action.
- `Sensor` (`sensor.py`): the values of the diagnostic sensors.
- `Base`: shared vocabulary. It holds Option and Result, clamps, sums,
  NumPy's edge padding and `np.interp`, and number formatting.

Conventions:

- Floats are reals. Where NumPy's NaN and infinities matter (preprocessing),
  a value is a `Float` with those cases spelled out.
- `exp`, `ln` and `sqrt` are fields of a `Libm` record passed in as a
  parameter. Predicates state the few laws the code relies on, such as
  exp being positive and below one for negative arguments.
- Wall-clock time, the weather forecast, the optimiser's result, timeouts
  and the host's services are parameters or logged effects.
- Objects whose methods update their fields are classes with a `Valid()`
  invariant. Each such method states its new state through a function of
  the old state, and lemmas prove the promised properties of those
  functions.

## Model

| member | source | states |
|---|---|---|
| Thermal.TimeConstant | custom_components/adaptive_thermal_control/thermal_model.py:54-61 | τ = R·C is positive for positive R and C and negative when C is negative |
| Thermal.ValidateIff | custom_components/adaptive_thermal_control/thermal_model.py:63-85 | parameters validate exactly when R > 0 and C > 0, and valid parameters have a positive time constant |
| Thermal.AtypicalTimeConstantStillValid | custom_components/adaptive_thermal_control/thermal_model.py:77-85 | a time constant below 1 h or above 12 h only warns: such parameters still validate |
| Thermal.Discretize | custom_components/adaptive_thermal_control/thermal_model.py:140-156 | for valid parameters A = exp(−dt/(R·C)) is positive, and for dt > 0 it lies below 1 while B > 0 and 0 < Bd < 1 |
| Thermal.DecayExponent | custom_components/adaptive_thermal_control/thermal_model.py:150 | the exponent −dt/(R·C) is negative for a positive time constant and positive dt |
| Thermal.DecayBounds | custom_components/adaptive_thermal_control/thermal_model.py:149-156 | the discretisation bounds follow from exp being positive and below 1 on negative arguments |
| Thermal.CoefficientRelations | custom_components/adaptive_thermal_control/thermal_model.py:152-156 | the gains are tied: Bd = 1 − A and B = R·Bd |
| Thermal.SimulateStepLinear | custom_components/adaptive_thermal_control/thermal_model.py:184-212 | skipping the disturbance term when Q = 0 gives the same value as T' = A·T + B·(u + Q) + Bd·Tout |
| Thermal.Trajectory | custom_components/adaptive_thermal_control/thermal_model.py:249-260 | a prediction has N + 1 values and starts at the initial temperature |
| Thermal.TrajectoryStep | custom_components/adaptive_thermal_control/thermal_model.py:253-260 | every predicted value is one simulate_step from the value before it under that step's inputs |
| Thermal.TrajectoryPrefix | custom_components/adaptive_thermal_control/thermal_model.py:214-269 | predicting the first m inputs yields exactly the first m + 1 values of the full prediction |
| Thermal.SteadyStateIsFixedPoint | custom_components/adaptive_thermal_control/thermal_model.py:271-299 | the steady-state temperature T_out + R·(u + Q) is a fixed point of one simulation step with the same inputs |
| Thermal.StepDeviation | custom_components/adaptive_thermal_control/thermal_model.py:184-212 | one step multiplies the distance to the steady state by A, so with 0 < A < 1 the room converges to it |
| Thermal.HeatingPowerForTarget | custom_components/adaptive_thermal_control/thermal_model.py:301-329 | the required heating power is never negative |
| Thermal.HeatingPowerInvertsSteadyState | custom_components/adaptive_thermal_control/thermal_model.py:301-329 | when the raw power is non-negative its steady state is exactly the target; otherwise the power is 0 and the unheated steady state already exceeds the target |
| Thermal.ThermalModel.constructor | custom_components/adaptive_thermal_control/thermal_model.py:111-130 | the new model holds the given valid parameters and the coefficients derived from them |
| Thermal.ThermalModel.New | custom_components/adaptive_thermal_control/thermal_model.py:111-130 | missing parameters take the defaults; construction fails exactly when the parameters do not validate, and otherwise yields a consistent model |
| Thermal.ThermalModel.UpdateMatrices | custom_components/adaptive_thermal_control/thermal_model.py:140-163 | A, B and Bd are recomputed from the current parameters |
| Thermal.ThermalModel.SetParameters | custom_components/adaptive_thermal_control/thermal_model.py:165-182 | invalid parameters raise and leave parameters and coefficients untouched; valid ones replace both |
| Thermal.ThermalModel.Predict | custom_components/adaptive_thermal_control/thermal_model.py:214-269 | raises exactly when an outdoor or disturbance sequence has the wrong length; otherwise returns the trajectory, with zeros for missing disturbances |
| PI.Step | custom_components/adaptive_thermal_control/pi_controller.py:101-161 | when the output range is well formed the returned command always lies within [output_min, output_max] |
| PI.StepOutput | custom_components/adaptive_thermal_control/pi_controller.py:138-161 | the command is the clamped P + I output, the saturation flag is set exactly when clamping changed the output, and the error and command are remembered |
| PI.StepIntegral | custom_components/adaptive_thermal_control/pi_controller.py:127-134 | the integral accumulates error·dt only when the previous call was not saturated, and is then clamped to ±max_integral |
| PI.IntegralBounded | custom_components/adaptive_thermal_control/pi_controller.py:132-134 | after every update the integral magnitude is at most anti_windup_limit/(kp/ti) (anti-windup) |
| PI.NoIntegralActionIsStateless | custom_components/adaptive_thermal_control/pi_controller.py:133-136 | with ti ≤ 0 the integral is forced to 0 and the command is the clamped proportional term, whatever the history |
| PI.PIController.constructor | custom_components/adaptive_thermal_control/pi_controller.py:62-99 | the controller keeps the given tuning and starts from the zero state |
| PI.PIController.Update | custom_components/adaptive_thermal_control/pi_controller.py:101-161 | the new state and returned command are one Step with the given or default dt; with ti > 0 and kp = 0 the call raises after the integral has been accumulated |
| PI.PIController.Reset | custom_components/adaptive_thermal_control/pi_controller.py:163-172 | the state returns to zero integral, error and output, unsaturated; the tuning is kept |
| PI.PIController.SetParameters | custom_components/adaptive_thermal_control/pi_controller.py:174-197 | only the supplied gains change and the controller state is kept |
| PWM.Pending | custom_components/adaptive_thermal_control/pwm_controller.py:326-335 | the handles an entry holds are exactly its present ON and OFF cancel handles |
| PWM.PendingList | custom_components/adaptive_thermal_control/pwm_controller.py:326-335 | the handles cancel_schedule invokes, ON before OFF: at most two, and exactly the entry's present handles |
| PWM.Domain | custom_components/adaptive_thermal_control/pwm_controller.py:111 | the domain is the longest dot-free prefix of the entity id, followed by a dot when it is shorter than the id |
| PWM.DutyError | custom_components/adaptive_thermal_control/pwm_controller.py:108-115 | set_duty_cycle raises exactly when the duty lies outside [0, 100] or the entity is not in the switch domain |
| PWM.OnOffTimes | custom_components/adaptive_thermal_control/pwm_controller.py:140-161 | each phase is its share of the period or, when shorter, raised to its minimum; both minima are always met |
| PWM.CycleLength | custom_components/adaptive_thermal_control/pwm_controller.py:140-161 | a cycle never lasts less than the period, and lasts exactly the period with the ON share equal to the duty when no minimum applies |
| PWM.DefaultSplit | custom_components/adaptive_thermal_control/pwm_controller.py:140-161 | with the default 1800 s period and 300 s minima, 65 % gives 1170 s ON and 630 s OFF, and 5 % is raised to 300 s ON |
| PWM.PWMController.constructor | custom_components/adaptive_thermal_control/pwm_controller.py:44-75 | a new controller keeps its timing and holds no schedules |
| PWM.PWMController.TurnValve | custom_components/adaptive_thermal_control/pwm_controller.py:288-313 | exactly one switch command is issued and nothing else changes |
| PWM.PWMController.Track | custom_components/adaptive_thermal_control/pwm_controller.py:198-204 | one timer is scheduled with the given delay and event, and its handle is returned |
| PWM.PWMController.CancelSchedule | custom_components/adaptive_thermal_control/pwm_controller.py:315-340 | an unknown valve is a no-op; otherwise its pending ON then OFF handles (PendingList) are invoked and only its entry is removed |
| PWM.PWMController.CancelAllSchedules | custom_components/adaptive_thermal_control/pwm_controller.py:342-348 | the table ends empty, and exactly the pending handles of the old table are invoked |
| PWM.PWMController.StartPwmCycle | custom_components/adaptive_thermal_control/pwm_controller.py:175-220 | the valve is switched ON, its OFF event is scheduled after the ON time, and its entry holds only that OFF handle |
| PWM.PWMController.SetDutyCycle | custom_components/adaptive_thermal_control/pwm_controller.py:77-173 | invalid input raises before anything changes; valid input first invokes exactly the old entry's pending handles (none for a valve without an entry); 0 % or 100 % then switch the valve once and leave no entry; a partial duty starts a cycle with OnOffTimes; other valves are untouched |
| PWM.PWMController.HandleOffEvent | custom_components/adaptive_thermal_control/pwm_controller.py:222-265 | the valve is switched OFF and the next ON event scheduled with the stored ON time (0 without an entry); an existing entry then holds only that ON handle |
| PWM.PWMController.HandleOnEvent | custom_components/adaptive_thermal_control/pwm_controller.py:267-286 | the next cycle starts with the same phase lengths |
| Estimator.InitialState | custom_components/adaptive_thermal_control/parameter_estimator.py:50-65 | a fresh RLS state has a 3-vector θ and a symmetric 3×3 covariance |
| Estimator.InitialCovariancePositive | custom_components/adaptive_thermal_control/parameter_estimator.py:61-63 | the initial covariance 1000·I gives φᵀPφ = 1000·‖φ‖² ≥ 0 for every regressor |
| Estimator.ThetaFromParameters | custom_components/adaptive_thermal_control/parameter_estimator.py:126-159 | θ built from R and C is a 3-vector [a, b, c] |
| Estimator.ThetaMatchesDiscretization | custom_components/adaptive_thermal_control/parameter_estimator.py:126-140 | for valid parameters θ equals the room model's (A, B, Bd) |
| Estimator.Regressor | custom_components/adaptive_thermal_control/parameter_estimator.py:196-202 | the regressor [T_previous, P_heating, T_outdoor] is a 3-vector, with a missing T_previous predicted from θ |
| Estimator.Correct | custom_components/adaptive_thermal_control/parameter_estimator.py:208-229 | the state after the correction keeps its shape |
| Estimator.RlsUpdate | custom_components/adaptive_thermal_control/parameter_estimator.py:161-239 | one update keeps the state's shape |
| Estimator.UpdateCases | custom_components/adaptive_thermal_control/parameter_estimator.py:191-229 | before any counted update a call without T_previous changes nothing and reports 0; otherwise the error is T_measured − φᵀθ and is recorded; a denominator below 1e-10 keeps θ, P and the counter; an applied update adds exactly one to the counter |
| Estimator.CovarianceStaysSymmetric | custom_components/adaptive_thermal_control/parameter_estimator.py:213-226 | a symmetric covariance stays symmetric after any update |
| Estimator.GainUpdateSymmetric | custom_components/adaptive_thermal_control/parameter_estimator.py:220-226 | the downdate by K·(Pφ)ᵀ with K = Pφ/d preserves symmetry |
| Estimator.PosteriorError | custom_components/adaptive_thermal_control/parameter_estimator.py:205-226 | after an applied update the error on the same regressor is the prior error times λ/(λ + φᵀPφ), so it never grows when φᵀPφ ≥ 0 |
| Estimator.GainAlongRegressor | custom_components/adaptive_thermal_control/parameter_estimator.py:220-223 | φ·(θ + K·e) = φ·θ + e·(φᵀPφ)/d |
| Estimator.ExtractParameters | custom_components/adaptive_thermal_control/parameter_estimator.py:277-345 | parameters are returned exactly when 0 < a < 1, b > 0, 0 < c < 1, ln a < 0 and dt > 0; any result validates and has R = b/c; an inconsistent c is only reported |
| Estimator.ExtractedCapacitySign | custom_components/adaptive_thermal_control/parameter_estimator.py:317-334 | with b, c > 0 and ln a < 0, R = b/c is positive and the extracted parameters validate exactly when dt > 0 |
| Estimator.ExtractInvertsTheta | custom_components/adaptive_thermal_control/parameter_estimator.py:277-345 | round trip: extracting the parameters from the θ of valid parameters gives them back, whenever ln inverts exp at −dt/(R·C) |
| Estimator.ExtractFromConsistentTheta | custom_components/adaptive_thermal_control/parameter_estimator.py:317-341 | a θ with c = 1 − a and b = R·c yields exactly R and C |
| Estimator.ExtractAccepted | custom_components/adaptive_thermal_control/parameter_estimator.py:317-341 | under the range conditions extraction yields R = b/c and C = −dt/(R·ln a) |
| Estimator.CapacityRecovered | custom_components/adaptive_thermal_control/parameter_estimator.py:326 | C = −dt/(R·ln a) inverts the decay exponent −dt/(R·C) |
| Estimator.ParameterEstimator.State | custom_components/adaptive_thermal_control/parameter_estimator.py:50-65 | the estimator's arrays read as a well-shaped RLS state |
| Estimator.ParameterEstimator.constructor | custom_components/adaptive_thermal_control/parameter_estimator.py:90-159 | a fresh state whose θ comes from the given parameters, or from R = 0.002, C = 4.5e6 when none are given |
| Estimator.ParameterEstimator.ResetState | custom_components/adaptive_thermal_control/parameter_estimator.py:60-65 | θ = 0, P = 1000·I, counter and error zero, in the same arrays |
| Estimator.ParameterEstimator.SetTheta | custom_components/adaptive_thermal_control/parameter_estimator.py:140 | only θ changes, to the given vector |
| Estimator.ParameterEstimator.Reset | custom_components/adaptive_thermal_control/parameter_estimator.py:347-351 | a fresh state with the start-up θ |
| Estimator.ParameterEstimator.Update | custom_components/adaptive_thermal_control/parameter_estimator.py:161-275 | the new state and the reported error are RlsUpdate of the previous state, and the statistics report the new θ and counter |
| Estimator.ParameterEstimator.ApplyCorrection | custom_components/adaptive_thermal_control/parameter_estimator.py:208-229 | the state after the in-place correction is Correct of the previous state |
| Estimator.ParameterEstimator.AddToTheta | custom_components/adaptive_thermal_control/parameter_estimator.py:223 | only θ changes, to θ + K·e |
| Estimator.ParameterEstimator.DowndateCovariance | custom_components/adaptive_thermal_control/parameter_estimator.py:226 | only P changes, to (P − K·(Pφ)ᵀ)/λ |
| Estimator.ParameterEstimator.GetThermalParameters | custom_components/adaptive_thermal_control/parameter_estimator.py:277-345 | any parameters extracted from the current θ validate |
| MPC.ClampHorizon | custom_components/adaptive_thermal_control/mpc_controller.py:151-158 | after construction Nc ≤ Np: a longer control horizon is cut to Np and nothing else in the configuration changes |
| MPC.HoldLast | custom_components/adaptive_thermal_control/mpc_controller.py:332-334 | the Nc inputs are extended to Np entries by holding the last one |
| MPC.ExtendForecast | custom_components/adaptive_thermal_control/mpc_controller.py:196-207 | a forecast shorter than Np is edge-padded to Np, keeping its entries as a prefix and repeating its last value; a longer one is kept whole |
| MPC.InitialGuess | custom_components/adaptive_thermal_control/mpc_controller.py:287-311 | the guess has Nc entries: the previous solution shifted left by one with its last value held (warm start), or Nc copies of the previous control (cold start) |
| MPC.PredictedTemps | custom_components/adaptive_thermal_control/mpc_controller.py:337-346 | the predicted trajectory has Np + 1 values and starts at the current temperature |
| MPC.PredictedSteps | custom_components/adaptive_thermal_control/mpc_controller.py:340-346 | each predicted temperature is one model step from the previous one, with that step's input and forecast and no disturbance |
| MPC.Stages | custom_components/adaptive_thermal_control/mpc_controller.py:340-365 | the cost has one stage per prediction step |
| MPC.StageCostNonNegative | custom_components/adaptive_thermal_control/mpc_controller.py:349-365 | with non-negative weights each stage cost (comfort, energy, smoothness) is non-negative |
| MPC.CostNonNegative | custom_components/adaptive_thermal_control/mpc_controller.py:313-370 | with non-negative weights the objective J(u) is non-negative |
| MPC.Increments | custom_components/adaptive_thermal_control/mpc_controller.py:383 | np.diff with u_prev prepended has one entry per input |
| MPC.RateConstraintPos | custom_components/adaptive_thermal_control/mpc_controller.py:381-384 | the positive rate constraint has one entry per input |
| MPC.RateConstraintNeg | custom_components/adaptive_thermal_control/mpc_controller.py:386-389 | the negative rate constraint has one entry per input |
| MPC.Bounds | custom_components/adaptive_thermal_control/mpc_controller.py:213 | every one of the Nc inputs is boxed by (u_min, u_max) |
| MPC.RateConstraintsIff | custom_components/adaptive_thermal_control/mpc_controller.py:372-394 | both inequality constraints hold exactly when no input moves more than du_max from the one before it, starting from u_prev |
| MPC.PredictionFollowsModel | custom_components/adaptive_thermal_control/mpc_controller.py:396-428 | the reported trajectory starts at the current temperature and each value is one model step under the held input and the forecast |
| MPC.Response | custom_components/adaptive_thermal_control/mpc_controller.py:231-285 | success exactly when the optimiser converged, then reporting its solution, first input, cost, iterations and a trajectory; otherwise the initial guess with infinite cost, the failure message and the iterations (0 after an exception) |
| MPC.MPCController.constructor | custom_components/adaptive_thermal_control/mpc_controller.py:136-171 | missing configuration takes the defaults, Nc is cut to Np, and the controller starts with no previous control or warm start |
| MPC.MPCController.CostFunction | custom_components/adaptive_thermal_control/mpc_controller.py:313-370 | the loop's accumulated cost equals the objective TotalCost |
| MPC.MPCController.SimulateTrajectory | custom_components/adaptive_thermal_control/mpc_controller.py:396-428 | the filled array equals the predicted trajectory under the held input |
| MPC.MPCController.ComputeControl | custom_components/adaptive_thermal_control/mpc_controller.py:173-285 | u_last becomes u_prev; the call raises exactly when the forecast is empty or Nc = 0; otherwise it returns Response on the padded forecast and the initial guess, and keeps a converged solution as the next warm start |
| MPC.MPCController.ApplySolverOutcome | custom_components/adaptive_thermal_control/mpc_controller.py:216-285 | the result is Response for the optimiser outcome, and only a converged solution replaces the warm start |
| MPC.MPCController.Reset | custom_components/adaptive_thermal_control/mpc_controller.py:430-434 | the previous control and the warm start are forgotten |
| MPC.MPCController.SetWeights | custom_components/adaptive_thermal_control/mpc_controller.py:436-458 | only the supplied weights change |
| Tuner.ScoreMonotone | custom_components/adaptive_thermal_control/mpc_tuner.py:39-53 | the combined score is monotone in RMSE, energy and smoothness, strictly in RMSE, and is 1 on RMSE 1, energy 100, smoothness 10 |
| Tuner.Combo | custom_components/adaptive_thermal_control/mpc_tuner.py:110-120 | a grid point is tried exactly when its weights sum into [0.95, 1.05], and is then normalised to weights summing to 1 |
| Tuner.OptionSeq | custom_components/adaptive_thermal_control/mpc_tuner.py:110-124 | a skipped point contributes no candidate and a kept one contributes exactly one candidate |
| Tuner.Cell | custom_components/adaptive_thermal_control/mpc_tuner.py:108-124 | the innermost loop keeps at most one weight set per smoothing weight |
| Tuner.RowLength | custom_components/adaptive_thermal_control/mpc_tuner.py:107-124 | the middle loop keeps at most one weight set per energy and smoothing weight pair |
| Tuner.CandidatesLength | custom_components/adaptive_thermal_control/mpc_tuner.py:106-124 | the search keeps at most one weight set per grid combination |
| Tuner.CellNormalised | custom_components/adaptive_thermal_control/mpc_tuner.py:108-124 | every weight set the innermost loop keeps sums to 1 |
| Tuner.RowNormalised | custom_components/adaptive_thermal_control/mpc_tuner.py:107-124 | every weight set the middle loop keeps sums to 1 |
| Tuner.CandidatesNormalised | custom_components/adaptive_thermal_control/mpc_tuner.py:106-124 | every tried weight set sums to 1 |
| Tuner.EvaluateAll | custom_components/adaptive_thermal_control/mpc_tuner.py:123-124 | one result per tried weight set, in order, each carrying what the evaluation measured |
| Tuner.InsertByScore | custom_components/adaptive_thermal_control/mpc_tuner.py:139 | inserting a result keeps every result and adds exactly that one |
| Tuner.InsertKeepsSorted | custom_components/adaptive_thermal_control/mpc_tuner.py:139 | inserting into results sorted by score keeps them sorted |
| Tuner.SortByScore | custom_components/adaptive_thermal_control/mpc_tuner.py:139 | sorting by score is a permutation of the results |
| Tuner.InsertIsStable | custom_components/adaptive_thermal_control/mpc_tuner.py:139 | inserting into a sorted list places the new result after every result with the same score |
| Tuner.SortIsStable | custom_components/adaptive_thermal_control/mpc_tuner.py:139 | the sort is stable: for every score, the results with that score keep their input order |
| Tuner.SortIsSorted | custom_components/adaptive_thermal_control/mpc_tuner.py:139 | sorted results have non-decreasing scores |
| Tuner.EvaluateAllAppend | custom_components/adaptive_thermal_control/mpc_tuner.py:123-124 | evaluating two batches of weight sets one after the other gives the concatenated results |
| Tuner.EvaluateAllSnoc | custom_components/adaptive_thermal_control/mpc_tuner.py:123-124 | evaluating one more weight set appends exactly its result |
| Tuner.GridSearch | custom_components/adaptive_thermal_control/mpc_tuner.py:73-147 | the results are a permutation of the evaluations of every in-range normalised grid point, sorted by score, with equal scores in grid order, at most one per combination, all normalised |
| Tuner.CellStep | custom_components/adaptive_thermal_control/mpc_tuner.py:108-124 | one more smoothing weight adds exactly its (possibly skipped) candidate |
| Tuner.RowStep | custom_components/adaptive_thermal_control/mpc_tuner.py:107-124 | one more energy weight adds exactly its cell of candidates |
| Tuner.CandidatesStep | custom_components/adaptive_thermal_control/mpc_tuner.py:106-124 | one more comfort weight adds exactly its row of candidates |
| Tuner.TestGrid | custom_components/adaptive_thermal_control/mpc_tuner.py:103-136 | the outer loop produces the evaluations of all tried weight sets, in loop order |
| Tuner.TestRow | custom_components/adaptive_thermal_control/mpc_tuner.py:107-136 | the middle loop produces the evaluations for one comfort weight, in loop order |
| Tuner.TestCell | custom_components/adaptive_thermal_control/mpc_tuner.py:108-136 | the inner loop skips out-of-range sums and evaluates the normalised rest, in order |
| Tuner.SearchResultsNormalised | custom_components/adaptive_thermal_control/mpc_tuner.py:115-124 | every evaluated result carries weights summing to 1 |
| Tuner.ParetoFilter | custom_components/adaptive_thermal_control/mpc_tuner.py:256-309 | a result is kept exactly when it comes from the input and no different result dominates it |
| Tuner.ParetoFilterIsSubsequence | custom_components/adaptive_thermal_control/mpc_tuner.py:275-301 | the Pareto set keeps the input's order |
| Tuner.LexMinIndex | custom_components/adaptive_thermal_control/mpc_tuner.py:264-265 | a lexicographic minimum in the two objectives exists in any non-empty input |
| Tuner.ParetoNonEmpty | custom_components/adaptive_thermal_control/mpc_tuner.py:256-309 | a non-empty input always has a Pareto-optimal result |
| Tuner.IsDominated | custom_components/adaptive_thermal_control/mpc_tuner.py:278-298 | the inner loop reports domination exactly when some different result is at least as good in both objectives and better in one |
| Tuner.FindParetoOptimal | custom_components/adaptive_thermal_control/mpc_tuner.py:256-309 | the Pareto set holds exactly the non-dominated results, in input order, and is non-empty for non-empty input |
| Tuner.ArgMin | custom_components/adaptive_thermal_control/mpc_tuner.py:338-341 | the chosen result has the smallest value of the objective and is the first one with it, as Python's min keeps the first |
| Tuner.RecommendParameters | custom_components/adaptive_thermal_control/mpc_tuner.py:311-358 | no results give the defaults 0.7/0.2/0.1; otherwise the weights of a least-RMSE result (comfort), a least-energy result (energy) or the first result (balanced) |
| Tuner.RecommendationFromSearch | custom_components/adaptive_thermal_control/mpc_tuner.py:319-344 | on grid-search output every recommendation is normalised and the balanced one has the best score |
| Coordinator.KeysOfCons | custom_components/adaptive_thermal_control/coordinator.py:84 | the keys of a dictionary with one more leading entry are that key plus the rest |
| Coordinator.Values | custom_components/adaptive_thermal_control/coordinator.py:298 | demands.values() lists every demand in insertion order |
| Coordinator.Get | custom_components/adaptive_thermal_control/coordinator.py:359 | demands.get(key, default) is the default for a missing key and the stored value for a present one |
| Coordinator.Put | custom_components/adaptive_thermal_control/coordinator.py:345 | assignment adds the key to the keys; an existing key keeps its position and a new one is appended; every other entry is unchanged |
| Coordinator.PutGet | custom_components/adaptive_thermal_control/coordinator.py:345 | after demands[key] = value the key reads back the value and every other key reads as before |
| Coordinator.PutDistinct | custom_components/adaptive_thermal_control/coordinator.py:345 | assignment keeps the keys distinct |
| Coordinator.Scale | custom_components/adaptive_thermal_control/coordinator.py:305-310 | scaling multiplies every demand by the factor and keeps keys and order |
| Coordinator.ApplyFairShare | custom_components/adaptive_thermal_control/coordinator.py:281-318 | fair share keeps every zone and its order |
| Coordinator.FairShareWithinBudget | custom_components/adaptive_thermal_control/coordinator.py:293-302 | without a limit (absent or 0), or within it, the demands come back unchanged |
| Coordinator.FairShareMeetsLimit | custom_components/adaptive_thermal_control/coordinator.py:281-318 | over budget every demand is scaled by limit/total and the new total is exactly the limit; in every case the total respects a set limit |
| Coordinator.ScalePreservesRatios | custom_components/adaptive_thermal_control/coordinator.py:305-310 | fair share preserves the ratio between any two zones' demands |
| Coordinator.ZoneCoordinator.constructor | custom_components/adaptive_thermal_control/coordinator.py:48-102 | a new coordinator holds no zone demands and zero power usage |
| Coordinator.ZoneCoordinator.CollectHeatingDemands | custom_components/adaptive_thermal_control/coordinator.py:264-279 | one 0.0 demand per zone id (the room name, else zone_idx), with distinct keys |
| Coordinator.ZoneCoordinator.UpdateDemands | custom_components/adaptive_thermal_control/coordinator.py:172-215 | the collected demands cover every thermostat's zone, the stored power estimate is theirs, and it respects a set limit |
| Coordinator.ZoneCoordinator.RegisterZoneDemand | custom_components/adaptive_thermal_control/coordinator.py:335-346 | only that zone's entry is set: it reads back the demand and every other zone reads as before |
| Coordinator.ZoneCoordinator.GetAdjustedDemand | custom_components/adaptive_thermal_control/coordinator.py:348-363 | an unknown zone's adjusted demand is 0.0 |
| Coordinator.ZoneCoordinator.AdjustedDemandOfRegistered | custom_components/adaptive_thermal_control/coordinator.py:348-363 | a registered zone's adjusted demand is its own demand, scaled by limit/total exactly when the total exceeds a set limit |
| Forecast.NSteps | custom_components/adaptive_thermal_control/forecast_provider.py:83 | int(hours·3600/dt) fails exactly when dt = 0, and otherwise truncates the non-negative quotient to the integer step count |
| Forecast.Reading | custom_components/adaptive_thermal_control/forecast_provider.py:178-217 | an item gives a reading exactly when it has a numeric temperature (or temp) and a date without a UTC offset within [0, max_hours] hours from now, and the reading is that temperature and time; a date with an offset never gives one, because subtracting the naive `now` from it raises |
| Forecast.Readings | custom_components/adaptive_thermal_control/forecast_provider.py:176-219 | the two collected lists have equal length and at most one entry per item |
| Forecast.ReadingsFromItems | custom_components/adaptive_thermal_control/forecast_provider.py:180-219 | every collected temperature and time come from one item, and every time lies within [0, max_hours] |
| Forecast.UsableStep | custom_components/adaptive_thermal_control/forecast_provider.py:180-217 | one more item adds one usable item exactly when it gives a reading |
| Forecast.ReadingsKeepUsableItems | custom_components/adaptive_thermal_control/forecast_provider.py:176-219 | every item that gives a reading contributes it: nothing usable is dropped |
| Forecast.ExtractForecastData | custom_components/adaptive_thermal_control/forecast_provider.py:162-219 | the loop returns exactly the readings of the items, in item order |
| Forecast.Points | custom_components/adaptive_thermal_control/forecast_provider.py:249-251 | the points pair each time with its temperature, index by index |
| Forecast.InsertByTimeSpec | custom_components/adaptive_thermal_control/forecast_provider.py:249-251 | inserting a point into time-ordered points keeps them ordered |
| Forecast.InsertByTimeKeeps | custom_components/adaptive_thermal_control/forecast_provider.py:249-251 | insertion adds the point and keeps every other |
| Forecast.OrderedCons | custom_components/adaptive_thermal_control/forecast_provider.py:249-251 | a point no later than the head of ordered points can go in front of them |
| Forecast.SortByTimeSpec | custom_components/adaptive_thermal_control/forecast_provider.py:249-251 | sorting orders the points by time and keeps exactly the same points |
| Forecast.TimesOf | custom_components/adaptive_thermal_control/forecast_provider.py:250 | the sorted times, index by index |
| Forecast.TempsOf | custom_components/adaptive_thermal_control/forecast_provider.py:251 | the sorted temperatures, index by index |
| Forecast.InterpolateForecast | custom_components/adaptive_thermal_control/forecast_provider.py:221-262 | raises exactly on an empty forecast; otherwise n_steps values, each within the range of the forecast temperatures, held at the first or last sorted value before or after the forecast's time range |
| Forecast.SortedPointsInRange | custom_components/adaptive_thermal_control/forecast_provider.py:249-251 | the sorted points have non-decreasing times and their temperatures stay within the range of the original ones |
| Forecast.CurrentOutdoorTemperature | custom_components/adaptive_thermal_control/forecast_provider.py:264-294 | the outdoor sensor's numeric state when available, else the weather entity's numeric temperature attribute, else 10 °C |
| Forecast.WeatherForecast | custom_components/adaptive_thermal_control/forecast_provider.py:107-160 | a forecast exists exactly when the weather entity is present and its forecast attribute yields at least one reading, and it is then those readings sorted by time and interpolated onto the controller grid |
| Forecast.OffsetDatesGiveNoReadings | custom_components/adaptive_thermal_control/forecast_provider.py:178-217 | items whose dates all carry a UTC offset give no readings |
| Forecast.OffsetDatesFallBackToFlat | custom_components/adaptive_thermal_control/forecast_provider.py:65-105 | a weather forecast whose dates all carry a UTC offset leaves the controller with n_steps copies of the current outdoor temperature |
| Forecast.OutdoorTemperatureForecast | custom_components/adaptive_thermal_control/forecast_provider.py:65-105 | fails exactly when dt = 0 or the step count is negative without a weather forecast; otherwise one value per step, n_steps copies of the current temperature when there is no weather forecast |
| Forecast.FallbackIsFlat | custom_components/adaptive_thermal_control/forecast_provider.py:97-105 | without a weather entity the forecast is flat |
| Forecast.SolarForecast | custom_components/adaptive_thermal_control/forecast_provider.py:296-313 | n_steps zeros, failing exactly when dt = 0 or the count is negative |
| Preprocessing.FAdd | custom_components/adaptive_thermal_control/data_preprocessing.py:297-301 | float addition inside the convolution: two finite values add exactly; NaN and opposite infinities are not finite sums |
| Preprocessing.ValidateIff | custom_components/adaptive_thermal_control/data_preprocessing.py:58-77 | validate() holds exactly when the outdoor temperatures, the powers and the timestamps each have as many entries as the temperatures |
| Preprocessing.RemoveOutliers | custom_components/adaptive_thermal_control/data_preprocessing.py:96-130 | the data comes back unchanged and the mask is true exactly at the finite samples within the optional lower and upper bounds |
| Preprocessing.Select | custom_components/adaptive_thermal_control/data_preprocessing.py:367-370 | boolean-mask selection keeps as many elements as the mask has true entries, never more than the input |
| Preprocessing.SelectFrom | custom_components/adaptive_thermal_control/data_preprocessing.py:367-370 | every selected element sits at a masked-in position, so a property of the masked-in positions holds for the whole selection |
| Preprocessing.SelectAll | custom_components/adaptive_thermal_control/data_preprocessing.py:382-390 | an all-true mask selects the whole series |
| Preprocessing.SelectNonDecreasing | custom_components/adaptive_thermal_control/data_preprocessing.py:367-370 | selecting from time-ordered timestamps keeps them time-ordered and draws only from the input |
| Preprocessing.ValidIndicesBelow | custom_components/adaptive_thermal_control/data_preprocessing.py:167 | the non-NaN indices are strictly ascending, each names a non-NaN entry and every non-NaN entry is listed |
| Preprocessing.BetweenValidIsNaN | custom_components/adaptive_thermal_control/data_preprocessing.py:173-176 | every entry strictly between two consecutive valid indices is NaN, so each loop iteration spans one NaN run |
| Preprocessing.FLerp | custom_components/adaptive_thermal_control/data_preprocessing.py:185-191 | linear interpolation at a fraction strictly between 0 and 1 of two finite values is finite and lies between them |
| Preprocessing.InterpolateGaps | custom_components/adaptive_thermal_control/data_preprocessing.py:133-204 | valid samples are kept; empty, NaN-free or under-two-valid input comes back unchanged; each NaN run between consecutive valid samples is filled linearly when the gap is at most max_gap_minutes and left NaN otherwise; entries before the first and after the last valid sample are unchanged |
| Preprocessing.FillGaps | custom_components/adaptive_thermal_control/data_preprocessing.py:174-197 | after the gap loop every gap between consecutive valid indices has its interpolated or NaN value and everything else is the input |
| Preprocessing.NothingToFill | custom_components/adaptive_thermal_control/data_preprocessing.py:158-162 | without NaN the valid indices are consecutive, so there is no gap to fill |
| Preprocessing.FilledAll | custom_components/adaptive_thermal_control/data_preprocessing.py:174-197 | the loop state after the last gap is exactly the promise of interpolate_gaps |
| Preprocessing.GapEndpointsKept | custom_components/adaptive_thermal_control/data_preprocessing.py:174-197 | before a gap is processed its two endpoints and its interior still hold the input |
| Preprocessing.GapStep | custom_components/adaptive_thermal_control/data_preprocessing.py:174-197 | processing one gap and nothing else advances the loop invariant by one gap |
| Preprocessing.GapStepKeepsValid | custom_components/adaptive_thermal_control/data_preprocessing.py:174-197 | processing one gap never changes a valid sample |
| Preprocessing.FillGap | custom_components/adaptive_thermal_control/data_preprocessing.py:180-197 | one gap: the interior gets the interpolant (or stays NaN beyond max_gap_minutes); every other entry is unchanged |
| Preprocessing.ResampleGrid | custom_components/adaptive_thermal_control/data_preprocessing.py:224-237 | under two timestamps the timestamps are returned as they are; otherwise int(duration / target_dt) + 1 grid points start at the first timestamp and step by target_dt |
| Preprocessing.GridWithinSpan | custom_components/adaptive_thermal_control/data_preprocessing.py:233-237 | for time-ordered samples the grid is non-empty, starts at the first timestamp and never leaves [first, last] |
| Preprocessing.GridTimeWithin | custom_components/adaptive_thermal_control/data_preprocessing.py:233-237 | grid offset i·dt stays within [0, duration] for i up to int(duration / dt) |
| Preprocessing.RelativeTimes | custom_components/adaptive_thermal_control/data_preprocessing.py:239-242 | original_times are the seconds elapsed since the first timestamp, one per sample |
| Preprocessing.FiniteMask | custom_components/adaptive_thermal_control/data_preprocessing.py:252 | the valid mask is true exactly at the finite samples |
| Preprocessing.FiniteValues | custom_components/adaptive_thermal_control/data_preprocessing.py:259-264 | the interpolation ordinates are the finite samples, one per true mask entry |
| Preprocessing.ResampleSeries | custom_components/adaptive_thermal_control/data_preprocessing.py:249-264 | every resampled series has one value per grid point |
| Preprocessing.InterpolatedGrid | custom_components/adaptive_thermal_control/data_preprocessing.py:259-264 | np.interp at the grid times gives finite values within the range of the finite samples |
| Preprocessing.ResampleWithinRange | custom_components/adaptive_thermal_control/data_preprocessing.py:249-264 | with at least two finite samples every resampled value is finite and between the smallest and largest finite sample; with fewer the series is all NaN |
| Preprocessing.MovingAverageAsWritten | custom_components/adaptive_thermal_control/data_preprocessing.py:276-305 | windows below 2 return the data; an even window is widened to odd; otherwise mode "same" returns max(len(data), window) values and raises on empty data |
| Preprocessing.MovingAverageFilter | custom_components/adaptive_thermal_control/data_preprocessing.py:276-305 | the centred moving average returns one value per input and the data itself for windows below 2 |
| Preprocessing.MovingAverageAgrees | custom_components/adaptive_thermal_control/data_preprocessing.py:289-301 | whenever the data is at least one (odd) window long, the code as written and the one-per-input filter give the same series |
| Preprocessing.MovingAverageChangesLength | custom_components/adaptive_thermal_control/data_preprocessing.py:289-301 | a single sample under the default window of 3 comes back as three values, and training data built from it fails validate |
| Preprocessing.FullWindowOfConstant | custom_components/adaptive_thermal_control/data_preprocessing.py:297-301 | a full window of constant data averages to that constant |
| Preprocessing.MovingAverageKeepsConstant | custom_components/adaptive_thermal_control/data_preprocessing.py:297-301 | away from the edges the filter leaves a constant signal unchanged |
| Preprocessing.ValidMask | custom_components/adaptive_thermal_control/data_preprocessing.py:355-360 | the combined mask keeps a sample exactly when both temperatures are finite and within [temp_min, temp_max] and the power is finite and within [0, power_max] |
| Preprocessing.FilterStep | custom_components/adaptive_thermal_control/data_preprocessing.py:409-411 | the noise filter keeps the length and is skipped for filter_window of 1 or less |
| Preprocessing.Resampled | custom_components/adaptive_thermal_control/data_preprocessing.py:398-421 | the training data built from the kept samples passes validate, holds at least one sample, uses target_dt, carries the resampled grid and unfiltered resampled powers |
| Preprocessing.ResampledFinite | custom_components/adaptive_thermal_control/data_preprocessing.py:398-421 | finite kept samples give finite temperatures, outdoor temperatures and powers in the training data |
| Preprocessing.ResampleKeepsFinite | custom_components/adaptive_thermal_control/data_preprocessing.py:249-264 | a finite series of at least two samples resamples to a finite series |
| Preprocessing.FSumFinite | custom_components/adaptive_thermal_control/data_preprocessing.py:297-301 | a sum of finite values is finite |
| Preprocessing.ConvolutionFinite | custom_components/adaptive_thermal_control/data_preprocessing.py:297-301 | every entry of the convolution of finite data is finite |
| Preprocessing.FilterKeepsFinite | custom_components/adaptive_thermal_control/data_preprocessing.py:409-411 | the moving average of a finite series is finite |
| Preprocessing.Preprocessed | custom_components/adaptive_thermal_control/data_preprocessing.py:308-434 | the pipeline returns None exactly when fewer than ten samples survive the outlier masks; otherwise the training data passes validate, is non-empty, uses target_dt and is finite throughout |
| Preprocessing.MaskSamples | custom_components/adaptive_thermal_control/data_preprocessing.py:355-360 | the three remove_outliers masks and-ed together are the combined admissibility mask |
| Preprocessing.KeptSamplesAdmissible | custom_components/adaptive_thermal_control/data_preprocessing.py:355-370 | every kept temperature and outdoor temperature is finite and within [temp_min, temp_max], every kept power finite and within [0, power_max] |
| Preprocessing.KeptAreFinite | custom_components/adaptive_thermal_control/data_preprocessing.py:367-370 | after masking every kept entry of each series is finite |
| Preprocessing.CleanFiniteSeries | custom_components/adaptive_thermal_control/data_preprocessing.py:377-394 | gap interpolation followed by the final finiteness mask returns an already-finite series unchanged, so the second ten-sample check never fails |
| Preprocessing.PreprocessTrainingData | custom_components/adaptive_thermal_control/data_preprocessing.py:308-434 | the method computes the pipeline's result: None below ten admissible samples, else valid, non-empty, finite training data at target_dt |
| Trainer.Errors | custom_components/adaptive_thermal_control/model_trainer.py:131 | the errors are the measured minus the predicted values, one per sample |
| Trainer.AbsAll | custom_components/adaptive_thermal_control/model_trainer.py:137-140 | the absolute errors, one per error |
| Trainer.CalculateMetrics | custom_components/adaptive_thermal_control/model_trainer.py:117-157 | the metrics fail exactly on empty arrays (np.max raises); otherwise n_samples is the array length, MAE is non-negative and at most the maximum error, the RMSE is the square root of the mean squared error, and R² is at most 1 |
| Trainer.RSquaredAtMostOne | custom_components/adaptive_thermal_control/model_trainer.py:143-149 | R² is 1 − ss_res/ss_tot for positive ss_tot and 0 otherwise, so it never exceeds 1 |
| Trainer.MeanWithinBounds | custom_components/adaptive_thermal_control/model_trainer.py:137 | the mean of the absolute errors is between 0 and their maximum |
| Trainer.DeviationsNonNegative | custom_components/adaptive_thermal_control/model_trainer.py:143-144 | the residual and total sums of squares are non-negative |
| Trainer.SquareOfSumAtMost | custom_components/adaptive_thermal_control/model_trainer.py:134-137 | (Σeᵢ)² ≤ n·Σeᵢ², the Cauchy–Schwarz step behind MAE² ≤ MSE |
| Trainer.MeanSquaredAtMostMeanSquare | custom_components/adaptive_thermal_control/model_trainer.py:134-137 | the square of a mean is at most the mean of the squares |
| Trainer.SquaresOfAbs | custom_components/adaptive_thermal_control/model_trainer.py:134-137 | squaring the absolute errors gives the same sum as squaring the errors |
| Trainer.SquaresBelowMaxSquared | custom_components/adaptive_thermal_control/model_trainer.py:134-140 | every squared error is at most the squared maximum absolute error |
| Trainer.MetricsOrdered | custom_components/adaptive_thermal_control/model_trainer.py:117-157 | MAE² ≤ MSE ≤ max_error² for any non-empty measured and predicted arrays |
| Trainer.MetricsOrderedWithSqrt | custom_components/adaptive_thermal_control/model_trainer.py:117-157 | with a square root that is the non-negative root, MAE ≤ RMSE ≤ max_error |
| Trainer.SquaresOrdered | custom_components/adaptive_thermal_control/model_trainer.py:134 | for non-negative numbers comparing squares compares the numbers |
| Trainer.MaxErrorIsLargestDifference | custom_components/adaptive_thermal_control/model_trainer.py:140 | the maximum error bounds every absolute difference and is attained at some sample |
| Trainer.PerfectPrediction | custom_components/adaptive_thermal_control/model_trainer.py:117-157 | predicting the data exactly gives zero MAE, MSE and maximum error, and R² = 1 unless the data is flat (then 0) |
| Trainer.ToDictKeys | custom_components/adaptive_thermal_control/model_trainer.py:263-265 | the dictionary built from a history has exactly the recorded timestamps as keys |
| Trainer.ToDictLastWins | custom_components/adaptive_thermal_control/model_trainer.py:263-265 | a timestamp recorded twice keeps the later value |
| Trainer.InsertIncreasing | custom_components/adaptive_thermal_control/model_trainer.py:269-273 | inserting into a strictly increasing list keeps it strictly increasing and adds exactly the new element |
| Trainer.SortedDistinctSpec | custom_components/adaptive_thermal_control/model_trainer.py:269-273 | sorted(set(...)) is strictly increasing and holds exactly the elements of the input |
| Trainer.SharedTimesSpec | custom_components/adaptive_thermal_control/model_trainer.py:269-273 | a room timestamp is shared exactly when the outdoor dictionary, and the power dictionary when power is used, also hold it |
| Trainer.AlignedTimestampsSpec | custom_components/adaptive_thermal_control/model_trainer.py:268-275 | the common timestamps are strictly increasing and are exactly the timestamps in the room and outdoor histories, and in the power history when power is used |
| Trainer.Column | custom_components/adaptive_thermal_control/model_trainer.py:288-290 | a column holds one dictionary lookup per common timestamp |
| Trainer.Align | custom_components/adaptive_thermal_control/model_trainer.py:262-290 | the aligned series have one entry per common timestamp and their timestamps are the common timestamps |
| Trainer.AlignedValues | custom_components/adaptive_thermal_control/model_trainer.py:263-290 | each aligned sample is the last value recorded at its timestamp in each history; heating power is 0 without power data |
| Trainer.IncreasingIsNonDecreasing | custom_components/adaptive_thermal_control/model_trainer.py:269-273 | the common timestamps are in time order, as preprocessing needs |
| Trainer.EstimatorStart | custom_components/adaptive_thermal_control/model_trainer.py:313 | a fresh estimator starts well-shaped with no counted updates |
| Trainer.RlsRun | custom_components/adaptive_thermal_control/model_trainer.py:316-322 | the estimator stays well-shaped through the training loop |
| Trainer.RlsRunCounts | custom_components/adaptive_thermal_control/model_trainer.py:316-322 | every step supplies the previous temperature, so k samples give between 0 and k − 1 counted updates |
| Trainer.ValidationPrediction | custom_components/adaptive_thermal_control/model_trainer.py:342-350 | the validation trajectory has one prediction per sample |
| Trainer.ValidationPredictionSteps | custom_components/adaptive_thermal_control/model_trainer.py:342-350 | y_pred[0] is the first measured temperature and each later entry is one model step from the previous prediction with the recorded power and outdoor temperature |
| Trainer.Failed | custom_components/adaptive_thermal_control/model_trainer.py:210-334 | every early exit reports no success, no parameters and no metrics |
| Trainer.RlsParameters | custom_components/adaptive_thermal_control/model_trainer.py:313-325 | parameters extracted after the training loop, when there are any, pass validation |
| Trainer.EarlyFailures | custom_components/adaptive_thermal_control/model_trainer.py:202-259 | an empty room history fails with "No history data found for" the room entity, an empty outdoor history with the outdoor entity, a failed fetch with "Failed to fetch history", all without training data |
| Trainer.TooFewAlignedSamples | custom_components/adaptive_thermal_control/model_trainer.py:277-284 | fewer common timestamps than min_samples fail with "Insufficient aligned data: n < min" before preprocessing, so no training data is reported |
| Trainer.PowerOnlyWhenRecorded | custom_components/adaptive_thermal_control/model_trainer.py:235-275 | without a power entity, or with an empty power history, alignment ignores power and every heating power is zero |
| Trainer.SuccessCriteria | custom_components/adaptive_thermal_control/model_trainer.py:277-367 | a success has valid parameters, RMSE < 2 and R² > 0.5 on at least min_samples aligned and preprocessed samples; a scored fit succeeds exactly when both criteria hold |
| Trainer.FittedOutcome | custom_components/adaptive_thermal_control/model_trainer.py:312-367 | a fit reports the training data, has metrics exactly when it has parameters, scores every sample, and succeeds exactly when RMSE < 2 and R² > 0.5 |
| Trainer.TrainFromHistory | custom_components/adaptive_thermal_control/model_trainer.py:160-367 | the method's result is the training outcome defined from the fetch outcomes |
| Trainer.TrainOnRecorded | custom_components/adaptive_thermal_control/model_trainer.py:261-367 | the method's result after the fetches is the outcome of alignment, preprocessing and fitting |
| Trainer.FitModel | custom_components/adaptive_thermal_control/model_trainer.py:312-367 | the method runs the RLS loop and the validation loop and returns the scored fit |
| Trainer.EstimateParameters | custom_components/adaptive_thermal_control/model_trainer.py:313-325 | the estimator loop yields the parameters of the RLS run over samples 1 … n−1 |
| Trainer.Predictions | custom_components/adaptive_thermal_control/model_trainer.py:342-350 | the validation loop fills exactly the validation trajectory |
| Validator.DefaultGoodMeetsTrainingCriteria | custom_components/adaptive_thermal_control/model_validator.py:76-86 | metrics that are good under the default thresholds (RMSE ≤ 1, R² ≥ 0.7) also meet the training success test (RMSE < 2, R² > 0.5) |
| Validator.IsGoodMonotone | custom_components/adaptive_thermal_control/model_validator.py:76-86 | is_good holds iff RMSE ≤ the RMSE threshold and R² ≥ the R² threshold, so loosening either threshold keeps a good model good |
| Validator.CalculateMetrics | custom_components/adaptive_thermal_control/model_validator.py:202-250 | fails exactly on empty arrays; otherwise n_samples is the array length, the prediction type is passed through, MAE ≥ 0, max_error ≥ MAE, R² ≤ 1, and the RMSE squared is the mean squared error |
| Validator.FlatDataHasZeroRSquared | custom_components/adaptive_thermal_control/model_validator.py:230-237 | when every measured value is equal, ss_tot is 0 and R² falls back to 0 |
| Validator.MeanOfConstant | custom_components/adaptive_thermal_control/model_validator.py:232 | the mean of equal values is that value |
| Validator.DeviationsFromConstant | custom_components/adaptive_thermal_control/model_validator.py:232 | equal values have no spread around their value |
| Validator.OneStepPrediction | custom_components/adaptive_thermal_control/model_validator.py:150-163 | the one-step predictions have one entry per sample |
| Validator.OneStepRestartsFromMeasurement | custom_components/adaptive_thermal_control/model_validator.py:150-163 | each one-step prediction is one model step from the measured (not the predicted) previous temperature, and the first step agrees with the multi-step trajectory |
| Validator.Validation | custom_components/adaptive_thermal_control/model_validator.py:105-136 | an unknown prediction type fails with "Invalid prediction_type: …"; one-step succeeds exactly on non-empty data and scores every sample; multi-step succeeds exactly with at least two samples and scores n − 1 of them |
| Validator.TrajectoryReproducesData | custom_components/adaptive_thermal_control/model_validator.py:183-194 | when the data was generated by the model itself, every simulated temperature equals the measured one |
| Validator.PerfectMetrics | custom_components/adaptive_thermal_control/model_validator.py:218-228 | predicting the data exactly gives zero MAE, zero maximum error and zero RMSE |
| Validator.TrajectoryIsData | custom_components/adaptive_thermal_control/model_validator.py:183-194 | on model-generated data the whole simulated trajectory is the data |
| Validator.OneStepReproducesModelData | custom_components/adaptive_thermal_control/model_validator.py:138-169 | one-step validation of model-generated data has zero MAE, maximum error and RMSE |
| Validator.MultiStepReproducesModelData | custom_components/adaptive_thermal_control/model_validator.py:171-200 | multi-step validation of model-generated data has zero MAE, maximum error and RMSE, although errors could otherwise accumulate |
| Validator.ModelValidator.constructor | custom_components/adaptive_thermal_control/model_validator.py:96-103 | the validator holds the given model |
| Validator.ModelValidator.Validate | custom_components/adaptive_thermal_control/model_validator.py:105-136 | validate dispatches on the prediction type and returns the validation outcome defined above |
| Validator.ModelValidator.ValidateOneStep | custom_components/adaptive_thermal_control/model_validator.py:138-169 | the loop fills the one-step predictions from the measured temperatures and scores them against every sample |
| Validator.ModelValidator.ValidateMultiStep | custom_components/adaptive_thermal_control/model_validator.py:171-200 | the simulated trajectory without its initial condition is scored against the measured temperatures without the first sample |
| Validator.Range | custom_components/adaptive_thermal_control/model_validator.py:406-407 | range(a, b) lists a … b − 1 in order and is empty when b ≤ a |
| Validator.RangeConcat | custom_components/adaptive_thermal_control/model_validator.py:406-407 | range(a, b) + range(b, c) is range(a, c) |
| Validator.FoldWithin | custom_components/adaptive_thermal_control/model_validator.py:400-403 | each test fold starts at fold·fold_size, holds at least fold_size samples and ends by n |
| Validator.FoldsPartition | custom_components/adaptive_thermal_control/model_validator.py:400-407 | for every fold the test and training indices partition 0 … n − 1, the test fold holds at least fold_size samples and the last fold extends to n |
| Validator.Pick | custom_components/adaptive_thermal_control/model_validator.py:411-422 | selecting by index lists keeps one entry per index, the entry at that index |
| Validator.SeriesOf | custom_components/adaptive_thermal_control/model_validator.py:388 | the series of a training data set has one entry per sample |
| Validator.Subset | custom_components/adaptive_thermal_control/model_validator.py:409-424 | a fold's data has one sample per index and keeps dt |
| Validator.SplitFold | custom_components/adaptive_thermal_control/model_validator.py:409-424 | the training and test data of a fold are well formed and the test data has at least fold_size samples |
| Validator.TrainAndScore | custom_components/adaptive_thermal_control/model_validator.py:426-467 | a fold that yields parameters has valid parameters and multi-step metrics over all but the first test sample |
| Validator.FoldOutcome | custom_components/adaptive_thermal_control/model_validator.py:400-467 | each fold either is skipped or gives valid parameters and multi-step metrics over at least fold_size − 1 samples |
| Validator.Outcomes | custom_components/adaptive_thermal_control/model_validator.py:400-467 | there is one outcome per fold run |
| Validator.KeptShape | custom_components/adaptive_thermal_control/model_validator.py:437-440 | skipping folds whose estimator yields no parameters keeps at most one result per fold, each with valid parameters and multi-step metrics over at least fold_size − 1 samples |
| Validator.KeptAll | custom_components/adaptive_thermal_control/model_validator.py:437-467 | when no fold is skipped every fold's result is kept, in fold order |
| Validator.Summarize | custom_components/adaptive_thermal_control/model_validator.py:477-486 | a summary exists exactly for a non-empty list; its mean is the sum over the count, and its standard deviation is non-negative with square equal to the mean squared deviation from the mean (population deviation) |
| Validator.SummaryMeanWithinRange | custom_components/adaptive_thermal_control/model_validator.py:477-486 | when every value lies in [lo, hi], so does the summary's mean |
| Validator.MeanWithinRange | custom_components/adaptive_thermal_control/model_validator.py:477-486 | `np.mean` of values within [lo, hi] lies within [lo, hi] |
| Validator.SummaryOfEqualValues | custom_components/adaptive_thermal_control/model_validator.py:477-486 | equal values have that value as mean and zero standard deviation |
| Validator.Statistics | custom_components/adaptive_thermal_control/model_validator.py:471-487 | n_folds counts the kept folds and the RMSE summary exists exactly when some fold was kept |
| Validator.MetricsOf | custom_components/adaptive_thermal_control/model_validator.py:467 | the returned metrics are the kept folds' metrics, in order |
| Validator.CrossValidation | custom_components/adaptive_thermal_control/model_validator.py:370-497 | cross-validation fails unless n // k ≥ 10 (k = 0 divides by zero); otherwise it returns at most k multi-step metrics, each over at least n // k − 1 samples, and n_folds counts them |
| Validator.CrossValidate | custom_components/adaptive_thermal_control/model_validator.py:370-497 | the fold loop returns the cross-validation outcome defined above |
| Validator.RunFold | custom_components/adaptive_thermal_control/model_validator.py:400-469 | one iteration of the fold loop gives that fold's outcome |
| Validator.TrainAndTest | custom_components/adaptive_thermal_control/model_validator.py:426-467 | training on a fold's training data and scoring on its test data gives the fold's fit |
| Validator.PredictAndScore | custom_components/adaptive_thermal_control/model_validator.py:445-455 | predicting a test fold from its first temperature and scoring all but the first sample is multi-step validation |
| Climate.AttemptRoute | custom_components/adaptive_thermal_control/climate.py:494-581 | an MPC attempt that goes ahead always ends in MPC or in a counted failure: forecast error, timeout, exception and unsuccessful optimisation each fail with their own reason; a successful result applies its first input; a successful empty result is counted and then fails on reading u[0] |
| Climate.FailureTransition | custom_components/adaptive_thermal_control/climate.py:583-651 | each failure adds one to the failure count, clears the success streak and records reason and time; reaching three failures disables MPC, fewer leave it degraded; the "degraded" notice comes on the first failure only and the "disabled" notice exactly when MPC is disabled |
| Climate.SuccessTransition | custom_components/adaptive_thermal_control/climate.py:528-556 | each success clears the failure count and reason and extends the success streak; a degraded MPC reaching five successes becomes active with the streak reset and raises the recovery notice; otherwise status is unchanged and there is no notice |
| Climate.RetryGate | custom_components/adaptive_thermal_control/climate.py:465-482 | while MPC is disabled and the retry interval has not passed, the cycle runs PI only and the failsafe is unchanged; once it has passed, MPC is re-enabled with no failures, marked active and attempted when a model exists |
| Climate.CycleKeepsConsistent | custom_components/adaptive_thermal_control/climate.py:453-651 | a control cycle preserves the failsafe invariant: disabled exactly when the status is "disabled" and exactly when three or more failures are counted, "active" with no failures, "degraded" short of the recovery streak |
| Climate.ConsecutiveFailures | custom_components/adaptive_thermal_control/climate.py:583-633 | from a fresh failsafe n consecutive failures count n, leave MPC degraded for n of 1 or 2 and disable it from the third |
| Climate.RecoveryAfterSuccesses | custom_components/adaptive_thermal_control/climate.py:528-544 | a degraded MPC stays degraded for four consecutive successes and becomes active with the streak reset on the fifth |
| Climate.ActiveSuccessesCount | custom_components/adaptive_thermal_control/climate.py:528-531 | in "active", successes only extend the streak and clear the failure count |
| Climate.PresetTarget | custom_components/adaptive_thermal_control/climate.py:361-371 | "away" lowers the target by 3 °C and "sleep" by 1 °C, never below the minimum; other presets keep it |
| Climate.PresetBounds | custom_components/adaptive_thermal_control/climate.py:361-371 | away and sleep never go below the minimum temperature, never raise a target at or above it, and lower it by at most 3 and 1 °C |
| Climate.ActionOf | custom_components/adaptive_thermal_control/climate.py:300-306 | the action is "off" exactly when the mode is off and "heating" exactly when heating with the valve above 5 % |
| Climate.AppendError | custom_components/adaptive_thermal_control/climate.py:167 | appending to the error deque of maxlen 144 adds the new error last and drops the oldest only when full |
| Climate.Recent | custom_components/adaptive_thermal_control/climate.py:761-764 | the window never holds more errors than the history |
| Climate.RecentIsWindow | custom_components/adaptive_thermal_control/climate.py:761-764 | every windowed error was recorded at or after the cutoff, and the window is the whole history exactly when no entry is older than the cutoff |
| Climate.RecentAppend | custom_components/adaptive_thermal_control/climate.py:761-764 | filtering by the cutoff distributes over concatenation, so the window keeps the history's order |
| Climate.RecentOfNewest | custom_components/adaptive_thermal_control/climate.py:761-764 | a newly recorded error joins the end of the window exactly when its time is at or after the cutoff |
| Climate.Squares | custom_components/adaptive_thermal_control/climate.py:771 | one squared error per error |
| Climate.ControlQualityRmse | custom_components/adaptive_thermal_control/climate.py:745-775 | the control-quality RMSE is missing exactly when fewer than six errors fall in the window (an empty history included); otherwise it is non-negative and its square is the mean of the windowed errors' squares |
| Climate.Thermostat.constructor | custom_components/adaptive_thermal_control/climate.py:112-207 | a new entity heats in preset "home" with target 21 °C, a closed valve, PI as controller, no last output, a fresh failsafe, no MPC controller, an empty error history and a fresh PI controller |
| Climate.Thermostat.SetValvePosition | custom_components/adaptive_thermal_control/climate.py:653-669 | the valve position and the heating demand become the position; nothing else changes |
| Climate.Thermostat.ControlWithPi | custom_components/adaptive_thermal_control/climate.py:426-451 | the PI fallback steps with the fallback gains and 600 s, its output (within 0 … 100) goes to the valve and becomes the last output, and the controller type becomes PI |
| Climate.Thermostat.HandleMpcFailure | custom_components/adaptive_thermal_control/climate.py:583-651 | the failure is recorded, its notice (if any) raised, and the PI fallback steps the valve |
| Climate.Thermostat.RecordMpcSuccess | custom_components/adaptive_thermal_control/climate.py:528-556 | the success is recorded and the recovery notice (if any) raised; the valve is untouched |
| Climate.Thermostat.ControlWithMpc | custom_components/adaptive_thermal_control/climate.py:453-581 | the failsafe and notifications follow the cycle's route; MPC's first input goes to the valve and PI is untouched when MPC applies, otherwise PI steps the valve |
| Climate.Thermostat.RunMpc | custom_components/adaptive_thermal_control/climate.py:484-581 | an attempt on an enabled MPC records success or failure as the route says and drives the valve from MPC or from PI accordingly |
| Climate.Thermostat.HandleEmptySolution | custom_components/adaptive_thermal_control/climate.py:523-581 | a successful but empty MPC result is first counted as a success, then fails with the IndexError reason, and PI steps the valve |
| Climate.Thermostat.ApplyMpcOutput | custom_components/adaptive_thermal_control/climate.py:528-575 | the success is recorded and the MPC input goes to the valve and becomes the last output |
| Climate.Thermostat.ControlHeating | custom_components/adaptive_thermal_control/climate.py:378-424 | mode off closes the valve, resets PI and forgets the last output; no room temperature changes nothing; otherwise one cycle runs and the error target − current is appended to the history |
| Climate.Thermostat.ControlCycle | custom_components/adaptive_thermal_control/climate.py:401-424 | MPC when a trained model exists and PI when not, then the temperature error is appended |
| Climate.Thermostat.SetTemperature | custom_components/adaptive_thermal_control/climate.py:308-329 | a missing temperature changes nothing; otherwise the target becomes it and a control update follows: with the mode off the valve is closed and PI reset, without a room temperature nothing is controlled, and otherwise one full control cycle runs |
| Climate.Thermostat.SetHvacMode | custom_components/adaptive_thermal_control/climate.py:331-349 | the mode becomes the requested one; off closes the valve and shows "off" without touching the failsafe or PI; heat runs one full control cycle when the room temperature is known and controls nothing otherwise |
| Climate.Thermostat.SetPresetMode | custom_components/adaptive_thermal_control/climate.py:351-376 | the preset is recorded and the target adjusted as the preset says; then, in heat mode with a known room temperature, one full control cycle runs with the new target, and in off mode the valve is closed and PI reset |
| Climate.Thermostat.UpdateHvacAction | custom_components/adaptive_thermal_control/climate.py:300-306 | the action shown is the one the mode and valve position determine |
| Sensor.ModelStatus | custom_components/adaptive_thermal_control/sensor.py:335-366 | "not_trained" exactly without stored model information; otherwise "degraded" exactly when the RMSE (999 when absent) exceeds 2.0 or R² (0 when absent) is below 0.5, "trained" exactly when RMSE < 1.0 and R² > 0.7, and "learning" in between |
| Sensor.StatusMonotone | custom_components/adaptive_thermal_control/sensor.py:350-366 | better metrics (lower RMSE, higher R²) never give a worse status |
| Sensor.MissingMetricsDegraded | custom_components/adaptive_thermal_control/sensor.py:351-357 | stored information without metrics reads as RMSE 999 and R² 0 and shows "degraded" |
| Sensor.TrainingSuccessNotDegraded | custom_components/adaptive_thermal_control/sensor.py:356-366 | a model whose training succeeded (RMSE < 2, R² > 0.5) is shown as "trained" or "learning", never "degraded" |
| Sensor.TrainedPassesValidation | custom_components/adaptive_thermal_control/sensor.py:362-363 | a model shown as "trained" is good under the validator's default thresholds |
| Sensor.ControlQuality | custom_components/adaptive_thermal_control/sensor.py:434-465 | "unknown" exactly without the climate entity's RMSE attribute; otherwise "excellent" exactly below 0.5 °C and "poor" exactly from 2.0 °C, "good" and "fair" in between |
| Sensor.QualityMonotone | custom_components/adaptive_thermal_control/sensor.py:446-455 | a smaller tracking error never gives a worse quality |
| Sensor.QualityUnknownWithFewErrors | custom_components/adaptive_thermal_control/sensor.py:444-465 | read through the climate entity's attribute, the quality is "unknown" exactly when fewer than six temperature errors fall within the window |
| Sensor.PredictionValue | custom_components/adaptive_thermal_control/sensor.py:719-730 | nothing without at least two predicted temperatures; otherwise the one ten minutes ahead, skipping the current temperature at entry 0 |
| Sensor.PredictionIsOneModelStep | custom_components/adaptive_thermal_control/sensor.py:719-730 | for a converged MPC result the value shown is one model step from the current temperature under the first optimal input and the first forecast outdoor temperature |
| Sensor.NoPredictionAfterFailure | custom_components/adaptive_thermal_control/sensor.py:725-727 | a failed optimisation carries no trajectory, so no value is shown |
| Sensor.PredictionAttributesOf | custom_components/adaptive_thermal_control/sensor.py:732-757 | nothing without predicted temperatures; otherwise one entry per temperature, entry i labelled "+{10·i}min" with the i-th temperature, and a horizon of ten minutes per entry |
| Sensor.TimeLabelInjective | custom_components/adaptive_thermal_control/sensor.py:746-751 | different minute offsets give different labels |
| Sensor.ForecastLabels | custom_components/adaptive_thermal_control/sensor.py:745-757 | the trajectory's labels are pairwise distinct and the last lies ten minutes before the end of the horizon |
| Sensor.HorizonHours | custom_components/adaptive_thermal_control/sensor.py:533-548 | the horizon in hours is N steps of 600 s, i.e. N/6, and is missing exactly when the horizon attribute is |
| Sensor.TrajectoryHorizonOneStepLonger | custom_components/adaptive_thermal_control/sensor.py:732-757 | a converged trajectory holds Np + 1 temperatures, so the prediction sensor's horizon is ten minutes longer than the prediction-horizon sensor's |
| Base.Clamp | custom_components/adaptive_thermal_control/pi_controller.py:142 | max(lo, min(hi, x)) lies within [lo, hi] when lo ≤ hi, is x inside the range and the violated bound outside it |
| Base.SumNonNegative | custom_components/adaptive_thermal_control/climate.py:771-772 | a sum of non-negative values is non-negative |
| Base.SumScale | custom_components/adaptive_thermal_control/coordinator.py:305-309 | scaling every element scales the sum by the same factor |
| Base.Repeat | custom_components/adaptive_thermal_control/data_preprocessing.py:256 | np.full(n, x) has n entries, each x |
| Base.EdgePad | custom_components/adaptive_thermal_control/mpc_controller.py:332-334 | np.pad with mode "edge" keeps the input as prefix and repeats its last entry for every added position |
| Base.Trunc | custom_components/adaptive_thermal_control/data_preprocessing.py:233 | int(x) truncates toward zero: the result is within one of x, no larger in magnitude and of the same sign |
| Base.Lerp | custom_components/adaptive_thermal_control/data_preprocessing.py:189-191 | interpolation at a fraction in [0, 1] lies between the two endpoints |
| Base.SeqMaxBounds | custom_components/adaptive_thermal_control/model_trainer.py:140 | the maximum bounds every element and is one of them |
| Base.SeqMinBounds | custom_components/adaptive_thermal_control/forecast_provider.py:254-260 | the minimum is below every element and is one of them |
| Base.Interp | custom_components/adaptive_thermal_control/data_preprocessing.py:260-264 | np.interp of ordered points lies within the range of the ordinates, holds the first ordinate left of the points and the last from the last abscissa on |
| Base.NatToString | custom_components/adaptive_thermal_control/coordinator.py:275 | str(n) of a natural number is a non-empty string of decimal digits |
| Base.NatToStringInjective | custom_components/adaptive_thermal_control/sensor.py:748-751 | different numbers print differently |
| Base.IntToString | custom_components/adaptive_thermal_control/model_trainer.py:283 | str(i) is non-empty and agrees with the natural-number form for i ≥ 0 |

## Left out

- Host services are not performed. Valve services (`climate.py` 653-743) and the PWM switch calls are recorded as commands; timers from `async_track_point_in_time` are recorded as `PWM.Timer` values and fired by calling the event handlers.
- Persistent notifications are modelled only as which notice is raised, not their text. Error messages keep their fixed text without interpolated values.
- Logging, `to_dict`, `__repr__`, `get_state` and other diagnostics-only output are not modelled.
- The coordinator's periodic fetch of sensor states is a parameter: the demands are given, not read from Home Assistant.
- `model_storage.py`, `history_helper.py`, `config_flow.py`, `__init__.py` and the benchmark scripts are not part of this model. The recorder query is an input (`Result<History>`).
- `history_helper.get_numeric_history` returns a pair of arrays, but `train_from_history` iterates its result as (time, value) pairs. The model follows `train_from_history`: a history is a sequence of pairs.
- The 10 s MPC timeout is an outcome passed to the thermostat. Wall-clock time (`time.time()`, `dt_util.now()`) is a parameter.
- Dates are given as hours from now or seconds, and date parsing is not modelled: a forecast date is only classified as absent, without a UTC offset, with one, or unreadable.
- Floating point is modelled with real arithmetic: rounding errors and overflow are not captured.
- Display rounding is a parameter or left out: `round(..., 1)` of the horizon hours and of the RMSE attribute.
- `batch_train_multiple_rooms`, `compare_models`, `rolling_window_validation` and `get_prediction_errors` are not modelled. They repeat the single-room operations over lists.
- Forecast.SortByTime is a stable insertion sort; `Forecast.SortByTimeSpec` proves that it orders by time and keeps every point. `np.argsort` with its default algorithm is not stable, so forecast items with equal times may come out in a different order.
- `Validator.Statistics` gives `None` for an empty list of folds where NumPy gives NaN.
- `Validator.Validation`, `Validator.CrossValidation` and `Validator.CrossValidate` require finite data: NaN propagation through the metrics is not modelled.
- Sensor.PredictionValue, Sensor.PredictionIsOneModelStep, Sensor.NoPredictionAfterFailure, Sensor.PredictionAttributesOf and Sensor.TrajectoryHorizonOneStepLonger describe what the prediction sensor would show if the thermostat published `predicted_temps`. `climate.py`'s `extra_state_attributes` (216-243) never publishes it; only `MPCController.to_dict` has it. The sensor's value (`sensor.py` 719-730) and attributes (732-757) are therefore always empty in the program as written.
- A stored `None` in the metrics dictionary (a `TypeError` in the sensors) is not modelled: metrics are present or absent.
- The thermostat's failsafe attributes are one record field of `Climate.Thermostat`, not separate attributes.
- Estimator.ParameterEstimator.constructor requires R·C ≠ 0 for given initial parameters: the source computes `np.exp(-dt / (R * C))` (`parameter_estimator.py` 136) and raises `ZeroDivisionError` when R·C = 0, which is not modelled. It also requires a positive forgetting factor, the documented domain λ ∈ (0, 1] (`parameter_estimator.py` 100); every caller passes 0.98 (`model_trainer.py` 313, `model_validator.py` 427). The source raises nothing for λ = 0: λ only divides NumPy arrays (`parameter_estimator.py` 216-226), giving inf or NaN, and that case is not modelled.
- MPC.MPCController.SetWeights changes the controller's own copy of the configuration. In the source the `MPCConfig` object may be shared, and the change is then visible to other holders.
- Preprocessing.Preprocessed and Preprocessing.PreprocessTrainingData use the corrected moving-average filter (see Findings). With filtering on, kept samples that span less than (filter_window − 1)·target_dt give a grid shorter than the window. The source's filter then returns more temperatures than there are powers, `validate` fails (`data_preprocessing.py` 423-425) and the source returns None, where the model returns the training data. Trainer.TrainFromHistory and Trainer.TrainOnRecorded inherit this. Such a grid has at most filter_window − 1 points, and the source then fails with "Insufficient data after preprocessing: 0" and no training data (`model_trainer.py` 301-307). With min_samples above the grid length (the default is 100), the model also fails there, but its message gives the grid length (": 1" or ": 2" for the default window) and it reports the preprocessed data as training data. Only when min_samples is at most the grid length does the model go on to fit.
- Preprocessing.PreprocessTrainingData and Preprocessing.Preprocessed require non-decreasing timestamps, because `np.interp` is only specified for increasing sample points. They also require a positive target step.
- Trainer.TrainFromHistory requires dt > 0: preprocessing divides by dt.

## Findings

| source | as written | input that shows it | evidently intended | confidence | as-written member | corrected member |
|---|---|---|---|---|---|---|
| custom_components/adaptive_thermal_control/data_preprocessing.py:289-305 | `np.convolve(..., mode="same")` returns max(len(data), window) values, so the filter returns more values than it received when the series is shorter than the window | a one-sample series with the default window 3 gives three values; in `preprocess_training_data`, ten or more samples spanning less than one 600 s step give a one-point grid, the filtered temperatures then outnumber the powers, `validate` fails (lines 423-425) and the result is `None` | one filtered value per input value | not executed | `Preprocessing.MovingAverageAsWritten`, `Preprocessing.MovingAverageChangesLength` | `Preprocessing.MovingAverageFilter`, `Preprocessing.MovingAverageKeepsConstant` (`Preprocessing.MovingAverageAgrees` shows both agree when the series is at least one window long); the pipeline `Preprocessing.Preprocessed` uses the corrected filter |
