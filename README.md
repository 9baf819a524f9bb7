# Flight score and subsystem diagnosis of ArduPilot logs

This project models the two analysis modules of a tool that rates ArduPilot
multicopter flights from their DataFlash telemetry logs. It proves properties
of that model in Dafny.

- `compute_flightscore.py` pulls five series from a decoded log: CTUN throttle,
  ATT roll and pitch, VIBE vibration, POWR board voltage and BAT pack voltage.
  It reduces them to battery, vibration, stability, control, electrical and
  energy metrics, including an endurance projection from the voltage trend.
  It maps these metrics through seven transfer functions into [0, 100] and
  combines them with fixed weights into one flight score.
- `compute_logic1.py` makes one pass over the log. The pass dispatches every
  message on its type into eight lists. The lists are reduced to aggregate
  metrics, where NaN means "unavailable". A fixed threshold table assesses
  seven subsystems, and the weakest subsystem is named the bottleneck.

Files:

- `wrappers.dfy` (module `Wrappers`): `Option`, for a value that may be unavailable.
- `telemetry.dfy` (module `Telemetry`): a log is a sequence of decoded messages.
  Each message has a type tag and a map of named real fields. `FieldValues` is
  the order-preserving field filter that every extractor builds. A `Result`
  carries the AttributeError or KeyError the code can raise.
- `stats.dfy` (module `Stats`): the numpy reductions the code uses.
  - Sum, mean, minimum and maximum.
  - Population variance and standard deviation.
  - The median and the linearly interpolated percentile, both over an
    insertion-sorted copy.
  - Square roots are taken through a `sqrt` parameter. Facts that need it
    assume `IsSqrt(sqrt)`: `sqrt` is the non-negative square root on the
    non-negative reals.
- `flightscore.dfy` (module `FlightScore`): the flight-score pipeline.
  - The extractors are methods with loops, proved equal to `FieldValues`.
  - The reducers, scores and composition are functions.
- `diagnosis.dfy` (module `Diagnosis`): the diagnosis pass.
  - `AnalyzeLog` and its loop body `DispatchMessage` are methods, proved
    against the function `SeriesOf`.
  - The metric table, the rule table and the bottleneck selection are
    functions.

Floats become `real`. `None` and NaN become `Option.None`. Comparisons with an
unavailable metric are false, as they are for NaN.

Two behaviours of the code are kept as they are:

- `compute_flight_score` returns 20, not 0, for a flight with no telemetry.
  Three throttle-gated scores are 0 and four are the neutral 50
  (`UninstrumentedFlightScores20`).
- Some fields are read without a check: ATT, VIBE and POWR fields in
  `compute_flightscore.py`, and IMU, RCOU, MOTB ThrOut and BAT Volt in
  `compute_logic1.py`. A message lacking one of them raises AttributeError,
  which the model keeps as an error result.

## Model

| member | source | states |
|---|---|---|
| Telemetry.FieldValues | compute_flightscore.py:34-43 | The filtered series is no longer than the number of messages of its type. It is exactly as long when every such message carries the field. |
| Telemetry.FieldValuesStep | compute_flightscore.py:37-42 | One more message extends the series by that message's value when it has the type and the field, and by nothing otherwise. Completeness survives exactly when the new message carries the field. |
| Telemetry.FieldValuesAppend | compute_flightscore.py:34-43 | Extraction distributes over concatenation of logs: each message contributes independently and in log order. |
| Telemetry.FieldValuesSingle | compute_flightscore.py:41-42 | A one-message log yields that message's field when it has the type and carries the field, and nothing otherwise. |
| Telemetry.FieldValuesOfAbsentKind | compute_flightscore.py:83-92 | A log with no message of the requested type yields an empty series. |
| Telemetry.FieldValuesMembers | compute_flightscore.py:83-92 | Every extracted value is the field of some message of that type. Every message of that type that carries the field contributes its value. |
| Stats.Min | compute_flightscore.py:141 | The minimum is a sample and bounds every sample from below. |
| Stats.Max | compute_flightscore.py:230 | The maximum is a sample and bounds every sample from above. |
| Stats.MeanBetweenExtrema | compute_flightscore.py:140-141 | The mean lies between the smallest and the largest sample. |
| Stats.VarNonNegative | compute_flightscore.py:210-211 | Population variance is never negative. |
| Stats.VarOfConstant | compute_flightscore.py:210 | A constant series has variance 0. |
| Stats.StdNonNegative | compute_flightscore.py:251 | With a true square root, the standard deviation is never negative. |
| Stats.StdNonNegativeWhenRoot | compute_logic1.py:64 | For any `sqrt`, the standard deviation is non-negative whenever `sqrt` is the square root. |
| Stats.SqrtCompare | compute_flightscore.py:181-188 | A root is below or above a non-negative constant exactly when the radicand is below or above the constant's square. |
| Stats.SqrtOfSquare | compute_logic1.py:32 | The root of x*x is x for non-negative x. |
| Stats.Insert | compute_flightscore.py:16 | Inserting into a sorted sequence keeps it sorted and adds exactly the new element. |
| Stats.Sort | compute_flightscore.py:16 | The result is sorted and is a permutation of the input. |
| Stats.SortBetweenExtrema | compute_flightscore.py:16 | Every element of the sorted copy lies between the input's minimum and maximum. |
| Stats.Rank | compute_flightscore.py:117 | The integer part of numpy's percentile index is a valid index, and the fraction lies in [0, 1). |
| Stats.RankIsFractionalIndex | compute_flightscore.py:117 | The whole part and the fraction add up to numpy's fractional index q(n-1)/100. |
| Stats.Rank50 | compute_flightscore.py:16 | At the 50th percentile the linear-interpolation rank of n samples is the middle index with weight 0 for odd n, and the lower middle index with weight one half for even n. |
| Stats.MiddleIsInterpolate50 | compute_flightscore.py:16 | On a sorted sequence the middle value, or the mean of the two middle values, equals linear interpolation at the 50th percentile. |
| Stats.MedianIsPercentile50 | compute_flightscore.py:16 | numpy's median equals its 50th percentile: the middle sample, or the mean of the two middle samples. |
| Stats.PercentileBetweenExtrema | compute_flightscore.py:117 | Every percentile lies between the smallest and the largest sample. |
| Stats.MedianBetweenExtrema | compute_flightscore.py:16 | The median lies between the smallest and the largest sample. |
| Stats.MedianOfConstant | compute_flightscore.py:16 | The median of a constant series is that constant. |
| FlightScore.SafeDiv | compute_flightscore.py:22-25 | The result is the fallback when the divisor is missing or zero. Otherwise the result times the divisor gives back the dividend. |
| FlightScore.SafeHover | compute_flightscore.py:13-19 | Hover is always strictly positive. It is 0.4 for an empty series or a median ≤ 0, and the median otherwise, which lies between the extreme throttles. |
| FlightScore.ExtractCtunThrottle | compute_flightscore.py:34-43 | The loop returns the `ThO` value of every CTUN message that has one, in log order. |
| FlightScore.ExtractAttitude | compute_flightscore.py:46-56 | Succeeds exactly when every ATT message carries Roll and Pitch, and then returns both filtered series. Otherwise it fails with an AttributeError on an ATT message. |
| FlightScore.ExtractVibeXyz | compute_flightscore.py:59-69 | Succeeds exactly when every VIBE message carries all three axes, and then returns the three filtered series. Otherwise it fails with an AttributeError on a VIBE message. |
| FlightScore.ExtractVcc | compute_flightscore.py:72-80 | Succeeds exactly when every POWR message carries Vcc, and then returns the filtered series. Otherwise it fails with an AttributeError on a POWR message. |
| FlightScore.ExtractBattery | compute_flightscore.py:83-92 | The loop returns the `Volt` value of every BAT message that has one, in log order. |
| FlightScore.FlightSeriesOf | compute_flightscore.py:348-352 | On a decodable log, the attitude series have equal lengths and the three vibration series have equal lengths. |
| FlightScore.Extrapolate | compute_flightscore.py:106-123 | A projection exists exactly when dt > 0 and the voltage falls. It satisfies remaining·(first−last) = dt·(last−cutoff) and endurance·(first−last) = dt·(first−cutoff), and endurance = dt + remaining. |
| FlightScore.EstimateEndurance | compute_flightscore.py:101-123 | A projection exists exactly when there are at least two samples and the last is below the first. Then endurance = n + remaining, and remaining·(first−last) = n·(last − p5), where n is the sample count and p5 the 5th percentile of the voltages. |
| FlightScore.ProjectionAlgebra | compute_flightscore.py:112-121 | Remaining = (last − cutoff) / abs(slope) and endurance = dt + remaining satisfy the two closed forms above. |
| FlightScore.ExtrapolationSigns | compute_flightscore.py:117-121 | Nothing remains exactly when the last sample is at or below the cutoff. Endurance is positive exactly when the first sample is above the cutoff. |
| FlightScore.RemainingNonPositiveAtMinimum | compute_flightscore.py:117-120 | When the last voltage is the lowest seen, the projected remaining time is never positive, because the 5th percentile is at least the minimum. |
| FlightScore.EndurancePositiveIff | compute_flightscore.py:117-121 | The projected endurance is positive exactly when the 5th percentile lies below the first voltage. |
| FlightScore.BatteryMetricsOf | compute_flightscore.py:128-160 | With no samples every field is unavailable. Otherwise: avg is the mean, and min ≤ avg ≤ max; the minimum is a sample and bounds all samples; sag·22.2 = (22.2 − min)·100. Health is unavailable exactly when no projection exists; otherwise it is clip(endurance / 2000 · 100), in [0, 100]. Endurance and remaining are available exactly when the projection exists, and then equal its endurance and remaining time. |
| FlightScore.SeverityBand | compute_flightscore.py:183-188 | Read on the squared level, severity is LOW below 100, MODERATE in [100, 400) and HIGH from 400 on. |
| FlightScore.VibrationMetricsOf | compute_flightscore.py:165-194 | With no samples all fields are unavailable. Otherwise max_vibe is the absolute value of some axis reading and bounds every one of them. rms is the root of the mean of vx²+vy²+vz². Severity is LOW iff rms < 10, MODERATE iff 10 ≤ rms < 20, and HIGH iff rms ≥ 20. |
| FlightScore.SeverityBySquares | compute_flightscore.py:181-188 | The same bands, read on the mean of vx²+vy²+vz² with no root taken. |
| FlightScore.StabilityMetricsOf | compute_flightscore.py:199-212 | Roll variance is available exactly with roll samples, pitch variance exactly with roll and pitch samples. Each is the population variance of its series, never negative. |
| FlightScore.CountAbove | compute_flightscore.py:232 | The count equals the length exactly when every sample exceeds the threshold, and is 0 exactly when none does. For a single sample this fixes it at 1 or 0. |
| FlightScore.CountAboveAppend | compute_flightscore.py:232 | The count of a concatenation is the sum of the counts, so it is the number of samples strictly above the threshold. |
| FlightScore.PercentageBounds | compute_flightscore.py:232 | k out of n as a percentage lies in [0, 100]. It is 100 exactly when k = n and 0 exactly when k = 0. |
| FlightScore.ControlMetricsOf | compute_flightscore.py:217-239 | With no samples: None averages and hover 0.4. Otherwise avg is the mean, the peak is the largest sample, and min ≤ avg ≤ peak. The saturation share is the count of samples above 0.9 over the sample count, times 100. It lies in [0, 100]; it is 100 iff every sample exceeds 0.9 and 0 iff none does. Hover is `SafeHover`. |
| Stats.StdOrNone | compute_flightscore.py:244-252 | The standard deviation behind `electrical_metrics`, also used for `motor_imbalance` at compute_logic1.py:64. Unavailable exactly without samples, and otherwise the square root of the population variance. With a true square root, never negative, and 0 for a constant series. |
| FlightScore.EnergyMetricsOf | compute_flightscore.py:257-268 | Unavailable exactly with fewer than two samples. Otherwise last = first − drop. |
| FlightScore.Clip | compute_flightscore.py:286 | The result lies in [0, 100]. It equals the input inside that range and saturates outside it. |
| FlightScore.ClipMonotone | compute_flightscore.py:286 | Clipping preserves order. |
| FlightScore.StabilityScore | compute_flightscore.py:272-286 | The score lies in [0, 100]. It is 0 without throttle samples. |
| FlightScore.SteadyFlightIsFullyStable | compute_flightscore.py:276-286 | Constant roll, pitch and throttle give a stability score of exactly 100. |
| FlightScore.ControlAuthorityScore | compute_flightscore.py:289-296 | The score lies in [0, 100] and is 0 without throttle samples. Otherwise it is 100 iff hover ≤ 0.4, and 0 iff hover ≥ 1. |
| FlightScore.SteadyLowThrottleHasFullAuthority | compute_flightscore.py:289-296 | A constant throttle c in (0, 0.4] gives hover c and a control-authority score of 100. |
| FlightScore.PropulsionEfficiencyScore | compute_flightscore.py:299-305 | The score lies in [0, 100] and is 0 without throttle samples. Otherwise it is 100 iff hover = 0.4, and 0 iff hover ≥ 0.8. |
| FlightScore.MechanicalSmoothnessScore | compute_flightscore.py:308-314 | The score lies in [0, 100] and is 50 when RMS vibration is unavailable. |
| FlightScore.SmoothnessMonotone | compute_flightscore.py:312-314 | For a fixed positive hover, more vibration never scores higher. |
| FlightScore.ElectricalScore | compute_flightscore.py:317-322 | The score lies in [0, 100] and is 50 when unavailable. It is 100 iff the spread is ≤ 0, and 0 iff the spread is ≥ 0.15. |
| FlightScore.ElectricalMonotone | compute_flightscore.py:321-322 | A larger supply spread never scores higher. |
| FlightScore.EnergyEfficiencyScore | compute_flightscore.py:325-331 | The score lies in [0, 100] and is 50 when unavailable. |
| FlightScore.EnergyEfficiencyMonotone | compute_flightscore.py:329-331 | For a fixed positive hover, a larger voltage drop never scores higher. |
| FlightScore.EnduranceScore | compute_flightscore.py:334-339 | The score lies in [0, 100] and is 50 when unavailable. |
| FlightScore.EnduranceScoreIsBatteryHealth | compute_flightscore.py:334-339 | Whenever the battery has a health figure, the endurance score equals it. |
| FlightScore.DropPositiveIffProjection | compute_flightscore.py:257-268 | The voltage drop is available and positive exactly when an endurance projection exists. |
| FlightScore.FinalScore | compute_flightscore.py:373-386 | The final score lies in [0, 100]. |
| FlightScore.FinalScoreBetweenComponents | compute_flightscore.py:373-386 | For component scores in range, the clip never changes the weighted sum (the weights sum to 1). The result lies between the smallest and the largest component. |
| FlightScore.ComponentScores | compute_flightscore.py:362-371 | All seven scores lie in [0, 100]. No throttle means stability, control and propulsion are 0. No vibration, no supply samples or fewer than two battery samples give the neutral 50 for the matching scores. |
| FlightScore.FlightScoreOf | compute_flightscore.py:354-386 | The flight score of a set of series lies in [0, 100]. |
| FlightScore.UninstrumentedFlightScores20 | compute_flightscore.py:365-381 | With every series empty, the score is exactly 20: three gated zeros and four neutral 50s. |
| FlightScore.NoTelemetryScores20 | compute_flightscore.py:344-386 | A decodable log without CTUN, VIBE, POWR or BAT messages scores exactly 20. |
| FlightScore.ComputeFlightScore | compute_flightscore.py:344-386 | Succeeds exactly when every message carries the fields read unchecked. The result is then the score of the extracted series, in [0, 100]. |
| FlightScore.ComputeFlightMetrics | compute_flightscore.py:391-442 | Succeeds exactly when the log is decodable. The result then holds every metric of the extracted series and the flight score, with remaining time unavailable when there are no battery samples. |
| FlightScore.BatteryReportAsWritten | compute_flightscore.py:128-160 | The returned dictionary always has the five common keys. It has "remaining_est" exactly when there are voltage samples. |
| FlightScore.RemainingEstimateAsWritten | compute_flightscore.py:417 | When the lookup succeeds, it yields the modelled remaining time. |
| FlightScore.MetricsReportFailsWithoutBattery | compute_flightscore.py:417 | A log without BAT messages makes the lookup fail with KeyError("remaining_est"). |
| Diagnosis.Missing | compute_logic1.py:31-44 | The field reported missing is absent from the message, and only IMU, RCOU, MOTB and BAT messages can lack one. |
| Diagnosis.SeriesOf | compute_logic1.py:24-56 | The pass succeeds exactly when every message carries the fields read unchecked. It never raises a KeyError. |
| Diagnosis.SeriesStep | compute_logic1.py:24-56 | One loop iteration: an earlier error stays, a message lacking an unchecked field raises, and any other message is dispatched. |
| Diagnosis.FirstUnreadableRaises | compute_logic1.py:24-56 | The error of a log is the one raised by its first unreadable message: that message's type and the first field it lacks. |
| Diagnosis.ErrorPersists | compute_logic1.py:24-56 | An error raised on a prefix of the log is the error of the whole log. |
| Diagnosis.ReadableIsComplete | compute_logic1.py:31-44 | On a readable log, every IMU, RCOU, MOTB and BAT message carries its unchecked fields. |
| Diagnosis.FanOutScalars | compute_logic1.py:38-56 | The six scalar lists are the per-type field filters, in log order. ThrOut and Volt are taken unconditionally; ThLimit, Vcc, MTemp and ThH only when present. Other types change nothing. |
| Diagnosis.FanOutGyro | compute_logic1.py:31-33 | The gyro list holds the magnitude of every IMU message, in log order. |
| Diagnosis.FanOutMotors | compute_logic1.py:35-36 | The motor list holds one 4-tuple per RCOU message, in log order. |
| Diagnosis.GyroMagnitudesAppend | compute_logic1.py:32-33 | One more IMU sample appends its magnitude. |
| Diagnosis.ChannelTuplesAppend | compute_logic1.py:36 | One more RCOU sample appends its channel tuple. |
| Diagnosis.DispatchByKind | compute_logic1.py:31-56 | For each message type, the lists a readable message appends to, and that all the others stay unchanged. |
| Diagnosis.DispatchMessage | compute_logic1.py:29-56 | The if-elif chain yields the dispatched lists for a readable message, and otherwise the AttributeError for its first missing field. |
| Diagnosis.AnalyzeLog | compute_logic1.py:12-81 | Succeeds exactly when the log is readable. The lists are then those of the whole pass, and the metrics are those of the lists. An error is the pass's error. |
| Diagnosis.Pooled | compute_logic1.py:64 | The pooled array has 4 entries per motor sample, holding channels 1-4 of sample i at positions 4i to 4i+3. |
| Diagnosis.MetricsOf | compute_logic1.py:62-71 | Each metric is unavailable exactly when its list is empty. Extrema are attained and bound their list. bat_volt_mean, mcu_temp_mean and hover_throttle are the means of their lists (hover_throttle a mean, not a median). gyro_rms is the root of the mean square, and motor_imbalance the spread of the pooled channel values. |
| Stats.SquaredNorms | compute_logic1.py:32 | Each element is x²+y²+z² of its sample and is never negative. The same squared norm is the vibration energy at compute_flightscore.py:181. |
| Diagnosis.SquaredMagnitudes | compute_logic1.py:32 | Squaring the stored magnitudes gives back GyrX²+GyrY²+GyrZ². |
| Diagnosis.GyroRuleBySquares | compute_logic1.py:146 | The gyro RMS exceeds 0.4 exactly when the mean squared magnitude exceeds 0.16. |
| Diagnosis.GyroRuleOnLog | compute_logic1.py:24-146 | On a readable log with IMU messages, the vibration rule fires exactly when the mean of GyrX²+GyrY²+GyrZ² over IMU messages exceeds 0.16. |
| Diagnosis.MotorRuleBySquares | compute_logic1.py:163 | The motor imbalance exceeds 80 exactly when the pooled variance exceeds 6400. |
| Diagnosis.AssessThrust | compute_logic1.py:87-108 | Health is 0.3 iff th ≥ 0.95, 0.6 iff 0.8 ≤ th < 0.95, and 1.0 otherwise, with both boundaries in the lower tier. An unavailable metric gives 1.0. Issues are empty iff health is 1.0. |
| Diagnosis.AssessBattery | compute_logic1.py:111-125 | Health is 0.4 with "Low battery voltage" iff the mean is < 20, and 1.0 with no issues otherwise. |
| Diagnosis.AssessFc | compute_logic1.py:128-142 | Health is 0.3 iff the minimum Vcc is < 4.8, and 1.0 with no issues otherwise. |
| Diagnosis.AssessPropulsion | compute_logic1.py:145-159 | Health is 0.4 iff the gyro RMS is > 0.4, and 1.0 with no issues otherwise. |
| Diagnosis.AssessMotor | compute_logic1.py:162-176 | Health is 0.4 iff the motor imbalance is > 80, and 1.0 with no issues otherwise. |
| Diagnosis.AssessEfficiency | compute_logic1.py:179-193 | Health is 0.4 iff the mean hover throttle is > 0.45, and 1.0 with no issues otherwise. |
| Diagnosis.AssessThermal | compute_logic1.py:196-210 | Health is 0.4 iff the mean MCU temperature is > 75, and 1.0 with no issues otherwise. |
| Diagnosis.Assess | compute_logic1.py:86-212 | Each subsystem is judged by its own rule on its own metric: thrust by the thrust rule on th_limit_max, battery on bat_volt_mean, fc on vcc_min, propulsion on gyro_rms, motor on motor_imbalance, efficiency on hover_throttle, thermal on mcu_temp_mean. The result always has health in {0.3, 0.4, 0.6, 1.0}, with no issues iff its health is 1.0. |
| Diagnosis.AssessSubsystems | compute_logic1.py:83-212 | Exactly seven entries, in the order thrust, battery, fc, propulsion, motor, efficiency, thermal. Entry i is the assessment of its subsystem, that is, its own rule applied to its own metric. Every entry is well tiered. |
| Diagnosis.UnavailableMetricsAreHealthy | compute_logic1.py:62-210 | With every metric NaN, no rule fires: all seven entries have health 1.0 and no issues. |
| Diagnosis.ArgMinHealth | compute_logic1.py:215 | The index is an entry of least health, and every earlier entry is strictly healthier. |
| Diagnosis.OverallBottleneck | compute_logic1.py:214-217 | Returns the name and recommendation of an entry whose health is ≤ every other entry's, and the first such entry. |
| Diagnosis.NameInjective | compute_logic1.py:89-205 | Distinct subsystems have distinct keys, so the returned name identifies the entry. |
| Diagnosis.UnavailableMetricsBottleneck | compute_logic1.py:214-217 | With every metric NaN, the bottleneck is ("thrust", "No action required"). |
| Diagnosis.LowBatteryBottleneck | compute_logic1.py:214-217 | A mean pack voltage below 20 with nothing else available names the battery and its recommendation. |
| Diagnosis.ThrustWinsTieWithFc | compute_logic1.py:214-217 | Saturated thrust and a brown-out supply both have health 0.3. The tie goes to thrust, which comes first. |

## Left out

- The log decoder is not modelled: opening the file, `rewind`, `recv_match` and `get_type`. A log is the sequence of messages it yields, each with a type tag and a map of its fields. `hasattr` is key membership in that map.
- `compute_flight_metrics` reads the log twice, once through `compute_flight_score`. The model keeps the second read: ComputeFlightMetrics calls ComputeFlightScore, and its contract states that the score is that of the same extracted series.
- IEEE floating point is modelled over `real`: NaN propagation, infinities and rounding. `None` and NaN are `Option.None`. The `np.isnan(final)` guard at compute_flightscore.py:383-384 is a case the model cannot reach, so it is not modelled.
- `np.sqrt` is a parameter. Properties that depend on its values assume only that it is the square root on the non-negative reals.
- The `throttle` argument of `estimate_endurance` and `battery_metrics` is unused in the code and is not modelled.
- `safe_array` only converts lists to arrays, and is not modelled.
- The `series` dictionary of `analyze_log` is the `LogSeries` datatype. `thr_out` is collected but feeds no metric, as in the code.
- `FlightDegrade.py`, `Home.py` and the `pages/` directory are not part of this model. They are Streamlit pages, plots, uploads and session state.
- FlightScore.StabilityScore: states the range and the zero gate only. `SteadyFlightIsFullyStable` gives its full-score case. No monotonicity is proved, because it depends on square roots of sums of variances.
- FlightScore.MechanicalSmoothnessScore: states the range and the neutral default. Monotonicity is in `SmoothnessMonotone`, for a positive hover.
- FlightScore.EnergyEfficiencyScore: states the range and the neutral default. Monotonicity is in `EnergyEfficiencyMonotone`, for a positive hover.

## Findings

| source | as written | input that shows it | evidently intended | confidence | as-written member | corrected member |
|---|---|---|---|---|---|---|
| compute_flightscore.py:129-136 | For an empty voltage series, `battery_metrics` returns a dictionary without "remaining_est". `compute_flight_metrics` then reads `bat["remaining_est"]` at line 417 and raises KeyError. | a decodable log with no BAT Volt sample (no BAT message, or only BAT messages without Volt) | "remaining_est" reported as None, like the other battery fields | not executed | FlightScore.MetricsReportFailsWithoutBattery | FlightScore.ComputeFlightMetrics |
