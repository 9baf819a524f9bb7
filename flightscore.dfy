/** The flight-score pipeline: five per-type series extractors over a decoded
    log, six metric reducers that are total over empty series, seven transfer
    functions into [0, 100], and their fixed convex combination. */
module FlightScore {
  import opened Wrappers
  import opened Telemetry
  import opened Stats

  /** Hover throttle assumed when the throttle series gives none. */
  const NominalHover: real := 0.4
  /** Nominal voltage of a 6-cell pack. */
  const NominalPackVoltage: real := 22.2
  /** Endurance, in samples, that earns a full endurance score. */
  const FullEndurance: real := 2000.0
  /** Throttle fraction above which a sample counts as motor saturation. */
  const SaturationThrottle: real := 0.9

  // ---------------- guarded helpers ----------------

  /** `safe_div`: `a / b`, or `fallback` when the divisor is missing or zero. */
  function SafeDiv(a: real, b: Option<real>, fallback: real := 0.0): (r: real)
    ensures (b.None? || b.value == 0.0) ==> r == fallback
    ensures b.Some? && b.value != 0.0 ==> r * b.value == a
  {
    if b.None? || b.value == 0.0 then fallback else a / b.value
  }

  /** `safe_hover`: the median throttle, falling back to the nominal hover
      throttle when there are no samples or the median is not positive. */
  function SafeHover(throttle: seq<real>): (h: real)
    ensures 0.0 < h
    ensures |throttle| == 0 ==> h == NominalHover
    ensures |throttle| > 0 && Median(throttle) > 0.0 ==> h == Median(throttle)
    ensures |throttle| > 0 && Median(throttle) <= 0.0 ==> h == NominalHover
    ensures |throttle| > 0 ==> h == NominalHover || Min(throttle) <= h <= Max(throttle)
  {
    if |throttle| == 0 then NominalHover
    else
      var m := Median(throttle);
      MedianBetweenExtrema(throttle);
      if m <= 0.0 then NominalHover else m
  }

  // ---------------- log extraction ----------------

  /** `extract_ctun_throttle`: the `ThO` field of every CTUN message that has one. */
  method ExtractCtunThrottle(log: seq<Message>) returns (vals: seq<real>)
    ensures vals == FieldValues(log, "CTUN", "ThO")
  {
    vals := [];
    var i := 0;
    while i < |log|
      invariant 0 <= i <= |log|
      invariant vals == FieldValues(log[..i], "CTUN", "ThO")
    {
      var msg := log[i];
      FieldValuesStep(log, i, "CTUN", "ThO");
      if msg.kind == "CTUN" && "ThO" in msg.fields {
        vals := vals + [msg.fields["ThO"]];
      }
      i := i + 1;
    }
    assert log[..i] == log;
  }

  /** `extract_attitude`: roll and pitch of every ATT message; a message
      without either field makes the extraction fail. */
  method ExtractAttitude(log: seq<Message>) returns (r: Result<(seq<real>, seq<real>)>)
    ensures r.Ok? <==> Complete(log, "ATT", "Roll") && Complete(log, "ATT", "Pitch")
    ensures r.Ok? ==> r.value == (FieldValues(log, "ATT", "Roll"), FieldValues(log, "ATT", "Pitch"))
    ensures !r.Ok? ==> r.AttributeError? && r.kind == "ATT"
  {
    var roll, pitch := [], [];
    var i := 0;
    while i < |log|
      invariant 0 <= i <= |log|
      invariant Complete(log[..i], "ATT", "Roll") && Complete(log[..i], "ATT", "Pitch")
      invariant roll == FieldValues(log[..i], "ATT", "Roll")
      invariant pitch == FieldValues(log[..i], "ATT", "Pitch")
    {
      var msg := log[i];
      FieldValuesStep(log, i, "ATT", "Roll");
      FieldValuesStep(log, i, "ATT", "Pitch");
      if msg.kind == "ATT" {
        if "Roll" !in msg.fields {
          return AttributeError("ATT", "Roll");
        }
        roll := roll + [msg.fields["Roll"]];
        if "Pitch" !in msg.fields {
          return AttributeError("ATT", "Pitch");
        }
        pitch := pitch + [msg.fields["Pitch"]];
      }
      i := i + 1;
    }
    assert log[..i] == log;
    return Ok((roll, pitch));
  }

  /** `extract_vibe_xyz`: the three vibration axes of every VIBE message; a
      message without one of them makes the extraction fail. */
  method ExtractVibeXyz(log: seq<Message>) returns (r: Result<(seq<real>, seq<real>, seq<real>)>)
    ensures r.Ok? <==> Complete(log, "VIBE", "VibeX") && Complete(log, "VIBE", "VibeY")
                       && Complete(log, "VIBE", "VibeZ")
    ensures r.Ok? ==> r.value == (FieldValues(log, "VIBE", "VibeX"), FieldValues(log, "VIBE", "VibeY"),
                                  FieldValues(log, "VIBE", "VibeZ"))
    ensures !r.Ok? ==> r.AttributeError? && r.kind == "VIBE"
  {
    var vx, vy, vz := [], [], [];
    var i := 0;
    while i < |log|
      invariant 0 <= i <= |log|
      invariant Complete(log[..i], "VIBE", "VibeX") && Complete(log[..i], "VIBE", "VibeY")
                && Complete(log[..i], "VIBE", "VibeZ")
      invariant vx == FieldValues(log[..i], "VIBE", "VibeX")
      invariant vy == FieldValues(log[..i], "VIBE", "VibeY")
      invariant vz == FieldValues(log[..i], "VIBE", "VibeZ")
    {
      var msg := log[i];
      FieldValuesStep(log, i, "VIBE", "VibeX");
      FieldValuesStep(log, i, "VIBE", "VibeY");
      FieldValuesStep(log, i, "VIBE", "VibeZ");
      if msg.kind == "VIBE" {
        if "VibeX" !in msg.fields {
          return AttributeError("VIBE", "VibeX");
        }
        vx := vx + [msg.fields["VibeX"]];
        if "VibeY" !in msg.fields {
          return AttributeError("VIBE", "VibeY");
        }
        vy := vy + [msg.fields["VibeY"]];
        if "VibeZ" !in msg.fields {
          return AttributeError("VIBE", "VibeZ");
        }
        vz := vz + [msg.fields["VibeZ"]];
      }
      i := i + 1;
    }
    assert log[..i] == log;
    return Ok((vx, vy, vz));
  }

  /** `extract_vcc`: the board supply voltage of every POWR message; a message
      without it makes the extraction fail. */
  method ExtractVcc(log: seq<Message>) returns (r: Result<seq<real>>)
    ensures r.Ok? <==> Complete(log, "POWR", "Vcc")
    ensures r.Ok? ==> r.value == FieldValues(log, "POWR", "Vcc")
    ensures !r.Ok? ==> r.AttributeError? && r.kind == "POWR"
  {
    var vcc := [];
    var i := 0;
    while i < |log|
      invariant 0 <= i <= |log|
      invariant Complete(log[..i], "POWR", "Vcc")
      invariant vcc == FieldValues(log[..i], "POWR", "Vcc")
    {
      var msg := log[i];
      FieldValuesStep(log, i, "POWR", "Vcc");
      if msg.kind == "POWR" {
        if "Vcc" !in msg.fields {
          return AttributeError("POWR", "Vcc");
        }
        vcc := vcc + [msg.fields["Vcc"]];
      }
      i := i + 1;
    }
    assert log[..i] == log;
    return Ok(vcc);
  }

  /** `extract_battery`: the `Volt` field of every BAT message that has one. */
  method ExtractBattery(log: seq<Message>) returns (volt: seq<real>)
    ensures volt == FieldValues(log, "BAT", "Volt")
  {
    volt := [];
    var i := 0;
    while i < |log|
      invariant 0 <= i <= |log|
      invariant volt == FieldValues(log[..i], "BAT", "Volt")
    {
      var msg := log[i];
      FieldValuesStep(log, i, "BAT", "Volt");
      if msg.kind == "BAT" && "Volt" in msg.fields {
        volt := volt + [msg.fields["Volt"]];
      }
      i := i + 1;
    }
    assert log[..i] == log;
  }

  /** The series the score is computed from. */
  datatype FlightSeries = FlightSeries(
    throttle: seq<real>, roll: seq<real>, pitch: seq<real>,
    vx: seq<real>, vy: seq<real>, vz: seq<real>,
    vcc: seq<real>, volt: seq<real>)

  /** Attitude and vibration samples come in matching tuples. */
  predicate Paired(fs: FlightSeries)
  {
    |fs.roll| == |fs.pitch| && |fs.vx| == |fs.vy| == |fs.vz|
  }

  /** The log carries every field the extractors read without checking. */
  ghost predicate Decodable(log: seq<Message>)
  {
    && Complete(log, "ATT", "Roll") && Complete(log, "ATT", "Pitch")
    && Complete(log, "VIBE", "VibeX") && Complete(log, "VIBE", "VibeY") && Complete(log, "VIBE", "VibeZ")
    && Complete(log, "POWR", "Vcc")
  }

  /** The series the five extractors produce from a log. */
  function FlightSeriesOf(log: seq<Message>): (fs: FlightSeries)
    ensures Decodable(log) ==> Paired(fs)
  {
    FlightSeries(
      FieldValues(log, "CTUN", "ThO"),
      FieldValues(log, "ATT", "Roll"), FieldValues(log, "ATT", "Pitch"),
      FieldValues(log, "VIBE", "VibeX"), FieldValues(log, "VIBE", "VibeY"), FieldValues(log, "VIBE", "VibeZ"),
      FieldValues(log, "POWR", "Vcc"),
      FieldValues(log, "BAT", "Volt"))
  }

  // ---------------- arithmetic helpers ----------------

  /** Dividing by a positive number keeps the sign. */
  lemma QuotientSign(a: real, b: real)
    requires 0.0 < b
    ensures a / b < 0.0 <==> a < 0.0
  {
    var q := a / b;
    assert q * b == a;
    if q < 0.0 {
      assert q * b < 0.0 * b;
    } else {
      assert q * b >= 0.0 * b;
    }
  }

  /** Dividing by a positive number preserves order. */
  lemma QuotientMonotone(a: real, b: real, h: real)
    requires 0.0 < h && a <= b
    ensures a / h <= b / h
  {
    QuotientSign(b - a, h);
    assert (b - a) / h == b / h - a / h;
  }

  // ---------------- endurance ----------------

  /** A linear endurance projection, both parts in samples. */
  datatype Projection = Projection(endurance: real, remaining: real)

  /** The extrapolation at the heart of `estimate_endurance`, on the numbers it
      reads: dt samples falling from `first` to `last` give a slope of
      (last - first) / dt volts per sample; a falling trend is extended down to
      `cutoff`. In closed form, remaining (first - last) = dt (last - cutoff)
      and endurance (first - last) = dt (first - cutoff). */
  function Extrapolate(dt: real, first: real, last: real, cutoff: real): (p: Option<Projection>)
    ensures p.Some? <==> 0.0 < dt && last < first
    ensures p.Some? ==> p.value.remaining * (first - last) == dt * (last - cutoff)
                        && p.value.endurance * (first - last) == dt * (first - cutoff)
    ensures p.Some? ==> p.value.endurance == dt + p.value.remaining
  {
    if dt <= 0.0 then None
    else
      var slope := (last - first) / dt;
      QuotientSign(last - first, dt);
      if slope >= 0.0 then None
      else
        ProjectionAlgebra(dt, first, last, cutoff);
        var remaining := (last - cutoff) / Abs(slope);
        Some(Projection(dt + remaining, remaining))
  }

  /** `estimate_endurance`: with at least two samples, extrapolate the voltage
      trend down to the 5th percentile of the observed voltages. */
  function EstimateEndurance(volt: seq<real>): (p: Option<Projection>)
    ensures p.Some? <==> |volt| >= 2 && volt[|volt| - 1] < volt[0]
    ensures p.Some? ==>
              var n, first, last := |volt| as real, volt[0], volt[|volt| - 1];
              && p.value.endurance == n + p.value.remaining
              && p.value.remaining * (first - last) == n * (last - Percentile(volt, 5))
  {
    if |volt| < 2 then None
    else Extrapolate(|volt| as real, volt[0], volt[|volt| - 1], Percentile(volt, 5))
  }

  /** Multiplying by a positive number keeps the sign. */
  lemma ProductSign(a: real, b: real)
    requires 0.0 < b
    ensures a * b > 0.0 <==> a > 0.0
    ensures a * b < 0.0 <==> a < 0.0
  {
    if a > 0.0 {
      assert a * b > 0.0 * b;
    } else if a < 0.0 {
      assert a * b < 0.0 * b;
    }
  }

  /** The arithmetic of the projection: n samples falling from v0 to vl give a
      slope of magnitude s = (v0 - vl) / n, and (vl - c) / s samples remain to
      the cutoff c. */
  lemma ProjectionAlgebra(n: real, v0: real, vl: real, c: real)
    requires 0.0 < n && vl < v0
    ensures var rem := (vl - c) / Abs((vl - v0) / n);
            && rem * (v0 - vl) == n * (vl - c)
            && (n + rem) * (v0 - vl) == n * (v0 - c)
  {
    var slope := (vl - v0) / n;
    assert slope * n == vl - v0;
    QuotientSign(vl - v0, n);
    var s := Abs(slope);
    assert s == -slope;
    assert s * n == v0 - vl;
    var rem := (vl - c) / s;
    assert rem * s == vl - c;
    calc {
      rem * (v0 - vl);
      == rem * (s * n);
      == (rem * s) * n;
      == (vl - c) * n;
    }
    calc {
      (n + rem) * (v0 - vl);
      == n * (v0 - vl) + rem * (v0 - vl);
      == n * (v0 - vl) + n * (vl - c);
      == n * (v0 - c);
    }
  }

  /** A projection read off its closed form: the sign of the numerator decides. */
  lemma ProjectionSign(x: real, d: real, n: real, y: real)
    requires 0.0 < d && 0.0 < n && x * d == n * y
    ensures x > 0.0 <==> y > 0.0
    ensures x < 0.0 <==> y < 0.0
  {
    ProductSign(x, d);
    ProductSign(y, n);
    assert y * n == n * y;
  }

  /** The signs of an extrapolation: nothing remains once the last sample has
      reached the cutoff, and the endurance is positive exactly when the first
      sample lies above it. */
  lemma ExtrapolationSigns(dt: real, first: real, last: real, cutoff: real)
    requires 0.0 < dt && last < first
    ensures var p := Extrapolate(dt, first, last, cutoff).value;
            && (p.remaining <= 0.0 <==> last <= cutoff)
            && (p.endurance > 0.0 <==> cutoff < first)
  {
    var p := Extrapolate(dt, first, last, cutoff).value;
    ProjectionSign(p.remaining, first - last, dt, last - cutoff);
    ProjectionSign(p.endurance, first - last, dt, first - cutoff);
  }

  /** When the last sample is the lowest voltage seen, the cutoff is not below
      it, so the projected remaining time is never positive. */
  lemma RemainingNonPositiveAtMinimum(volt: seq<real>)
    requires |volt| >= 2 && volt[|volt| - 1] < volt[0]
    requires volt[|volt| - 1] == Min(volt)
    ensures EstimateEndurance(volt).value.remaining <= 0.0
  {
    PercentileBetweenExtrema(volt, 5);
    ExtrapolationSigns(|volt| as real, volt[0], volt[|volt| - 1], Percentile(volt, 5));
  }

  /** The projected endurance is positive exactly when the first sample lies
      above the cutoff. */
  lemma EndurancePositiveIff(volt: seq<real>)
    requires |volt| >= 2 && volt[|volt| - 1] < volt[0]
    ensures EstimateEndurance(volt).value.endurance > 0.0 <==> Percentile(volt, 5) < volt[0]
  {
    ExtrapolationSigns(|volt| as real, volt[0], volt[|volt| - 1], Percentile(volt, 5));
  }

  // ---------------- battery ----------------

  datatype BatteryMetrics = BatteryMetrics(
    avgVoltage: Option<real>, minVoltage: Option<real>, sagPct: Option<real>,
    health: Option<real>, endurance: Option<real>, remaining: Option<real>)

  /** `battery_metrics`: mean and minimum voltage, sag below the nominal pack
      voltage, and the endurance projection with the health derived from it.
      With no samples every field is unavailable (the remaining-time field
      included: see BatteryReportAsWritten for the source's own dictionary). */
  function BatteryMetricsOf(volt: seq<real>): (b: BatteryMetrics)
    ensures |volt| == 0 ==> b == BatteryMetrics(None, None, None, None, None, None)
    ensures |volt| > 0 ==>
              && b.avgVoltage.Some? && b.minVoltage.Some? && b.sagPct.Some?
              && b.minVoltage.value in volt
              && (forall i :: 0 <= i < |volt| ==> b.minVoltage.value <= volt[i])
              && b.avgVoltage.value == Mean(volt)
              && b.minVoltage.value <= b.avgVoltage.value <= Max(volt)
              && b.sagPct.value * NominalPackVoltage == (NominalPackVoltage - b.minVoltage.value) * 100.0
    ensures b.health.None? <==> EstimateEndurance(volt).None?
    ensures b.health.Some? ==> 0.0 <= b.health.value <= 100.0
    ensures b.health.Some? ==> b.endurance.Some?
                               && b.health.value == Clip(b.endurance.value / FullEndurance * 100.0)
    ensures b.endurance.Some? <==> EstimateEndurance(volt).Some?
    ensures b.remaining.Some? <==> EstimateEndurance(volt).Some?
    ensures b.endurance.Some? ==> b.endurance.value == EstimateEndurance(volt).value.endurance
                                  && b.remaining == Some(EstimateEndurance(volt).value.remaining)
  {
    if |volt| == 0 then BatteryMetrics(None, None, None, None, None, None)
    else
      var avg := Mean(volt);
      var low := Min(volt);
      MeanBetweenExtrema(volt);
      var sag := (NominalPackVoltage - low) / NominalPackVoltage * 100.0;
      var p := EstimateEndurance(volt);
      var health := if p.Some? then Some(Clip(p.value.endurance / FullEndurance * 100.0)) else None;
      BatteryMetrics(Some(avg), Some(low), Some(sag), health,
                     if p.Some? then Some(p.value.endurance) else None,
                     if p.Some? then Some(p.value.remaining) else None)
  }

  // ---------------- vibration ----------------

  datatype Severity = Low | Moderate | High

  datatype VibrationMetrics = VibrationMetrics(maxVibe: Option<real>, rmsVibe: Option<real>,
                                               severity: Option<Severity>)

  /** The severity band of an RMS vibration level. */
  function SeverityOf(rms: real): Severity
  {
    if rms < 10.0 then Low else if rms < 20.0 then Moderate else High
  }

  /** The bands read on the squared level: LOW below 100, HIGH from 400 on. */
  lemma SeverityBand(sqrt: real -> real, e: real)
    requires IsSqrt(sqrt) && 0.0 <= e
    ensures SeverityOf(sqrt(e)) == Low <==> e < 100.0
    ensures SeverityOf(sqrt(e)) == Moderate <==> 100.0 <= e < 400.0
    ensures SeverityOf(sqrt(e)) == High <==> 400.0 <= e
  {
    SqrtCompare(sqrt, e, 10.0);
    SqrtCompare(sqrt, e, 20.0);
  }

  /** `vibration_metrics`: the largest absolute reading on any axis, the RMS
      magnitude, and its severity band. */
  function VibrationMetricsOf(vx: seq<real>, vy: seq<real>, vz: seq<real>, sqrt: real -> real)
    : (v: VibrationMetrics)
    requires |vx| == |vy| == |vz|
    ensures |vx| == 0 ==> v == VibrationMetrics(None, None, None)
    ensures |vx| > 0 ==>
              && v.maxVibe.Some? && v.rmsVibe.Some? && v.severity.Some?
              && 0.0 <= v.maxVibe.value
              && (forall i :: 0 <= i < |vx| ==>
                    Abs(vx[i]) <= v.maxVibe.value && Abs(vy[i]) <= v.maxVibe.value
                    && Abs(vz[i]) <= v.maxVibe.value)
              && (exists i :: 0 <= i < |vx| &&
                    (v.maxVibe.value == Abs(vx[i]) || v.maxVibe.value == Abs(vy[i])
                     || v.maxVibe.value == Abs(vz[i])))
              && v.rmsVibe.value == sqrt(Mean(SquaredNorms(vx, vy, vz)))
    ensures v.severity == Some(Low) <==> v.rmsVibe.Some? && v.rmsVibe.value < 10.0
    ensures v.severity == Some(Moderate) <==> v.rmsVibe.Some? && 10.0 <= v.rmsVibe.value < 20.0
    ensures v.severity == Some(High) <==> v.rmsVibe.Some? && 20.0 <= v.rmsVibe.value
  {
    if |vx| == 0 then VibrationMetrics(None, None, None)
    else
      var mx, my, mz := Max(Magnitudes(vx)), Max(Magnitudes(vy)), Max(Magnitudes(vz));
      assert 0.0 <= Abs(vx[0]) <= mx;
      var maxV := if mx >= my && mx >= mz then mx else if my >= mz then my else mz;
      var rms := sqrt(Mean(SquaredNorms(vx, vy, vz)));
      VibrationMetrics(Some(maxV), Some(rms), Some(SeverityOf(rms)))
  }

  /** The severity bands read on the mean squared magnitude, with no root
      taken: LOW below 100, HIGH from 400 on. */
  lemma SeverityBySquares(vx: seq<real>, vy: seq<real>, vz: seq<real>, sqrt: real -> real)
    requires |vx| == |vy| == |vz| && |vx| > 0 && IsSqrt(sqrt)
    ensures var e := Mean(SquaredNorms(vx, vy, vz));
            var sev := VibrationMetricsOf(vx, vy, vz, sqrt).severity.value;
            && (sev == Low <==> e < 100.0)
            && (sev == Moderate <==> 100.0 <= e < 400.0)
            && (sev == High <==> 400.0 <= e)
  {
    var e := SquaredNorms(vx, vy, vz);
    MeanBounds(e, 0.0, Max(e));
    assert VibrationMetricsOf(vx, vy, vz, sqrt).severity == Some(SeverityOf(sqrt(Mean(e))));
    SeverityBand(sqrt, Mean(e));
  }

  // ---------------- stability ----------------

  datatype StabilityMetrics = StabilityMetrics(rollVar: Option<real>, pitchVar: Option<real>)

  /** `stability_metrics`: population variance of roll and of pitch. */
  function StabilityMetricsOf(roll: seq<real>, pitch: seq<real>): (s: StabilityMetrics)
    ensures s.rollVar.Some? <==> |roll| > 0
    ensures s.pitchVar.Some? <==> |roll| > 0 && |pitch| > 0
    ensures s.rollVar.Some? ==> 0.0 <= s.rollVar.value
    ensures s.pitchVar.Some? ==> 0.0 <= s.pitchVar.value
    ensures s.rollVar.Some? ==> s.rollVar.value == Var(roll)
    ensures s.pitchVar.Some? ==> s.pitchVar.value == Var(pitch)
  {
    if |roll| == 0 then StabilityMetrics(None, None)
    else
      VarNonNegative(roll);
      var pv := if |pitch| > 0 then VarNonNegative(pitch); Some(Var(pitch)) else None;
      StabilityMetrics(Some(Var(roll)), pv)
  }

  // ---------------- control ----------------

  /** Number of samples strictly above `t`. */
  function CountAbove(s: seq<real>, t: real): (k: nat)
    ensures k <= |s|
    ensures k == |s| <==> forall i :: 0 <= i < |s| ==> s[i] > t
    ensures k == 0 <==> forall i :: 0 <= i < |s| ==> s[i] <= t
  {
    if s == [] then 0
    else
      var p := s[..|s| - 1];
      assert forall i :: 0 <= i < |p| ==> p[i] == s[i];
      CountAbove(p, t) + (if s[|s| - 1] > t then 1 else 0)
  }

  /** Counting distributes over concatenation; with the single-sample case
      given by CountAbove's own contract, this fixes the count of every
      series. */
  lemma {:induction false} CountAboveAppend(a: seq<real>, b: seq<real>, t: real)
    ensures CountAbove(a + b, t) == CountAbove(a, t) + CountAbove(b, t)
    decreases |b|
  {
    if b == [] {
      assert a + b == a;
    } else {
      var b' := b[..|b| - 1];
      assert (a + b)[..|a + b| - 1] == a + b';
      CountAboveAppend(a, b', t);
    }
  }

  /** k out of n, as a percentage. */
  lemma PercentageBounds(k: nat, n: nat)
    requires 0 < n && k <= n
    ensures 0.0 <= (k as real) / (n as real) * 100.0 <= 100.0
    ensures (k as real) / (n as real) * 100.0 == 100.0 <==> k == n
    ensures (k as real) / (n as real) * 100.0 == 0.0 <==> k == 0
  {
    var f := (k as real) / (n as real);
    assert f * (n as real) == k as real;
    if f == 1.0 {
      assert k as real == n as real;
    }
    if k == n {
      assert f == 1.0;
    }
  }

  datatype ControlMetrics = ControlMetrics(avgThrottle: Option<real>, peakThrottle: Option<real>,
                                           motorSatPct: Option<real>, hoverThrottle: real)

  /** `control_metrics`: mean and peak throttle, the share of samples above the
      saturation threshold, and the hover throttle. */
  function ControlMetricsOf(throttle: seq<real>): (c: ControlMetrics)
    ensures |throttle| == 0 ==> c == ControlMetrics(None, None, None, NominalHover)
    ensures |throttle| > 0 ==>
              && c.avgThrottle.Some? && c.peakThrottle.Some? && c.motorSatPct.Some?
              && c.avgThrottle.value == Mean(throttle)
              && c.peakThrottle.value in throttle
              && (forall i :: 0 <= i < |throttle| ==> throttle[i] <= c.peakThrottle.value)
              && Min(throttle) <= c.avgThrottle.value <= c.peakThrottle.value
              && c.motorSatPct.value
                 == (CountAbove(throttle, SaturationThrottle) as real) / (|throttle| as real) * 100.0
              && 0.0 <= c.motorSatPct.value <= 100.0
              && (c.motorSatPct.value == 100.0 <==>
                    forall i :: 0 <= i < |throttle| ==> throttle[i] > SaturationThrottle)
              && (c.motorSatPct.value == 0.0 <==>
                    forall i :: 0 <= i < |throttle| ==> throttle[i] <= SaturationThrottle)
    ensures c.hoverThrottle == SafeHover(throttle)
  {
    if |throttle| == 0 then ControlMetrics(None, None, None, NominalHover)
    else
      var k := CountAbove(throttle, SaturationThrottle);
      PercentageBounds(k, |throttle|);
      MeanBetweenExtrema(throttle);
      var sat := (k as real) / (|throttle| as real) * 100.0;
      ControlMetrics(Some(Mean(throttle)), Some(Max(throttle)), Some(sat), SafeHover(throttle))
  }

  // ---------------- electrical and energy ----------------

  // `electrical_metrics` is the standard deviation of the board supply
  // voltage, unavailable without samples: Stats.StdOrNone.

  /** `energy_metrics`: voltage lost between the first and the last sample. */
  function EnergyMetricsOf(volt: seq<real>): (drop: Option<real>)
    ensures drop.Some? <==> |volt| >= 2
    ensures drop.Some? ==> volt[|volt| - 1] == volt[0] - drop.value
  {
    if |volt| < 2 then None else Some(volt[0] - volt[|volt| - 1])
  }

  /** The voltage drop is positive exactly when an endurance projection
      exists. */
  lemma DropPositiveIffProjection(volt: seq<real>)
    ensures (EnergyMetricsOf(volt).Some? && EnergyMetricsOf(volt).value > 0.0)
            <==> EstimateEndurance(volt).Some?
  {
  }

  // ---------------- scores ----------------

  /** `np.clip(x, 0, 100)`. */
  function Clip(x: real): (r: real)
    ensures 0.0 <= r <= 100.0
    ensures 0.0 <= x <= 100.0 ==> r == x
    ensures x <= 0.0 ==> r == 0.0
    ensures 100.0 <= x ==> r == 100.0
  {
    if x < 0.0 then 0.0 else if x > 100.0 then 100.0 else x
  }

  lemma ClipMonotone(x: real, y: real)
    requires x <= y
    ensures Clip(x) <= Clip(y)
  {
  }

  /** `stability_score`: attitude spread (scale 6) and throttle spread relative
      to hover (scale 0.12) blended 60/40 into an index; the score is
      100 (1 - index), clipped. No throttle samples scores 0. */
  function StabilityScore(roll: seq<real>, pitch: seq<real>, throttle: seq<real>, sqrt: real -> real)
    : (r: real)
    requires |roll| == |pitch|
    ensures 0.0 <= r <= 100.0
    ensures |throttle| == 0 ==> r == 0.0
  {
    if |throttle| == 0 then 0.0
    else
      var hover := SafeHover(throttle);
      var thrVar := if |throttle| > 0 then Std(throttle, sqrt) else 0.0;
      var attVar := if |roll| > 0 then
                      var sr, sp := Std(roll, sqrt), Std(pitch, sqrt);
                      sqrt(sr * sr + sp * sp)
                    else 0.0;
      var attNorm := SafeDiv(attVar, Some(6.0));
      var thrNorm := SafeDiv(thrVar, Some(hover)) / 0.12;
      var idx := 0.6 * attNorm + 0.4 * thrNorm;
      Clip(100.0 * (1.0 - idx))
  }

  /** A flight whose roll, pitch and throttle never move scores a full
      stability score. */
  lemma SteadyFlightIsFullyStable(roll: seq<real>, pitch: seq<real>, throttle: seq<real>,
                                  sqrt: real -> real)
    requires IsSqrt(sqrt)
    requires |roll| == |pitch| && |throttle| > 0
    requires forall i :: 0 <= i < |roll| ==> roll[i] == roll[0]
    requires forall i :: 0 <= i < |pitch| ==> pitch[i] == pitch[0]
    requires forall i :: 0 <= i < |throttle| ==> throttle[i] == throttle[0]
    ensures StabilityScore(roll, pitch, throttle, sqrt) == 100.0
  {
    SqrtZero(sqrt);
    VarOfConstant(throttle, throttle[0]);
    assert Std(throttle, sqrt) == 0.0;
    if |roll| > 0 {
      VarOfConstant(roll, roll[0]);
      VarOfConstant(pitch, pitch[0]);
      assert Std(roll, sqrt) == 0.0 && Std(pitch, sqrt) == 0.0;
    }
  }

  /** `control_authority_score`: throttle headroom above hover, full at a
      margin of 0.6. No throttle samples scores 0. */
  function ControlAuthorityScore(throttle: seq<real>): (r: real)
    ensures 0.0 <= r <= 100.0
    ensures |throttle| == 0 ==> r == 0.0
    ensures |throttle| > 0 ==> (r == 100.0 <==> SafeHover(throttle) <= NominalHover)
    ensures |throttle| > 0 ==> (r == 0.0 <==> 1.0 <= SafeHover(throttle))
  {
    if |throttle| == 0 then 0.0
    else
      var hover := SafeHover(throttle);
      var margin := 1.0 - hover;
      Clip(SafeDiv(margin, Some(0.6)) * 100.0)
  }

  /** A flight holding a steady throttle at or below the nominal hover
      throttle hovers at that throttle and keeps full control authority. */
  lemma SteadyLowThrottleHasFullAuthority(throttle: seq<real>, c: real)
    requires |throttle| > 0 && 0.0 < c <= NominalHover
    requires forall i :: 0 <= i < |throttle| ==> throttle[i] == c
    ensures SafeHover(throttle) == c
    ensures ControlAuthorityScore(throttle) == 100.0
  {
    MedianOfConstant(throttle, c);
  }

  /** `propulsion_efficiency_score`: full when hover throttle is exactly the
      nominal 0.4, falling linearly to 0 at a deviation of 0.4. No throttle
      samples scores 0. */
  function PropulsionEfficiencyScore(throttle: seq<real>): (r: real)
    ensures 0.0 <= r <= 100.0
    ensures |throttle| == 0 ==> r == 0.0
    ensures |throttle| > 0 ==> (r == 100.0 <==> SafeHover(throttle) == NominalHover)
    ensures |throttle| > 0 ==> (r == 0.0 <==> 2.0 * NominalHover <= SafeHover(throttle))
  {
    if |throttle| == 0 then 0.0
    else
      var hover := SafeHover(throttle);
      Clip((1.0 - Abs(hover - NominalHover) / 0.4) * 100.0)
  }

  /** `mechanical_smoothness_score`: RMS vibration relative to hover, zero at
      60; an unavailable RMS scores the neutral 50. */
  function MechanicalSmoothnessScore(rmsVibe: Option<real>, hover: real): (r: real)
    ensures 0.0 <= r <= 100.0
    ensures rmsVibe.None? ==> r == 50.0
  {
    if rmsVibe.None? then 50.0
    else
      var norm := SafeDiv(rmsVibe.value, Some(hover));
      Clip(100.0 * (1.0 - norm / 60.0))
  }

  /** More vibration never scores smoother. */
  lemma SmoothnessMonotone(a: real, b: real, hover: real)
    requires 0.0 < hover && a <= b
    ensures MechanicalSmoothnessScore(Some(b), hover) <= MechanicalSmoothnessScore(Some(a), hover)
  {
    QuotientMonotone(a, b, hover);
  }

  /** `electrical_score`: supply-voltage spread, zero at 0.15 V; unavailable
      scores 50. */
  function ElectricalScore(vccStd: Option<real>): (r: real)
    ensures 0.0 <= r <= 100.0
    ensures vccStd.None? ==> r == 50.0
    ensures vccStd.Some? ==> (r == 100.0 <==> vccStd.value <= 0.0)
    ensures vccStd.Some? ==> (r == 0.0 <==> 0.15 <= vccStd.value)
  {
    if vccStd.None? then 50.0
    else Clip(100.0 * (1.0 - vccStd.value / 0.15))
  }

  lemma ElectricalMonotone(a: real, b: real)
    requires a <= b
    ensures ElectricalScore(Some(b)) <= ElectricalScore(Some(a))
  {
  }

  /** `energy_efficiency_score`: voltage drop relative to hover, zero at 3;
      unavailable scores 50. */
  function EnergyEfficiencyScore(voltDrop: Option<real>, hover: real): (r: real)
    ensures 0.0 <= r <= 100.0
    ensures voltDrop.None? ==> r == 50.0
  {
    if voltDrop.None? then 50.0
    else
      var norm := SafeDiv(voltDrop.value, Some(hover));
      Clip(100.0 * (1.0 - norm / 3.0))
  }

  /** A larger voltage drop never scores more efficient. */
  lemma EnergyEfficiencyMonotone(a: real, b: real, hover: real)
    requires 0.0 < hover && a <= b
    ensures EnergyEfficiencyScore(Some(b), hover) <= EnergyEfficiencyScore(Some(a), hover)
  {
    QuotientMonotone(a, b, hover);
  }

  /** `endurance_score`: projected endurance, full at 2000 samples;
      unavailable scores 50. */
  function EnduranceScore(endurance: Option<real>): (r: real)
    ensures 0.0 <= r <= 100.0
    ensures endurance.None? ==> r == 50.0
  {
    if endurance.None? then 50.0
    else Clip(endurance.value / FullEndurance * 100.0)
  }

  /** Whenever the battery has a health figure, the endurance score equals it. */
  lemma EnduranceScoreIsBatteryHealth(volt: seq<real>)
    requires BatteryMetricsOf(volt).health.Some?
    ensures EnduranceScore(BatteryMetricsOf(volt).endurance) == BatteryMetricsOf(volt).health.value
  {
  }

  // ---------------- final score ----------------

  datatype Scores = Scores(stability: real, control: real, propulsion: real, smoothness: real,
                           electrical: real, energy: real, endurance: real)

  ghost predicate InRange(s: Scores)
  {
    && 0.0 <= s.stability <= 100.0 && 0.0 <= s.control <= 100.0 && 0.0 <= s.propulsion <= 100.0
    && 0.0 <= s.smoothness <= 100.0 && 0.0 <= s.electrical <= 100.0 && 0.0 <= s.energy <= 100.0
    && 0.0 <= s.endurance <= 100.0
  }

  function Components(s: Scores): seq<real>
  {
    [s.stability, s.control, s.propulsion, s.smoothness, s.electrical, s.energy, s.endurance]
  }

  /** The fixed weighting of the seven scores; the weights sum to 1. */
  function Weighted(s: Scores): real
  {
    0.20 * s.stability + 0.20 * s.control + 0.20 * s.propulsion + 0.15 * s.smoothness
    + 0.10 * s.electrical + 0.10 * s.energy + 0.05 * s.endurance
  }

  /** The final score: the weighted sum, clipped to [0, 100]. */
  function FinalScore(s: Scores): (r: real)
    ensures 0.0 <= r <= 100.0
  {
    Clip(Weighted(s))
  }

  /** For scores in range the final score is a convex combination: the clip
      never changes it and it lies between the smallest and the largest
      component. */
  lemma FinalScoreBetweenComponents(s: Scores)
    requires InRange(s)
    ensures FinalScore(s) == Weighted(s)
    ensures Min(Components(s)) <= FinalScore(s) <= Max(Components(s))
  {
    var c := Components(s);
    var lo, hi := Min(c), Max(c);
    assert lo <= c[0] && lo <= c[1] && lo <= c[2] && lo <= c[3] && lo <= c[4] && lo <= c[5] && lo <= c[6];
    assert c[0] <= hi && c[1] <= hi && c[2] <= hi && c[3] <= hi && c[4] <= hi && c[5] <= hi && c[6] <= hi;
  }

  /** The seven component scores of a flight, hover throttle taken from the
      control metrics. */
  function ComponentScores(fs: FlightSeries, sqrt: real -> real): (s: Scores)
    requires Paired(fs)
    ensures InRange(s)
    ensures |fs.throttle| == 0 ==> s.stability == 0.0 && s.control == 0.0 && s.propulsion == 0.0
    ensures |fs.vx| == 0 ==> s.smoothness == 50.0
    ensures |fs.vcc| == 0 ==> s.electrical == 50.0
    ensures |fs.volt| < 2 ==> s.energy == 50.0 && s.endurance == 50.0
  {
    var hover := ControlMetricsOf(fs.throttle).hoverThrottle;
    Scores(
      StabilityScore(fs.roll, fs.pitch, fs.throttle, sqrt),
      ControlAuthorityScore(fs.throttle),
      PropulsionEfficiencyScore(fs.throttle),
      MechanicalSmoothnessScore(VibrationMetricsOf(fs.vx, fs.vy, fs.vz, sqrt).rmsVibe, hover),
      ElectricalScore(StdOrNone(fs.vcc, sqrt)),
      EnergyEfficiencyScore(EnergyMetricsOf(fs.volt), hover),
      EnduranceScore(BatteryMetricsOf(fs.volt).endurance))
  }

  /** The flight score of a set of series. */
  function FlightScoreOf(fs: FlightSeries, sqrt: real -> real): (r: real)
    requires Paired(fs)
    ensures 0.0 <= r <= 100.0
  {
    FinalScore(ComponentScores(fs, sqrt))
  }

  /** With no throttle, vibration or supply samples and fewer than two battery
      samples the score is 20: the three throttle-gated scores are 0 and the
      four others the neutral 50. */
  lemma UninstrumentedFlightScores20(fs: FlightSeries, sqrt: real -> real)
    requires Paired(fs)
    requires |fs.throttle| == 0 && |fs.vx| == 0 && |fs.vcc| == 0 && |fs.volt| < 2
    ensures FlightScoreOf(fs, sqrt) == 20.0
  {
    var s := ComponentScores(fs, sqrt);
    assert s == Scores(0.0, 0.0, 0.0, 50.0, 50.0, 50.0, 50.0);
  }

  /** A decodable log without CTUN, VIBE, POWR or BAT messages scores 20. */
  lemma NoTelemetryScores20(log: seq<Message>, sqrt: real -> real)
    requires Decodable(log)
    requires Count(log, "CTUN") == 0 && Count(log, "VIBE") == 0
    requires Count(log, "POWR") == 0 && Count(log, "BAT") == 0
    ensures FlightScoreOf(FlightSeriesOf(log), sqrt) == 20.0
  {
    UninstrumentedFlightScores20(FlightSeriesOf(log), sqrt);
  }

  /** `compute_flight_score`: extract the series, then score them. A message
      lacking a field the extractors read unchecked makes the whole call fail. */
  method ComputeFlightScore(log: seq<Message>, sqrt: real -> real) returns (r: Result<real>)
    ensures r.Ok? <==> Decodable(log)
    ensures r.Ok? ==> Paired(FlightSeriesOf(log)) && r.value == FlightScoreOf(FlightSeriesOf(log), sqrt)
                      && 0.0 <= r.value <= 100.0
  {
    var throttle := ExtractCtunThrottle(log);
    var att := ExtractAttitude(log);
    if !att.Ok? {
      return AttributeError(att.kind, att.field);
    }
    var vibe := ExtractVibeXyz(log);
    if !vibe.Ok? {
      return AttributeError(vibe.kind, vibe.field);
    }
    var vcc := ExtractVcc(log);
    if !vcc.Ok? {
      return AttributeError(vcc.kind, vcc.field);
    }
    var volt := ExtractBattery(log);
    var fs := FlightSeries(throttle, att.value.0, att.value.1, vibe.value.0, vibe.value.1, vibe.value.2,
                           vcc.value, volt);
    assert fs == FlightSeriesOf(log);
    return Ok(FlightScoreOf(fs, sqrt));
  }

  // ---------------- full metrics ----------------

  datatype FlightMetrics = FlightMetrics(
    battery: BatteryMetrics, vibration: VibrationMetrics, stability: StabilityMetrics,
    control: ControlMetrics, vccStd: Option<real>, voltDrop: Option<real>, flightScore: real)

  /** `compute_flight_metrics`, with the remaining-time field reported as
      unavailable when there are no battery samples: every metric of the
      extracted series together with the flight score. */
  method ComputeFlightMetrics(log: seq<Message>, sqrt: real -> real) returns (r: Result<FlightMetrics>)
    ensures r.Ok? <==> Decodable(log)
    ensures r.Ok? ==>
              var fs := FlightSeriesOf(log);
              && Paired(fs)
              && r.value == FlightMetrics(
                   BatteryMetricsOf(fs.volt), VibrationMetricsOf(fs.vx, fs.vy, fs.vz, sqrt),
                   StabilityMetricsOf(fs.roll, fs.pitch), ControlMetricsOf(fs.throttle),
                   StdOrNone(fs.vcc, sqrt), EnergyMetricsOf(fs.volt), FlightScoreOf(fs, sqrt))
              && 0.0 <= r.value.flightScore <= 100.0
  {
    var throttle := ExtractCtunThrottle(log);
    var att := ExtractAttitude(log);
    if !att.Ok? {
      return AttributeError(att.kind, att.field);
    }
    var vibe := ExtractVibeXyz(log);
    if !vibe.Ok? {
      return AttributeError(vibe.kind, vibe.field);
    }
    var vcc := ExtractVcc(log);
    if !vcc.Ok? {
      return AttributeError(vcc.kind, vcc.field);
    }
    var volt := ExtractBattery(log);
    var fs := FlightSeries(throttle, att.value.0, att.value.1, vibe.value.0, vibe.value.1, vibe.value.2,
                           vcc.value, volt);
    assert fs == FlightSeriesOf(log);
    var score := ComputeFlightScore(log, sqrt);
    return Ok(FlightMetrics(
      BatteryMetricsOf(volt), VibrationMetricsOf(fs.vx, fs.vy, fs.vz, sqrt),
      StabilityMetricsOf(fs.roll, fs.pitch), ControlMetricsOf(throttle),
      StdOrNone(fs.vcc, sqrt), EnergyMetricsOf(volt), score.value));
  }

  // ---------------- the battery report as the source builds it ----------------

  /** The dictionary `battery_metrics` returns, keyed as in the source. Its
      empty-series branch lists five keys and leaves out "remaining_est". */
  function BatteryReportAsWritten(volt: seq<real>): (d: map<string, Option<real>>)
    ensures {"avg_voltage", "min_voltage", "voltage_sag_pct", "battery_health", "endurance_est"} <= d.Keys
    ensures "remaining_est" in d <==> |volt| > 0
  {
    var b := BatteryMetricsOf(volt);
    var common := map["avg_voltage" := b.avgVoltage, "min_voltage" := b.minVoltage,
                      "voltage_sag_pct" := b.sagPct, "battery_health" := b.health,
                      "endurance_est" := b.endurance];
    if |volt| == 0 then common else common["remaining_est" := b.remaining]
  }

  /** The `bat["remaining_est"]` lookup of `compute_flight_metrics`, as written. */
  function RemainingEstimateAsWritten(volt: seq<real>): (r: Result<Option<real>>)
    ensures r.Ok? ==> r.value == BatteryMetricsOf(volt).remaining
  {
    var d := BatteryReportAsWritten(volt);
    if "remaining_est" in d then Ok(d["remaining_est"]) else KeyError("remaining_est")
  }

  /** A log without battery voltage makes the metrics report fail with a
      KeyError as written, although every other figure is available. */
  lemma MetricsReportFailsWithoutBattery(log: seq<Message>)
    requires Count(log, "BAT") == 0
    ensures RemainingEstimateAsWritten(FlightSeriesOf(log).volt) == KeyError("remaining_est")
  {
  }
}
