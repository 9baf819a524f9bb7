/** Subsystem diagnosis: one pass over the decoded log fans each message out
    to per-signal lists by its type, the lists are reduced to aggregate
    metrics (unavailable when a list is empty), a fixed threshold table
    assesses seven subsystems, and the weakest one is named the bottleneck. */
module Diagnosis {
  import opened Wrappers
  import opened Telemetry
  import opened Stats

  // ---------------- fan-out extraction ----------------

  /** The four motor output channels of one RCOU message. */
  datatype Channels = Channels(c1: real, c2: real, c3: real, c4: real)

  /** The eight lists the extraction pass fills. */
  datatype LogSeries = LogSeries(
    imuG: seq<real>, motorOutputs: seq<Channels>, thrOut: seq<real>, thLimit: seq<real>,
    batVolt: seq<real>, vcc: seq<real>, mcuTemp: seq<real>, hoverThrottle: seq<real>)

  const NoSeries := LogSeries([], [], [], [], [], [], [], [])

  /** The first field that the extraction reads from `m` without checking and
      that `m` does not carry, in the order the reads happen. */
  function Missing(m: Message): (f: Option<string>)
    ensures f.Some? ==> f.value !in m.fields
    ensures f.Some? ==> m.kind in {"IMU", "RCOU", "MOTB", "BAT"}
  {
    if m.kind == "IMU" then
      if "GyrX" !in m.fields then Some("GyrX")
      else if "GyrY" !in m.fields then Some("GyrY")
      else if "GyrZ" !in m.fields then Some("GyrZ")
      else None
    else if m.kind == "RCOU" then
      if "C1" !in m.fields then Some("C1")
      else if "C2" !in m.fields then Some("C2")
      else if "C3" !in m.fields then Some("C3")
      else if "C4" !in m.fields then Some("C4")
      else None
    else if m.kind == "MOTB" then
      if "ThrOut" !in m.fields then Some("ThrOut") else None
    else if m.kind == "BAT" then
      if "Volt" !in m.fields then Some("Volt") else None
    else None
  }

  /** Every message carries the fields the extraction reads unchecked. */
  ghost predicate Readable(log: seq<Message>)
  {
    forall i :: 0 <= i < |log| ==> Missing(log[i]).None?
  }

  /** Gyro magnitude of one sample. */
  function GyroMagnitude(gx: real, gy: real, gz: real, sqrt: real -> real): real
  {
    sqrt(gx * gx + gy * gy + gz * gz)
  }

  /** What one readable message appends to the lists: IMU samples a gyro
      magnitude, RCOU a channel tuple, MOTB its throttle output and, when
      present, its throttle limit, BAT its voltage, POWR, MCU and CTUN their
      optional field; any other type appends nothing. */
  function Dispatch(s: LogSeries, m: Message, sqrt: real -> real): LogSeries
    requires Missing(m).None?
  {
    var f := m.fields;
    LogSeries(
      s.imuG + (if m.kind == "IMU" then [GyroMagnitude(f["GyrX"], f["GyrY"], f["GyrZ"], sqrt)] else []),
      s.motorOutputs + (if m.kind == "RCOU" then [Channels(f["C1"], f["C2"], f["C3"], f["C4"])] else []),
      s.thrOut + Picked(m, "MOTB", "ThrOut"),
      s.thLimit + Picked(m, "MOTB", "ThLimit"),
      s.batVolt + Picked(m, "BAT", "Volt"),
      s.vcc + Picked(m, "POWR", "Vcc"),
      s.mcuTemp + Picked(m, "MCU", "MTemp"),
      s.hoverThrottle + Picked(m, "CTUN", "ThH"))
  }

  /** The lists after the pass over `log`, or the error raised by the first
      message that lacks a field read unchecked. */
  function SeriesOf(log: seq<Message>, sqrt: real -> real): (r: Result<LogSeries>)
    ensures r.Ok? <==> Readable(log)
    ensures !r.KeyError?
  {
    if log == [] then Ok(NoSeries)
    else
      var p, m := log[..|log| - 1], log[|log| - 1];
      assert forall i :: 0 <= i < |p| ==> p[i] == log[i];
      var prev := SeriesOf(p, sqrt);
      if !prev.Ok? then prev
      else if Missing(m).Some? then AttributeError(m.kind, Missing(m).value)
      else Ok(Dispatch(prev.value, m, sqrt))
  }

  /** One step of the pass: an earlier error stays, a message lacking an
      unchecked field raises, any other message is dispatched. */
  lemma SeriesStep(log: seq<Message>, n: nat, sqrt: real -> real)
    requires n < |log|
    ensures var prev := SeriesOf(log[..n], sqrt);
            SeriesOf(log[..n + 1], sqrt)
            == if !prev.Ok? then prev
               else if Missing(log[n]).Some? then AttributeError(log[n].kind, Missing(log[n]).value)
               else Ok(Dispatch(prev.value, log[n], sqrt))
  {
    assert log[..n + 1][..n] == log[..n];
    assert log[..n + 1][n] == log[n];
  }

  /** The error of a log is the one the first unreadable message raises: that
      message's type and the first field it lacks, all earlier messages being
      readable. */
  lemma {:induction false} FirstUnreadableRaises(log: seq<Message>, sqrt: real -> real)
    requires !Readable(log)
    ensures exists i :: 0 <= i < |log| && Readable(log[..i]) && Missing(log[i]).Some?
                        && SeriesOf(log, sqrt) == AttributeError(log[i].kind, Missing(log[i]).value)
  {
    var p := log[..|log| - 1];
    assert forall i :: 0 <= i < |p| ==> p[i] == log[i];
    if Readable(p) {
      var i := |log| - 1;
      assert log[..i] == p;
    } else {
      FirstUnreadableRaises(p, sqrt);
      var i :| 0 <= i < |p| && Readable(p[..i]) && Missing(p[i]).Some?
               && SeriesOf(p, sqrt) == AttributeError(p[i].kind, Missing(p[i]).value);
      assert p[..i] == log[..i];
    }
  }

  /** An error raised by a prefix of the log is the error of the whole log. */
  lemma {:induction false} ErrorPersists(log: seq<Message>, n: nat, sqrt: real -> real)
    requires n <= |log| && !SeriesOf(log[..n], sqrt).Ok?
    ensures SeriesOf(log, sqrt) == SeriesOf(log[..n], sqrt)
    decreases |log| - n
  {
    if n < |log| {
      SeriesStep(log, n, sqrt);
      ErrorPersists(log, n + 1, sqrt);
    } else {
      assert log[..n] == log;
    }
  }

  /** The magnitudes computed from three gyro axis series of equal length. */
  function GyroMagnitudes(gx: seq<real>, gy: seq<real>, gz: seq<real>, sqrt: real -> real): (g: seq<real>)
    requires |gx| == |gy| == |gz|
    ensures |g| == |gx|
  {
    seq(|gx|, i requires 0 <= i < |gx| => GyroMagnitude(gx[i], gy[i], gz[i], sqrt))
  }

  /** The channel tuples built from four channel series of equal length. */
  function ChannelTuples(c1: seq<real>, c2: seq<real>, c3: seq<real>, c4: seq<real>): (t: seq<Channels>)
    requires |c1| == |c2| == |c3| == |c4|
    ensures |t| == |c1|
  {
    seq(|c1|, i requires 0 <= i < |c1| => Channels(c1[i], c2[i], c3[i], c4[i]))
  }

  lemma GyroMagnitudesAppend(gx: seq<real>, gy: seq<real>, gz: seq<real>, x: real, y: real, z: real,
                             sqrt: real -> real)
    requires |gx| == |gy| == |gz|
    ensures GyroMagnitudes(gx + [x], gy + [y], gz + [z], sqrt)
            == GyroMagnitudes(gx, gy, gz, sqrt) + [GyroMagnitude(x, y, z, sqrt)]
  {
  }

  lemma ChannelTuplesAppend(c1: seq<real>, c2: seq<real>, c3: seq<real>, c4: seq<real>,
                            a: real, b: real, c: real, d: real)
    requires |c1| == |c2| == |c3| == |c4|
    ensures ChannelTuples(c1 + [a], c2 + [b], c3 + [c], c4 + [d])
            == ChannelTuples(c1, c2, c3, c4) + [Channels(a, b, c, d)]
  {
  }

  /** A readable log has every unchecked field on every message of its type. */
  lemma ReadableIsComplete(log: seq<Message>)
    requires Readable(log)
    ensures Complete(log, "IMU", "GyrX") && Complete(log, "IMU", "GyrY") && Complete(log, "IMU", "GyrZ")
    ensures Complete(log, "RCOU", "C1") && Complete(log, "RCOU", "C2")
            && Complete(log, "RCOU", "C3") && Complete(log, "RCOU", "C4")
    ensures Complete(log, "MOTB", "ThrOut") && Complete(log, "BAT", "Volt")
  {
    forall i | 0 <= i < |log|
      ensures Missing(log[i]).None?
    {
    }
  }

  /** The six plain lists of the fan-out pass are the per-type field filters:
      each holds its field from every message of its type that carries it, in
      log order, and messages of any other type contribute nothing. */
  lemma {:induction false} FanOutScalars(log: seq<Message>, sqrt: real -> real)
    requires Readable(log)
    ensures var s := SeriesOf(log, sqrt).value;
            && s.thrOut == FieldValues(log, "MOTB", "ThrOut")
            && s.thLimit == FieldValues(log, "MOTB", "ThLimit")
            && s.batVolt == FieldValues(log, "BAT", "Volt")
            && s.vcc == FieldValues(log, "POWR", "Vcc")
            && s.mcuTemp == FieldValues(log, "MCU", "MTemp")
            && s.hoverThrottle == FieldValues(log, "CTUN", "ThH")
  {
    if log != [] {
      var p := log[..|log| - 1];
      assert forall i :: 0 <= i < |p| ==> p[i] == log[i];
      FanOutScalars(p, sqrt);
    }
  }

  /** The gyro list holds the magnitude of every IMU message, in log order. */
  lemma {:induction false} FanOutGyro(log: seq<Message>, sqrt: real -> real)
    requires Readable(log)
    ensures Complete(log, "IMU", "GyrX") && Complete(log, "IMU", "GyrY") && Complete(log, "IMU", "GyrZ")
    ensures SeriesOf(log, sqrt).value.imuG
            == GyroMagnitudes(FieldValues(log, "IMU", "GyrX"), FieldValues(log, "IMU", "GyrY"),
                              FieldValues(log, "IMU", "GyrZ"), sqrt)
  {
    ReadableIsComplete(log);
    if log != [] {
      var p, m := log[..|log| - 1], log[|log| - 1];
      assert forall i :: 0 <= i < |p| ==> p[i] == log[i];
      FanOutGyro(p, sqrt);
      var gx, gy, gz := FieldValues(p, "IMU", "GyrX"), FieldValues(p, "IMU", "GyrY"), FieldValues(p, "IMU", "GyrZ");
      if m.kind == "IMU" {
        var f := m.fields;
        GyroMagnitudesAppend(gx, gy, gz, f["GyrX"], f["GyrY"], f["GyrZ"], sqrt);
      }
    }
  }

  /** The motor list holds the channel tuple of every RCOU message, in log order. */
  lemma {:induction false} FanOutMotors(log: seq<Message>, sqrt: real -> real)
    requires Readable(log)
    ensures Complete(log, "RCOU", "C1") && Complete(log, "RCOU", "C2")
            && Complete(log, "RCOU", "C3") && Complete(log, "RCOU", "C4")
    ensures SeriesOf(log, sqrt).value.motorOutputs
            == ChannelTuples(FieldValues(log, "RCOU", "C1"), FieldValues(log, "RCOU", "C2"),
                             FieldValues(log, "RCOU", "C3"), FieldValues(log, "RCOU", "C4"))
  {
    ReadableIsComplete(log);
    if log != [] {
      var p, m := log[..|log| - 1], log[|log| - 1];
      assert forall i :: 0 <= i < |p| ==> p[i] == log[i];
      FanOutMotors(p, sqrt);
      var c1, c2 := FieldValues(p, "RCOU", "C1"), FieldValues(p, "RCOU", "C2");
      var c3, c4 := FieldValues(p, "RCOU", "C3"), FieldValues(p, "RCOU", "C4");
      if m.kind == "RCOU" {
        var f := m.fields;
        ChannelTuplesAppend(c1, c2, c3, c4, f["C1"], f["C2"], f["C3"], f["C4"]);
      }
    }
  }

  /** Dispatch type by type: the lists a message of each type appends to. */
  lemma DispatchByKind(s: LogSeries, m: Message, sqrt: real -> real)
    requires Missing(m).None?
    ensures var f := m.fields;
            var d := Dispatch(s, m, sqrt);
            && (m.kind == "IMU" ==> d == s.(imuG := s.imuG + [GyroMagnitude(f["GyrX"], f["GyrY"], f["GyrZ"], sqrt)]))
            && (m.kind == "RCOU" ==> d == s.(motorOutputs := s.motorOutputs + [Channels(f["C1"], f["C2"], f["C3"], f["C4"])]))
            && (m.kind == "MOTB" && "ThLimit" in f ==>
                  d == s.(thrOut := s.thrOut + [f["ThrOut"]], thLimit := s.thLimit + [f["ThLimit"]]))
            && (m.kind == "MOTB" && "ThLimit" !in f ==> d == s.(thrOut := s.thrOut + [f["ThrOut"]]))
            && (m.kind == "BAT" ==> d == s.(batVolt := s.batVolt + [f["Volt"]]))
            && (m.kind == "POWR" && "Vcc" in f ==> d == s.(vcc := s.vcc + [f["Vcc"]]))
            && (m.kind == "MCU" && "MTemp" in f ==> d == s.(mcuTemp := s.mcuTemp + [f["MTemp"]]))
            && (m.kind == "CTUN" && "ThH" in f ==> d == s.(hoverThrottle := s.hoverThrottle + [f["ThH"]]))
            && (m.kind == "POWR" && "Vcc" !in f ==> d == s)
            && (m.kind == "MCU" && "MTemp" !in f ==> d == s)
            && (m.kind == "CTUN" && "ThH" !in f ==> d == s)
            && (m.kind !in {"IMU", "RCOU", "MOTB", "BAT", "POWR", "MCU", "CTUN"} ==> d == s)
  {
    var none: seq<real> := [];
    var noChannels: seq<Channels> := [];
    assert s.imuG + none == s.imuG && s.motorOutputs + noChannels == s.motorOutputs;
    assert s.thrOut + none == s.thrOut && s.thLimit + none == s.thLimit && s.batVolt + none == s.batVolt;
    assert s.vcc + none == s.vcc && s.mcuTemp + none == s.mcuTemp && s.hoverThrottle + none == s.hoverThrottle;
  }

  /** The body of the extraction loop: the message's type selects the list or
      lists it appends to; reading a field the message lacks raises. */
  method DispatchMessage(s: LogSeries, msg: Message, sqrt: real -> real) returns (r: Result<LogSeries>)
    ensures Missing(msg).None? ==> r == Ok(Dispatch(s, msg, sqrt))
    ensures Missing(msg).Some? ==> r == AttributeError(msg.kind, Missing(msg).value)
  {
    var t := msg.kind;
    var f := msg.fields;
    if Missing(msg).None? {
      DispatchByKind(s, msg, sqrt);
    }
    if t == "IMU" {
      if "GyrX" !in f || "GyrY" !in f || "GyrZ" !in f {
        var missing := if "GyrX" !in f then "GyrX" else if "GyrY" !in f then "GyrY" else "GyrZ";
        return AttributeError(t, missing);
      }
      return Ok(s.(imuG := s.imuG + [GyroMagnitude(f["GyrX"], f["GyrY"], f["GyrZ"], sqrt)]));
    } else if t == "RCOU" {
      if "C1" !in f || "C2" !in f || "C3" !in f || "C4" !in f {
        var missing := if "C1" !in f then "C1" else if "C2" !in f then "C2" else if "C3" !in f then "C3" else "C4";
        return AttributeError(t, missing);
      }
      return Ok(s.(motorOutputs := s.motorOutputs + [Channels(f["C1"], f["C2"], f["C3"], f["C4"])]));
    } else if t == "MOTB" {
      if "ThrOut" !in f {
        return AttributeError(t, "ThrOut");
      }
      var next := s.(thrOut := s.thrOut + [f["ThrOut"]]);
      if "ThLimit" in f {
        next := next.(thLimit := next.thLimit + [f["ThLimit"]]);
      }
      return Ok(next);
    } else if t == "BAT" {
      if "Volt" !in f {
        return AttributeError(t, "Volt");
      }
      return Ok(s.(batVolt := s.batVolt + [f["Volt"]]));
    } else if t == "POWR" {
      if "Vcc" in f {
        return Ok(s.(vcc := s.vcc + [f["Vcc"]]));
      }
    } else if t == "MCU" {
      if "MTemp" in f {
        return Ok(s.(mcuTemp := s.mcuTemp + [f["MTemp"]]));
      }
    } else if t == "CTUN" {
      if "ThH" in f {
        return Ok(s.(hoverThrottle := s.hoverThrottle + [f["ThH"]]));
      }
    }
    return Ok(s);
  }

  /** `analyze_log`: one pass dispatching every message on its type, then the
      aggregate metrics of the filled lists. A message lacking a field read
      unchecked ends the pass with that error. */
  method AnalyzeLog(log: seq<Message>, sqrt: real -> real) returns (r: Result<(Metrics, LogSeries)>)
    ensures r.Ok? <==> Readable(log)
    ensures r.Ok? ==> SeriesOf(log, sqrt) == Ok(r.value.1) && r.value.0 == MetricsOf(r.value.1, sqrt)
    ensures !r.Ok? ==> r.AttributeError? && SeriesOf(log, sqrt) == AttributeError(r.kind, r.field)
  {
    var series := NoSeries;
    var i := 0;
    while i < |log|
      invariant 0 <= i <= |log|
      invariant SeriesOf(log[..i], sqrt) == Ok(series)
    {
      SeriesStep(log, i, sqrt);
      var next := DispatchMessage(series, log[i], sqrt);
      if !next.Ok? {
        ErrorPersists(log, i + 1, sqrt);
        return AttributeError(next.kind, next.field);
      }
      series := next.value;
      i := i + 1;
    }
    assert log[..i] == log;
    return Ok((MetricsOf(series, sqrt), series));
  }

  // ---------------- aggregate metrics ----------------

  /** The aggregate metrics; None stands for NaN. */
  datatype Metrics = Metrics(
    gyroRms: Option<real>, motorImbalance: Option<real>, thLimitMax: Option<real>,
    batVoltMin: Option<real>, batVoltMean: Option<real>, vccMin: Option<real>,
    mcuTempMean: Option<real>, hoverThrottle: Option<real>)

  /** Every channel value of every motor sample, as one pooled list. */
  function Pooled(ms: seq<Channels>): (r: seq<real>)
    ensures |r| == 4 * |ms|
    ensures forall i :: 0 <= i < |ms| ==>
              r[4 * i] == ms[i].c1 && r[4 * i + 1] == ms[i].c2 && r[4 * i + 2] == ms[i].c3
              && r[4 * i + 3] == ms[i].c4
  {
    if ms == [] then []
    else
      var c := ms[|ms| - 1];
      var p := ms[..|ms| - 1];
      assert forall i :: 0 <= i < |p| ==> p[i] == ms[i];
      Pooled(p) + [c.c1, c.c2, c.c3, c.c4]
  }

  /** Root mean square of `s`, unavailable when it is empty. */
  function RmsOrNone(s: seq<real>, sqrt: real -> real): (r: Option<real>)
    ensures r.Some? <==> |s| > 0
  {
    if |s| == 0 then None else Some(sqrt(Mean(Squares(s))))
  }

  /** Largest sample of `s`, unavailable when it is empty. */
  function MaxOrNone(s: seq<real>): (r: Option<real>)
    ensures r.Some? <==> |s| > 0
    ensures r.Some? ==> r.value in s && forall i :: 0 <= i < |s| ==> s[i] <= r.value
  {
    if |s| == 0 then None else Some(Max(s))
  }

  /** Smallest sample of `s`, unavailable when it is empty. */
  function MinOrNone(s: seq<real>): (r: Option<real>)
    ensures r.Some? <==> |s| > 0
    ensures r.Some? ==> r.value in s && forall i :: 0 <= i < |s| ==> r.value <= s[i]
  {
    if |s| == 0 then None else Some(Min(s))
  }

  /** Mean of `s`, unavailable when it is empty. */
  function MeanOrNone(s: seq<real>): (r: Option<real>)
    ensures r.Some? <==> |s| > 0
    ensures r.Some? ==> r.value == Mean(s) && Min(s) <= r.value <= Max(s)
  {
    if |s| == 0 then None else MeanBetweenExtrema(s); Some(Mean(s))
  }

  /** The aggregate metrics of the filled lists: each is unavailable exactly
      when its list is empty, the extrema are attained and bound their list,
      the means lie between the extrema, the RMS and the spread are roots of
      the mean square and of the population variance. */
  function MetricsOf(s: LogSeries, sqrt: real -> real): (m: Metrics)
    ensures m.gyroRms.Some? <==> |s.imuG| > 0
    ensures m.gyroRms.Some? ==> m.gyroRms.value == sqrt(Mean(Squares(s.imuG)))
    ensures m.motorImbalance.Some? <==> |s.motorOutputs| > 0
    ensures m.motorImbalance.Some? ==> m.motorImbalance.value == Std(Pooled(s.motorOutputs), sqrt)
    ensures m.thLimitMax.Some? <==> |s.thLimit| > 0
    ensures m.thLimitMax.Some? ==> m.thLimitMax.value in s.thLimit
                                   && forall i :: 0 <= i < |s.thLimit| ==> s.thLimit[i] <= m.thLimitMax.value
    ensures m.batVoltMin.Some? <==> |s.batVolt| > 0
    ensures m.batVoltMin.Some? ==> m.batVoltMin.value in s.batVolt
                                   && forall i :: 0 <= i < |s.batVolt| ==> m.batVoltMin.value <= s.batVolt[i]
    ensures m.batVoltMean.Some? <==> |s.batVolt| > 0
    ensures m.batVoltMean.Some? ==> m.batVoltMean.value == Mean(s.batVolt)
    ensures m.batVoltMean.Some? ==> Min(s.batVolt) <= m.batVoltMean.value <= Max(s.batVolt)
    ensures m.vccMin.Some? <==> |s.vcc| > 0
    ensures m.vccMin.Some? ==> m.vccMin.value in s.vcc
                               && forall i :: 0 <= i < |s.vcc| ==> m.vccMin.value <= s.vcc[i]
    ensures m.mcuTempMean.Some? <==> |s.mcuTemp| > 0
    ensures m.mcuTempMean.Some? ==> m.mcuTempMean.value == Mean(s.mcuTemp)
    ensures m.mcuTempMean.Some? ==> Min(s.mcuTemp) <= m.mcuTempMean.value <= Max(s.mcuTemp)
    ensures m.hoverThrottle.Some? <==> |s.hoverThrottle| > 0
    ensures m.hoverThrottle.Some? ==> m.hoverThrottle.value == Mean(s.hoverThrottle)
    ensures m.hoverThrottle.Some? ==> Min(s.hoverThrottle) <= m.hoverThrottle.value <= Max(s.hoverThrottle)
  {
    Metrics(
      RmsOrNone(s.imuG, sqrt),
      StdOrNone(Pooled(s.motorOutputs), sqrt),
      MaxOrNone(s.thLimit),
      MinOrNone(s.batVolt),
      MeanOrNone(s.batVolt),
      MinOrNone(s.vcc),
      MeanOrNone(s.mcuTemp),
      MeanOrNone(s.hoverThrottle))
  }

  /** Squaring the magnitudes gives back the squared sums. */
  lemma SquaredMagnitudes(gx: seq<real>, gy: seq<real>, gz: seq<real>, sqrt: real -> real)
    requires IsSqrt(sqrt) && |gx| == |gy| == |gz|
    ensures Squares(GyroMagnitudes(gx, gy, gz, sqrt)) == SquaredNorms(gx, gy, gz)
  {
    var g, e := GyroMagnitudes(gx, gy, gz, sqrt), SquaredNorms(gx, gy, gz);
    forall i | 0 <= i < |g|
      ensures Squares(g)[i] == e[i]
    {
      assert g[i] == sqrt(e[i]);
    }
  }

  /** The vibration rule read on squares: over IMU samples the gyro RMS exceeds
      0.4 exactly when the mean of GyrX² + GyrY² + GyrZ² exceeds 0.16. */
  lemma GyroRuleBySquares(gx: seq<real>, gy: seq<real>, gz: seq<real>, sqrt: real -> real)
    requires IsSqrt(sqrt) && |gx| == |gy| == |gz| && |gx| > 0
    ensures var rms := sqrt(Mean(Squares(GyroMagnitudes(gx, gy, gz, sqrt))));
            rms > 0.4 <==> Mean(SquaredNorms(gx, gy, gz)) > 0.16
  {
    var e := SquaredNorms(gx, gy, gz);
    SquaredMagnitudes(gx, gy, gz, sqrt);
    MeanBounds(e, 0.0, Max(e));
    SqrtCompare(sqrt, Mean(e), 0.4);
  }

  /** On a readable log with IMU messages the vibration rule fires exactly when
      the mean squared gyro magnitude of its IMU messages exceeds 0.16. */
  lemma GyroRuleOnLog(log: seq<Message>, sqrt: real -> real)
    requires IsSqrt(sqrt) && Readable(log) && Count(log, "IMU") > 0
    ensures Complete(log, "IMU", "GyrX") && Complete(log, "IMU", "GyrY") && Complete(log, "IMU", "GyrZ")
    ensures var rms := MetricsOf(SeriesOf(log, sqrt).value, sqrt).gyroRms;
            rms.Some? && (rms.value > 0.4 <==> Mean(SquaredNorms(FieldValues(log, "IMU", "GyrX"),
                                                                FieldValues(log, "IMU", "GyrY"),
                                                                FieldValues(log, "IMU", "GyrZ"))) > 0.16)
  {
    FanOutGyro(log, sqrt);
    GyroRuleBySquares(FieldValues(log, "IMU", "GyrX"), FieldValues(log, "IMU", "GyrY"),
                      FieldValues(log, "IMU", "GyrZ"), sqrt);
  }

  /** The motor rule read on squares: the pooled spread exceeds 80 exactly when
      the pooled population variance exceeds 6400. */
  lemma MotorRuleBySquares(s: LogSeries, sqrt: real -> real)
    requires IsSqrt(sqrt) && |s.motorOutputs| > 0
    ensures MetricsOf(s, sqrt).motorImbalance.value > 80.0 <==> Var(Pooled(s.motorOutputs)) > 6400.0
  {
    VarNonNegative(Pooled(s.motorOutputs));
    SqrtCompare(sqrt, Var(Pooled(s.motorOutputs)), 80.0);
  }

  // ---------------- threshold rules ----------------

  datatype Subsystem = Thrust | Battery | Fc | Propulsion | Motor | Efficiency | Thermal

  /** The dictionary key of each subsystem. */
  function Name(s: Subsystem): string
  {
    match s
    case Thrust => "thrust"
    case Battery => "battery"
    case Fc => "fc"
    case Propulsion => "propulsion"
    case Motor => "motor"
    case Efficiency => "efficiency"
    case Thermal => "thermal"
  }

  /** One row of the assessment: health in (0, 1], the issues found, an
      interpretation and a recommendation. */
  datatype Assessment = Assessment(health: real, issues: seq<string>, interp: string, rec: string)

  /** A comparison with an unavailable metric is false, as it is for NaN. */
  predicate Exceeds(x: Option<real>, t: real) { x.Some? && x.value > t }
  predicate Reaches(x: Option<real>, t: real) { x.Some? && x.value >= t }
  predicate Under(x: Option<real>, t: real) { x.Some? && x.value < t }

  /** The tiers every rule uses: health 1.0 exactly when no issue is listed,
      and a listed issue always comes with one of the three degraded values. */
  predicate WellTiered(a: Assessment)
  {
    && a.health in {0.3, 0.4, 0.6, 1.0}
    && (a.issues == [] <==> a.health == 1.0)
  }

  /** Thrust: the peak throttle-limit reading, two tiers; each boundary belongs
      to the lower-health tier. */
  function AssessThrust(th: Option<real>): (a: Assessment)
    ensures WellTiered(a)
    ensures a.health == 0.3 <==> Reaches(th, 0.95)
    ensures a.health == 0.6 <==> Reaches(th, 0.8) && !Reaches(th, 0.95)
    ensures a.health == 1.0 <==> !Reaches(th, 0.8)
  {
    if Reaches(th, 0.95) then
      Assessment(0.3, ["Sustained thrust saturation"], "Drone operating near thrust limit",
                 "Reduce payload or increase propulsion thrust")
    else if Reaches(th, 0.8) then
      Assessment(0.6, ["High thrust usage"], "Limited thrust margin", "Monitor payload and mission profile")
    else
      Assessment(1.0, [], "Adequate thrust margin", "No action required")
  }

  /** Battery: mean pack voltage below 20 V. */
  function AssessBattery(v: Option<real>): (a: Assessment)
    ensures WellTiered(a)
    ensures a.health == 0.4 <==> Under(v, 20.0)
    ensures a.health == 1.0 <==> !Under(v, 20.0)
    ensures a.health == 0.4 ==> a.issues == ["Low battery voltage"]
  {
    if Under(v, 20.0) then
      Assessment(0.4, ["Low battery voltage"], "Significant voltage sag", "Replace or inspect battery")
    else
      Assessment(1.0, [], "Normal discharge profile", "Battery healthy")
  }

  /** Flight-controller power: lowest board voltage below 4.8 V. */
  function AssessFc(vcc: Option<real>): (a: Assessment)
    ensures WellTiered(a)
    ensures a.health == 0.3 <==> Under(vcc, 4.8)
    ensures a.health == 1.0 <==> !Under(vcc, 4.8)
  {
    if Under(vcc, 4.8) then
      Assessment(0.3, ["FC voltage instability"], "Risk of brownout", "Check power module and wiring")
    else
      Assessment(1.0, [], "Stable FC supply", "No action required")
  }

  /** Propulsion vibration: gyro RMS above 0.4. */
  function AssessPropulsion(vib: Option<real>): (a: Assessment)
    ensures WellTiered(a)
    ensures a.health == 0.4 <==> Exceeds(vib, 0.4)
    ensures a.health == 1.0 <==> !Exceeds(vib, 0.4)
  {
    if Exceeds(vib, 0.4) then
      Assessment(0.4, ["High vibration"], "Propulsion imbalance", "Balance props and inspect motors")
    else
      Assessment(1.0, [], "Low vibration levels", "Propulsion healthy")
  }

  /** Motor balance: pooled motor-output spread above 80. */
  function AssessMotor(mb: Option<real>): (a: Assessment)
    ensures WellTiered(a)
    ensures a.health == 0.4 <==> Exceeds(mb, 80.0)
    ensures a.health == 1.0 <==> !Exceeds(mb, 80.0)
  {
    if Exceeds(mb, 80.0) then
      Assessment(0.4, ["Motor imbalance"], "Uneven thrust distribution", "Inspect motors and frame alignment")
    else
      Assessment(1.0, [], "Balanced motor outputs", "No action required")
  }

  /** Efficiency: mean hover throttle above 0.45. */
  function AssessEfficiency(ht: Option<real>): (a: Assessment)
    ensures WellTiered(a)
    ensures a.health == 0.4 <==> Exceeds(ht, 0.45)
    ensures a.health == 1.0 <==> !Exceeds(ht, 0.45)
  {
    if Exceeds(ht, 0.45) then
      Assessment(0.4, ["Low thrust efficiency"], "High hover throttle", "Increase prop size or motor thrust")
    else
      Assessment(1.0, [], "High thrust reserve", "Propulsion sizing adequate")
  }

  /** Thermal: mean MCU temperature above 75. */
  function AssessThermal(temp: Option<real>): (a: Assessment)
    ensures WellTiered(a)
    ensures a.health == 0.4 <==> Exceeds(temp, 75.0)
    ensures a.health == 1.0 <==> !Exceeds(temp, 75.0)
  {
    if Exceeds(temp, 75.0) then
      Assessment(0.4, ["High MCU temperature"], "Thermal stress risk", "Improve cooling or airflow")
    else
      Assessment(1.0, [], "Normal FC temperature", "No action required")
  }

  /** The subsystems in the order the assessment lists them. */
  const Order: seq<Subsystem> := [Thrust, Battery, Fc, Propulsion, Motor, Efficiency, Thermal]

  /** The rule of subsystem `s`, applied to its own metric. */
  function Assess(s: Subsystem, m: Metrics): (a: Assessment)
    ensures WellTiered(a)
    ensures s == Thrust ==> a == AssessThrust(m.thLimitMax)
    ensures s == Battery ==> a == AssessBattery(m.batVoltMean)
    ensures s == Fc ==> a == AssessFc(m.vccMin)
    ensures s == Propulsion ==> a == AssessPropulsion(m.gyroRms)
    ensures s == Motor ==> a == AssessMotor(m.motorImbalance)
    ensures s == Efficiency ==> a == AssessEfficiency(m.hoverThrottle)
    ensures s == Thermal ==> a == AssessThermal(m.mcuTempMean)
  {
    match s
    case Thrust => AssessThrust(m.thLimitMax)
    case Battery => AssessBattery(m.batVoltMean)
    case Fc => AssessFc(m.vccMin)
    case Propulsion => AssessPropulsion(m.gyroRms)
    case Motor => AssessMotor(m.motorImbalance)
    case Efficiency => AssessEfficiency(m.hoverThrottle)
    case Thermal => AssessThermal(m.mcuTempMean)
  }

  /** `assess_subsystems`: one assessment per subsystem, in the fixed order,
      each its own rule read off its own metric. */
  function AssessSubsystems(m: Metrics): (r: seq<(Subsystem, Assessment)>)
    ensures |r| == 7
    ensures forall i :: 0 <= i < 7 ==> r[i].0 == Order[i] && r[i].1 == Assess(Order[i], m)
    ensures forall i :: 0 <= i < 7 ==> WellTiered(r[i].1)
  {
    seq(7, i requires 0 <= i < 7 => (Order[i], Assess(Order[i], m)))
  }

  /** With every metric unavailable no rule fires. */
  lemma UnavailableMetricsAreHealthy(m: Metrics)
    requires m == Metrics(None, None, None, None, None, None, None, None)
    ensures forall i :: 0 <= i < 7 ==> AssessSubsystems(m)[i].1.health == 1.0
                                       && AssessSubsystems(m)[i].1.issues == []
  {
  }

  // ---------------- bottleneck ----------------

  /** Index of the first entry of least health. */
  function ArgMinHealth(entries: seq<(Subsystem, Assessment)>): (k: nat)
    requires |entries| > 0
    ensures k < |entries|
    ensures forall j :: 0 <= j < |entries| ==> entries[k].1.health <= entries[j].1.health
    ensures forall j :: 0 <= j < k ==> entries[k].1.health < entries[j].1.health
  {
    if |entries| == 1 then 0
    else
      var p := entries[..|entries| - 1];
      var k := ArgMinHealth(p);
      assert forall j :: 0 <= j < |p| ==> p[j] == entries[j];
      if entries[|entries| - 1].1.health < entries[k].1.health then |entries| - 1 else k
  }

  /** `overall_bottleneck`: the name and recommendation of the first entry of
      least health. */
  function OverallBottleneck(entries: seq<(Subsystem, Assessment)>): (r: (string, string))
    requires |entries| > 0
    ensures exists k :: 0 <= k < |entries| && r == (Name(entries[k].0), entries[k].1.rec)
                        && (forall j :: 0 <= j < |entries| ==> entries[k].1.health <= entries[j].1.health)
                        && (forall j :: 0 <= j < k ==> entries[k].1.health < entries[j].1.health)
  {
    var k := ArgMinHealth(entries);
    (Name(entries[k].0), entries[k].1.rec)
  }

  /** Names are distinct, so the bottleneck's name identifies its entry. */
  lemma NameInjective(a: Subsystem, b: Subsystem)
    requires Name(a) == Name(b)
    ensures a == b
  {
  }

  /** A log with no usable telemetry has thrust as its bottleneck: every rule
      reports health 1.0 and the tie goes to the first entry. */
  lemma UnavailableMetricsBottleneck(m: Metrics)
    requires m == Metrics(None, None, None, None, None, None, None, None)
    ensures OverallBottleneck(AssessSubsystems(m)) == ("thrust", "No action required")
  {
    var e := AssessSubsystems(m);
    UnavailableMetricsAreHealthy(m);
    var k := ArgMinHealth(e);
    assert e[k].1.health == 1.0 && e[0].1.health == 1.0;
  }

  /** A low mean pack voltage with nothing else wrong names the battery. */
  lemma LowBatteryBottleneck(v: real)
    requires v < 20.0
    ensures OverallBottleneck(AssessSubsystems(Metrics(None, None, None, None, Some(v), None, None, None)))
            == ("battery", "Replace or inspect battery")
  {
    var e := AssessSubsystems(Metrics(None, None, None, None, Some(v), None, None, None));
    var k := ArgMinHealth(e);
    assert e[1].1.health == 0.4;
    assert e[k].1.health <= e[1].1.health;
    assert forall j :: 0 <= j < 7 && j != 1 ==> e[j].1.health == 1.0;
  }

  /** Saturated thrust and a brown-out supply both report health 0.3; the tie
      goes to thrust, the earlier entry. */
  lemma ThrustWinsTieWithFc(th: real, vcc: real)
    requires 0.95 <= th && vcc < 4.8
    ensures OverallBottleneck(AssessSubsystems(Metrics(None, None, Some(th), None, None, Some(vcc), None, None)))
            == ("thrust", "Reduce payload or increase propulsion thrust")
  {
    var e := AssessSubsystems(Metrics(None, None, Some(th), None, None, Some(vcc), None, None));
    var k := ArgMinHealth(e);
    assert e[0].1.health == 0.3;
    assert forall j :: 0 <= j < 7 ==> 0.3 <= e[j].1.health;
  }
}
