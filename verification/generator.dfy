/** The deterministic skeleton of `simulate_single_patient`
    (src/data_generator.py). The random draws and the synthesised baseline
    waveforms are inputs (`Draws`); what remains is the pre-clip of activity,
    the event loop, the final physiological clip and the row layout. */
module Generator {
  import opened Wrappers
  import opened Inject
  import opened Events
  import opened Overlay

  /** The arguments of `simulate_single_patient` that the deterministic part
      depends on. `startTime` and `interval` are in seconds. */
  datatype Params = Params(numPoints: nat, startTime: int, interval: int, anomalyRate: real)

  /** The four baseline channels as synthesised (sinusoid plus noise), before
      any clip or event. */
  datatype Baseline = Baseline(hr: seq<real>, spo2: seq<real>, temp: seq<real>, activity: seq<real>)

  /** Everything one run draws from the random number generators: the
      baseline noise and the sampled events, in sampling order. */
  datatype Draws = Draws(baseline: Baseline, events: seq<Event>)

  /** One output row. `spo2` is `None` where the sample reads as NaN. */
  datatype Row = Row(
    timestamp: int,
    patientId: int,
    heartRate: real,
    spo2: Option<real>,
    temperature: real,
    activityLevel: real,
    anomalyFlag: int,
    anomalyType: string)

  /** Physiological bounds of the final clip. */
  const HrMin: real := 30.0
  const HrMax: real := 220.0
  const SpO2Min: real := 60.0
  const SpO2Max: real := 100.0
  const TempMin: real := 34.0
  const TempMax: real := 42.0
  const ActivityMin: real := 0.0
  const ActivityMax: real := 3.0
  /** Upper bound of the activity pre-clip applied before any event. */
  const ActivityBaseMax: real := 1.0

  function Max(a: real, b: real): real { if a >= b then a else b }
  function Min(a: real, b: real): real { if a <= b then a else b }

  /** `np.clip(x, lo, hi)`, that is `min(max(x, lo), hi)`. */
  function Clip(x: real, lo: real, hi: real): (r: real)
    requires lo <= hi
    ensures lo <= r <= hi
    ensures lo <= x <= hi ==> r == x
    ensures x < lo ==> r == lo
    ensures x > hi ==> r == hi
  {
    Min(Max(x, lo), hi)
  }

  /** `np.clip` on a sample that may be NaN: NaN stays NaN. */
  function ClipMissing(x: Option<real>, lo: real, hi: real): (r: Option<real>)
    requires lo <= hi
    ensures r.None? <==> x.None?
    ensures r.Some? ==> lo <= r.value <= hi
    ensures x.Some? && lo <= x.value <= hi ==> r == x
    ensures x.Some? ==> r == Some(Clip(x.value, lo, hi))
  {
    match x
    case None => None
    case Some(v) => Some(Clip(v, lo, hi))
  }

  /** What the generator guarantees of its own draws: every baseline has one
      sample per point, and whenever `random.sample` succeeds the schedule is
      well formed with exactly `max(1, int(anomaly_rate * num_points))` events. */
  predicate DrawsFit(p: Params, d: Draws)
  {
    && |d.baseline.hr| == p.numPoints
    && |d.baseline.spo2| == p.numPoints
    && |d.baseline.temp| == p.numPoints
    && |d.baseline.activity| == p.numPoints
    && (SamplingSucceeds(p.anomalyRate, p.numPoints) ==>
          WellFormedEvents(d.events, p.numPoints, EventCount(p.anomalyRate, p.numPoints)))
  }

  /** `start_time + timedelta(seconds=i * sampling_interval_seconds)`. */
  function Timestamp(p: Params, i: nat): int
  {
    p.startTime + i * p.interval
  }

  /** The buffers before the event loop: the baselines, with activity clipped
      to [0, 1], no missing SpO2, no flag and empty labels. */
  function InitialBuffers(p: Params, base: Baseline): (b: Buffers)
    requires |base.hr| == |base.spo2| == |base.temp| == |base.activity| == p.numPoints
    ensures b.Sized(p.numPoints)
    ensures b.hr == base.hr && b.temp == base.temp
    ensures forall i :: 0 <= i < p.numPoints ==> b.spo2[i] == Some(base.spo2[i])
    ensures forall i :: 0 <= i < p.numPoints ==>
      ActivityMin <= b.activity[i] <= ActivityBaseMax && b.activity[i] == Clip(base.activity[i], ActivityMin, ActivityBaseMax)
    ensures forall i :: 0 <= i < p.numPoints ==> b.anomalyFlag[i] == 0 && b.anomalyType[i] == ""
  {
    var n := p.numPoints;
    Buffers(
      base.hr,
      Present(base.spo2),
      base.temp,
      seq(n, i requires 0 <= i < n => Clip(base.activity[i], ActivityMin, ActivityBaseMax)),
      seq(n, _ => 0),
      seq(n, _ => ""))
  }

  /** Whether a row satisfies the physiological bounds the final clip enforces. */
  predicate InBounds(row: Row)
  {
    && HrMin <= row.heartRate <= HrMax
    && (row.spo2.Some? ==> SpO2Min <= row.spo2.value <= SpO2Max)
    && TempMin <= row.temperature <= TempMax
    && ActivityMin <= row.activityLevel <= ActivityMax
  }

  /** The final clip and the assembly of one row per sample. */
  function ToRows(p: Params, patientId: int, b: Buffers): (rows: seq<Row>)
    requires b.Sized(p.numPoints)
    ensures |rows| == p.numPoints
    ensures forall i :: 0 <= i < |rows| ==> InBounds(rows[i])
    ensures forall i :: 0 <= i < |rows| ==> rows[i] == Row(
      Timestamp(p, i), patientId,
      Clip(b.hr[i], HrMin, HrMax),
      ClipMissing(b.spo2[i], SpO2Min, SpO2Max),
      Clip(b.temp[i], TempMin, TempMax),
      Clip(b.activity[i], ActivityMin, ActivityMax),
      b.anomalyFlag[i], b.anomalyType[i])
  {
    seq(p.numPoints, i requires 0 <= i < p.numPoints => Row(
      Timestamp(p, i), patientId,
      Clip(b.hr[i], HrMin, HrMax),
      ClipMissing(b.spo2[i], SpO2Min, SpO2Max),
      Clip(b.temp[i], TempMin, TempMax),
      Clip(b.activity[i], ActivityMin, ActivityMax),
      b.anomalyFlag[i], b.anomalyType[i]))
  }

  /** The error `random.sample` raises when asked for more events than there
      are candidate start indices. */
  function SampleError(): ValueError
  {
    ValueError(SampleErrorMessage)
  }

  /** `simulate_single_patient` given its draws. It fails exactly when the
      number of events exceeds the number of candidate start indices; else it
      yields one in-bounds row per sample, stamped at fixed intervals. */
  function SimulateSinglePatient(p: Params, patientId: int, d: Draws): (r: Result<seq<Row>, ValueError>)
    requires DrawsFit(p, d)
    ensures r.Err? <==> EventCount(p.anomalyRate, p.numPoints) > PopulationSize(p.numPoints)
    ensures r.Err? ==> r.error == SampleError()
    ensures r.Ok? ==> |r.value| == p.numPoints
    ensures r.Ok? ==> forall i :: 0 <= i < |r.value| ==>
      && r.value[i].timestamp == Timestamp(p, i)
      && r.value[i].patientId == patientId
      && InBounds(r.value[i])
  {
    if !SamplingSucceeds(p.anomalyRate, p.numPoints) then Err(SampleError())
    else
      var b := InitialBuffers(p, d.baseline);
      Ok(ToRows(p, patientId, ApplyEvents(b, d.events, p.numPoints)))
  }

  /** `anomaly_flag` is 1 exactly on the union of the (truncated) event
      windows and 0 everywhere else. */
  lemma SimulatedFlags(p: Params, patientId: int, d: Draws)
    requires DrawsFit(p, d) && SamplingSucceeds(p.anomalyRate, p.numPoints)
    ensures forall i :: 0 <= i < p.numPoints ==>
      SimulateSinglePatient(p, patientId, d).value[i].anomalyFlag == if Covered(d.events, i, p.numPoints) then 1 else 0
  {
    forall i | 0 <= i < p.numPoints {
      OverlayFlag(InitialBuffers(p, d.baseline), d.events, p.numPoints, i);
    }
  }

  /** `anomaly_type` is "" outside every window; inside, it is the label of
      the last sampled event whose window covers the sample. */
  lemma SimulatedLabels(p: Params, patientId: int, d: Draws)
    requires DrawsFit(p, d) && SamplingSucceeds(p.anomalyRate, p.numPoints)
    ensures forall i :: 0 <= i < p.numPoints && !Covered(d.events, i, p.numPoints) ==>
      SimulateSinglePatient(p, patientId, d).value[i].anomalyType == ""
    ensures forall i, k :: 0 <= i < p.numPoints && LastCover(d.events, k, i, p.numPoints) ==>
      SimulateSinglePatient(p, patientId, d).value[i].anomalyType == Label(d.events[k].kind)
  {
    forall i | 0 <= i < p.numPoints {
      OverlayLabel(InitialBuffers(p, d.baseline), d.events, p.numPoints, i);
    }
  }

  /** A successful run is the final clip of the event loop applied to the
      initial buffers. */
  lemma SimulatedRows(p: Params, patientId: int, d: Draws)
    requires DrawsFit(p, d) && SamplingSucceeds(p.anomalyRate, p.numPoints)
    ensures SimulateSinglePatient(p, patientId, d)
      == Ok(ToRows(p, patientId, ApplyEvents(InitialBuffers(p, d.baseline), d.events, p.numPoints)))
  {
  }

  /** Every output value of sample `i` is its baseline plus the magnitudes of
      the events on its channel covering the sample, clipped to the
      physiological bounds; activity is clipped to [0, 1] first. SpO2 is
      missing exactly under a dropout window. */
  lemma SimulatedValues(p: Params, patientId: int, d: Draws, i: nat)
    requires DrawsFit(p, d) && SamplingSucceeds(p.anomalyRate, p.numPoints)
    requires i < p.numPoints
    ensures SimulateSinglePatient(p, patientId, d).value[i].heartRate
      == Clip(d.baseline.hr[i] + Shift(d.events, HeartRate, i, p.numPoints), HrMin, HrMax)
    ensures SimulateSinglePatient(p, patientId, d).value[i].temperature
      == Clip(d.baseline.temp[i] + Shift(d.events, Temperature, i, p.numPoints), TempMin, TempMax)
    ensures SimulateSinglePatient(p, patientId, d).value[i].activityLevel
      == Clip(Clip(d.baseline.activity[i], ActivityMin, ActivityBaseMax) + Shift(d.events, Activity, i, p.numPoints),
              ActivityMin, ActivityMax)
    ensures SimulateSinglePatient(p, patientId, d).value[i].spo2
      == if DropoutCovers(d.events, i, p.numPoints) then None
         else Some(Clip(d.baseline.spo2[i] + Shift(d.events, SpO2, i, p.numPoints), SpO2Min, SpO2Max))
  {
    var n := p.numPoints;
    var b := InitialBuffers(p, d.baseline);
    var after := ApplyEvents(b, d.events, n);
    SimulatedRows(p, patientId, d);
    OverlayNumeric(b, d.events, n, i);
    OverlaySpO2(b, d.events, n, i);
    var row := ToRows(p, patientId, after)[i];
    assert row.spo2 == ClipMissing(after.spo2[i], SpO2Min, SpO2Max);
  }

  /** Under a sensor-dropout window SpO2 reads as missing while the sample is
      still flagged. */
  lemma DropoutLeavesMissingFlagged(p: Params, patientId: int, d: Draws, i: nat, k: nat)
    requires DrawsFit(p, d) && SamplingSucceeds(p.anomalyRate, p.numPoints)
    requires i < p.numPoints && k < |d.events|
    requires d.events[k].kind.SensorDropout? && Covers(d.events[k], i, p.numPoints)
    ensures SimulateSinglePatient(p, patientId, d).value[i].spo2.None?
    ensures SimulateSinglePatient(p, patientId, d).value[i].anomalyFlag == 1
  {
    assert DropoutCovers(d.events, i, p.numPoints);
    SimulatedValues(p, patientId, d, i);
    SimulatedFlags(p, patientId, d);
  }

  /** With a positive sampling interval the timestamps strictly increase. */
  lemma TimestampsIncrease(p: Params, i: nat, j: nat)
    requires p.interval > 0 && i < j
    ensures Timestamp(p, i) < Timestamp(p, j)
  {
    assert j * p.interval == i * p.interval + (j - i) * p.interval;
    assert (j - i) * p.interval > 0;
  }
}
