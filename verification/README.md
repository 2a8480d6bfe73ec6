# Patient-monitoring simulator: a Dafny model of the signal generator and the vital-sign flagger

This project models the algorithmic core of a small simulator of wearable
patient telemetry. The simulator writes heart rate, SpO2, temperature and
activity for one or more patients, adds anomaly events to them, and flags
out-of-range readings. Two pieces are modelled:

- **The deterministic part of the signal generator** (`src/data_generator.py`).
  - `_inject_event` adds a magnitude to, or multiplies by it, a window of a
    signal. The window is cut off at the end of the signal. Any mode other
    than "add" or "mul" raises `ValueError`.
  - The event loop of `simulate_single_patient` applies the sampled events
    in order. Each event kind acts on exactly one channel: tachy and brady on
    heart rate, hypoxia and sensor dropout on SpO2, fever on temperature,
    motion spike on activity. Each event also writes `anomaly_flag` and
    `anomaly_type` over its window.
  - Activity is pre-clipped to [0, 1] before the events. The final
    physiological clip bounds every channel after them.
  - Timestamps are `start + i * interval`.
  - `simulate_multiple_patients` runs patients 1..N with seeds `base + pid`
    and concatenates the runs.
  - `stream_simulation` replays the rows of one run, one per pull.
- **The vital-sign flagger** `detect_anomalies` (`src/anomaly_detector.py`).
  It returns, in a fixed order, the names of the channels outside their
  strict thresholds.

Randomness and floating-point waveform synthesis are passed in as inputs.
A `Draws` value holds the four baseline channels and the sampled events in
sampling order. Each `Event` carries its start index, its duration, and its
kind together with the magnitude drawn for it. `DrawsFit` states what the
generator's own draws guarantee:
- every baseline has one sample per point;
- when `random.sample` succeeds, there are exactly
  `max(1, int(anomaly_rate * num_points))` events;
- their start indices are distinct and lie in `range(5, num_points - 5)`;
- each duration and magnitude lies in its kind's `randint` / `uniform` bounds.

A NaN sample is `None` in an `Option<real>`. Only SpO2 can become missing
(through a dropout), so only SpO2 is a `seq<Option<real>>`. Adding to a
missing value leaves it missing, and the clip keeps it missing.

In `simulate_multiple_patients`, the run of patient `pid` consumes the
draws `rng(pid, seed)`, where `rng` is a parameter and the seed is derived
as the code does.

Two points follow the code rather than a first reading of its purpose:
- The number of events is not capped to the number of candidate start
  indices: the code calls `random.sample`, which raises `ValueError` when the count exceeds `max(0, num_points - 10)`. This
  happens, for instance, for every series of ten samples or fewer. The
  model returns that error (`Generator.SimulateSinglePatient`).
- A sensor dropout is drawn as "sensor_dropout" but labelled "dropout".

Modules, one per component: `Wrappers` (Option, Result, ValueError),
`Inject`, `Events`, `Overlay`, `Generator`, `Patients`, `Stream`,
`AnomalyDetector`.

## Model

| member | source | states |
|---|---|---|
| Inject.WindowEnd | src/data_generator.py:39 | the window end is `min(len, index + duration)`: never past the signal, never past the event |
| Inject.ParseMode | src/data_generator.py:40-45 | "add" and "mul" are the only accepted modes; any other string is a `ValueError` with the code's message |
| Inject.InjectEvent | src/data_generator.py:37-45 | mode "add" adds and "mul" multiplies the magnitude at exactly the positions of `[index, min(len, index + duration))`; length and every other position are unchanged; any other mode is an error |
| Inject.InjectEventMissing | src/data_generator.py:37-45 | the same on a signal with NaN samples: a missing sample stays missing, a present one in the window is shifted or scaled; any other mode is the same `ValueError` as the plain injection |
| Inject.InjectEventMissingAgrees | src/data_generator.py:37-45 | on a signal without NaN, the NaN-aware injection agrees with the plain one, error cases included |
| Inject.AddThenSubtract | src/data_generator.py:40-41 | an additive event is undone by the opposite additive event on the same window |
| Inject.MulThenDivide | src/data_generator.py:42-43 | a multiplicative event by a non-zero factor is undone by its reciprocal |
| Events.Magnitude | src/data_generator.py:116-136 | tachy, fever and motion spike add their draw; brady and hypoxia subtract theirs; for a draw within its `uniform` bounds the signed amount lies in [20, 40] for tachy, [-30, -15] for brady, [-8, -4] for hypoxia, [0.7, 1.5] for fever and [0.6, 1.5] for motion spike |
| Events.TruncateToInt | src/data_generator.py:104 | `int()` truncates toward zero: the result is within one of its argument, on the zero side |
| Events.EventCount | src/data_generator.py:104 | the event count is at least 1; it is 1 whenever `rate * n < 2`, and the floor of `rate * n` when `rate * n >= 1` |
| Events.PopulationSize | src/data_generator.py:105 | the number of candidate start indices is the size of `range(5, n - 5)` |
| Events.ScheduleFitsPopulation | src/data_generator.py:104-106 | every schedule of distinct starts in `range(5, n - 5)` has at most `max(0, n - 10)` events, so sampling more must fail |
| Events.ScheduleExists | src/data_generator.py:104-106 | conversely, a well-formed schedule of any count up to that bound exists |
| Events.ShortSeriesFails | src/data_generator.py:104-106 | with ten samples or fewer, sampling always fails |
| Overlay.ApplyEvent | src/data_generator.py:116-143 | one event changes only its target channel: the kind's channel by `+magnitude` over the truncated window (a dropout blanks SpO2 there; hypoxia leaves missing SpO2 missing); it sets the flag to 1 and the label to the kind's label over the window; everything else is unchanged |
| Overlay.ApplyEvents | src/data_generator.py:108-143 | applying the events in order keeps every buffer at length n |
| Overlay.OverlayFlag | src/data_generator.py:108-143 | after the loop the flag is 1 exactly on the union of the event windows and keeps its old value elsewhere |
| Overlay.OverlayLabel | src/data_generator.py:120-141 | after the loop the label is unchanged outside every window; inside, it is the label of the last event covering the sample (last write wins) |
| Overlay.OverlayNumeric | src/data_generator.py:116-136 | after the loop heart rate, temperature and activity are their starting values plus the sum of the magnitudes of the events on that channel covering the sample |
| Overlay.OverlaySpO2 | src/data_generator.py:125-141 | after the loop SpO2 is missing exactly where it started missing or under a dropout window; elsewhere it is the starting value plus the hypoxia drops covering it |
| Overlay.OverlayIsolation | src/data_generator.py:116-141 | a channel that no event targets is left exactly as it was |
| Generator.Clip | src/data_generator.py:146-149 | `np.clip` lands in `[lo, hi]`, is the identity inside, and maps values below or above to the nearer bound |
| Generator.ClipMissing | src/data_generator.py:147 | clipping keeps a missing SpO2 missing and brings a present one into bounds |
| Generator.InitialBuffers | src/data_generator.py:96-101 | before the events activity is its baseline clipped to [0, 1], SpO2 is present, flags are 0 and labels empty |
| Generator.ToRows | src/data_generator.py:146-160 | one row per sample with timestamp `start + i * interval` and the patient id; every row satisfies the physiological bounds |
| Generator.SimulateSinglePatient | src/data_generator.py:82-162 | the run fails with the sampling error exactly when the event count exceeds `max(0, n - 10)`; otherwise it returns n rows with timestamps `start + i * interval`, the given patient id, HR in [30,220], SpO2 in [60,100] or missing, temperature in [34,42], activity in [0,3] |
| Generator.SimulatedFlags | src/data_generator.py:100-143 | `anomaly_flag` is 1 exactly on the union of the truncated event windows and 0 everywhere else |
| Generator.SimulatedLabels | src/data_generator.py:101-143 | `anomaly_type` is "" outside every window and the label of the last covering event inside |
| Generator.SimulatedValues | src/data_generator.py:97-149 | each output value is its baseline plus the magnitudes of the covering events on its channel, clipped; activity is pre-clipped to [0,1]; SpO2 is missing exactly under a dropout window |
| Generator.DropoutLeavesMissingFlagged | src/data_generator.py:138-147 | under a dropout window SpO2 is missing after the clip while the sample is still flagged |
| Generator.TimestampsIncrease | src/data_generator.py:82 | with a positive interval the timestamps strictly increase |
| Patients.Concat | src/data_generator.py:179 | for a non-empty list of runs, the concatenation succeeds exactly when every run does |
| Patients.ConcatLength | src/data_generator.py:179 | for a non-empty list of runs that each have n rows, the concatenation succeeds with `N * n` rows |
| Patients.ConcatBlock | src/data_generator.py:179 | when every run has n rows, row i of run k sits at offset `k * n + i` of the concatenation |
| Patients.ConcatSameError | src/data_generator.py:175-179 | when every run raises the same error, so does the whole loop |
| Patients.SimulateMultiplePatients | src/data_generator.py:165-179 | fewer than one patient raises "No objects to concatenate"; otherwise the result fails exactly when sampling fails, and has `N * n` rows |
| Patients.PatientBlock | src/data_generator.py:173-179 | row i of patient pid's block is row i of the single-patient run with id pid and the derived seed, and carries patient id pid |
| Patients.TwoPatients | src/data_generator.py:173-179 | a two-patient run with base seed b is the concatenation of the single runs of patients 1 and 2 with seeds b+1 and b+2 |
| Stream.Pull | src/data_generator.py:192-194 | a pull that yields nothing finishes the generator, and a finished generator only raises `StopIteration` |
| Stream.TakeReplaying | src/data_generator.py:193-194 | from any position the stream yields the remaining rows in order |
| Stream.TakePending | src/data_generator.py:192-194 | a fresh stream yields a successful run's rows in order, or raises the run's error on its first pull |
| Stream.StreamReplaysRows | src/data_generator.py:182-194 | the first k pulls of `stream_simulation` yield the first k rows of the simulation (all of them once k reaches n); a failing simulation raises on the first pull |
| AnomalyDetector.DetectAnomalies | src/anomaly_detector.py:3-13 | "HR" is flagged iff HR < 50 or HR > 120; "SpO2" iff SpO2 < 90; "BP" iff BP_sys > 160 or BP_dia > 100; "Temp" iff Temp > 38; at most four names |
| AnomalyDetector.DetectIsFilter | src/anomaly_detector.py:3-13 | the result is the names of the channels HR, SpO2, BP, Temp, in that order, filtered by the reference normal bands (limits counted as normal) |
| AnomalyDetector.FilterKeepsRanked | src/anomaly_detector.py:4-13 | filtering an ordered channel list keeps it ordered and only keeps its own channels |
| AnomalyDetector.FlagsOrdered | src/anomaly_detector.py:4-13 | the result is the names of a strictly ordered channel list: only channel names, in the checking order |
| AnomalyDetector.NoDuplicateFlags | src/anomaly_detector.py:4-13 | no channel is reported twice |
| AnomalyDetector.BoundariesNotFlagged | src/anomaly_detector.py:5-11 | the exact thresholds (HR 50 or 120, SpO2 90, BP 160/100, Temp 38) raise no flag |
| AnomalyDetector.NoFlagsIffInBand | src/anomaly_detector.py:3-13 | the result is empty exactly when HR lies in [50, 120], SpO2 is at least 90, BP_sys is at most 160, BP_dia at most 100 and Temp at most 38 |
| AnomalyDetector.TachycardiaExample | src/anomaly_detector.py:3-13 | HR 130, SpO2 96, BP 110/70, Temp 36.9 yields exactly ["HR"] |

## Left out

- Random number generation: seeding (`np.random.seed`, `random.seed`), `random.sample`, `random.choices` with its kind weights, `randint` and `uniform`. Their results are inputs constrained by `DrawsFit`. The model does not claim that a seed determines a run, nor anything about the kind frequencies. The seed is not an argument of the single-patient model, so the `ValueError` that `np.random.seed` raises for a seed outside `[0, 2**32 - 1]` is not modelled either.
- Patients.SimulateMultiplePatients: with a base seed the code's draws depend on the seed alone; the model's `rng` also receives the patient id, so that unseeded runs can differ. Reproducibility across calls is therefore not stated.
- Patients.Concat: an empty run list gives `Ok([])`, where `pd.concat` raises "No objects to concatenate"; `Patients.SimulateMultiplePatients` raises that error for N < 1 before calling it.
- Patients.ConcatLength: for zero runs it promises a successful empty result, where `pd.concat([])` raises "No objects to concatenate"; `Patients.SimulateMultiplePatients` raises that error for N < 1 before calling it.
- Patients.SimulateMultiplePatients: assumes every derived seed `base + pid` lies in `[0, 2**32 - 1]`. Outside that range `np.random.seed` raises `ValueError` before any draw; the model does not return that error. `Patients.TwoPatients` holds only for base seeds whose derived seeds `base + 1` and `base + 2` are in range.
- Patients.SimulateMultiplePatients: assumes `start_time` is passed, so every patient's block shares the start `p.startTime`. Without it, each single-patient call reads `datetime.now()` on its own, and each block starts at its own clock reading. `Patients.TwoPatients` and `Patients.PatientBlock` hold for calls that pass `start_time`.
- Baseline waveform synthesis (`np.linspace`, sinusoids, Gaussian noise) is floating-point numerics; the baselines are inputs.
- `np.round` of the channels to 1 or 2 decimals is float rounding and is not modelled. The bounds are round numbers, so rounding cannot move a clipped value out of them.
- Real arithmetic is exact; float rounding of sums and products is not modelled.
- Events.EventCount: computes `int(anomaly_rate * num_points)` on the exact real product, not on the float one. Where float rounding crosses an integer the count differs. For example, rate 0.29 with 100 points gives the float 28.999999999999996, so the code draws 28 events while the model counts 29. Near the population bound this can also change whether sampling fails.
- IEEE NaN is modelled only as "missing" SpO2. NaN baselines for the other channels, and NaN readings in the flagger, are not modelled.
- `datetime.now()` as the default start time is a wall-clock read. Timestamps are integer offsets in seconds from a given start.
- pandas `DataFrame` construction, `pd.concat`, `iterrows` and `to_dict`: rows are a `Row` datatype in a `seq`.
- Inject.InjectEvent: index and duration are non-negative. Python's from-the-end meaning of negative slice bounds is not modelled; the generator never produces negative values.
- Negative `num_points` (on which `np.linspace` raises) is excluded by the `nat` type.
- Keyword-argument errors of `simulate_multiple_patients` (for example passing `patient_id`, which is a duplicate keyword and raises `TypeError`) are not modelled.
- `save_simulation_csv` (directory creation and CSV writing) and the `__main__` demo are file I/O and printing.
- src/streamlit_app.py as a whole: a Streamlit/Plotly UI with an endless polling loop and `time.sleep`. It imports a `generate_vitals` that src/data_generator.py does not define, so its data source, including the blood-pressure fields, cannot be seen.
