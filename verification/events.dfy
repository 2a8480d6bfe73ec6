/** The anomaly-event catalogue of the signal generator and the scheduling
    rules its random draws obey (src/data_generator.py, `simulate_single_patient`). */
module Events {
  import opened Inject

  /** The six event kinds. Every kind but a sensor dropout carries the
      magnitude drawn by `random.uniform` for it, as drawn (before any sign). */
  datatype Kind =
    | Tachy(draw: real)
    | Brady(draw: real)
    | Hypoxia(draw: real)
    | Fever(draw: real)
    | MotionSpike(draw: real)
    | SensorDropout

  /** One scheduled event: the sampled start index, the drawn kind (with its
      magnitude) and the drawn duration in samples. */
  datatype Event = Event(start: nat, kind: Kind, duration: nat)

  /** The four generated signal channels. */
  datatype Channel = HeartRate | SpO2 | Temperature | Activity

  /** The one channel an event kind acts on. */
  function Target(k: Kind): Channel
  {
    match k
    case Tachy(_) => HeartRate
    case Brady(_) => HeartRate
    case Hypoxia(_) => SpO2
    case Fever(_) => Temperature
    case MotionSpike(_) => Activity
    case SensorDropout => SpO2
  }

  /** The `anomaly_type` label written over an event's window. A sensor
      dropout is drawn as "sensor_dropout" but labelled "dropout". */
  function Label(k: Kind): string
  {
    match k
    case Tachy(_) => "tachy"
    case Brady(_) => "brady"
    case Hypoxia(_) => "hypoxia"
    case Fever(_) => "fever"
    case MotionSpike(_) => "motion_spike"
    case SensorDropout => "dropout"
  }

  /** The signed amount an additive event adds to its channel: the drawn
      magnitude, negated for bradycardia and hypoxia. */
  function Magnitude(k: Kind): (m: real)
    requires !k.SensorDropout?
    ensures k.Brady? || k.Hypoxia? ==> m == -k.draw
    ensures k.Tachy? || k.Fever? || k.MotionSpike? ==> m == k.draw
    ensures DrawInRange(k) ==>
      && (k.Tachy? ==> 20.0 <= m <= 40.0)
      && (k.Brady? ==> -30.0 <= m <= -15.0)
      && (k.Hypoxia? ==> -8.0 <= m <= -4.0)
      && (k.Fever? ==> 0.7 <= m <= 1.5)
      && (k.MotionSpike? ==> 0.6 <= m <= 1.5)
  {
    match k
    case Brady(d) => -d
    case Hypoxia(d) => -d
    case _ => k.draw
  }

  /** `random.randint` bounds (both inclusive) of each kind's duration. */
  predicate DurationInRange(k: Kind, duration: nat)
  {
    match k
    case Tachy(_) => 5 <= duration <= 15
    case Brady(_) => 5 <= duration <= 12
    case Hypoxia(_) => 5 <= duration <= 20
    case Fever(_) => 30 <= duration <= 120
    case MotionSpike(_) => 3 <= duration <= 10
    case SensorDropout => 3 <= duration <= 10
  }

  /** `random.uniform` bounds of each kind's magnitude draw. */
  predicate DrawInRange(k: Kind)
  {
    match k
    case Tachy(d) => 20.0 <= d <= 40.0
    case Brady(d) => 15.0 <= d <= 30.0
    case Hypoxia(d) => 4.0 <= d <= 8.0
    case Fever(d) => 0.7 <= d <= 1.5
    case MotionSpike(d) => 0.6 <= d <= 1.5
    case SensorDropout => true
  }

  /** Whether event `e` covers sample `i` of a series of `n` samples. */
  predicate Covers(e: Event, i: nat, n: nat)
  {
    InWindow(i, n, e.start, e.duration)
  }

  /** Python's `int(x)` on a float: truncation toward zero. */
  function TruncateToInt(x: real): (t: int)
    ensures x >= 0.0 ==> t as real <= x < t as real + 1.0
    ensures x < 0.0 ==> t as real - 1.0 < x <= t as real
  {
    if x >= 0.0 then x.Floor else -((-x).Floor)
  }

  /** `max(1, int(anomaly_rate * num_points))`: how many events a run draws. */
  function EventCount(rate: real, n: nat): (c: int)
    ensures c >= 1
    ensures rate * (n as real) < 2.0 ==> c == 1
    ensures rate * (n as real) >= 1.0 ==> c as real <= rate * (n as real) < c as real + 1.0
  {
    var t := TruncateToInt(rate * (n as real));
    if t < 1 then 1 else t
  }

  /** The integers `lo <= i < hi`. */
  function Range(lo: int, hi: int): (r: set<int>)
    ensures forall x :: x in r <==> lo <= x < hi
    decreases hi - lo
  {
    if hi <= lo then {} else Range(lo, hi - 1) + {hi - 1}
  }

  /** The population `range(5, n - 5)` start indices are sampled from. */
  function CandidateStarts(n: nat): set<int>
  {
    Range(5, n - 5)
  }

  /** `len(range(5, n - 5))`. */
  function PopulationSize(n: nat): (p: nat)
    ensures p == |CandidateStarts(n)|
  {
    RangeSize(5, n - 5);
    if n >= 10 then n - 10 else 0
  }

  lemma {:induction false} RangeSize(lo: int, hi: int)
    ensures |Range(lo, hi)| == if lo <= hi then hi - lo else 0
    decreases hi - lo
  {
    if hi <= lo {
      assert Range(lo, hi) == {};
    } else {
      assert Range(lo, hi) == Range(lo, hi - 1) + {hi - 1};
      RangeSize(lo, hi - 1);
    }
  }

  /** `random.sample(range(5, n - 5), k=count)` succeeds: it raises a
      `ValueError` when the sample is larger than the population. */
  predicate SamplingSucceeds(rate: real, n: nat)
  {
    EventCount(rate, n) <= PopulationSize(n)
  }

  /** The message of the `ValueError` `random.sample` raises. */
  const SampleErrorMessage: string := "Sample larger than population or is negative"

  /** What the generator's draws guarantee of a schedule of `count` events
      over `n` samples: distinct start indices from `range(5, n - 5)`, and
      for each event a duration and magnitude within its kind's bounds. */
  predicate WellFormedEvents(es: seq<Event>, n: nat, count: int)
  {
    && |es| == count
    && (forall k :: 0 <= k < |es| ==> es[k].start in CandidateStarts(n))
    && (forall k :: 0 <= k < |es| ==> DurationInRange(es[k].kind, es[k].duration) && DrawInRange(es[k].kind))
    && (forall j, k :: 0 <= j < k < |es| ==> es[j].start != es[k].start)
  }

  /** The start indices of a schedule. */
  function Starts(es: seq<Event>): set<int>
  {
    set k | 0 <= k < |es| :: es[k].start as int
  }

  lemma {:induction false} DistinctStartsCount(es: seq<Event>)
    requires forall j, k :: 0 <= j < k < |es| ==> es[j].start != es[k].start
    ensures |Starts(es)| == |es|
  {
    if |es| > 0 {
      var init := es[..|es| - 1];
      var last := es[|es| - 1];
      assert Starts(es) == Starts(init) + {last.start as int} by {
        forall x | x in Starts(es) ensures x in Starts(init) + {last.start as int} {
          var k :| 0 <= k < |es| && x == es[k].start as int;
          if k < |es| - 1 {
            assert init[k] == es[k];
          }
        }
        forall x | x in Starts(init) ensures x in Starts(es) {
          var k :| 0 <= k < |init| && x == init[k].start as int;
          assert es[k] == init[k];
        }
      }
      forall k | 0 <= k < |init|
        ensures init[k].start != last.start
      {
        assert init[k] == es[k];
      }
      DistinctStartsCount(init);
    }
  }

  /** Sampling without replacement can only succeed when the population is
      large enough: every well-formed schedule has at most
      `max(0, n - 10)` events. */
  lemma ScheduleFitsPopulation(es: seq<Event>, n: nat, count: int)
    requires WellFormedEvents(es, n, count)
    ensures count <= PopulationSize(n)
  {
    DistinctStartsCount(es);
    assert Starts(es) <= CandidateStarts(n);
    SubsetCardinality(Starts(es), CandidateStarts(n));
  }

  lemma SubsetCardinality(a: set<int>, b: set<int>)
    requires a <= b
    ensures |a| <= |b|
  {
    assert b == a + (b - a);
    assert a * (b - a) == {};
    assert |a + (b - a)| + |a * (b - a)| == |a| + |b - a|;
  }

  /** Conversely a well-formed schedule of any count up to the population
      size exists, so `SamplingSucceeds` is exactly when draws can be made. */
  lemma ScheduleExists(n: nat, count: nat)
    requires count <= PopulationSize(n)
    ensures exists es :: WellFormedEvents(es, n, count)
  {
    var es := seq(count, k requires 0 <= k < count => Event(5 + k, Tachy(20.0), 5));
    assert WellFormedEvents(es, n, count);
  }

  /** A series of ten samples or fewer cannot be sampled from: the count is
      at least one and the population is empty. */
  lemma ShortSeriesFails(rate: real, n: nat)
    requires n <= 10
    ensures !SamplingSucceeds(rate, n)
  {
  }
}
