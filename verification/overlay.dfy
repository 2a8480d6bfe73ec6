/** The event loop of `simulate_single_patient` (src/data_generator.py):
    each sampled event updates its one channel over its window and marks the
    window in the `anomaly_flag` and `anomaly_type` arrays. */
module Overlay {
  import opened Wrappers
  import opened Inject
  import opened Events

  /** The per-sample arrays the event loop updates: the four channels (SpO2
      with missing samples), `anomaly_flag` (0 or 1) and `anomaly_type`. */
  datatype Buffers = Buffers(
    hr: seq<real>,
    spo2: seq<Option<real>>,
    temp: seq<real>,
    activity: seq<real>,
    anomalyFlag: seq<int>,
    anomalyType: seq<string>)
  {
    predicate Sized(n: nat)
    {
      |hr| == n && |spo2| == n && |temp| == n && |activity| == n && |anomalyFlag| == n && |anomalyType| == n
    }
  }

  /** One iteration of the event loop. Additive kinds go through
      `InjectEvent` with mode "add"; a dropout blanks SpO2 over the window. */
  function ApplyEvent(b: Buffers, e: Event, n: nat): (r: Buffers)
    requires b.Sized(n)
    ensures r.Sized(n)
    ensures forall i :: 0 <= i < n ==> r.anomalyFlag[i] == if Covers(e, i, n) then 1 else b.anomalyFlag[i]
    ensures forall i :: 0 <= i < n ==> r.anomalyType[i] == if Covers(e, i, n) then Label(e.kind) else b.anomalyType[i]
    ensures Target(e.kind) != HeartRate ==> r.hr == b.hr
    ensures Target(e.kind) != SpO2 ==> r.spo2 == b.spo2
    ensures Target(e.kind) != Temperature ==> r.temp == b.temp
    ensures Target(e.kind) != Activity ==> r.activity == b.activity
    ensures Target(e.kind) == HeartRate ==> forall i :: 0 <= i < n ==>
      r.hr[i] == if Covers(e, i, n) then b.hr[i] + Magnitude(e.kind) else b.hr[i]
    ensures Target(e.kind) == Temperature ==> forall i :: 0 <= i < n ==>
      r.temp[i] == if Covers(e, i, n) then b.temp[i] + Magnitude(e.kind) else b.temp[i]
    ensures Target(e.kind) == Activity ==> forall i :: 0 <= i < n ==>
      r.activity[i] == if Covers(e, i, n) then b.activity[i] + Magnitude(e.kind) else b.activity[i]
    ensures e.kind.Hypoxia? ==> forall i :: 0 <= i < n ==>
      r.spo2[i] == if Covers(e, i, n) && b.spo2[i].Some? then Some(b.spo2[i].value + Magnitude(e.kind)) else b.spo2[i]
    ensures e.kind.SensorDropout? ==> forall i :: 0 <= i < n ==>
      r.spo2[i] == if Covers(e, i, n) then None else b.spo2[i]
  {
    var end := WindowEnd(n, e.start, e.duration);
    var marked := b.(anomalyType := MapWindow(b.anomalyType, e.start, end, _ => Label(e.kind)),
                     anomalyFlag := MapWindow(b.anomalyFlag, e.start, end, _ => 1));
    match e.kind
    case Tachy(_) => marked.(hr := InjectEvent(b.hr, e.start, e.duration, Magnitude(e.kind), "add").value)
    case Brady(_) => marked.(hr := InjectEvent(b.hr, e.start, e.duration, Magnitude(e.kind), "add").value)
    case Hypoxia(_) => marked.(spo2 := InjectEventMissing(b.spo2, e.start, e.duration, Magnitude(e.kind), "add").value)
    case Fever(_) => marked.(temp := InjectEvent(b.temp, e.start, e.duration, Magnitude(e.kind), "add").value)
    case MotionSpike(_) => marked.(activity := InjectEvent(b.activity, e.start, e.duration, Magnitude(e.kind), "add").value)
    case SensorDropout => marked.(spo2 := MapWindow(b.spo2, e.start, end, _ => None))
  }

  /** The whole event loop: the events applied one after another in the
      order they were sampled, so the last one is applied last. */
  function ApplyEvents(b: Buffers, es: seq<Event>, n: nat): (r: Buffers)
    requires b.Sized(n)
    ensures r.Sized(n)
  {
    if |es| == 0 then b else ApplyEvent(ApplyEvents(b, es[..|es| - 1], n), es[|es| - 1], n)
  }

  /** Some event of the schedule covers sample `i`. */
  predicate Covered(es: seq<Event>, i: nat, n: nat)
  {
    exists k :: 0 <= k < |es| && Covers(es[k], i, n)
  }

  /** `es[k]` is the last event of the schedule that covers sample `i`. */
  predicate LastCover(es: seq<Event>, k: int, i: nat, n: nat)
  {
    && 0 <= k < |es|
    && Covers(es[k], i, n)
    && forall j :: k < j < |es| ==> !Covers(es[j], i, n)
  }

  /** Some sensor dropout of the schedule covers sample `i`. */
  predicate DropoutCovers(es: seq<Event>, i: nat, n: nat)
  {
    exists k :: 0 <= k < |es| && es[k].kind.SensorDropout? && Covers(es[k], i, n)
  }

  /** The total amount the additive events of the schedule that act on
      channel `ch` and cover sample `i` add to it. */
  function Shift(es: seq<Event>, ch: Channel, i: nat, n: nat): real
  {
    if |es| == 0 then 0.0
    else
      var e := es[|es| - 1];
      Shift(es[..|es| - 1], ch, i, n)
        + if !e.kind.SensorDropout? && Target(e.kind) == ch && Covers(e, i, n) then Magnitude(e.kind) else 0.0
  }

  /** `anomaly_flag` is set exactly on the union of the event windows (and
      wherever it was already set). */
  lemma {:induction false} OverlayFlag(b: Buffers, es: seq<Event>, n: nat, i: nat)
    requires b.Sized(n) && i < n
    ensures ApplyEvents(b, es, n).anomalyFlag[i] == if Covered(es, i, n) then 1 else b.anomalyFlag[i]
  {
    if |es| > 0 {
      var init := es[..|es| - 1];
      OverlayFlag(b, init, n, i);
      CoveredSplit(es, i, n);
    }
  }

  /** `Covered` of a schedule, split at its last event. */
  lemma CoveredSplit(es: seq<Event>, i: nat, n: nat)
    requires |es| > 0
    ensures Covered(es, i, n) <==> Covered(es[..|es| - 1], i, n) || Covers(es[|es| - 1], i, n)
  {
    var init := es[..|es| - 1];
    if Covered(init, i, n) {
      var k :| 0 <= k < |init| && Covers(init[k], i, n);
      assert es[k] == init[k];
    }
    if Covered(es, i, n) {
      var k :| 0 <= k < |es| && Covers(es[k], i, n);
      if k < |init| {
        assert init[k] == es[k];
      }
    }
  }

  /** `DropoutCovers` of a schedule, split at its last event. */
  lemma DropoutSplit(es: seq<Event>, i: nat, n: nat)
    requires |es| > 0
    ensures DropoutCovers(es, i, n) <==>
      DropoutCovers(es[..|es| - 1], i, n) || (es[|es| - 1].kind.SensorDropout? && Covers(es[|es| - 1], i, n))
  {
    var init := es[..|es| - 1];
    if DropoutCovers(init, i, n) {
      var k :| 0 <= k < |init| && init[k].kind.SensorDropout? && Covers(init[k], i, n);
      assert es[k] == init[k];
    }
    if DropoutCovers(es, i, n) {
      var k :| 0 <= k < |es| && es[k].kind.SensorDropout? && Covers(es[k], i, n);
      if k < |init| {
        assert init[k] == es[k];
      }
    }
  }

  /** `anomaly_type` keeps its old value outside every window; inside, it is
      the label of the last event covering the sample (last write wins). */
  lemma {:induction false} OverlayLabel(b: Buffers, es: seq<Event>, n: nat, i: nat)
    requires b.Sized(n) && i < n
    ensures !Covered(es, i, n) ==> ApplyEvents(b, es, n).anomalyType[i] == b.anomalyType[i]
    ensures forall k :: LastCover(es, k, i, n) ==> ApplyEvents(b, es, n).anomalyType[i] == Label(es[k].kind)
  {
    if |es| > 0 {
      var init := es[..|es| - 1];
      var last := es[|es| - 1];
      OverlayLabel(b, init, n, i);
      CoveredSplit(es, i, n);
      forall k | LastCover(es, k, i, n)
        ensures ApplyEvents(b, es, n).anomalyType[i] == Label(es[k].kind)
      {
        if k < |es| - 1 {
          assert !Covers(last, i, n);
          assert init[k] == es[k];
          assert LastCover(init, k, i, n) by {
            forall j | k < j < |init| ensures !Covers(init[j], i, n) {
              assert init[j] == es[j];
            }
          }
        }
      }
    }
  }

  /** After the loop, heart rate, temperature and activity are their
      starting values plus the sum of the magnitudes of the events on that
      channel covering the sample. */
  lemma {:induction false} OverlayNumeric(b: Buffers, es: seq<Event>, n: nat, i: nat)
    requires b.Sized(n) && i < n
    ensures ApplyEvents(b, es, n).hr[i] == b.hr[i] + Shift(es, HeartRate, i, n)
    ensures ApplyEvents(b, es, n).temp[i] == b.temp[i] + Shift(es, Temperature, i, n)
    ensures ApplyEvents(b, es, n).activity[i] == b.activity[i] + Shift(es, Activity, i, n)
  {
    if |es| > 0 {
      OverlayNumeric(b, es[..|es| - 1], n, i);
    }
  }

  /** After the loop, SpO2 is missing exactly where it started missing or a
      dropout covers the sample (adding to a missing value keeps it missing);
      elsewhere it is the starting value plus the hypoxia drops covering it. */
  lemma {:induction false} OverlaySpO2(b: Buffers, es: seq<Event>, n: nat, i: nat)
    requires b.Sized(n) && i < n
    ensures ApplyEvents(b, es, n).spo2[i] ==
      if b.spo2[i].None? || DropoutCovers(es, i, n) then None
      else Some(b.spo2[i].value + Shift(es, SpO2, i, n))
  {
    if |es| > 0 {
      var init := es[..|es| - 1];
      var last := es[|es| - 1];
      var before := ApplyEvents(b, init, n);
      OverlaySpO2(b, init, n, i);
      DropoutSplit(es, i, n);
      assert ApplyEvents(b, es, n) == ApplyEvent(before, last, n);
      if last.kind.Hypoxia? {
        assert Target(last.kind) == SpO2;
      } else if !last.kind.SensorDropout? {
        assert Target(last.kind) != SpO2;
      }
    }
  }

  /** A channel no event of the schedule targets is left exactly as it was. */
  lemma {:induction false} OverlayIsolation(b: Buffers, es: seq<Event>, n: nat, ch: Channel)
    requires b.Sized(n)
    requires forall k :: 0 <= k < |es| ==> Target(es[k].kind) != ch
    ensures ch == HeartRate ==> ApplyEvents(b, es, n).hr == b.hr
    ensures ch == SpO2 ==> ApplyEvents(b, es, n).spo2 == b.spo2
    ensures ch == Temperature ==> ApplyEvents(b, es, n).temp == b.temp
    ensures ch == Activity ==> ApplyEvents(b, es, n).activity == b.activity
  {
    if |es| > 0 {
      var init := es[..|es| - 1];
      forall k | 0 <= k < |init| ensures Target(init[k].kind) != ch {
        assert init[k] == es[k];
      }
      OverlayIsolation(b, init, n, ch);
    }
  }
}
