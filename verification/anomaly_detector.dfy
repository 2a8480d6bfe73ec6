/** `detect_anomalies` (src/anomaly_detector.py): flags the channels of one
    reading that lie outside a single hard threshold. */
module AnomalyDetector {

  /** The keys `detect_anomalies` reads: HR, SpO2, BP_sys, BP_dia and Temp. */
  datatype Reading = Reading(hr: real, spo2: real, bpSys: real, bpDia: real, temp: real)

  /** The four channels the flagger can report; blood pressure is one
      channel covering both of its keys. */
  datatype Channel = HR | SpO2 | BP | Temp

  /** The name the flagger reports for a channel. */
  function Name(c: Channel): (s: string)
    ensures s in ["HR", "SpO2", "BP", "Temp"]
  {
    match c
    case HR => "HR"
    case SpO2 => "SpO2"
    case BP => "BP"
    case Temp => "Temp"
  }

  /** The order in which the flagger checks the channels. */
  const Channels: seq<Channel> := [HR, SpO2, BP, Temp]

  /** Position of a channel in `Channels`. */
  function Rank(c: Channel): (k: nat)
    ensures k < |Channels| && Channels[k] == c
  {
    match c
    case HR => 0
    case SpO2 => 1
    case BP => 2
    case Temp => 3
  }

  /** `detect_anomalies`: one strict comparison (or two, joined by `or`)
      per channel, appending the channel's name when it holds. */
  function DetectAnomalies(r: Reading): (flags: seq<string>)
    ensures "HR" in flags <==> r.hr < 50.0 || r.hr > 120.0
    ensures "SpO2" in flags <==> r.spo2 < 90.0
    ensures "BP" in flags <==> r.bpSys > 160.0 || r.bpDia > 100.0
    ensures "Temp" in flags <==> r.temp > 38.0
    ensures |flags| <= |Channels|
  {
    var hr := if r.hr < 50.0 || r.hr > 120.0 then ["HR"] else [];
    var spo2 := if r.spo2 < 90.0 then ["SpO2"] else [];
    var bp := if r.bpSys > 160.0 || r.bpDia > 100.0 then ["BP"] else [];
    var temp := if r.temp > 38.0 then ["Temp"] else [];
    hr + (spo2 + (bp + temp))
  }

  /** Reference reading of the thresholds, one channel at a time: the
      normal band of each channel, with its limits counted as normal. */
  predicate OutOfBand(r: Reading, c: Channel)
  {
    match c
    case HR => !(50.0 <= r.hr <= 120.0)
    case SpO2 => !(90.0 <= r.spo2)
    case BP => !(r.bpSys <= 160.0 && r.bpDia <= 100.0)
    case Temp => !(r.temp <= 38.0)
  }

  /** The channels of `cs` that are out of band, in their order. */
  function FilterOutOfBand(r: Reading, cs: seq<Channel>): seq<Channel>
  {
    if |cs| == 0 then []
    else (if OutOfBand(r, cs[0]) then [cs[0]] else []) + FilterOutOfBand(r, cs[1..])
  }

  /** The names of a list of channels. */
  function Names(cs: seq<Channel>): (ns: seq<string>)
    ensures |ns| == |cs|
    ensures forall i :: 0 <= i < |cs| ==> ns[i] == Name(cs[i])
  {
    if |cs| == 0 then [] else [Name(cs[0])] + Names(cs[1..])
  }

  /** Naming distributes over concatenation. */
  lemma NamesAppend(a: seq<Channel>, b: seq<Channel>)
    ensures Names(a + b) == Names(a) + Names(b)
  {
    forall i | 0 <= i < |a + b| ensures Names(a + b)[i] == (Names(a) + Names(b))[i] {
      if i < |a| {
        assert (a + b)[i] == a[i];
      } else {
        assert (a + b)[i] == b[i - |a|];
      }
    }
  }

  /** Distinct channels have distinct names. */
  lemma NameInjective(a: Channel, b: Channel)
    requires a != b
    ensures Name(a) != Name(b)
  {
  }

  /** `[c]` when `b` holds, otherwise nothing. */
  function When(b: bool, c: Channel): seq<Channel>
  {
    if b then [c] else []
  }

  /** The reference bands, unrolled over the four channels. */
  lemma FilterChannels(r: Reading)
    ensures FilterOutOfBand(r, Channels)
      == When(r.hr < 50.0 || r.hr > 120.0, HR)
       + (When(r.spo2 < 90.0, SpO2)
       + (When(r.bpSys > 160.0 || r.bpDia > 100.0, BP)
       + When(r.temp > 38.0, Temp)))
  {
    var temp := When(r.temp > 38.0, Temp);
    var bp := When(r.bpSys > 160.0 || r.bpDia > 100.0, BP);
    var spo2 := When(r.spo2 < 90.0, SpO2);
    assert [Temp][1..] == [];
    assert FilterOutOfBand(r, [Temp]) == temp;
    assert [BP, Temp][1..] == [Temp];
    assert FilterOutOfBand(r, [BP, Temp]) == bp + temp;
    assert [SpO2, BP, Temp][1..] == [BP, Temp];
    assert FilterOutOfBand(r, [SpO2, BP, Temp]) == spo2 + (bp + temp);
    assert Channels[1..] == [SpO2, BP, Temp];
  }

  /** Naming the unrolled channel list gives the flagger's own pieces. */
  lemma NamesOfWhen(a: bool, b: bool, c: bool, d: bool)
    ensures Names(When(a, HR) + (When(b, SpO2) + (When(c, BP) + When(d, Temp))))
      == (if a then ["HR"] else []) + ((if b then ["SpO2"] else [])
       + ((if c then ["BP"] else []) + (if d then ["Temp"] else [])))
  {
    NamesAppend(When(c, BP), When(d, Temp));
    NamesAppend(When(b, SpO2), When(c, BP) + When(d, Temp));
    NamesAppend(When(a, HR), When(b, SpO2) + (When(c, BP) + When(d, Temp)));
    assert Names(When(a, HR)) == if a then ["HR"] else [];
    assert Names(When(b, SpO2)) == if b then ["SpO2"] else [];
    assert Names(When(c, BP)) == if c then ["BP"] else [];
    assert Names(When(d, Temp)) == if d then ["Temp"] else [];
  }

  /** The flagger is the channel list filtered by the reference bands: the
      result names each out-of-band channel once, in the fixed order. */
  lemma DetectIsFilter(r: Reading)
    ensures DetectAnomalies(r) == Names(FilterOutOfBand(r, Channels))
  {
    FilterChannels(r);
    NamesOfWhen(r.hr < 50.0 || r.hr > 120.0, r.spo2 < 90.0, r.bpSys > 160.0 || r.bpDia > 100.0, r.temp > 38.0);
  }

  /** Strictly increasing `Channels` order, hence no channel twice. */
  predicate Ranked(cs: seq<Channel>)
  {
    forall i, j :: 0 <= i < j < |cs| ==> Rank(cs[i]) < Rank(cs[j])
  }

  /** The tail of a ranked list is ranked and ranks after its head. */
  lemma RankedTail(cs: seq<Channel>)
    requires Ranked(cs) && |cs| > 0
    ensures Ranked(cs[1..])
    ensures forall c :: c in cs[1..] ==> Rank(cs[0]) < Rank(c)
  {
    forall i, j | 0 <= i < j < |cs[1..]| ensures Rank(cs[1..][i]) < Rank(cs[1..][j]) {
      assert cs[1..][i] == cs[i + 1] && cs[1..][j] == cs[j + 1];
    }
    forall c | c in cs[1..] ensures Rank(cs[0]) < Rank(c) {
      var j :| 0 <= j < |cs[1..]| && cs[1..][j] == c;
      assert cs[j + 1] == c;
    }
  }

  /** Filtering keeps a subsequence, so it keeps the order of its input. */
  lemma {:induction false} FilterKeepsRanked(r: Reading, cs: seq<Channel>)
    requires Ranked(cs)
    ensures Ranked(FilterOutOfBand(r, cs))
    ensures forall c :: c in FilterOutOfBand(r, cs) ==> c in cs
  {
    if |cs| > 0 {
      var tail := FilterOutOfBand(r, cs[1..]);
      RankedTail(cs);
      FilterKeepsRanked(r, cs[1..]);
      if OutOfBand(r, cs[0]) {
        var out := [cs[0]] + tail;
        assert FilterOutOfBand(r, cs) == out;
        forall i, j | 0 <= i < j < |out| ensures Rank(out[i]) < Rank(out[j]) {
          assert out[j] == tail[j - 1] && out[j] in cs[1..];
          if i > 0 {
            assert out[i] == tail[i - 1];
          }
        }
      } else {
        assert FilterOutOfBand(r, cs) == tail;
      }
    }
  }

  /** The flags are the names of channels in the fixed order HR, SpO2, BP,
      Temp, each at most once. */
  lemma FlagsOrdered(r: Reading)
    ensures exists cs :: Ranked(cs) && DetectAnomalies(r) == Names(cs)
  {
    DetectIsFilter(r);
    FilterKeepsRanked(r, Channels);
    var cs := FilterOutOfBand(r, Channels);
    assert Ranked(cs) && DetectAnomalies(r) == Names(cs);
  }

  /** The names of a ranked channel list are pairwise distinct. */
  lemma RankedNamesDistinct(cs: seq<Channel>)
    requires Ranked(cs)
    ensures forall i, j :: 0 <= i < j < |cs| ==> Names(cs)[i] != Names(cs)[j]
  {
    forall i, j | 0 <= i < j < |cs| ensures Names(cs)[i] != Names(cs)[j] {
      NameInjective(cs[i], cs[j]);
    }
  }

  /** The result is a subsequence of the channel list: no duplicates. */
  lemma NoDuplicateFlags(r: Reading)
    ensures forall i, j :: 0 <= i < j < |DetectAnomalies(r)| ==> DetectAnomalies(r)[i] != DetectAnomalies(r)[j]
  {
    DetectIsFilter(r);
    FilterKeepsRanked(r, Channels);
    RankedNamesDistinct(FilterOutOfBand(r, Channels));
  }

  /** Every comparison is strict: a reading exactly on the thresholds, at
      either end of the heart-rate band, raises no flag. */
  lemma BoundariesNotFlagged()
    ensures DetectAnomalies(Reading(50.0, 90.0, 160.0, 100.0, 38.0)) == []
    ensures DetectAnomalies(Reading(120.0, 90.0, 160.0, 100.0, 38.0)) == []
  {
  }

  /** A reading raises no flag exactly when every channel lies in its
      closed normal band. */
  lemma NoFlagsIffInBand(r: Reading)
    ensures DetectAnomalies(r) == [] <==>
      && 50.0 <= r.hr <= 120.0
      && 90.0 <= r.spo2
      && r.bpSys <= 160.0 && r.bpDia <= 100.0
      && r.temp <= 38.0
  {
    if DetectAnomalies(r) != [] {
      assert DetectAnomalies(r)[0] in DetectAnomalies(r);
    }
  }

  /** A tachycardic reading with everything else normal flags heart rate only. */
  lemma TachycardiaExample()
    ensures DetectAnomalies(Reading(130.0, 96.0, 110.0, 70.0, 36.9)) == ["HR"]
  {
  }
}
