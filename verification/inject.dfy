/** The event-application helper `_inject_event` of the signal generator
    (src/data_generator.py), and the window arithmetic every event shares. */
module Inject {
  import opened Wrappers

  /** End (exclusive) of the window of an event that starts at `index` and
      lasts `duration` samples, cut off at the end of a signal of length `len`. */
  function WindowEnd(len: nat, index: nat, duration: nat): (end: nat)
    ensures end <= len
    ensures end <= index + duration
    ensures end == len || end == index + duration
  {
    if index + duration < len then index + duration else len
  }

  /** Whether sample `i` of a signal of length `len` lies in the (truncated)
      window `[index, min(len, index + duration))`. */
  predicate InWindow(i: nat, len: nat, index: nat, duration: nat)
  {
    index <= i < WindowEnd(len, index, duration)
  }

  /** `s` with `f` applied to every element at a position in `[lo, hi)`; the
      element-wise effect of a slice update `s[lo:hi] = f(s[lo:hi])`. */
  function MapWindow<T>(s: seq<T>, lo: nat, hi: nat, f: T -> T): (r: seq<T>)
    ensures |r| == |s|
    ensures forall i :: 0 <= i < |s| ==> r[i] == if lo <= i < hi then f(s[i]) else s[i]
  {
    seq(|s|, i requires 0 <= i < |s| => if lo <= i < hi then f(s[i]) else s[i])
  }

  /** The two application modes `_inject_event` accepts. */
  datatype Mode = Add | Mul

  /** The message of the `ValueError` raised for any other mode string. */
  const ModeErrorMessage: string := "mode must be 'add' or 'mul'"

  /** Recognises the mode string; anything but "add" and "mul" is an error. */
  function ParseMode(mode: string): (r: Result<Mode, ValueError>)
    ensures r == Ok(Add) <==> mode == "add"
    ensures r == Ok(Mul) <==> mode == "mul"
    ensures r.Err? <==> mode != "add" && mode != "mul"
    ensures r.Err? ==> r.error == ValueError(ModeErrorMessage)
  {
    if mode == "add" then Ok(Add)
    else if mode == "mul" then Ok(Mul)
    else Err(ValueError(ModeErrorMessage))
  }

  function Apply(m: Mode, v: real, magnitude: real): real
  {
    match m
    case Add => v + magnitude
    case Mul => v * magnitude
  }

  /** `_inject_event`: adds `magnitude` to, or multiplies by it, every sample
      of the window starting at `index`, truncated at the end of the signal.
      Returns the updated signal instead of updating it in place. */
  function InjectEvent(signal: seq<real>, index: nat, duration: nat, magnitude: real, mode: string)
    : (r: Result<seq<real>, ValueError>)
    ensures r.Err? <==> mode != "add" && mode != "mul"
    ensures r.Err? ==> r.error == ValueError(ModeErrorMessage)
    ensures r.Ok? ==> |r.value| == |signal|
    ensures r.Ok? ==> forall i :: 0 <= i < |signal| && !InWindow(i, |signal|, index, duration) ==>
      r.value[i] == signal[i]
    ensures mode == "add" ==> r.Ok? && forall i :: 0 <= i < |signal| && InWindow(i, |signal|, index, duration) ==>
      r.value[i] == signal[i] + magnitude
    ensures mode == "mul" ==> r.Ok? && forall i :: 0 <= i < |signal| && InWindow(i, |signal|, index, duration) ==>
      r.value[i] == signal[i] * magnitude
  {
    match ParseMode(mode)
    case Err(e) => Err(e)
    case Ok(m) => Ok(MapWindow(signal, index, WindowEnd(|signal|, index, duration), v => Apply(m, v, magnitude)))
  }

  /** `_inject_event` on a signal that may hold NaN samples: a missing sample
      stays missing whatever the mode, as NaN + x and NaN * x are NaN. */
  function InjectEventMissing(signal: seq<Option<real>>, index: nat, duration: nat, magnitude: real, mode: string)
    : (r: Result<seq<Option<real>>, ValueError>)
    ensures r.Err? <==> mode != "add" && mode != "mul"
    ensures r.Err? ==> r.error == ValueError(ModeErrorMessage)
    ensures r.Ok? ==> |r.value| == |signal|
    ensures r.Ok? ==> forall i :: 0 <= i < |signal| ==> (r.value[i].None? <==> signal[i].None?)
    ensures r.Ok? ==> forall i :: 0 <= i < |signal| && !InWindow(i, |signal|, index, duration) ==>
      r.value[i] == signal[i]
    ensures mode == "add" ==> r.Ok? && forall i :: 0 <= i < |signal| && InWindow(i, |signal|, index, duration) && signal[i].Some? ==>
      r.value[i] == Some(signal[i].value + magnitude)
    ensures mode == "mul" ==> r.Ok? && forall i :: 0 <= i < |signal| && InWindow(i, |signal|, index, duration) && signal[i].Some? ==>
      r.value[i] == Some(signal[i].value * magnitude)
  {
    match ParseMode(mode)
    case Err(e) => Err(e)
    case Ok(m) =>
      var f := (v: Option<real>) => if v.Some? then Some(Apply(m, v.value, magnitude)) else None;
      Ok(MapWindow(signal, index, WindowEnd(|signal|, index, duration), f))
  }

  /** A signal with no missing sample. */
  function Present(s: seq<real>): (r: seq<Option<real>>)
    ensures |r| == |s|
    ensures forall i :: 0 <= i < |s| ==> r[i] == Some(s[i])
  {
    seq(|s|, i requires 0 <= i < |s| => Some(s[i]))
  }

  /** On a signal without NaN the NaN-aware injection agrees with `InjectEvent`. */
  lemma InjectEventMissingAgrees(signal: seq<real>, index: nat, duration: nat, magnitude: real, mode: string)
    ensures InjectEventMissing(Present(signal), index, duration, magnitude, mode).Ok?
        <==> InjectEvent(signal, index, duration, magnitude, mode).Ok?
    ensures InjectEvent(signal, index, duration, magnitude, mode).Ok? ==>
      InjectEventMissing(Present(signal), index, duration, magnitude, mode).value
        == Present(InjectEvent(signal, index, duration, magnitude, mode).value)
    ensures InjectEvent(signal, index, duration, magnitude, mode).Err? ==>
      InjectEventMissing(Present(signal), index, duration, magnitude, mode).error
        == InjectEvent(signal, index, duration, magnitude, mode).error
  {
  }

  /** An additive event is undone by the opposite additive event on the same window. */
  lemma AddThenSubtract(signal: seq<real>, index: nat, duration: nat, magnitude: real)
    ensures InjectEvent(InjectEvent(signal, index, duration, magnitude, "add").value,
                        index, duration, -magnitude, "add").value == signal
  {
  }

  /** A multiplicative event by a non-zero factor is undone by its reciprocal. */
  lemma MulThenDivide(signal: seq<real>, index: nat, duration: nat, magnitude: real)
    requires magnitude != 0.0
    ensures InjectEvent(InjectEvent(signal, index, duration, magnitude, "mul").value,
                        index, duration, 1.0 / magnitude, "mul").value == signal
  {
    var scaled := InjectEvent(signal, index, duration, magnitude, "mul").value;
    var back := InjectEvent(scaled, index, duration, 1.0 / magnitude, "mul").value;
    forall i | 0 <= i < |signal|
      ensures back[i] == signal[i]
    {
      if InWindow(i, |signal|, index, duration) {
        calc {
          back[i];
          scaled[i] * (1.0 / magnitude);
          signal[i] * magnitude * (1.0 / magnitude);
          signal[i];
        }
      }
    }
  }
}
