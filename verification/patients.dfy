/** `simulate_multiple_patients` (src/data_generator.py): one single-patient
    run per patient id 1..N, each seeded from the base seed, concatenated. */
module Patients {
  import opened Wrappers
  import opened Events
  import opened Generator

  /** The seed patient `pid` is run with: `base_seed + pid`, or none. */
  function PatientSeed(base: Option<int>, pid: int): (s: Option<int>)
    ensures base.None? <==> s.None?
    ensures base.Some? ==> s.value - pid == base.value
  {
    match base
    case None => None
    case Some(b) => Some(b + pid)
  }

  /** The draws a single-patient run consumes, given the run's patient id
      and the seed it was started with. */
  type Rng = (int, Option<int>) -> Draws

  /** The draws of every patient 1..count are ones the generator can make. */
  predicate RngFits(p: Params, base: Option<int>, rng: Rng, count: int)
  {
    forall pid :: 1 <= pid <= count ==> DrawsFit(p, rng(pid, PatientSeed(base, pid)))
  }

  /** The single-patient run for patient `pid`, with its derived seed. */
  function RunPatient(p: Params, base: Option<int>, rng: Rng, pid: int): Result<seq<Row>, ValueError>
    requires DrawsFit(p, rng(pid, PatientSeed(base, pid)))
  {
    SimulateSinglePatient(p, pid, rng(pid, PatientSeed(base, pid)))
  }

  /** The single-patient runs of patients 1..count, in ascending id order. */
  function Runs(p: Params, base: Option<int>, rng: Rng, count: nat): (rs: seq<Result<seq<Row>, ValueError>>)
    requires RngFits(p, base, rng, count)
    ensures |rs| == count
    ensures forall k :: 0 <= k < count ==> rs[k] == RunPatient(p, base, rng, k + 1)
  {
    seq(count, k requires 0 <= k < count => RunPatient(p, base, rng, k + 1))
  }

  /** When sampling succeeds every run succeeds with one row per point. */
  lemma RunsSucceed(p: Params, base: Option<int>, rng: Rng, count: nat)
    requires RngFits(p, base, rng, count)
    requires SamplingSucceeds(p.anomalyRate, p.numPoints)
    ensures forall k :: 0 <= k < count ==>
      Runs(p, base, rng, count)[k].Ok? && |Runs(p, base, rng, count)[k].value| == p.numPoints
  {
  }

  /** `pd.concat` of the runs' rows, in order. As the loop runs patient after
      patient, the first failing run's error is the one that propagates.
      An empty run list gives `Ok([])`, where `pd.concat` raises "No objects
      to concatenate"; `SimulateMultiplePatients` raises that error for fewer
      than one patient before it calls `Concat`. */
  function Concat<T, E>(rs: seq<Result<seq<T>, E>>): (r: Result<seq<T>, E>)
    ensures r.Ok? <==> forall k :: 0 <= k < |rs| ==> rs[k].Ok?
  {
    if |rs| == 0 then Ok([])
    else
      match Concat(rs[..|rs| - 1])
      case Err(e) => Err(e)
      case Ok(prefix) =>
        match rs[|rs| - 1]
        case Err(e) => Err(e)
        case Ok(rows) => Ok(prefix + rows)
  }

  /** `k * n` by repeated addition, which keeps the offset reasoning below
      linear. */
  function Mul(k: nat, n: nat): nat
  {
    if k == 0 then 0 else Mul(k - 1, n) + n
  }

  lemma {:induction false} MulIsProduct(k: nat, n: nat)
    ensures Mul(k, n) == k * n
  {
    if k > 0 {
      MulIsProduct(k - 1, n);
      assert (k - 1) * n + n == k * n;
    }
  }

  /** When every run succeeds with `n` rows, so does the concatenation,
      with `|rs| * n` rows. */
  lemma {:induction false} ConcatLength<T, E>(rs: seq<Result<seq<T>, E>>, n: nat)
    requires forall k :: 0 <= k < |rs| ==> rs[k].Ok? && |rs[k].value| == n
    ensures Concat(rs).Ok?
    ensures |Concat(rs).value| == Mul(|rs|, n)
  {
    if |rs| > 0 {
      var init := rs[..|rs| - 1];
      assert forall k :: 0 <= k < |init| ==> init[k] == rs[k];
      ConcatLength(init, n);
    }
  }

  /** ... and row `i` of run `k` sits at offset `k * n + i`. */
  lemma {:induction false} ConcatBlock<T, E>(rs: seq<Result<seq<T>, E>>, n: nat, k: nat, i: nat)
    requires forall k :: 0 <= k < |rs| ==> rs[k].Ok? && |rs[k].value| == n
    requires k < |rs| && i < n
    ensures Concat(rs).Ok?
    ensures Mul(k, n) + i < |Concat(rs).value|
    ensures Concat(rs).value[Mul(k, n) + i] == rs[k].value[i]
  {
    var init := rs[..|rs| - 1];
    assert forall j :: 0 <= j < |init| ==> init[j] == rs[j];
    ConcatLength(rs, n);
    ConcatLength(init, n);
    var prefix := Concat(init).value;
    var rows := rs[|rs| - 1].value;
    assert Concat(rs).value == prefix + rows;
    if k < |rs| - 1 {
      ConcatBlock(init, n, k, i);
      assert (prefix + rows)[Mul(k, n) + i] == prefix[Mul(k, n) + i];
    } else {
      assert (prefix + rows)[Mul(k, n) + i] == rows[i];
    }
  }

  /** One instance of `ConcatBlock`, for the block of the `pid`-th run
      (counting from 1), with the offset as a product. */
  lemma ConcatBlockAt<T, E>(rs: seq<Result<seq<T>, E>>, n: nat, pid: int, i: int)
    requires forall k :: 0 <= k < |rs| ==> rs[k].Ok? && |rs[k].value| == n
    requires 1 <= pid <= |rs| && 0 <= i < n
    ensures Concat(rs).Ok?
    ensures |Concat(rs).value| == |rs| * n
    ensures 0 <= (pid - 1) * n + i < |Concat(rs).value|
    ensures Concat(rs).value[(pid - 1) * n + i] == rs[pid - 1].value[i]
  {
    ConcatLength(rs, n);
    ConcatBlock(rs, n, pid - 1, i);
    MulIsProduct(pid - 1, n);
    MulIsProduct(|rs|, n);
  }

  /** When every run fails with the same error, so does the concatenation. */
  lemma {:induction false} ConcatSameError<T, E>(rs: seq<Result<seq<T>, E>>, e: E)
    requires |rs| > 0
    requires forall k :: 0 <= k < |rs| ==> rs[k] == Err(e)
    ensures Concat(rs) == Err(e)
  {
    if |rs| > 1 {
      var init := rs[..|rs| - 1];
      assert forall k :: 0 <= k < |init| ==> init[k] == rs[k];
      ConcatSameError(init, e);
    }
  }

  /** The message of the `ValueError` `pd.concat` raises on an empty list. */
  const ConcatErrorMessage: string := "No objects to concatenate"

  /** `simulate_multiple_patients`. With fewer than one patient there is
      nothing to concatenate, an error; otherwise the result is the
      patients' rows in ascending id order, each block a single-patient run
      with that id and the derived seed. */
  function SimulateMultiplePatients(numPatients: int, p: Params, base: Option<int>, rng: Rng)
    : (r: Result<seq<Row>, ValueError>)
    requires RngFits(p, base, rng, numPatients)
    ensures numPatients < 1 ==> r == Err(ValueError(ConcatErrorMessage))
    ensures r.Ok? <==> numPatients >= 1 && SamplingSucceeds(p.anomalyRate, p.numPoints)
    ensures r.Err? && numPatients >= 1 ==> r.error == SampleError()
    ensures r.Ok? ==> |r.value| == numPatients * p.numPoints
  {
    if numPatients < 1 then Err(ValueError(ConcatErrorMessage))
    else
      var rs := Runs(p, base, rng, numPatients);
      if SamplingSucceeds(p.anomalyRate, p.numPoints) then
        ConcatLength(rs, p.numPoints);
        MulIsProduct(numPatients, p.numPoints);
        Concat(rs)
      else
        ConcatSameError(rs, SampleError());
        Concat(rs)
  }

  /** Row `i` of patient `pid`'s block of a multi-patient run is row `i` of
      the single-patient run with id `pid` and the derived seed, so the rows
      come ordered by patient id. */
  lemma PatientBlock(numPatients: int, p: Params, base: Option<int>, rng: Rng, pid: int, i: int)
    requires RngFits(p, base, rng, numPatients)
    requires SimulateMultiplePatients(numPatients, p, base, rng).Ok?
    requires 1 <= pid <= numPatients && 0 <= i < p.numPoints
    ensures 0 <= (pid - 1) * p.numPoints + i < |SimulateMultiplePatients(numPatients, p, base, rng).value|
    ensures SimulateMultiplePatients(numPatients, p, base, rng).value[(pid - 1) * p.numPoints + i]
      == RunPatient(p, base, rng, pid).value[i]
    ensures SimulateMultiplePatients(numPatients, p, base, rng).value[(pid - 1) * p.numPoints + i].patientId == pid
  {
    var rs := Runs(p, base, rng, numPatients);
    MultipleIsConcat(numPatients, p, base, rng);
    RunsSucceed(p, base, rng, numPatients);
    ConcatBlockAt(rs, p.numPoints, pid, i);
    var run := RunPatient(p, base, rng, pid);
    assert rs[pid - 1] == run;
    var all := Concat(rs).value;
    var off := (pid - 1) * p.numPoints + i;
    assert SimulateMultiplePatients(numPatients, p, base, rng).value == all;
    assert all[off] == run.value[i];
    assert run.value[i].patientId == pid;
  }

  /** A successful multi-patient run is the concatenation of the runs. */
  lemma MultipleIsConcat(numPatients: int, p: Params, base: Option<int>, rng: Rng)
    requires RngFits(p, base, rng, numPatients)
    requires SimulateMultiplePatients(numPatients, p, base, rng).Ok?
    ensures numPatients >= 1 && SamplingSucceeds(p.anomalyRate, p.numPoints)
    ensures SimulateMultiplePatients(numPatients, p, base, rng) == Concat(Runs(p, base, rng, numPatients))
  {
  }

  /** The draws of patients 1 and 2 with seeds `base + 1` and `base + 2`
      are those a two-patient run with base seed `base` consumes. */
  lemma TwoPatientsFit(p: Params, base: int, rng: Rng)
    requires DrawsFit(p, rng(1, Some(base + 1))) && DrawsFit(p, rng(2, Some(base + 2)))
    ensures RngFits(p, Some(base), rng, 2)
    ensures RunPatient(p, Some(base), rng, 1) == SimulateSinglePatient(p, 1, rng(1, Some(base + 1)))
    ensures RunPatient(p, Some(base), rng, 2) == SimulateSinglePatient(p, 2, rng(2, Some(base + 2)))
  {
    assert PatientSeed(Some(base), 1) == Some(base + 1);
    assert PatientSeed(Some(base), 2) == Some(base + 2);
    forall pid | 1 <= pid <= 2 ensures DrawsFit(p, rng(pid, PatientSeed(Some(base), pid))) {
      if pid == 1 {
        assert rng(pid, PatientSeed(Some(base), pid)) == rng(1, Some(base + 1));
      } else {
        assert rng(pid, PatientSeed(Some(base), pid)) == rng(2, Some(base + 2));
      }
    }
  }

  /** Decomposability: a two-patient run is the concatenation of the two
      single-patient runs with ids 1 and 2 and seeds `base + 1`, `base + 2`. */
  lemma TwoPatients(p: Params, base: int, rng: Rng)
    requires DrawsFit(p, rng(1, Some(base + 1))) && DrawsFit(p, rng(2, Some(base + 2)))
    requires SamplingSucceeds(p.anomalyRate, p.numPoints)
    ensures RngFits(p, Some(base), rng, 2)
    ensures SimulateMultiplePatients(2, p, Some(base), rng).Ok?
    ensures SimulateMultiplePatients(2, p, Some(base), rng).value
      == SimulateSinglePatient(p, 1, rng(1, Some(base + 1))).value
       + SimulateSinglePatient(p, 2, rng(2, Some(base + 2))).value
  {
    TwoPatientsFit(p, base, rng);
    var n := p.numPoints;
    var all := SimulateMultiplePatients(2, p, Some(base), rng).value;
    var first := RunPatient(p, Some(base), rng, 1).value;
    var second := RunPatient(p, Some(base), rng, 2).value;
    assert |all| == 2 * n;
    forall j | 0 <= j < 2 * n
      ensures all[j] == (first + second)[j]
    {
      if j < n {
        PatientBlock(2, p, Some(base), rng, 1, j);
        assert (1 - 1) * n + j == j;
      } else {
        PatientBlock(2, p, Some(base), rng, 2, j - n);
        assert (2 - 1) * n + (j - n) == j;
      }
    }
    assert all == first + second;
  }
}
