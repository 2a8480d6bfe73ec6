/** `stream_simulation` (src/data_generator.py): a Python generator that runs
    the single-patient simulation when first pulled and then yields its rows
    one per pull. Modelled as an explicit pull state machine. */
module Stream {
  import opened Wrappers
  import opened Generator

  /** The generator object's state. `Pending` holds the simulation the body
      will run on the first pull; `Replaying` is positioned before row `pos`. */
  datatype Stream =
    | Pending(run: Result<seq<Row>, ValueError>)
    | Replaying(rows: seq<Row>, pos: nat)
    | Finished

  /** What one `next()` produces: a row, the exception the body raised, or
      `StopIteration`. */
  datatype Pulled = Yielded(row: Row) | Raised(error: ValueError) | Exhausted

  /** `stream_simulation(...)`: nothing runs until the first pull. */
  function StreamSimulation(p: Params, patientId: int, d: Draws): Stream
    requires DrawsFit(p, d)
  {
    Pending(SimulateSinglePatient(p, patientId, d))
  }

  /** How many pulls can still produce something other than `Exhausted`. */
  function Remaining(s: Stream): nat
  {
    match s
    case Pending(Ok(rows)) => |rows| + 1
    case Pending(Err(_)) => 1
    case Replaying(rows, pos) => if pos < |rows| then |rows| - pos else 0
    case Finished => 0
  }

  /** One `next()` on the generator. After the body raised or ran out, the
      generator is finished and every further pull is `StopIteration`. */
  function Pull(s: Stream): (r: (Pulled, Stream))
    ensures r.0.Yielded? ==> Remaining(r.1) < Remaining(s)
    ensures !r.0.Yielded? ==> r.1 == Finished
    ensures s == Finished ==> r.0 == Exhausted
    decreases if s.Pending? then 1 else 0
  {
    match s
    case Pending(Err(e)) => (Raised(e), Finished)
    case Pending(Ok(rows)) => Pull(Replaying(rows, 0))
    case Replaying(rows, pos) =>
      if pos < |rows| then (Yielded(rows[pos]), Replaying(rows, pos + 1)) else (Exhausted, Finished)
    case Finished => (Exhausted, Finished)
  }

  /** The rows yielded by at most `k` pulls, stopping at the first pull that
      does not yield; `failure` is the exception raised, if that is why. */
  function Take(s: Stream, k: nat): (r: (seq<Row>, Option<ValueError>))
    decreases k
  {
    if k == 0 then ([], None)
    else
      match Pull(s)
      case (Yielded(row), next) =>
        var rest := Take(next, k - 1);
        ([row] + rest.0, rest.1)
      case (Raised(e), _) => ([], Some(e))
      case (Exhausted, _) => ([], None)
  }

  /** From position `pos` the replay yields the rows in order. */
  lemma {:induction false} TakeReplaying(rows: seq<Row>, pos: nat, k: nat)
    requires pos <= |rows|
    ensures Take(Replaying(rows, pos), k)
      == (rows[pos..if pos + k < |rows| then pos + k else |rows|], None)
    decreases k
  {
    if k > 0 && pos < |rows| {
      var end := if pos + k < |rows| then pos + k else |rows|;
      TakeReplaying(rows, pos + 1, k - 1);
      assert Take(Replaying(rows, pos), k) == ([rows[pos]] + rows[pos + 1..end], None);
      assert [rows[pos]] + rows[pos + 1..end] == rows[pos..end];
    } else if k > 0 {
      assert Pull(Replaying(rows, pos)).0 == Exhausted;
      assert rows[pos..|rows|] == [];
    } else {
      assert rows[pos..pos] == [];
    }
  }

  /** A pending stream yields the rows of a successful run in order, or
      raises the failed run's error on its first pull. */
  lemma TakePending(run: Result<seq<Row>, ValueError>, k: nat)
    ensures run.Ok? ==> Take(Pending(run), k) == (run.value[..if k < |run.value| then k else |run.value|], None)
    ensures run.Err? && k > 0 ==> Take(Pending(run), k) == ([], Some(run.error))
  {
    if run.Ok? && k > 0 {
      var rows := run.value;
      TakeReplaying(rows, 0, k);
      assert Take(Pending(run), k) == Take(Replaying(rows, 0), k);
    }
  }

  /** The stream yields exactly the rows of the simulation, in order: the
      first `k` pulls give the first `k` rows (all of them once `k` reaches
      the row count). If the simulation fails, the first pull raises its
      error and nothing is yielded. */
  lemma StreamReplaysRows(p: Params, patientId: int, d: Draws, k: nat)
    requires DrawsFit(p, d)
    ensures SimulateSinglePatient(p, patientId, d).Ok? ==>
      Take(StreamSimulation(p, patientId, d), k)
        == (SimulateSinglePatient(p, patientId, d).value[..if k < p.numPoints then k else p.numPoints], None)
    ensures SimulateSinglePatient(p, patientId, d).Err? && k > 0 ==>
      Take(StreamSimulation(p, patientId, d), k) == ([], Some(SimulateSinglePatient(p, patientId, d).error))
  {
    TakePending(SimulateSinglePatient(p, patientId, d), k);
  }
}
