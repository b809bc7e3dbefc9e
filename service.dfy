/**
 * service.py: the queue-triggered entry point. `handler` checks the event's
 * Records block, `parseRecord` reads one message body into a record type and
 * identifier and asks the store for that record, and `parseRecords` runs
 * through the records in order, stops at the first error it knows, and then
 * runs the batch step and closes the session.
 *
 * The store's answer for the i-th record is the parameter `stored(i)`; what
 * the run does to its collaborators is recorded as a trace of operations.
 */
module Service {
  import opened Results
  import opened Json
  import Dispatch

  /** The three errors `parseRecords` catches. */
  datatype ServiceError =
    | NoRecordsReceived(message: string)
    | DataError(message: string)
    | DBError(status: string, message: string)

  /** An exception leaving `parseRecord`: one of the three above, or any other, which nothing catches. */
  datatype Exception = Service(err: ServiceError) | Other(name: string)

  const RecordsMissing := "Records block missing"
  const RecordsEmpty := "Records block empty"
  const MalformedJson := "Malformed JSON block recieved from SQS"
  const BodyMissing := "Body object missing from SQS message"
  const StoreFailed := DBError("unknown", "Unable to parse/ingest record, see logs for error")

  /** One queue message: its `body`, if the key is there. */
  datatype InboundRecord = InboundRecord(body: Option<JsonText>)

  /** The triggering event: its `Records` block, if the key is there. */
  datatype Event = Event(records: Option<seq<InboundRecord>>)

  /** What a message asks for: a record of some type, by identifier. */
  datatype Request = Request(recordType: string, identifier: string)

  /** The calls a run makes on the session and the index connection. */
  datatype Op = Store(req: Request) | Rollback | ProcessBatch | Close

  // ------------------------------------------------------------- handler

  /** The Records check at the top of `handler`. */
  function CheckEvent(event: Event): (r: Result<seq<InboundRecord>, ServiceError>)
    ensures r.Ok? <==> event.records.Some? && |event.records.value| > 0
    ensures r.Ok? ==> r.value == event.records.value
    ensures r.Err? ==> r.error.NoRecordsReceived?
  {
    match event.records
    case None => Err(NoRecordsReceived(RecordsMissing))
    case Some(records) =>
      if |records| < 1 then Err(NoRecordsReceived(RecordsEmpty)) else Ok(records)
  }

  // --------------------------------------------------------- parseRecord

  /** The message body decodes to an object that has both `type` and `identifier`. */
  predicate WellFormed(rec: InboundRecord)
  {
    rec.body.Some? && rec.body.value.Text? && rec.body.value.denotes.Object? &&
    "type" in rec.body.value.denotes.members && "identifier" in rec.body.value.denotes.members
  }

  /**
   * The first half of `parseRecord`: decode the body and read its two keys.
   * A missing key is a DataError, and so is a body that is not JSON; a body
   * that decodes to something other than an object cannot be indexed by key,
   * and the TypeError that raises is not one of the errors caught here.
   */
  function ParseRecord(rec: InboundRecord): (r: Result<Request, Exception>)
    ensures r.Ok? <==> WellFormed(rec)
    ensures r.Ok? ==> var members := rec.body.value.denotes.members;
      r.value.recordType == members["type"] && r.value.identifier == members["identifier"]
    ensures r.Err? && r.error.Service? ==> r.error.err.DataError?
    ensures r.Err? && r.error.Other? <==> rec.body.Some? && Loads(rec.body.value) == Ok(NotAnObject)
    ensures rec.body.Some? && rec.body.value.Malformed? ==> r == Err(Service(DataError(MalformedJson)))
  {
    match rec.body
    case None => Err(Service(DataError(BodyMissing)))
    case Some(text) =>
      match Loads(text)
      case Err(_) => Err(Service(DataError(MalformedJson)))
      case Ok(NotAnObject) => Err(Other("TypeError"))
      case Ok(Object(members)) =>
        if "type" !in members || "identifier" !in members then Err(Service(DataError(BodyMissing)))
        else Ok(Request(members["type"], members["identifier"]))
  }

  /** What one record does to the session, and how `parseRecord` ends. */
  datatype StepResult = StepResult(ops: seq<Op>, result: Result<(), Exception>)

  /**
   * `parseRecord` in full: a well-formed message is handed to the store; a
   * failed store is rolled back and reported as DBError. The record logged
   * after the store is taken to be the one the store returns.
   */
  function RecordStep(rec: InboundRecord, stored: bool): (s: StepResult)
    ensures s.result.Ok? <==> WellFormed(rec) && stored
    ensures s.result.Ok? ==> s.ops == [Store(ParseRecord(rec).value)]
    ensures WellFormed(rec) && !stored ==>
      s.ops == [Store(ParseRecord(rec).value), Rollback] && s.result == Err(Service(StoreFailed))
    ensures !WellFormed(rec) ==> s.ops == [] && s.result == Err(ParseRecord(rec).error)
  {
    match ParseRecord(rec)
    case Err(e) => StepResult([], Err(e))
    case Ok(req) =>
      if stored then StepResult([Store(req)], Ok(()))
      else StepResult([Store(req), Rollback], Err(Service(StoreFailed)))
  }

  // -------------------------------------------------------- parseRecords

  /** How far a run got: still going, stopped by a caught error, or left by an uncaught one. */
  datatype Outcome = Running | Stopped(at: nat, err: ServiceError) | Escaped(at: nat, name: string)

  datatype RunState = RunState(ops: seq<Op>, outcome: Outcome)

  /** The run's state after the first `n` records, the i-th store answering `stored(i)`. */
  function RunUpTo(records: seq<InboundRecord>, stored: nat -> bool, n: nat): RunState
    requires n <= |records|
  {
    if n == 0 then RunState([], Running)
    else
      var prev := RunUpTo(records, stored, n - 1);
      if !prev.outcome.Running? then prev
      else
        var step := RecordStep(records[n - 1], stored(n - 1));
        RunState(prev.ops + step.ops,
          match step.result
          case Ok(_) => Running
          case Err(Service(e)) => Stopped(n - 1, e)
          case Err(Other(name)) => Escaped(n - 1, name))
  }

  /** One more record, while the run is still going. */
  lemma RunStep(records: seq<InboundRecord>, stored: nat -> bool, i: nat)
    requires i < |records| && RunUpTo(records, stored, i).outcome.Running?
    ensures var step := RecordStep(records[i], stored(i));
      RunUpTo(records, stored, i + 1).ops == RunUpTo(records, stored, i).ops + step.ops &&
      (step.result.Ok? ==> RunUpTo(records, stored, i + 1).outcome.Running?) &&
      (step.result.Err? && step.result.error.Service? ==> RunUpTo(records, stored, i + 1).outcome == Stopped(i, step.result.error.err)) &&
      (step.result.Err? && step.result.error.Other? ==> RunUpTo(records, stored, i + 1).outcome == Escaped(i, step.result.error.name))
  {
  }

  /** Once a record stops the run, later records change nothing. */
  lemma {:induction false} RunStaysStopped(records: seq<InboundRecord>, stored: nat -> bool, n: nat, m: nat)
    requires n <= m <= |records| && !RunUpTo(records, stored, n).outcome.Running?
    ensures RunUpTo(records, stored, m) == RunUpTo(records, stored, n)
    decreases m - n
  {
    if n < m {
      RunStaysStopped(records, stored, n, m - 1);
    }
  }

  /** Each of the first `n` records was parsed and stored. */
  ghost predicate AllStored(records: seq<InboundRecord>, stored: nat -> bool, n: nat)
    requires n <= |records|
  {
    forall i :: 0 <= i < n ==> RecordStep(records[i], stored(i)).result.Ok?
  }

  /** The run is still going after n records exactly when each of them was parsed and stored. */
  lemma {:induction false} RunningIffAllStored(records: seq<InboundRecord>, stored: nat -> bool, n: nat)
    requires n <= |records|
    ensures RunUpTo(records, stored, n).outcome.Running? <==> AllStored(records, stored, n)
  {
    if n > 0 {
      RunningIffAllStored(records, stored, n - 1);
      if !RunUpTo(records, stored, n - 1).outcome.Running? {
        var i :| 0 <= i < n - 1 && !RecordStep(records[i], stored(i)).result.Ok?;
      } else {
        RunStep(records, stored, n - 1);
      }
    }
  }

  /** While the run is going, it has stored each record, in order. */
  lemma {:induction false} RunningStoresInOrder(records: seq<InboundRecord>, stored: nat -> bool, n: nat)
    requires n <= |records| && RunUpTo(records, stored, n).outcome.Running?
    ensures |RunUpTo(records, stored, n).ops| == n
    ensures forall i :: 0 <= i < n ==>
      ParseRecord(records[i]).Ok? && RunUpTo(records, stored, n).ops[i] == Store(ParseRecord(records[i]).value)
  {
    if n > 0 {
      assert RunUpTo(records, stored, n - 1).outcome.Running?;
      RunningStoresInOrder(records, stored, n - 1);
      RunStep(records, stored, n - 1);
    }
  }

  /**
   * A run that stops does so at the first record that fails, with that
   * record's error, and nothing is done for any record after it.
   */
  lemma StopsAtFirstFailure(records: seq<InboundRecord>, stored: nat -> bool, k: nat, e: ServiceError)
    requires RunUpTo(records, stored, |records|).outcome == Stopped(k, e)
    ensures k < |records|
    ensures AllStored(records, stored, k)
    ensures RecordStep(records[k], stored(k)).result == Err(Service(e))
    ensures RunUpTo(records, stored, |records|) == RunUpTo(records, stored, k + 1)
  {
    StoppedAt(records, stored, |records|, k, e);
    RunningIffAllStored(records, stored, k);
    NothingAfterStop(records, stored, k, e);
  }

  /** The records loop itself only stores and rolls back; the batch step and the close come after it. */
  lemma {:induction false} RunOnlyStoresAndRollsBack(records: seq<InboundRecord>, stored: nat -> bool, n: nat)
    requires n <= |records|
    ensures forall i :: 0 <= i < |RunUpTo(records, stored, n).ops| ==>
      RunUpTo(records, stored, n).ops[i].Store? || RunUpTo(records, stored, n).ops[i].Rollback?
  {
    if n > 0 {
      RunOnlyStoresAndRollsBack(records, stored, n - 1);
    }
  }

  lemma NothingAfterStop(records: seq<InboundRecord>, stored: nat -> bool, k: nat, e: ServiceError)
    requires k < |records| && RunUpTo(records, stored, k).outcome.Running?
    requires RecordStep(records[k], stored(k)).result == Err(Service(e))
    ensures RunUpTo(records, stored, |records|) == RunUpTo(records, stored, k + 1)
  {
    RunStep(records, stored, k);
    RunStaysStopped(records, stored, k + 1, |records|);
  }

  lemma {:induction false} StoppedAt(records: seq<InboundRecord>, stored: nat -> bool, n: nat, k: nat, e: ServiceError)
    requires n <= |records| && RunUpTo(records, stored, n).outcome == Stopped(k, e)
    ensures k < n && RunUpTo(records, stored, k).outcome.Running?
    ensures RecordStep(records[k], stored(k)).result == Err(Service(e))
  {
    if n > 0 && !RunUpTo(records, stored, n - 1).outcome.Running? {
      StoppedAt(records, stored, n - 1, k, e);
    }
  }

  /** A message the dispatcher sends is read back as a request for that work by uuid. */
  lemma DispatchedMessageParses(ref: Dispatch.WorkRef)
    ensures ParseRecord(InboundRecord(Some(Dispatch.MessageFor(ref).body))) == Ok(Request("uuid", ref.uuidHex))
  {
  }

  // ----------------------------------------------------------- the class

  /** One invocation: the calls it makes on its session and index connection, in order. */
  class Invocation {
    var trace: seq<Op>

    /** Opening the connection and the session is outside the model. */
    constructor ()
      ensures trace == []
    {
      trace := [];
    }

    /**
     * `parseRecords`: every record in order until the first caught error,
     * then the batch step and the session close. An uncaught exception
     * leaves before either.
     */
    method ParseRecords(records: seq<InboundRecord>, stored: nat -> bool) returns (r: Result<(), Exception>)
      modifies this
      ensures var run := RunUpTo(records, stored, |records|);
        (r.Err? <==> run.outcome.Escaped?) &&
        (r.Err? ==> r.error == Other(run.outcome.name)) &&
        trace == old(trace) + run.ops + (if run.outcome.Escaped? then [] else [ProcessBatch, Close])
    {
      ghost var t0 := trace;
      ghost var run := RunUpTo(records, stored, |records|);
      var i := 0;
      while i < |records|
        invariant i <= |records|
        invariant RunUpTo(records, stored, i).outcome.Running?
        invariant trace == t0 + RunUpTo(records, stored, i).ops
      {
        var step := RecordStep(records[i], stored(i));
        RunStep(records, stored, i);
        trace := trace + step.ops;
        if step.result.Err? {
          RunStaysStopped(records, stored, i + 1, |records|);
          assert trace == t0 + run.ops;
          if step.result.error.Other? {
            assert run.outcome == Escaped(i, step.result.error.name);
            return Err(step.result.error);
          }
          assert run.outcome.Stopped?;
          break;
        }
        i := i + 1;
      }
      assert trace == t0 + run.ops && !run.outcome.Escaped?;
      trace := trace + [ProcessBatch, Close];
      r := Ok(());
    }

    /** `handler`: the Records check, then `parseRecords` on the records. */
    method Handler(event: Event, stored: nat -> bool) returns (r: Result<(), Exception>)
      modifies this
      ensures CheckEvent(event).Err? ==> r == Err(Service(CheckEvent(event).error)) && trace == old(trace)
      ensures CheckEvent(event).Ok? ==>
        var run := RunUpTo(event.records.value, stored, |event.records.value|);
        (r.Err? <==> run.outcome.Escaped?) &&
        (r.Err? ==> r.error == Other(run.outcome.name)) &&
        trace == old(trace) + run.ops + (if run.outcome.Escaped? then [] else [ProcessBatch, Close])
    {
      var checked := CheckEvent(event);
      if checked.Err? {
        return Err(Service(checked.error));
      }
      r := ParseRecords(checked.value, stored);
    }
  }
}
