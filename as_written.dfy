/**
 * The conversion and the message step as the code is written, where the
 * written code cannot do what it evidently means to. Each function here
 * models the written behaviour; each lemma puts it beside the corrected
 * definition that the rest of the model uses, on an input that shows the
 * difference.
 */
module AsWritten {
  import opened Results
  import opened ElasticDocs
  import opened SourceRecords
  import opened Convert
  import Json
  import Dispatch
  import Service

  /** The Python exceptions that the written code raises. */
  datatype PyError =
    | Convert(err: ConvertError)
    | NameError(name: string)
    | TypeError(message: string)

  const SaveArity := "save() takes 0 positional arguments but 1 was given"

  /**
   * `addInstance` as written: identifiers convert as intended, but any
   * measurement reaches the misspelt `getatr`, and any item reaches the
   * `Item` class, which is never imported.
   */
  function InstanceAsWritten(inst: InstanceRec): (r: Result<(), PyError>)
    ensures r.Ok? <==> AllResolve(inst.identifiers) && |inst.measurements| == 0 && |inst.items| == 0
  {
    match IdentifiersOf(inst.identifiers)
    case Err(e) => Err(Convert(e))
    case Ok(_) =>
      if |inst.measurements| > 0 then Err(NameError("getatr"))
      else if |inst.items| > 0 then Err(NameError("Item"))
      else Ok(())
  }

  function InstancesAsWritten(insts: seq<InstanceRec>): (r: Result<(), PyError>)
    ensures r.Ok? <==> forall i :: 0 <= i < |insts| ==> InstanceAsWritten(insts[i]).Ok?
  {
    if insts == [] then Ok(())
    else
      match InstancesAsWritten(insts[..|insts| - 1])
      case Err(e) => Err(e)
      case Ok(_) => InstanceAsWritten(insts[|insts| - 1])
  }

  /**
   * `indexRecord` as written: the work-level measurement loop names the
   * undefined `meaure`, instances fail as above, and a run that gets past all
   * that calls `save()`, which is declared without `self`. No record is ever
   * saved.
   */
  function IndexRecordAsWritten(rec: WorkRec): (r: Result<(), PyError>)
    ensures r.Err?
    ensures WorkResolves(rec) && |rec.measurements| > 0 ==> r.error == NameError("meaure")
  {
    match IdentifiersOf(rec.identifiers)
    case Err(e) => Err(Convert(e))
    case Ok(_) =>
      if |rec.measurements| > 0 then Err(NameError("meaure"))
      else
        match InstancesAsWritten(rec.instances)
        case Err(e) => Err(e)
        case Ok(_) => Err(TypeError(SaveArity))
  }

  /** `addItem` as written apart from its missing import: `addReport` is never called, so no access report is kept. */
  function ItemDocAsWritten(item: ItemRec): (r: Result<Item, ConvertError>)
    ensures r.Ok? ==> r.value.accessReports == []
    ensures r.Ok? <==> ItemDoc(item).Ok?
  {
    match ItemDoc(item)
    case Err(e) => Err(e)
    case Ok(doc) => Ok(doc.(accessReports := []))
  }

  /**
   * `parseRecord` as written: past the body checks, it calls `createRecord`
   * with `session`, neither of which is defined there; the handler's
   * `session.rollback()` then raises NameError again, and that escapes
   * `parseRecords`. Nothing is stored or rolled back. The log line after the
   * call also reads `dbRec`, which is bound nowhere either; the corrected
   * `Service.RecordStep` takes `dbRec` to be the record the store returns.
   */
  function RecordStepAsWritten(rec: Service.InboundRecord): (s: Service.StepResult)
    ensures s.ops == []
    ensures Service.WellFormed(rec) ==> s.result == Err(Service.Other("NameError"))
  {
    match Service.ParseRecord(rec)
    case Err(e) => Service.StepResult([], Err(e))
    case Ok(_) => Service.StepResult([], Err(Service.Other("NameError")))
  }

  /**
   * `parseRecords` as written, over the corrected record step: the index
   * connection has no `processBatch`, so a run that no uncaught exception has
   * left raises AttributeError there, and the session is never closed.
   */
  function ParseRecordsAsWritten(records: seq<Service.InboundRecord>, stored: nat -> bool): (s: Service.StepResult)
    ensures s.result.Err?
    ensures Service.Close !in s.ops && Service.ProcessBatch !in s.ops
    ensures !Service.RunUpTo(records, stored, |records|).outcome.Escaped? ==>
      s.result == Err(Service.Other("AttributeError"))
  {
    var run := Service.RunUpTo(records, stored, |records|);
    Service.RunOnlyStoresAndRollsBack(records, stored, |records|);
    Service.StepResult(run.ops,
      Err(Service.Other(if run.outcome.Escaped? then run.outcome.name else "AttributeError")))
  }

  // ------------------------------------------------------------ findings

  /** A resolvable work with one measurement: as written NameError, corrected a document with that measurement. */
  lemma MeasurementTypoAtWork(rec: WorkRec, existing: Option<Work>)
    requires WorkResolves(rec) && |rec.measurements| > 0
    ensures IndexRecordAsWritten(rec) == Err(NameError("meaure"))
    ensures var doc := FlattenWork(BaseFor(rec, existing), rec);
      doc.Ok? && |doc.value.measurements| == |rec.measurements|
  {
  }

  /** An instance with a measurement: as written NameError, corrected a converted instance carrying it. */
  lemma MeasurementTypoInHelper(inst: InstanceRec)
    requires InstanceResolves(inst) && |inst.measurements| > 0
    ensures InstanceAsWritten(inst) == Err(NameError("getatr"))
    ensures InstanceDoc(inst).Ok? && |InstanceDoc(inst).value.measurements| == |inst.measurements|
  {
  }

  /** An instance with an item and no measurements: as written NameError, corrected one Item per item. */
  lemma ItemNotImported(inst: InstanceRec)
    requires InstanceResolves(inst) && |inst.measurements| == 0 && |inst.items| > 0
    ensures InstanceAsWritten(inst) == Err(NameError("Item"))
    ensures InstanceDoc(inst).Ok? && |InstanceDoc(inst).value.items| == |inst.items|
  {
  }

  /** An item with an access report: as written it is dropped, corrected it is kept. */
  lemma ReportsDropped(item: ItemRec)
    requires AllResolve(item.identifiers) && |item.accessReports| > 0
    ensures ItemDocAsWritten(item).Ok? && ItemDocAsWritten(item).value.accessReports == []
    ensures ItemDoc(item).Ok? && |ItemDoc(item).value.accessReports| == |item.accessReports|
  {
  }

  /** A work with nothing that trips the typos: as written `save()` raises TypeError, corrected the document is saved. */
  lemma SaveWithoutSelf(rec: WorkRec, existing: Option<Work>)
    requires AllResolve(rec.identifiers) && |rec.measurements| == 0 && rec.instances == []
    ensures IndexRecordAsWritten(rec) == Err(TypeError(SaveArity))
    ensures FlattenWork(BaseFor(rec, existing), rec).Ok?
  {
  }

  /** A message the dispatcher sends: as written it escapes with NameError, corrected it is stored. */
  lemma UndefinedSession(ref: Dispatch.WorkRef)
    ensures var rec := Service.InboundRecord(Some(Dispatch.MessageFor(ref).body));
      RecordStepAsWritten(rec).result == Err(Service.Other("NameError")) &&
      Service.RecordStep(rec, true) == Service.StepResult([Service.Store(Service.Request("uuid", ref.uuidHex))], Ok(()))
  {
    Service.DispatchedMessageParses(ref);
  }

  /**
   * A single message whose body is not JSON: the corrected run stops at it
   * with DataError and then runs the batch step and the close; as written it
   * raises AttributeError at the batch step instead, and nothing is closed.
   */
  lemma BatchStepMissing(stored: nat -> bool)
    ensures var records := [Service.InboundRecord(Some(Json.Malformed))];
      ParseRecordsAsWritten(records, stored) == Service.StepResult([], Err(Service.Other("AttributeError"))) &&
      Service.RunUpTo(records, stored, 1) == Service.RunState([], Service.Stopped(0, Service.DataError(Service.MalformedJson)))
  {
    var records := [Service.InboundRecord(Some(Json.Malformed))];
    assert Service.RunUpTo(records, stored, 0) == Service.RunState([], Service.Running);
  }
}
