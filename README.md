# sfr-elasticsearch-manager, modelled in Dafny

This project models the indexing core of the SFR Elasticsearch manager. It covers three parts.

- **The work-graph flattener.** `ESConnection.indexRecord` in `lib/esManager.py` fetches or creates a Work document. It copies the source work's fields and writes its dates, then rebuilds every nested collection through the static helpers `addAgent`, `addIdentifier`, `addLink`, `addMeasurement`, `addInstance`, `addItem` and `addReport`, and saves the result.
  - The document shapes of `model/elasticDocs.py` are Dafny datatypes (`ElasticDocs`). The source-store records are datatypes too (`SourceRecords`).
  - The conversion is specified as functions (`Convert`). `EsManager.ESConnection` is the imperative model: `IndexRecord` updates the connection's `work` field and appends to `saved`. Each helper is a method that takes the target list and returns the list after its append; the caller writes it back.
  - Every method is proved to compute its `Convert` function. The lemmas in `AgentDedup` and `WorkDocument` say what those functions mean: one agent entry per distinct name, in first-appearance order, with later roles in its aliases; full replace of the prior document except its key, its alternative titles and any date the record does not load; dates written as ranges.
- **The batch dispatcher** (`IndexingManager`: `addMessage`, `sendMessages`, `loadUpdates`). Its behaviour is taken from `tests/test_esManager.py`.
  - The manager keeps a pending list. A batch call is made whenever ten entries are pending, and once more for the rest.
  - `Dispatch.Plan` is the specification of one run. It is proved to deliver every message once, in order, in batches of at most ten: fifteen works give two calls, and twenty-three give three calls of 10, 10 and 3.
- **The inbound message handler** of `service.py`. `handler` checks the Records block. `parseRecord` classifies a message body into a request or an error. `parseRecords` stops at the first error it catches, then runs the batch step and closes the session. As written, the batch step names a method the index connection does not have (see Findings); the model follows the evident intent and models the written behaviour beside it. The calls a run makes are recorded as a trace.

The nesting facts of `model/elasticDocs.py` hold by construction of the datatypes in `elastic_docs.dfy`:
- subjects exist only on Work;
- only Item carries access reports;
- Agent nests only links, and AccessReport only measurements;
- Identifier is exactly a type and a value;
- Link has exactly url, media type, rel type and thumbnail;
- the seven date fields are ranges, six of them with a display string.

## Model

| member | source | states |
|---|---|---|
| EsManager.ESConnection.IndexRecord | lib/esManager.py:41-98 | the document is the stored one when the fetch found it, else a new one keyed by the uuid. It becomes `FlattenWork` of that start and is saved (appended to `saved`) exactly when every identifier resolves; otherwise the conversion's error is returned and nothing is saved |
| EsManager.ESConnection.CopyRecordFields | lib/esManager.py:50-59 | the record's scalar fields overwrite the document's; `issued`/`created` are written from the loaded dates and keep their prior value when not loaded |
| EsManager.ESConnection.AppendAltTitles | lib/esManager.py:61-62 | the record's alternative titles are appended after those already on the document |
| EsManager.ESConnection.ConvertSubjects | lib/esManager.py:64-70 | one Subject per source subject, in order, with its authority, uri and subject |
| EsManager.ESConnection.ApplyDates | lib/esManager.py:53-59 | for each of the two date names that was loaded, the field becomes the range from lower to upper with its display; an unloaded name keeps its prior value |
| EsManager.ESConnection.AddIdentifier | lib/esManager.py:100-108 | appends exactly one Identifier (type tag, value of the first sub-record under that tag) when the sub-record exists; a missing attribute or an empty sub-record list fails without appending |
| EsManager.ESConnection.AddLink | lib/esManager.py:110-116 | appends exactly one Link carrying url, media type, rel type and thumbnail; the rest of the list is unchanged |
| EsManager.ESConnection.AddMeasurement | lib/esManager.py:118-124 | appends exactly one Measurement with the source's quantity, value, weight and taken-at |
| EsManager.ESConnection.AddAgent | lib/esManager.py:126-151 | a known name appends the role to the aliases of the first entry with that name, changing nothing else (its role included). A new name appends one entry: the name, the alias names in order, the role, and the birth and death dates |
| EsManager.ESConnection.AddReport | lib/esManager.py:205-215 | appends one AccessReport with its own measurements converted |
| EsManager.ESConnection.AddItem | lib/esManager.py:184-203 | appends exactly one Item carrying its own converted identifiers, agents, links, measurements and access reports, or fails as its identifiers do |
| EsManager.ESConnection.AddInstance | lib/esManager.py:153-182 | appends exactly one Instance carrying its dates and its own identifiers, agents, links, measurements and items, or fails as they do |
| EsManager.ESConnection.ConvertAgents | lib/esManager.py:72-74 | the agent loop from an empty list gives `AgentsOf` of the appearances |
| EsManager.ESConnection.ConvertIdentifiers | lib/esManager.py:76-78 | the identifier loop from an empty list gives `IdentifiersOf`, stopping at the first identifier that fails |
| EsManager.ESConnection.ConvertMeasurements | lib/esManager.py:80-87 | the measurement loop from an empty list gives one document per source measurement |
| EsManager.ESConnection.ConvertLinks | lib/esManager.py:89-91 | the link loop from an empty list gives one Link per source link |
| EsManager.ESConnection.ConvertReports | lib/esManager.py:205-215 | one AccessReport per source report, in order |
| EsManager.ESConnection.ConvertItems | lib/esManager.py:179-180 | the item loop gives `ItemsOf`, stopping at the first failing item |
| EsManager.ESConnection.ConvertInstances | lib/esManager.py:93-95 | the instance loop from an empty list gives `InstancesOf`, stopping at the first failing instance |
| Convert.FlattenWork | lib/esManager.py:41-98 | succeeds exactly when every identifier in the graph resolves. It keeps the starting key, takes the record's uuid, and appends the alternative titles to those already there. It rebuilds subjects, identifiers, measurements, links and instances one per source entry, and its agent names are distinct |
| Convert.IdentifiersOf | lib/esManager.py:100-108 | succeeds exactly when every identifier resolves, and then holds, per source identifier, the pair of its tag and the first sub-record's value |
| Convert.AgentsOf | lib/esManager.py:126-151 | starting from empty, the agent names are pairwise distinct and there are at most as many entries as appearances |
| Convert.FindByName | lib/esManager.py:128-130 | finds the first entry with exactly that name, or none when no entry has it |
| Convert.MeasurementsOf | lib/esManager.py:80-87 | one Measurement per source measurement, field by field |
| Convert.LinksOf | lib/esManager.py:110-116 | one Link per source link, field by field |
| Convert.SubjectsOf | lib/esManager.py:64-70 | one Subject per source subject, field by field, without deduplication |
| Convert.Titles | lib/esManager.py:61-62 | one title per alternative-title row, in order |
| Convert.AliasNames | lib/esManager.py:138-139 | one alias per alias row, its name, in order |
| Convert.ReportsOf | lib/esManager.py:205-215 | one AccessReport per source report, with as many measurements as the source |
| Convert.ItemDoc | lib/esManager.py:184-203 | succeeds exactly when the item's identifiers resolve, then with one identifier, link, measurement and access report per source entry and distinct agent names |
| Convert.ItemsOf | lib/esManager.py:179-180 | succeeds exactly when every item's identifiers resolve, then one Item per source item |
| Convert.InstanceDoc | lib/esManager.py:153-182 | succeeds exactly when the instance's identifiers and its items' identifiers resolve, then with one identifier, link, measurement and item per source entry and distinct agent names |
| Convert.InstancesOf | lib/esManager.py:93-95 | succeeds exactly when every instance resolves, then one Instance per source instance |
| SourceRecords.LoadDates | lib/esManager.py:53 | the loaded dates are exactly the requested names the record stores, with the stored values |
| AgentDedup.AgentsOfNames | lib/esManager.py:126-151 | the entries' names are the appearances' names with repeats removed, in first-appearance order; a name has an entry exactly when it appears |
| AgentDedup.AgentsOfEntry | lib/esManager.py:128-151 | the entry of a name is its first appearance converted, with that appearance's role, and its aliases followed by the roles of all later appearances of the name |
| AgentDedup.TwoRolesOneEntry | lib/esManager.py:128-131 | an author who is also editor gives one entry, role "author", aliases ending with "editor" |
| AgentDedup.FirstAppearanceAppends | lib/esManager.py:132-151 | the first appearance of a name appends its conversion at the end |
| AgentDedup.LaterAppearance | lib/esManager.py:128-131 | a later appearance keeps every entry in place, changing only its own name's aliases |
| WorkDocument.PriorDocumentOnlyKeepsKeyTitlesAndDates | lib/esManager.py:43-95 | two starting documents with the same key, alternative titles and dates give the same result: no collection or other field of the stored document survives |
| WorkDocument.UpdateMatchesInsert | lib/esManager.py:43-62 | update mode gives the insert-mode document with the stored key, the stored alternative titles in front, and the stored `issued`/`created` kept wherever the record does not load that date |
| WorkDocument.ReindexAppendsAltTitlesAgain | lib/esManager.py:61-62 | indexing the same record into its own result changes only the alternative titles, which are appended a second time |
| WorkDocument.WorkDatesWritten | lib/esManager.py:53-59 | every loaded `issued`/`created` date is written as lower..upper with its display; an unloaded one keeps the stored value |
| WorkDocument.InstanceAndAgentDatesWritten | lib/esManager.py:141-165 | the same for an instance's publication and copyright dates and an agent's birth and death dates |
| WorkDocument.IdentifierExamples | lib/esManager.py:100-108 | an isbn identifier converts to its pair; an lccn with no sub-record or no attribute fails |
| Json.Loads | service.py:73 | decoding fails exactly on malformed text |
| Json.LoadsDumps | tests/test_esManager.py:49 | decoding an encoded value gives it back |
| Dispatch.MessageFor | tests/test_esManager.py:38-51 | the entry's id is the work's uuid hex, and its body decodes to `type` "uuid" and `identifier` the uuid hex |
| Dispatch.MessagesFor | tests/test_esManager.py:38-51 | one entry per changed work, in order |
| Dispatch.FillCovers | tests/test_esManager.py:22-35 | the batches sent so far, joined, then the pending list, are the old pending list followed by the added messages |
| Dispatch.PlanDeliversAll | tests/test_esManager.py:22-35 | a run's batch calls, joined, are exactly its messages in order: none dropped or duplicated |
| Dispatch.FullBatches | tests/test_esManager.py:22-35 | every send inside the loop carries exactly ten, and fewer than ten stay pending |
| Dispatch.BatchCounts | tests/test_esManager.py:22-35 | n messages give n / 10 full batches and a rest of n % 10 |
| Dispatch.PlanBatchSizes | tests/test_esManager.py:22-35 | every batch call carries between one and ten entries |
| Dispatch.FifteenWorksTwoSends | tests/test_esManager.py:22-35 | fifteen works give two calls, of ten and five, that together are the fifteen messages |
| Dispatch.TwentyThreeWorksThreeSends | tests/test_esManager.py:22-35 | twenty-three works give three calls of 10, 10 and 3 |
| Dispatch.FillPrefix | tests/test_esManager.py:22-35 | the batches sent after n messages are a prefix of those sent after more |
| Dispatch.SendIsPlanned | tests/test_esManager.py:22-35 | a send inside the loop is the next batch of the plan |
| Dispatch.IndexingManager.constructor | tests/test_esManager.py:14-19 | a new manager has no pending entries and has sent nothing |
| Dispatch.IndexingManager.AddMessage | tests/test_esManager.py:38-51 | pending grows by exactly the work's entry; nothing is sent |
| Dispatch.IndexingManager.SendMessages | tests/test_esManager.py:53-73 | one batch call carrying the whole pending list in order; a failed call is an OutputError and keeps the entries, a successful one clears them |
| Dispatch.IndexingManager.Push | tests/test_esManager.py:22-35 | adds the entry, and sends exactly when that makes ten pending |
| Dispatch.IndexingManager.AddAndFlush | tests/test_esManager.py:22-35 | the loop's calls are the full batches of the plan; on a failed call it stops with that batch still pending |
| Dispatch.IndexingManager.LoadUpdates | tests/test_esManager.py:22-35 | succeeds exactly when every call of the plan is accepted, and then has sent the plan and left nothing pending. A failure stops at the first refused call, having sent a prefix of the plan that ends with the refused batch, which stays pending |
| Service.CheckEvent | service.py:29-36 | passes exactly the events with a non-empty Records block; a missing or empty block is NoRecordsReceived |
| Service.ParseRecord | service.py:72-83 | gives the request exactly when the body decodes to an object with `type` and `identifier`. Malformed JSON, a missing body and a missing key are DataError; a body that is not an object raises an uncaught error |
| Service.RecordStep | service.py:66-103 | a well-formed message is stored (`dbRec` taken to be the stored record); a failed store is rolled back and reported as DBError; a malformed message touches nothing |
| Service.RunStaysStopped | service.py:52-58 | once a record stops the run, later records do nothing |
| Service.RunningIffAllStored | service.py:52-58 | the run is still going exactly when every record so far was parsed and stored |
| Service.RunningStoresInOrder | service.py:52-54 | while the run goes on, every record so far parsed and its request was stored, in order |
| Service.StopsAtFirstFailure | service.py:52-58 | a stopped run stopped at the first failing record, with its error, and did nothing for later records |
| Service.DispatchedMessageParses | service.py:72-75 | a message built by the dispatcher is read back as a `uuid` request for that work |
| Service.RunOnlyStoresAndRollsBack | service.py:52-58 | the records loop makes only store and rollback calls |
| Service.Invocation.ParseRecords | service.py:47-63 | the trace is the run's store and rollback calls, then the batch step and the close, unless an uncaught error left early |
| Service.Invocation.Handler | service.py:23-44 | a missing or empty Records block raises NoRecordsReceived with no call made; otherwise as `parseRecords`, the exception that escapes it escaping the handler unchanged |
| AsWritten.IndexRecordAsWritten | lib/esManager.py:41-98 | as written, indexing never reaches a saved document |
| AsWritten.InstanceAsWritten | lib/esManager.py:153-186 | as written, an instance converts only when it has no measurements and no items |
| AsWritten.ItemDocAsWritten | lib/esManager.py:184-203 | as written, an item keeps no access reports |
| AsWritten.RecordStepAsWritten | service.py:85-103 | as written, a well-formed message escapes with NameError and nothing is stored or rolled back |
| AsWritten.MeasurementTypoAtWork | lib/esManager.py:80-87 | a work with a measurement: as written NameError, corrected a document with every measurement |
| AsWritten.MeasurementTypoInHelper | lib/esManager.py:118-124 | an instance with a measurement: as written NameError, corrected an instance with every measurement |
| AsWritten.ItemNotImported | lib/esManager.py:184-186 | an instance with an item: as written NameError, corrected one Item per item |
| AsWritten.ReportsDropped | lib/esManager.py:184-215 | an item with an access report: as written it is dropped, corrected it is kept |
| AsWritten.SaveWithoutSelf | model/elasticDocs.py:22-23 | a work clear of the other defects: as written `save()` raises TypeError, corrected the document is produced and saved |
| AsWritten.UndefinedSession | service.py:90-96 | a dispatched message: as written it escapes with NameError, corrected it is stored |
| AsWritten.ParseRecordsAsWritten | service.py:47-63 | as written, with the record step corrected, every run ends in an uncaught error: AttributeError at the batch step unless an earlier one escaped, with no batch step and no close in its calls |
| AsWritten.BatchStepMissing | service.py:59-63 | one message that is not JSON: the corrected run stops at it with DataError and goes on to the batch step and the close; as written it raises AttributeError and closes nothing |

## Left out

- The Elasticsearch client, index creation and the `Work.get` fetch are network I/O (lib/esManager.py:14-39, 44). The fetch is the parameter `existing`: None stands for TransportError. `save()` is an append to `saved`.
- Logging and `print` are left out.
- The reflective `dir()`/`setattr` copies are modelled as copies of the named scalar fields. Collections start empty and are filled by the helpers. Agent links are left empty, since no helper converts them. An instance's alternative-title rows are copied as their titles. Link keeps only url, media type, rel type and thumbnail. Unset fields of a new document are empty strings, `0` or None rather than the library's defaults.
- `loadDates` lives on the source records, whose code is not part of this model. It is the function `SourceRecords.LoadDates` over each record's stored dates. A date's `<field>` range and `<field>_display` string are one `DateStamp` value.
- lib/dbManager.py (a paged SQL query filtered by the clock and an environment variable) is database I/O. The changed works are the parameter `changed` of `LoadUpdates`.
- The source of `IndexingManager` is not part of this model; the dispatcher is modelled from its tests. The model assumes that the dispatcher sends as soon as exactly ten entries are pending and clears the pending list after a successful send; the tests do not assert either. The queue's answer to the j-th call is the parameter `accepted(j)`, and the queue URL and the AWS client are left out.
- Dispatch.DispatchError: the OutputError message text is not modelled.
- JSON text is modelled by the value it decodes to. Object members are strings, and non-string member values are not modelled.
- Service.ServiceError: the event that NoRecordsReceived carries is not modelled.
- The store's answer for the i-th record of a run is the parameter `stored(i)`. The session factory, the engine and the Lambda wiring (service.py:20) are left out.
- `processBatch` is not defined on ESConnection in lib/esManager.py (see Findings). In the corrected run it is the trace operation `ProcessBatch`, whose effect is not modelled.
- EsManager.ESConnection.IndexRecord: after a failed conversion, the partly filled `work` document is not specified beyond its key.
- Re-indexing a record is meant to leave its document unchanged, but the code never clears `alt_titles`, so re-indexing appends them again. The model follows the code (`WorkDocument.ReindexAppendsAltTitlesAgain`).

## Findings

| source | as written | input that shows it | evidently intended | confidence | as-written member | corrected member |
|---|---|---|---|---|---|---|
| lib/esManager.py:85 | the measurement loop reads `meaure.weight`, an undefined name | a work whose identifiers resolve and which has one measurement | the weight of the current measurement | not executed | AsWritten.MeasurementTypoAtWork | EsManager.ESConnection.ConvertMeasurements |
| lib/esManager.py:122 | `addMeasurement` calls `getatr`, an undefined name | an instance whose identifiers resolve and which has one measurement | `getattr`, copying the measurement's fields | not executed | AsWritten.MeasurementTypoInHelper | EsManager.ESConnection.AddMeasurement |
| lib/esManager.py:184-186 | `addItem` builds `Item()`, which is never imported | an instance with one item and no measurements | an Item document per item | not executed | AsWritten.ItemNotImported | EsManager.ESConnection.AddItem |
| lib/esManager.py:184-215 | `addItem` never calls `addReport`, whose `AccessReport` is also never imported | an item whose identifiers resolve and which has one access report | the item's access reports converted onto its document | not executed | AsWritten.ReportsDropped | Convert.ItemDoc |
| model/elasticDocs.py:22-23 | `save` is declared without `self`, so `self.work.save()` raises TypeError | a work with resolvable identifiers, no measurements and no instances | the document is saved | not executed | AsWritten.SaveWithoutSelf | EsManager.ESConnection.IndexRecord |
| service.py:90-96 | `createRecord` and `session` are undefined in `parseRecord`, and the rollback in the handler raises NameError again, which nothing catches; line 91 also reads `dbRec`, which is bound nowhere, so fixing only the first two names would roll back every stored record and report DBError | the message the dispatcher builds for any work | the record is stored (`dbRec` being the stored record), or rolled back and reported as DBError | not executed | AsWritten.UndefinedSession | Service.RecordStep |
| service.py:60 | `parseRecords` calls `es.processBatch()`, which `ESConnection` (lib/esManager.py:14-215) does not define, so it raises AttributeError and `session.close()` is never reached | a single message whose body is not JSON | the batch step runs and the session is closed | not executed | AsWritten.BatchStepMissing | Service.Invocation.ParseRecords |
