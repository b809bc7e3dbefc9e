/**
 * The conversion of one work graph into one search document, stated as
 * functions: what each `add*` helper of ESConnection appends, and what
 * `indexRecord` leaves in its document. The methods of EsManager are proved
 * to compute exactly these values; the lemmas here say what the values are.
 */
module Convert {
  import opened Results
  import opened Folds
  import opened ElasticDocs
  import opened SourceRecords

  /** What a conversion can raise. */
  datatype ConvertError =
    | MissingAttribute(name: string) // the identifier has no attribute named by its type tag (AttributeError)
    | NoSubRecord(idType: string)    // that attribute holds no sub-record (IndexError on `[0]`)

  // ---------------------------------------------------------------- dates

  const WorkDates: set<string> := {"issued", "created"}
  const AgentDates: set<string> := {"birth_date", "death_date"}
  const InstanceDates: set<string> := {"pub_date", "copyright_date"}

  function Stamp(d: LoadedDate): DateStamp
  {
    DateStamp(DateRange(d.lower, d.upper), d.display)
  }

  /** The value a date field holds after the date loop: the loaded date if there is one, else what it held. */
  function DateFor(dates: map<string, LoadedDate>, name: string, prior: Option<DateStamp>): Option<DateStamp>
  {
    if name in dates then Some(Stamp(dates[name])) else prior
  }

  // ------------------------------------------------------ plain value copies

  function MeasurementDoc(m: MeasurementRec): Measurement
  {
    Measurement(m.quantity, m.value, m.weight, m.takenAt)
  }

  function LinkDoc(l: LinkRec): Link
  {
    Link(l.url, l.mediaType, l.relType, l.thumbnail)
  }

  function SubjectDoc(s: SubjectRec): Subject
  {
    Subject(s.authority, s.uri, s.subject, None)
  }

  function TitleOf(t: AltTitleRec): string { t.title }

  function AliasName(a: AliasRec): string { a.name }

  function MeasurementsOf(ms: seq<MeasurementRec>): (r: seq<Measurement>)
    ensures |r| == |ms|
    ensures forall i :: 0 <= i < |ms| ==>
      r[i].quantity == ms[i].quantity && r[i].value == ms[i].value &&
      r[i].weight == ms[i].weight && r[i].takenAt == ms[i].takenAt
  {
    MapAll(ms, MeasurementDoc)
  }

  function LinksOf(ls: seq<LinkRec>): (r: seq<Link>)
    ensures |r| == |ls|
    ensures forall i :: 0 <= i < |ls| ==>
      r[i].url == ls[i].url && r[i].mediaType == ls[i].mediaType &&
      r[i].relType == ls[i].relType && r[i].thumbnail == ls[i].thumbnail
  {
    MapAll(ls, LinkDoc)
  }

  /** One subject per source subject, duplicates kept; the subject weight is never carried over. */
  function SubjectsOf(ss: seq<SubjectRec>): (r: seq<Subject>)
    ensures |r| == |ss|
    ensures forall i :: 0 <= i < |ss| ==>
      r[i].authority == ss[i].authority && r[i].uri == ss[i].uri &&
      r[i].subject == ss[i].subject && r[i].weight.None?
  {
    MapAll(ss, SubjectDoc)
  }

  function Titles(ts: seq<AltTitleRec>): (r: seq<string>)
    ensures |r| == |ts|
    ensures forall i :: 0 <= i < |ts| ==> r[i] == ts[i].title
  {
    MapAll(ts, TitleOf)
  }

  function AliasNames(aliases: seq<AliasRec>): (r: seq<string>)
    ensures |r| == |aliases|
    ensures forall i :: 0 <= i < |aliases| ==> r[i] == aliases[i].name
  {
    MapAll(aliases, AliasName)
  }

  // ------------------------------------------------------------ identifiers

  /** The identifier's type tag names an attribute that holds at least one sub-record. */
  predicate Resolves(rec: IdentifierRec)
  {
    rec.idType in rec.typed && rec.typed[rec.idType] != []
  }

  predicate AllResolve(recs: seq<IdentifierRec>)
  {
    forall i :: 0 <= i < |recs| ==> Resolves(recs[i])
  }

  function IdentifierDoc(rec: IdentifierRec): Result<Identifier, ConvertError>
  {
    if rec.idType !in rec.typed then Err(MissingAttribute(rec.idType))
    else if rec.typed[rec.idType] == [] then Err(NoSubRecord(rec.idType))
    else Ok(Identifier(rec.idType, rec.typed[rec.idType][0].value))
  }

  /**
   * Succeeds exactly when every identifier resolves, and then holds one
   * identifier per record: its type tag paired with the value of the first
   * sub-record under that tag.
   */
  function IdentifiersOf(recs: seq<IdentifierRec>): (r: Result<seq<Identifier>, ConvertError>)
    ensures r.Ok? <==> AllResolve(recs)
    ensures r.Ok? ==> |r.value| == |recs| && forall i :: 0 <= i < |recs| ==>
      r.value[i] == Identifier(recs[i].idType, recs[i].typed[recs[i].idType][0].value)
  {
    TraverseAll(recs, IdentifierDoc)
  }

  // ----------------------------------------------------------------- agents

  /** A first appearance: the agent's fields, its alias names, its dates, and the appearance's role. */
  function NewAgent(rel: AgentRel): Agent
  {
    var a := rel.agent;
    var dates := LoadDates(a.dates, AgentDates);
    Agent(
      name := a.name,
      sortName := a.sortName,
      aliases := AliasNames(a.aliases),
      lcnaf := a.lcnaf,
      viaf := a.viaf,
      birthDate := DateFor(dates, "birth_date", None),
      deathDate := DateFor(dates, "death_date", None),
      biography := a.biography,
      role := rel.role,
      links := [])
  }

  /** The index of the first entry with this exact name, if any. */
  function FindByName(agents: seq<Agent>, name: string): (r: Option<nat>)
    ensures r.None? <==> forall j :: 0 <= j < |agents| ==> agents[j].name != name
    ensures r.Some? ==> r.value < |agents| && agents[r.value].name == name &&
                        forall j :: 0 <= j < r.value ==> agents[j].name != name
  {
    if agents == [] then None
    else if agents[0].name == name then Some(0)
    else match FindByName(agents[1..], name)
      case None => None
      case Some(k) => Some(k + 1)
  }

  /** `addAgent`: a known name gets the role appended to its aliases; a new name is appended. */
  function AgentStep(agents: seq<Agent>, rel: AgentRel): seq<Agent>
  {
    match FindByName(agents, rel.agent.name)
    case Some(k) => agents[k := agents[k].(aliases := agents[k].aliases + [rel.role])]
    case None => agents + [NewAgent(rel)]
  }

  ghost predicate NamesDistinct(agents: seq<Agent>)
  {
    forall i, j :: 0 <= i < j < |agents| ==> agents[i].name != agents[j].name
  }

  /** The agent list of one record, built from empty by one `addAgent` per appearance. */
  function AgentsOf(rels: seq<AgentRel>): (r: seq<Agent>)
    ensures NamesDistinct(r)
    ensures |r| <= |rels|
  {
    if rels == [] then []
    else AgentStep(AgentsOf(rels[..|rels| - 1]), rels[|rels| - 1])
  }

  function AgentName(a: Agent): string { a.name }

  function RelName(rel: AgentRel): string { rel.agent.name }

  function Names(agents: seq<Agent>): seq<string> { MapAll(agents, AgentName) }

  function RelNames(rels: seq<AgentRel>): seq<string> { MapAll(rels, RelName) }

  /** Reference definition: each name kept at its first occurrence, later repeats dropped. */
  function FirstOccurrences(names: seq<string>): seq<string>
  {
    if names == [] then []
    else
      var init := names[..|names| - 1];
      FirstOccurrences(init) + (if names[|names| - 1] in init then [] else [names[|names| - 1]])
  }

  /** The roles, in order, of the appearances that carry this name. */
  function RolesNamed(rels: seq<AgentRel>, name: string): seq<string>
  {
    if rels == [] then []
    else
      var last := rels[|rels| - 1];
      RolesNamed(rels[..|rels| - 1], name) + (if last.agent.name == name then [last.role] else [])
  }

  // ------------------------------------------------- reports, items, instances

  /** An access report, with its measurements converted one by one (`addReport`). */
  function ReportDoc(rep: ReportRec): AccessReport
  {
    AccessReport(rep.aceVersion, rep.score, MeasurementsOf(rep.measurements))
  }

  function ReportsOf(reps: seq<ReportRec>): (r: seq<AccessReport>)
    ensures |r| == |reps|
    ensures forall i :: 0 <= i < |reps| ==>
      r[i].aceVersion == reps[i].aceVersion && r[i].score == reps[i].score &&
      |r[i].measurements| == |reps[i].measurements|
  {
    MapAll(reps, ReportDoc)
  }

  /** `addItem`: the item's fields and its own converted collections; only identifiers can fail. */
  function ItemDoc(item: ItemRec): (r: Result<Item, ConvertError>)
    ensures r.Ok? <==> AllResolve(item.identifiers)
    ensures r.Ok? ==>
      |r.value.identifiers| == |item.identifiers| && |r.value.links| == |item.links| &&
      |r.value.measurements| == |item.measurements| &&
      |r.value.accessReports| == |item.accessReports| &&
      NamesDistinct(r.value.agents) && |r.value.agents| <= |item.agents|
  {
    match IdentifiersOf(item.identifiers)
    case Err(e) => Err(e)
    case Ok(ids) =>
      Ok(Item(
        source := item.source,
        contentType := item.contentType,
        modified := item.modified,
        drm := item.drm,
        rightsUri := item.rightsUri,
        agents := AgentsOf(item.agents),
        measurements := MeasurementsOf(item.measurements),
        identifiers := ids,
        links := LinksOf(item.links),
        accessReports := ReportsOf(item.accessReports)))
  }

  ghost predicate ItemsResolve(items: seq<ItemRec>)
  {
    forall i :: 0 <= i < |items| ==> AllResolve(items[i].identifiers)
  }

  function ItemsOf(items: seq<ItemRec>): (r: Result<seq<Item>, ConvertError>)
    ensures r.Ok? <==> ItemsResolve(items)
    ensures r.Ok? ==> |r.value| == |items| && forall i :: 0 <= i < |items| ==>
      |r.value[i].identifiers| == |items[i].identifiers| &&
      |r.value[i].accessReports| == |items[i].accessReports|
  {
    TraverseAll(items, ItemDoc)
  }

  ghost predicate InstanceResolves(inst: InstanceRec)
  {
    AllResolve(inst.identifiers) && ItemsResolve(inst.items)
  }

  /**
   * `addInstance`: the instance's fields, its publication and copyright dates,
   * and its own converted identifiers, agents, links, measurements and items.
   */
  function InstanceDoc(inst: InstanceRec): (r: Result<Instance, ConvertError>)
    ensures r.Ok? <==> InstanceResolves(inst)
    ensures r.Ok? ==>
      |r.value.identifiers| == |inst.identifiers| && |r.value.links| == |inst.links| &&
      |r.value.measurements| == |inst.measurements| && |r.value.items| == |inst.items| &&
      NamesDistinct(r.value.agents) && |r.value.agents| <= |inst.agents|
  {
    var dates := LoadDates(inst.dates, InstanceDates);
    match IdentifiersOf(inst.identifiers)
    case Err(e) => Err(e)
    case Ok(ids) =>
      match ItemsOf(inst.items)
      case Err(e) => Err(e)
      case Ok(items) =>
        Ok(Instance(
          title := inst.title,
          subTitle := inst.subTitle,
          altTitles := Titles(inst.altTitles),
          pubPlace := inst.pubPlace,
          pubDate := DateFor(dates, "pub_date", None),
          edition := inst.edition,
          editionStatement := inst.editionStatement,
          tableOfContents := inst.tableOfContents,
          copyrightDate := DateFor(dates, "copyright_date", None),
          language := inst.language,
          extent := inst.extent,
          license := inst.license,
          rightsStatement := inst.rightsStatement,
          items := items,
          agents := AgentsOf(inst.agents),
          measurements := MeasurementsOf(inst.measurements),
          identifiers := ids,
          links := LinksOf(inst.links)))
  }

  ghost predicate InstancesResolve(insts: seq<InstanceRec>)
  {
    forall i :: 0 <= i < |insts| ==> InstanceResolves(insts[i])
  }

  function InstancesOf(insts: seq<InstanceRec>): (r: Result<seq<Instance>, ConvertError>)
    ensures r.Ok? <==> InstancesResolve(insts)
    ensures r.Ok? ==> |r.value| == |insts| && forall i :: 0 <= i < |insts| ==>
      |r.value[i].items| == |insts[i].items| && |r.value[i].identifiers| == |insts[i].identifiers|
  {
    TraverseAll(insts, InstanceDoc)
  }

  // ------------------------------------------------------------------- work

  /** `Work(meta={'id': uuid})`: a new, empty document keyed by the uuid. */
  function Shell(uuid: string): Work
  {
    Work(uuid, "", "", "", "", "", "", "", "", 0, None, None, [], [], [], [], [], [], [])
  }

  /** The document `indexRecord` starts from: the stored one if the fetch found it, else a new shell. */
  function BaseFor(rec: WorkRec, existing: Option<Work>): Work
  {
    if existing.Some? then existing.value else Shell(rec.uuid)
  }

  ghost predicate WorkResolves(rec: WorkRec)
  {
    AllResolve(rec.identifiers) && InstancesResolve(rec.instances)
  }

  /**
   * The document `indexRecord` saves when it starts from `base`: the record's
   * fields copied over, the loaded dates written, the alternative titles
   * appended to those already there, and every collection rebuilt from empty.
   */
  function FlattenWork(base: Work, rec: WorkRec): (r: Result<Work, ConvertError>)
    ensures r.Ok? <==> WorkResolves(rec)
    ensures r.Ok? ==>
      r.value.id == base.id && r.value.uuid == rec.uuid &&
      r.value.altTitles == base.altTitles + Titles(rec.altTitles) &&
      |r.value.subjects| == |rec.subjects| && |r.value.identifiers| == |rec.identifiers| &&
      |r.value.measurements| == |rec.measurements| && |r.value.links| == |rec.links| &&
      |r.value.instances| == |rec.instances| &&
      NamesDistinct(r.value.agents) && |r.value.agents| <= |rec.agents|
  {
    var dates := LoadDates(rec.dates, WorkDates);
    match IdentifiersOf(rec.identifiers)
    case Err(e) => Err(e)
    case Ok(ids) =>
      match InstancesOf(rec.instances)
      case Err(e) => Err(e)
      case Ok(insts) =>
        Ok(base.(
          uuid := rec.uuid,
          title := rec.title,
          sortTitle := rec.sortTitle,
          language := rec.language,
          license := rec.license,
          rightsStatement := rec.rightsStatement,
          medium := rec.medium,
          series := rec.series,
          seriesPosition := rec.seriesPosition,
          issued := DateFor(dates, "issued", base.issued),
          created := DateFor(dates, "created", base.created),
          altTitles := base.altTitles + Titles(rec.altTitles),
          subjects := SubjectsOf(rec.subjects),
          agents := AgentsOf(rec.agents),
          identifiers := ids,
          measurements := MeasurementsOf(rec.measurements),
          links := LinksOf(rec.links),
          instances := insts))
  }
}
