/**
 * The source side of the conversion: the relational records of one work as
 * the converter reads them. Only the attributes the converter reads are kept;
 * a scalar attribute that the reflective copy carries over has the same name
 * as the document field it lands in.
 */
module SourceRecords {
  import opened Results
  import opened ElasticDocs

  /** What the record's `loadDates` yields for one date name: a range and a display string. */
  datatype LoadedDate = LoadedDate(lower: Option<string>, upper: Option<string>, display: string)

  datatype MeasurementRec = MeasurementRec(quantity: string, value: real, weight: real, takenAt: string)

  datatype LinkRec = LinkRec(
    url: string, mediaType: string, content: string, md5: string, relType: string, thumbnail: Option<int>)

  datatype SubjectRec = SubjectRec(authority: string, uri: string, subject: string, weight: real)

  datatype TypedValue = TypedValue(value: string)

  /**
   * An identifier row: its type tag and, per tag, the typed sub-records that
   * the attribute of that name holds (`isbn`, `lccn`, ...).
   */
  datatype IdentifierRec = IdentifierRec(idType: string, typed: map<string, seq<TypedValue>>)

  datatype AliasRec = AliasRec(name: string)

  /** `dates` holds what `loadDates` can find for this agent, by date name. */
  datatype AgentRec = AgentRec(
    name: string,
    sortName: string,
    lcnaf: string,
    viaf: string,
    biography: string,
    aliases: seq<AliasRec>,
    dates: map<string, LoadedDate>)

  /** One appearance of an agent on a record, in one role. */
  datatype AgentRel = AgentRel(agent: AgentRec, role: string)

  datatype ReportRec = ReportRec(aceVersion: string, score: real, measurements: seq<MeasurementRec>)

  datatype ItemRec = ItemRec(
    source: string,
    contentType: string,
    modified: Option<DateRange>,
    drm: string,
    rightsUri: string,
    identifiers: seq<IdentifierRec>,
    agents: seq<AgentRel>,
    links: seq<LinkRec>,
    measurements: seq<MeasurementRec>,
    accessReports: seq<ReportRec>)

  datatype InstanceRec = InstanceRec(
    title: string,
    subTitle: string,
    altTitles: seq<AltTitleRec>,
    pubPlace: string,
    edition: string,
    editionStatement: string,
    tableOfContents: string,
    language: string,
    extent: string,
    license: string,
    rightsStatement: string,
    dates: map<string, LoadedDate>,
    identifiers: seq<IdentifierRec>,
    agents: seq<AgentRel>,
    links: seq<LinkRec>,
    measurements: seq<MeasurementRec>,
    items: seq<ItemRec>)

  datatype AltTitleRec = AltTitleRec(title: string)

  datatype WorkRec = WorkRec(
    uuid: string,
    title: string,
    sortTitle: string,
    language: string,
    license: string,
    rightsStatement: string,
    medium: string,
    series: string,
    seriesPosition: int,
    dates: map<string, LoadedDate>,
    altTitles: seq<AltTitleRec>,
    subjects: seq<SubjectRec>,
    agents: seq<AgentRel>,
    identifiers: seq<IdentifierRec>,
    measurements: seq<MeasurementRec>,
    links: seq<LinkRec>,
    instances: seq<InstanceRec>)

  /**
   * `loadDates(names)`: for every requested name the record has a date for,
   * that date; nothing for the others.
   */
  function LoadDates(stored: map<string, LoadedDate>, names: set<string>): (r: map<string, LoadedDate>)
    ensures r.Keys == stored.Keys * names
    ensures forall k :: k in r ==> r[k] == stored[k]
  {
    map k | k in stored && k in names :: stored[k]
  }
}
