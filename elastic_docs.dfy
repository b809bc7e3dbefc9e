/**
 * The search documents the converter produces (the document classes of
 * model/elasticDocs.py). Every class is a value here: the nested collections
 * each level may hold are fixed by its constructor, so a Work has no
 * access reports, an Instance has no subjects, and only an Item carries
 * access reports.
 *
 * A date that the converter writes as the pair `<field>` (a range) and
 * `<field>_display` (free text) is one optional `DateStamp`, since the two are
 * always written together.
 */
module ElasticDocs {
  import opened Results

  /** A date range with optional open ends: the `gte` and `lte` bounds. */
  datatype DateRange = DateRange(gte: Option<string>, lte: Option<string>)

  /** A date range together with its `<field>_display` rendering. */
  datatype DateStamp = DateStamp(range: DateRange, display: string)

  datatype Measurement = Measurement(quantity: string, value: real, weight: real, takenAt: string)

  datatype AccessReport = AccessReport(aceVersion: string, score: real, measurements: seq<Measurement>)

  datatype Subject = Subject(authority: string, uri: string, subject: string, weight: Option<real>)

  /** Exactly the four fields the source link exposes; `content` and `md5` never reach it. */
  datatype Link = Link(url: string, mediaType: string, relType: string, thumbnail: Option<int>)

  /**
   * `role` is not declared on the document class; the converter sets it as a
   * dynamic field, and so does every later role go into `aliases`.
   */
  datatype Agent = Agent(
    name: string,
    sortName: string,
    aliases: seq<string>,
    lcnaf: string,
    viaf: string,
    birthDate: Option<DateStamp>,
    deathDate: Option<DateStamp>,
    biography: string,
    role: string,
    links: seq<Link>)

  datatype Identifier = Identifier(idType: string, identifier: string)

  datatype Item = Item(
    source: string,
    contentType: string,
    modified: Option<DateRange>,
    drm: string,
    rightsUri: string,
    agents: seq<Agent>,
    measurements: seq<Measurement>,
    identifiers: seq<Identifier>,
    links: seq<Link>,
    accessReports: seq<AccessReport>)

  datatype Instance = Instance(
    title: string,
    subTitle: string,
    altTitles: seq<string>,
    pubPlace: string,
    pubDate: Option<DateStamp>,
    edition: string,
    editionStatement: string,
    tableOfContents: string,
    copyrightDate: Option<DateStamp>,
    language: string,
    extent: string,
    license: string,
    rightsStatement: string,
    items: seq<Item>,
    agents: seq<Agent>,
    measurements: seq<Measurement>,
    identifiers: seq<Identifier>,
    links: seq<Link>)

  /**
   * The top-level document; `id` is the document's key in the index (its
   * `meta.id`). `identifiers` is not declared on the document class but the
   * converter fills it.
   */
  datatype Work = Work(
    id: string,
    uuid: string,
    title: string,
    sortTitle: string,
    language: string,
    license: string,
    rightsStatement: string,
    medium: string,
    series: string,
    seriesPosition: int,
    issued: Option<DateStamp>,
    created: Option<DateStamp>,
    altTitles: seq<string>,
    subjects: seq<Subject>,
    agents: seq<Agent>,
    identifiers: seq<Identifier>,
    measurements: seq<Measurement>,
    links: seq<Link>,
    instances: seq<Instance>)
}
