/**
 * ESConnection of lib/esManager.py: `indexRecord` fills the connection's
 * `work` document in place from one work record, and the static `add*`
 * helpers each append one converted entry to a list of the record they are
 * given.
 *
 * A helper that appends to `record.<list>` takes that list and returns the
 * new one; the caller stores it back into the same field, so nothing else on
 * the record can change. Each method is proved to compute the value that the
 * matching function of Convert specifies.
 */
module EsManager {
  import opened Results
  import opened Folds
  import opened ElasticDocs
  import opened SourceRecords
  import opened Convert

  class ESConnection {
    /** The document being indexed (`self.work`); None before the first record. */
    var work: Option<Work>
    /** Every document handed to `save()`, in order. */
    var saved: seq<Work>

    /** The index client and index creation are outside the model. */
    constructor ()
      ensures work == None && saved == []
    {
      work := None;
      saved := [];
    }

    /**
     * Indexes one work record. `existing` is the answer of the fetch by uuid:
     * the stored document, or None when the fetch raised TransportError.
     * Either way the record's document is the one the Convert specification
     * gives; it is saved only when every identifier in the graph resolves.
     */
    method IndexRecord(rec: WorkRec, existing: Option<Work>) returns (r: Result<(), ConvertError>)
      modifies this
      ensures work.Some?
      ensures work.value.id == if existing.Some? then existing.value.id else rec.uuid
      ensures r.Ok? <==> FlattenWork(BaseFor(rec, existing), rec).Ok?
      ensures r.Ok? ==> work == Some(FlattenWork(BaseFor(rec, existing), rec).value) &&
                        saved == old(saved) + [work.value]
      ensures r.Err? ==> r.error == FlattenWork(BaseFor(rec, existing), rec).error
      ensures r.Err? ==> saved == old(saved)
    {
      var base := if existing.Some? then existing.value else Shell(rec.uuid);
      work := Some(base);

      var w := CopyRecordFields(base, rec);
      var titles := AppendAltTitles(w.altTitles, rec.altTitles);
      w := w.(altTitles := titles);
      var subjects := ConvertSubjects(rec.subjects);
      w := w.(subjects := subjects);

      var agents := ConvertAgents(rec.agents);
      w := w.(agents := agents);

      var ids := ConvertIdentifiers(rec.identifiers);
      if ids.Err? {
        assert FlattenWork(base, rec) == Err(ids.error);
        work := Some(w);
        return Err(ids.error);
      }
      w := w.(identifiers := ids.value);

      // the work-level loop builds each entry exactly as `addMeasurement` does
      var measurements := ConvertMeasurements(rec.measurements);
      w := w.(measurements := measurements);

      var links := ConvertLinks(rec.links);
      w := w.(links := links);

      var instances := ConvertInstances(rec.instances);
      if instances.Err? {
        assert FlattenWork(base, rec) == Err(instances.error);
        work := Some(w);
        return Err(instances.error);
      }
      w := w.(instances := instances.value);
      assert FlattenWork(base, rec) == Ok(w);

      work := Some(w);
      saved := saved + [w];
      r := Ok(());
    }

    /**
     * The reflective copy, by name: the record's scalar fields overwrite the
     * document's, then the loaded `issued` and `created` dates are written.
     */
    static method CopyRecordFields(base: Work, rec: WorkRec) returns (w: Work)
      ensures w == base.(
        uuid := rec.uuid, title := rec.title, sortTitle := rec.sortTitle, language := rec.language,
        license := rec.license, rightsStatement := rec.rightsStatement, medium := rec.medium,
        series := rec.series, seriesPosition := rec.seriesPosition,
        issued := DateFor(LoadDates(rec.dates, WorkDates), "issued", base.issued),
        created := DateFor(LoadDates(rec.dates, WorkDates), "created", base.created))
    {
      w := base.(
        uuid := rec.uuid, title := rec.title, sortTitle := rec.sortTitle, language := rec.language,
        license := rec.license, rightsStatement := rec.rightsStatement, medium := rec.medium,
        series := rec.series, seriesPosition := rec.seriesPosition);
      var issued, created := ApplyDates(LoadDates(rec.dates, WorkDates), "issued", "created", w.issued, w.created);
      w := w.(issued := issued, created := created);
    }

    /** The alternative-title loop: appends each title to the titles already there, which are kept. */
    static method AppendAltTitles(titles: seq<string>, alts: seq<AltTitleRec>) returns (r: seq<string>)
      ensures r == titles + Titles(alts)
    {
      r := titles;
      for i := 0 to |alts|
        invariant r == titles + Titles(alts[..i])
      {
        MapStep(alts, TitleOf, i);
        r := r + [alts[i].title];
      }
      assert alts[..|alts|] == alts;
    }

    /** The subject loop: one subject per source subject, no deduplication. */
    static method ConvertSubjects(ss: seq<SubjectRec>) returns (subjects: seq<Subject>)
      ensures subjects == SubjectsOf(ss)
    {
      subjects := [];
      for i := 0 to |ss|
        invariant subjects == SubjectsOf(ss[..i])
      {
        MapStep(ss, SubjectDoc, i);
        var s := ss[i];
        subjects := subjects + [Subject(authority := s.authority, uri := s.uri, subject := s.subject, weight := None)];
      }
      assert ss[..|ss|] == ss;
    }

    /**
     * The date loop: every date `loadDates` returned is written as a range
     * (`gte` the lower end, `lte` the upper end) with its display string; a
     * date it did not return keeps the value the field held.
     */
    static method ApplyDates(dates: map<string, LoadedDate>, first: string, second: string,
                             prior1: Option<DateStamp>, prior2: Option<DateStamp>)
      returns (s1: Option<DateStamp>, s2: Option<DateStamp>)
      requires first != second && dates.Keys <= {first, second}
      ensures first in dates ==>
        s1 == Some(DateStamp(DateRange(dates[first].lower, dates[first].upper), dates[first].display))
      ensures first !in dates ==> s1 == prior1
      ensures second in dates ==>
        s2 == Some(DateStamp(DateRange(dates[second].lower, dates[second].upper), dates[second].display))
      ensures second !in dates ==> s2 == prior2
      ensures s1 == DateFor(dates, first, prior1) && s2 == DateFor(dates, second, prior2)
    {
      s1, s2 := prior1, prior2;
      var todo := dates.Keys;
      while todo != {}
        invariant todo <= dates.Keys
        invariant s1 == if first in dates && first !in todo then Some(Stamp(dates[first])) else prior1
        invariant s2 == if second in dates && second !in todo then Some(Stamp(dates[second])) else prior2
        decreases todo
      {
        var dateType :| dateType in todo;
        var date := dates[dateType];
        var range := DateRange(gte := date.lower, lte := date.upper);
        if dateType == first {
          s1 := Some(DateStamp(range, date.display));
        } else {
          s2 := Some(DateStamp(range, date.display));
        }
        todo := todo - {dateType};
      }
    }

    /**
     * `addIdentifier`: appends the pair of the type tag and the value of the
     * first sub-record under that tag, or raises when there is none.
     */
    static method AddIdentifier(identifiers: seq<Identifier>, rec: IdentifierRec)
      returns (r: Result<seq<Identifier>, ConvertError>)
      ensures r.Ok? <==> Resolves(rec)
      ensures r.Ok? ==> r.value == identifiers + [Identifier(rec.idType, rec.typed[rec.idType][0].value)]
      ensures r.Err? ==> r.error == if rec.idType in rec.typed then NoSubRecord(rec.idType)
                                   else MissingAttribute(rec.idType)
    {
      var idType := rec.idType;
      if idType !in rec.typed {
        return Err(MissingAttribute(idType));
      }
      var subRecords := rec.typed[idType];
      if |subRecords| == 0 {
        return Err(NoSubRecord(idType));
      }
      r := Ok(identifiers + [Identifier(idType := idType, identifier := subRecords[0].value)]);
    }

    /** `addLink`: appends the link's url, media type, relation type and thumbnail. */
    static method AddLink(links: seq<Link>, link: LinkRec) returns (r: seq<Link>)
      ensures r == links + [LinkDoc(link)]
    {
      var newLink := Link(url := link.url, mediaType := link.mediaType, relType := link.relType,
                          thumbnail := link.thumbnail);
      r := links + [newLink];
    }

    /** `addMeasurement`: appends the measurement's four fields. */
    static method AddMeasurement(measurements: seq<Measurement>, m: MeasurementRec) returns (r: seq<Measurement>)
      ensures r == measurements + [MeasurementDoc(m)]
    {
      var newMeasure := Measurement(quantity := m.quantity, value := m.value, weight := m.weight,
                                    takenAt := m.takenAt);
      r := measurements + [newMeasure];
    }

    /**
     * `addAgent`: when an entry already has the agent's exact name, the role
     * is appended to the aliases of the first such entry and nothing else
     * changes; otherwise one new entry is appended at the end.
     */
    static method AddAgent(agents: seq<Agent>, rel: AgentRel) returns (r: seq<Agent>)
      ensures r == AgentStep(agents, rel)
      ensures FindByName(agents, rel.agent.name).Some? ==>
        var k := FindByName(agents, rel.agent.name).value;
        |r| == |agents| && r[k].aliases == agents[k].aliases + [rel.role] &&
        r[k] == agents[k].(aliases := r[k].aliases) &&
        forall j :: 0 <= j < |agents| && j != k ==> r[j] == agents[j]
      ensures FindByName(agents, rel.agent.name).None? ==>
        |r| == |agents| + 1 && r[..|agents|] == agents &&
        r[|agents|].name == rel.agent.name && r[|agents|].role == rel.role &&
        r[|agents|].aliases == AliasNames(rel.agent.aliases)
    {
      var name := rel.agent.name;
      var k := 0;
      while k < |agents| && agents[k].name != name
        invariant 0 <= k <= |agents|
        invariant forall j :: 0 <= j < k ==> agents[j].name != name
      {
        k := k + 1;
      }
      if k < |agents| {
        var existing := agents[k];
        r := agents[k := existing.(aliases := existing.aliases + [rel.role])];
      } else {
        var agent := rel.agent;
        var aliases := [];
        for i := 0 to |agent.aliases|
          invariant aliases == AliasNames(agent.aliases[..i])
        {
          MapStep(agent.aliases, AliasName, i);
          aliases := aliases + [agent.aliases[i].name];
        }
        assert agent.aliases[..|agent.aliases|] == agent.aliases;
        var birth, death := ApplyDates(LoadDates(agent.dates, AgentDates), "birth_date", "death_date", None, None);
        var esAgent := Agent(
          name := agent.name, sortName := agent.sortName, aliases := aliases, lcnaf := agent.lcnaf,
          viaf := agent.viaf, birthDate := birth, deathDate := death, biography := agent.biography,
          role := rel.role, links := []);
        r := agents + [esAgent];
      }
    }

    /** `addReport`: appends the report's fields and its converted measurements. */
    static method AddReport(reports: seq<AccessReport>, rep: ReportRec) returns (r: seq<AccessReport>)
      ensures r == reports + [ReportDoc(rep)]
    {
      var measurements := ConvertMeasurements(rep.measurements);
      r := reports + [AccessReport(aceVersion := rep.aceVersion, score := rep.score, measurements := measurements)];
    }

    /**
     * `addItem`: appends one item carrying its own converted identifiers,
     * agents, links, measurements and access reports, or raises the first
     * identifier error.
     */
    static method AddItem(items: seq<Item>, item: ItemRec) returns (r: Result<seq<Item>, ConvertError>)
      ensures r.Ok? <==> AllResolve(item.identifiers)
      ensures r.Ok? ==> r.value == items + [ItemDoc(item).value]
      ensures r.Err? ==> r.error == ItemDoc(item).error
    {
      var ids := ConvertIdentifiers(item.identifiers);
      if ids.Err? {
        return Err(ids.error);
      }
      var agents := ConvertAgents(item.agents);
      var links := ConvertLinks(item.links);
      var measurements := ConvertMeasurements(item.measurements);
      var reports := ConvertReports(item.accessReports);
      var esItem := Item(
        source := item.source, contentType := item.contentType, modified := item.modified, drm := item.drm,
        rightsUri := item.rightsUri, agents := agents, measurements := measurements,
        identifiers := ids.value, links := links, accessReports := reports);
      r := Ok(items + [esItem]);
    }

    /**
     * `addInstance`: appends one instance carrying its dates and its own
     * converted identifiers, agents, links, measurements and items, or raises
     * the first identifier error met on the instance or on one of its items.
     */
    static method AddInstance(instances: seq<Instance>, inst: InstanceRec)
      returns (r: Result<seq<Instance>, ConvertError>)
      ensures r.Ok? <==> InstanceResolves(inst)
      ensures r.Ok? ==> r.value == instances + [InstanceDoc(inst).value]
      ensures r.Err? ==> r.error == InstanceDoc(inst).error
    {
      var pubDate, copyrightDate :=
        ApplyDates(LoadDates(inst.dates, InstanceDates), "pub_date", "copyright_date", None, None);
      var ids := ConvertIdentifiers(inst.identifiers);
      if ids.Err? {
        return Err(ids.error);
      }
      var agents := ConvertAgents(inst.agents);
      var links := ConvertLinks(inst.links);
      var measurements := ConvertMeasurements(inst.measurements);
      var items := ConvertItems(inst.items);
      if items.Err? {
        return Err(items.error);
      }
      var esInstance := Instance(
        title := inst.title, subTitle := inst.subTitle, altTitles := Titles(inst.altTitles), pubPlace := inst.pubPlace,
        pubDate := pubDate, edition := inst.edition, editionStatement := inst.editionStatement,
        tableOfContents := inst.tableOfContents, copyrightDate := copyrightDate, language := inst.language,
        extent := inst.extent, license := inst.license, rightsStatement := inst.rightsStatement,
        items := items.value, agents := agents, measurements := measurements, identifiers := ids.value,
        links := links);
      r := Ok(instances + [esInstance]);
    }

    // The loops `for x in source.<list>: addX(target, x)`, each over a target list that starts empty.

    static method ConvertAgents(rels: seq<AgentRel>) returns (agents: seq<Agent>)
      ensures agents == AgentsOf(rels)
    {
      agents := [];
      for i := 0 to |rels|
        invariant agents == AgentsOf(rels[..i])
      {
        assert rels[..i + 1][..i] == rels[..i];
        agents := AddAgent(agents, rels[i]);
      }
      assert rels[..|rels|] == rels;
    }

    static method ConvertIdentifiers(recs: seq<IdentifierRec>) returns (r: Result<seq<Identifier>, ConvertError>)
      ensures r == IdentifiersOf(recs)
    {
      var ids := [];
      for i := 0 to |recs|
        invariant IdentifiersOf(recs[..i]) == Ok(ids)
      {
        TraverseStep(recs, IdentifierDoc, i);
        var step := AddIdentifier(ids, recs[i]);
        if step.Err? {
          TraverseStopsAtFailure(recs, IdentifierDoc, i + 1);
          return Err(step.error);
        }
        ids := step.value;
      }
      assert recs[..|recs|] == recs;
      r := Ok(ids);
    }

    static method ConvertLinks(ls: seq<LinkRec>) returns (links: seq<Link>)
      ensures links == LinksOf(ls)
    {
      links := [];
      for i := 0 to |ls|
        invariant links == LinksOf(ls[..i])
      {
        MapStep(ls, LinkDoc, i);
        links := AddLink(links, ls[i]);
      }
      assert ls[..|ls|] == ls;
    }

    static method ConvertMeasurements(ms: seq<MeasurementRec>) returns (measurements: seq<Measurement>)
      ensures measurements == MeasurementsOf(ms)
    {
      measurements := [];
      for i := 0 to |ms|
        invariant measurements == MeasurementsOf(ms[..i])
      {
        MapStep(ms, MeasurementDoc, i);
        measurements := AddMeasurement(measurements, ms[i]);
      }
      assert ms[..|ms|] == ms;
    }

    static method ConvertReports(reps: seq<ReportRec>) returns (reports: seq<AccessReport>)
      ensures reports == ReportsOf(reps)
    {
      reports := [];
      for i := 0 to |reps|
        invariant reports == ReportsOf(reps[..i])
      {
        MapStep(reps, ReportDoc, i);
        reports := AddReport(reports, reps[i]);
      }
      assert reps[..|reps|] == reps;
    }

    static method ConvertItems(items: seq<ItemRec>) returns (r: Result<seq<Item>, ConvertError>)
      ensures r == ItemsOf(items)
    {
      var done := [];
      for i := 0 to |items|
        invariant ItemsOf(items[..i]) == Ok(done)
      {
        TraverseStep(items, ItemDoc, i);
        var step := AddItem(done, items[i]);
        if step.Err? {
          TraverseStopsAtFailure(items, ItemDoc, i + 1);
          return Err(step.error);
        }
        done := step.value;
      }
      assert items[..|items|] == items;
      r := Ok(done);
    }

    static method ConvertInstances(insts: seq<InstanceRec>) returns (r: Result<seq<Instance>, ConvertError>)
      ensures r == InstancesOf(insts)
    {
      var done := [];
      for i := 0 to |insts|
        invariant InstancesOf(insts[..i]) == Ok(done)
      {
        TraverseStep(insts, InstanceDoc, i);
        var step := AddInstance(done, insts[i]);
        if step.Err? {
          TraverseStopsAtFailure(insts, InstanceDoc, i + 1);
          return Err(step.error);
        }
        done := step.value;
      }
      assert insts[..|insts|] == insts;
      r := Ok(done);
    }
  }
}
