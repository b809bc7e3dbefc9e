/**
 * What `indexRecord` does to a stored document: which parts of the document
 * it started from survive, what indexing the same record twice gives, and the
 * dates and identifiers of the result.
 */
module WorkDocument {
  import opened Results
  import opened ElasticDocs
  import opened SourceRecords
  import opened Convert

  /**
   * Full replace: of the document indexing starts from, only its key, its
   * alternative titles and the dates the record does not load can reach the
   * result. Its subjects, agents, identifiers, measurements, links, instances
   * and other fields never do.
   */
  lemma PriorDocumentOnlyKeepsKeyTitlesAndDates(b1: Work, b2: Work, rec: WorkRec)
    requires b1.id == b2.id && b1.altTitles == b2.altTitles
    requires b1.issued == b2.issued && b1.created == b2.created
    ensures FlattenWork(b1, rec) == FlattenWork(b2, rec)
  {
  }

  /**
   * Update mode and insert mode give the same document, up to the key, the
   * alternative titles (the stored document's come first) and the dates the
   * record does not load (the stored document's survive).
   */
  lemma UpdateMatchesInsert(rec: WorkRec, stored: Work)
    requires FlattenWork(BaseFor(rec, None), rec).Ok?
    ensures var inserted := FlattenWork(BaseFor(rec, None), rec).value;
      var loaded := LoadDates(rec.dates, WorkDates);
      FlattenWork(BaseFor(rec, Some(stored)), rec) ==
        Ok(inserted.(id := stored.id, altTitles := stored.altTitles + inserted.altTitles,
                     issued := DateFor(loaded, "issued", stored.issued),
                     created := DateFor(loaded, "created", stored.created)))
  {
    var inserted := FlattenWork(Shell(rec.uuid), rec).value;
    assert inserted.altTitles == [] + Titles(rec.altTitles);
    assert [] + Titles(rec.altTitles) == Titles(rec.altTitles);
  }

  /**
   * Indexing the same record again into the document it produced changes
   * nothing but the alternative titles, which are appended a second time:
   * the titles are never cleared before they are refilled.
   */
  lemma ReindexAppendsAltTitlesAgain(base: Work, rec: WorkRec)
    requires FlattenWork(base, rec).Ok?
    ensures var w := FlattenWork(base, rec).value;
      FlattenWork(w, rec) == Ok(w.(altTitles := w.altTitles + Titles(rec.altTitles)))
  {
  }

  /**
   * Every date `loadDates` returns for `issued` or `created` is written as
   * a range from its lower to its upper end, with its display string; a date
   * it does not return keeps the stored value.
   */
  lemma WorkDatesWritten(base: Work, rec: WorkRec)
    requires FlattenWork(base, rec).Ok?
    ensures var w := FlattenWork(base, rec).value;
      (forall n | n in {"issued", "created"} ::
        var field := if n == "issued" then w.issued else w.created;
        var prior := if n == "issued" then base.issued else base.created;
        if n in rec.dates then
          field == Some(DateStamp(DateRange(rec.dates[n].lower, rec.dates[n].upper), rec.dates[n].display))
        else field == prior)
  {
  }

  /** Publication and copyright dates of an instance, and birth and death dates of an agent. */
  lemma InstanceAndAgentDatesWritten(inst: InstanceRec, rel: AgentRel)
    requires InstanceDoc(inst).Ok?
    ensures var i := InstanceDoc(inst).value;
      (if "pub_date" in inst.dates then i.pubDate == Some(Stamp(inst.dates["pub_date"])) else i.pubDate.None?) &&
      (if "copyright_date" in inst.dates then i.copyrightDate == Some(Stamp(inst.dates["copyright_date"]))
       else i.copyrightDate.None?)
    ensures var a := NewAgent(rel); var d := rel.agent.dates;
      (if "birth_date" in d then a.birthDate == Some(Stamp(d["birth_date"])) else a.birthDate.None?) &&
      (if "death_date" in d then a.deathDate == Some(Stamp(d["death_date"])) else a.deathDate.None?)
  {
  }

  /**
   * An `isbn` identifier with an ISBN sub-record converts to the pair of the
   * tag and that value; an `lccn` identifier with no sub-record fails instead.
   */
  lemma IdentifierExamples()
    ensures IdentifiersOf([IdentifierRec("isbn", map["isbn" := [TypedValue("9780143127741")]])]) ==
            Ok([Identifier("isbn", "9780143127741")])
    ensures IdentifiersOf([IdentifierRec("lccn", map["lccn" := []])]) == Err(NoSubRecord("lccn"))
    ensures IdentifiersOf([IdentifierRec("lccn", map["isbn" := [TypedValue("9780143127741")]])]) ==
            Err(MissingAttribute("lccn"))
  {
    var ok := [IdentifierRec("isbn", map["isbn" := [TypedValue("9780143127741")]])];
    assert ok[..0] == [];
    var r := IdentifiersOf(ok);
    assert AllResolve(ok);
    assert |r.value| == 1 && r.value[0] == Identifier("isbn", "9780143127741");
    assert r.value == [Identifier("isbn", "9780143127741")];
    var empty := [IdentifierRec("lccn", map["lccn" := []])];
    assert empty[..0] == [];
    var missing := [IdentifierRec("lccn", map["isbn" := [TypedValue("9780143127741")]])];
    assert missing[..0] == [];
  }
}
