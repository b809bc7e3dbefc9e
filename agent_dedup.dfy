/**
 * What the agent list of one record looks like after one `addAgent` per
 * appearance, starting from empty: one entry per distinct name, in the order
 * the names first appear; that entry is the first appearance converted, with
 * the roles of all later appearances of the name appended to its aliases.
 */
module AgentDedup {
  import opened Results
  import opened Folds
  import opened ElasticDocs
  import opened SourceRecords
  import opened Convert

  lemma NamesOfPrefix(rels: seq<AgentRel>)
    requires rels != []
    ensures RelNames(rels) == RelNames(rels[..|rels| - 1]) + [rels[|rels| - 1].agent.name]
  {
    MapStep(rels, RelName, |rels| - 1);
    assert rels[..|rels|] == rels;
  }

  /** Merging a role into entry `k` changes no name. */
  lemma NamesAfterMerge(agents: seq<Agent>, k: nat, role: string)
    requires k < |agents|
    ensures Names(agents[k := agents[k].(aliases := agents[k].aliases + [role])]) == Names(agents)
  {
  }

  lemma NamesAfterAppend(agents: seq<Agent>, a: Agent)
    ensures Names(agents + [a]) == Names(agents) + [a.name]
  {
  }

  /** The agent list holds exactly the names that appear, each at its first appearance. */
  lemma {:induction false} AgentsOfNames(rels: seq<AgentRel>)
    ensures Names(AgentsOf(rels)) == FirstOccurrences(RelNames(rels))
    ensures forall n :: n in Names(AgentsOf(rels)) <==> n in RelNames(rels)
  {
    if rels != [] {
      var init, x := rels[..|rels| - 1], rels[|rels| - 1];
      AgentsOfNames(init);
      NamesOfPrefix(rels);
      var a := AgentsOf(init);
      var names := RelNames(rels);
      assert names[..|names| - 1] == RelNames(init);
      match FindByName(a, x.agent.name)
      case Some(k) =>
        NamesAfterMerge(a, k, x.role);
        assert x.agent.name in Names(a);
      case None =>
        NamesAfterAppend(a, NewAgent(x));
        assert x.agent.name !in Names(a);
    }
  }

  /** Only the entry named by the appearance can change; all others are kept. */
  lemma StepKeepsOtherEntries(agents: seq<Agent>, rel: AgentRel, k: nat)
    requires k < |agents| && agents[k].name != rel.agent.name
    ensures k < |AgentStep(agents, rel)| && AgentStep(agents, rel)[k] == agents[k]
  {
  }

  /** Entries before an appended entry keep their first-match positions. */
  lemma FindAfterStep(agents: seq<Agent>, rel: AgentRel, name: string, k: nat)
    requires FindByName(agents, name) == Some(k)
    ensures FindByName(AgentStep(agents, rel), name) == Some(k)
  {
    var after := AgentStep(agents, rel);
    assert forall j :: 0 <= j < |agents| ==> after[j].name == agents[j].name;
  }

  /** A name absent from the appearances is absent from the agent list. */
  lemma AbsentNameNotFound(rels: seq<AgentRel>, name: string)
    requires forall j :: 0 <= j < |rels| ==> rels[j].agent.name != name
    ensures FindByName(AgentsOf(rels), name).None?
  {
    AgentsOfNames(rels);
    var a := AgentsOf(rels);
    assert forall j :: 0 <= j < |rels| ==> RelNames(rels)[j] != name;
    assert name !in RelNames(rels);
    assert name !in Names(a);
    assert forall j :: 0 <= j < |a| ==> a[j].name == Names(a)[j];
  }

  lemma FoundAtEnd(agents: seq<Agent>, b: Agent)
    requires FindByName(agents, b.name).None?
    ensures FindByName(agents + [b], b.name) == Some(|agents|)
  {
    var all := agents + [b];
    assert all[|agents|].name == b.name;
    assert forall j :: 0 <= j < |agents| ==> all[j].name != b.name;
  }

  /** The first appearance of a name appends its conversion at the end. */
  lemma FirstAppearanceAppends(rels: seq<AgentRel>)
    requires rels != []
    requires forall j :: 0 <= j < |rels| - 1 ==> rels[j].agent.name != rels[|rels| - 1].agent.name
    ensures var name := rels[|rels| - 1].agent.name;
      var after := AgentsOf(rels);
      FindByName(after, name) == Some(|after| - 1) && after[|after| - 1] == NewAgent(rels[|rels| - 1])
  {
    var init, x := rels[..|rels| - 1], rels[|rels| - 1];
    assert forall j :: 0 <= j < |init| ==> init[j].agent.name != x.agent.name;
    AbsentNameNotFound(init, x.agent.name);
    var a := AgentsOf(init);
    var b := NewAgent(x);
    assert AgentsOf(rels) == AgentStep(a, x) == a + [b];
    FoundAtEnd(a, b);
  }

  /** A later appearance leaves the entry of another name as it was, and appends its role to its own. */
  lemma LaterAppearance(rels: seq<AgentRel>, name: string, k: nat)
    requires rels != []
    requires FindByName(AgentsOf(rels[..|rels| - 1]), name) == Some(k)
    ensures var x := rels[|rels| - 1];
      var before := AgentsOf(rels[..|rels| - 1])[k];
      FindByName(AgentsOf(rels), name) == Some(k) &&
      AgentsOf(rels)[k] == if x.agent.name == name then before.(aliases := before.aliases + [x.role]) else before
  {
    var init, x := rels[..|rels| - 1], rels[|rels| - 1];
    var a := AgentsOf(init);
    FindAfterStep(a, x, name, k);
    if x.agent.name != name {
      StepKeepsOtherEntries(a, x, k);
    }
  }

  lemma RolesNamedSnoc(rels: seq<AgentRel>, from: nat, name: string)
    requires from < |rels|
    ensures var x := rels[|rels| - 1];
      RolesNamed(rels[from..], name) ==
        RolesNamed(rels[..|rels| - 1][from..], name) + (if x.agent.name == name then [x.role] else [])
  {
    var s := rels[from..];
    assert s[..|s| - 1] == rels[..|rels| - 1][from..];
  }

  /** The alias bookkeeping of one more appearance, apart from the agent list itself. */
  lemma AliasesExtend(before: Agent, after: Agent, first: Agent, earlier: seq<string>, later: seq<string>,
                      x: AgentRel, name: string)
    requires before == first.(aliases := first.aliases + earlier)
    requires after == if x.agent.name == name then before.(aliases := before.aliases + [x.role]) else before
    requires later == earlier + (if x.agent.name == name then [x.role] else [])
    ensures after == first.(aliases := first.aliases + later)
  {
    if x.agent.name == name {
      assert first.aliases + earlier + [x.role] == first.aliases + (earlier + [x.role]);
    } else {
      assert earlier + [] == earlier;
    }
  }

  /** The property of AgentsOfEntry, for one appearance `f` of the whole list. */
  ghost predicate EntryOf(rels: seq<AgentRel>, f: nat)
    requires f < |rels|
  {
    var name := rels[f].agent.name;
    var first := NewAgent(rels[f]);
    FindByName(AgentsOf(rels), name).Some? &&
    AgentsOf(rels)[FindByName(AgentsOf(rels), name).value] ==
      first.(aliases := first.aliases + RolesNamed(rels[f + 1..], name))
  }

  /** The base case: `f` is the last appearance, and the first of its name. */
  lemma EntryOfLast(rels: seq<AgentRel>)
    requires rels != []
    requires forall j :: 0 <= j < |rels| - 1 ==> rels[j].agent.name != rels[|rels| - 1].agent.name
    ensures EntryOf(rels, |rels| - 1)
  {
    var first := NewAgent(rels[|rels| - 1]);
    FirstAppearanceAppends(rels);
    assert rels[|rels|..] == [];
    assert first.aliases + [] == first.aliases;
  }

  /** The step: what holds for `f` without the last appearance holds with it. */
  lemma EntryOfSnoc(rels: seq<AgentRel>, f: nat)
    requires f < |rels| - 1
    requires EntryOf(rels[..|rels| - 1], f)
    ensures EntryOf(rels, f)
  {
    var init := rels[..|rels| - 1];
    var name := rels[f].agent.name;
    assert init[f] == rels[f];
    var k := FindByName(AgentsOf(init), name).value;
    LaterAppearance(rels, name, k);
    RolesNamedSnoc(rels, f + 1, name);
    AliasesExtend(AgentsOf(init)[k], AgentsOf(rels)[k], NewAgent(rels[f]), RolesNamed(init[f + 1..], name),
      RolesNamed(rels[f + 1..], name), rels[|rels| - 1], name);
  }

  /**
   * The entry for the name of appearance `f`, the first appearance of that
   * name: it is appearance `f` converted, its role is that appearance's role,
   * and the roles of every later appearance of the name follow its aliases.
   */
  lemma {:induction false} AgentsOfEntry(rels: seq<AgentRel>, f: nat)
    requires f < |rels|
    requires forall j :: 0 <= j < f ==> rels[j].agent.name != rels[f].agent.name
    ensures var name := rels[f].agent.name;
      FindByName(AgentsOf(rels), name).Some? &&
      var first := NewAgent(rels[f]);
      AgentsOf(rels)[FindByName(AgentsOf(rels), name).value] ==
        first.(aliases := first.aliases + RolesNamed(rels[f + 1..], name))
  {
    if f == |rels| - 1 {
      EntryOfLast(rels);
    } else {
      var init := rels[..|rels| - 1];
      assert init[f] == rels[f];
      AgentsOfEntry(init, f);
      EntryOfSnoc(rels, f);
    }
  }

  /**
   * The worked case: two appearances of one name, as "author" and then as
   * "editor", give one entry whose role is "author" and whose aliases end
   * with "editor".
   */
  lemma TwoRolesOneEntry(agent: AgentRec)
    ensures var rels := [AgentRel(agent, "author"), AgentRel(agent, "editor")];
      |AgentsOf(rels)| == 1 &&
      AgentsOf(rels)[0].name == agent.name &&
      AgentsOf(rels)[0].role == "author" &&
      AgentsOf(rels)[0].aliases == AliasNames(agent.aliases) + ["editor"]
  {
    var rels := [AgentRel(agent, "author"), AgentRel(agent, "editor")];
    assert rels[..1] == [rels[0]];
    assert [rels[0]][..0] == [];
    assert AgentsOf([rels[0]]) == [NewAgent(rels[0])];
  }
}
