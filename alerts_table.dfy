/** The alerts table under the dashboard: its own search box over the cases the dashboard
    passes in, and what each row shows (stage cell, distinct agent chips, the last three
    timeline events) and the message of an empty table. */
module AlertsTable {
  import opened Wrappers
  import opened Types
  import opened Seqs
  import opened Text
  import opened FraudContext
  import opened MockData
  import opened SwipeCard
  import opened Dashboard

  /** The table search: the query, ignoring case, is part of the student's name, the student
      id or the stage. Flag types are not searched, and there is no special case for the empty
      query. */
  predicate TableMatches(query: string, c: FraudCase) {
    || IncludesIgnoringCase(c.student.name, query)
    || IncludesIgnoringCase(c.student.id, query)
    || IncludesIgnoringCase(StageName(c.stage), query)
  }

  function TableMatchesBy(query: string): FraudCase -> bool {
    (c: FraudCase) => TableMatches(query, c)
  }

  /** The rows of the table: the cases passed in that match the table search, in order. */
  function TableRows(cases: seq<FraudCase>, query: string): (r: seq<FraudCase>)
    ensures IsSubsequence(r, cases)
    ensures forall i :: 0 <= i < |r| ==> TableMatches(query, r[i])
    ensures forall i :: 0 <= i < |cases| ==> (cases[i] in r <==> TableMatches(query, cases[i]))
  {
    Filter(cases, TableMatchesBy(query))
  }

  /** Every string contains the empty query, so an empty table search keeps every case. */
  lemma EmptyTableSearchKeepsAll(cases: seq<FraudCase>)
    ensures TableRows(cases, "") == cases
  {
    forall i | 0 <= i < |cases| ensures TableMatches("", cases[i]) {
      EmptyIsIncluded(cases[i].student.name);
    }
    FilterAll(cases, TableMatchesBy(""));
  }

  /** The table search is narrower than the dashboard's: whatever it matches the dashboard's
      search matches too. */
  lemma TableSearchImpliesDashboardSearch(query: string, c: FraudCase)
    ensures TableMatches(query, c) ==> MatchesSearch(query, c)
  {
  }

  /** Strictly narrower: 'no_lms' finds CASE002 on the dashboard through its flag type
      'no_lms_activity', but the table does not find it, since neither 'sarah williams',
      'stu002' nor 'financial_aid' has an 'o'. */
  lemma TableIgnoresFlagTypes()
    ensures MatchesSearch("no_lms", Case002)
    ensures !TableMatches("no_lms", Case002)
  {
    assert MatchesSearch("no_lms", Case002) by { NoLmsMatchesFlag(); }
    assert !TableMatches("no_lms", Case002) by { NoLmsMissesTexts(); }
  }

  lemma NoLmsMatchesFlag()
    ensures FlagTypeMatches(Case002, "no_lms")
  {
    var q := "no_lms";
    assert Lower(q) == q;
    var t := FlagTypeName(Case002.flags[0].flagType);
    assert t == "no_lms_activity";
    assert Lower(t)[..|q|] == q;
    IncludesAt(Lower(t), Lower(q), 0);
  }

  lemma NoLmsMissesTexts()
    ensures !TableMatches("no_lms", Case002)
  {
    var q := "no_lms";
    assert Lower(q) == q;
    var c := Case002;
    assert c.student == Student002 && c.stage == FinancialAid;
    assert Lower(q)[1] !in Lower(c.student.name);
    assert Lower(q)[1] !in Lower(c.student.id);
    assert Lower(q)[1] !in Lower(StageName(c.stage));
    LackingTextMisses(c.student.name, q);
    LackingTextMisses(c.student.id, q);
    LackingTextMisses(StageName(c.stage), q);
  }

  /** What the table lists: dashboard filters first, then the table search. Every row is a
      store case that passes both, and the rows keep store order. */
  lemma DisplayedRows(s: State, query: string)
    ensures var r := TableRows(FilteredCases(s), query);
      && (forall i :: 0 <= i < |r| ==>
            r[i] in s.fraudCases && Shown(s.filterStatus, s.searchQuery, r[i]) && TableMatches(query, r[i]))
      && (forall i :: 0 <= i < |s.fraudCases| ==>
            (s.fraudCases[i] in r <==>
               Shown(s.filterStatus, s.searchQuery, s.fraudCases[i]) && TableMatches(query, s.fraudCases[i])))
  {
  }

  /** The stage cell: the stage name with its underscore as a space. */
  function StageCell(s: Stage): (r: string)
    ensures SpacedCopy(StageName(s), r)
  {
    SpacedStageSpec(s);
    SpacedStage(s)
  }

  /** The agent of every flag, in flag order. */
  function FlagAgents(flags: seq<FraudFlag>): (r: seq<AgentType>)
    ensures |r| == |flags|
    ensures forall i :: 0 <= i < |flags| ==> r[i] == flags[i].triggeredBy
  {
    seq(|flags|, i requires 0 <= i < |flags| => flags[i].triggeredBy)
  }

  /** The agent chips of a row: each agent that raised a flag of the case, once, in the order
      of its first flag. */
  function AgentChips(c: FraudCase): (r: seq<AgentType>)
    ensures forall i :: 0 <= i < |c.flags| ==> c.flags[i].triggeredBy in r
    ensures forall i :: 0 <= i < |r| ==> r[i] in FlagAgents(c.flags)
    ensures NoDuplicates(r)
    ensures forall i, j :: 0 <= i < j < |r| ==>
              FirstIndex(FlagAgents(c.flags), r[i]) < FirstIndex(FlagAgents(c.flags), r[j])
    ensures |r| <= |c.flags|
  {
    Distinct(FlagAgents(c.flags))
  }

  /** The agent chip's text: the agent name with its first `Agent` removed. */
  function AgentLabel(a: AgentType): string {
    ReplaceFirst(AgentName(a), "Agent", "")
  }

  /** An agent name made of a prefix without a `g` and the suffix `Agent` loses exactly the
      suffix. */
  lemma StripAgentSuffix(a: AgentType, prefix: string)
    requires AgentName(a) == prefix + "Agent" && 'g' !in prefix
    ensures AgentLabel(a) == prefix
  {
    ReplaceFirstAtEnd(prefix, "Agent", "");
  }

  /** Every agent name ends in `Agent` and has no earlier `Agent`, so its chip text is the
      name without that suffix. */
  lemma AgentLabelSpec(a: AgentType)
    ensures AgentName(a) == AgentLabel(a) + "Agent"
    ensures AgentLabel(a) != ""
  {
    match a
    case ApplicationAgent => StripAgentSuffix(a, "Application");
    case MemoryAgent => StripAgentSuffix(a, "Memory");
    case EscalationAgent => StripAgentSuffix(a, "Escalation");
    case ExplainerAgent => StripAgentSuffix(a, "Explainer");
  }

  /** Different agents get different chips. */
  lemma AgentLabelInjective(a: AgentType, b: AgentType)
    requires AgentLabel(a) == AgentLabel(b)
    ensures a == b
  {
    AgentLabelSpec(a);
    AgentLabelSpec(b);
  }

  /** The dots of the mini timeline: the last three events, in order. */
  function MiniTimeline(timeline: seq<TimelineEvent>): seq<TimelineEvent> {
    TakeLast(timeline, 3)
  }

  /** `+N` after the dots, shown only when there are more than three events. */
  function TimelineOverflow(timeline: seq<TimelineEvent>): Option<nat> {
    if |timeline| > 3 then Some(|timeline| - 3) else None
  }

  /** The hidden events and the dots are the whole timeline: the overflow counts exactly the
      events before the last three. */
  lemma MiniTimelineAccountsForAll(timeline: seq<TimelineEvent>)
    ensures |MiniTimeline(timeline)| <= 3
    ensures var n := TimelineOverflow(timeline).GetOr(0);
            n + |MiniTimeline(timeline)| == |timeline| && timeline == timeline[..n] + MiniTimeline(timeline)
    ensures TimelineOverflow(timeline).Some? <==> |MiniTimeline(timeline)| < |timeline|
  {
  }

  /** The message under an empty table. A query that is non-empty is truthy. */
  function EmptyMessage(rows: seq<FraudCase>, query: string): (m: Option<string>)
    ensures m.Some? <==> rows == []
    ensures m == Some("No cases match your search.") <==> rows == [] && query != ""
  {
    if |rows| != 0 then None
    else if query != "" then Some("No cases match your search.")
    else Some("No fraud cases found.")
  }

  /** Without a table search the empty-table message only says that no case was passed in. */
  lemma NoSearchMeansNoCases(cases: seq<FraudCase>)
    ensures EmptyMessage(TableRows(cases, ""), "") == (if cases == [] then Some("No fraud cases found.") else None)
  {
    EmptyTableSearchKeepsAll(cases);
  }
}
