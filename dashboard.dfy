/** The dashboard: the KPI cards, whose click sets the shared status filter and search query,
    and the list of cases the dashboard hands to the alerts table, which passes both. */
module Dashboard {
  import opened Wrappers
  import opened Types
  import opened Seqs
  import opened Text
  import opened FraudContext
  import opened MockData

  /** The filter actions a click on the KPI card `kpi` dispatches. The cards are 'total',
      'financial', 'ghost' and 'escalated'; every other value takes the default branch. */
  function KpiDispatches(kpi: string): seq<Action> {
    if kpi == "financial" then [SetFilterStatus(OnlyPending), SetSearchQuery("financial_aid")]
    else if kpi == "ghost" then [SetSearchQuery("no_lms_activity")]
    else if kpi == "escalated" then [SetFilterStatus(OnlyEscalated)]
    else [SetFilterStatus(AllStatuses), SetSearchQuery("")]
  }

  /** The highlighted card after a click on `kpi`: a click on the highlighted card clears the
      highlight, a click on any other card moves it there. */
  function ToggledKpi(active: Option<string>, kpi: string): (r: Option<string>)
    ensures r.None? <==> active == Some(kpi)
    ensures r.Some? ==> r.value == kpi
  {
    if active == Some(kpi) then None else Some(kpi)
  }

  /** Each card sets its own filter pair and nothing else: 'financial' sets both, 'ghost' only
      the query, 'escalated' only the status, and every other value restores both defaults. */
  lemma KpiClickEffect(s: State, kpi: string)
    ensures var r := ApplyAll(s, KpiDispatches(kpi));
      && r.(filterStatus := s.filterStatus, searchQuery := s.searchQuery) == s
      && (kpi == "financial" ==> r.filterStatus == OnlyPending && r.searchQuery == "financial_aid")
      && (kpi == "ghost" ==> r.filterStatus == s.filterStatus && r.searchQuery == "no_lms_activity")
      && (kpi == "escalated" ==> r.filterStatus == OnlyEscalated && r.searchQuery == s.searchQuery)
      && (kpi != "financial" && kpi != "ghost" && kpi != "escalated" ==>
            r.filterStatus == AllStatuses && r.searchQuery == "")
  {
    var d := KpiDispatches(kpi);
    if |d| == 1 {
      ApplyAllShort(s, d[0], d[0]);
    } else {
      ApplyAllShort(s, d[0], d[1]);
    }
  }

  /** A second click dispatches the same values again, so it changes no filter. */
  lemma KpiClickIdempotent(s: State, kpi: string)
    ensures ApplyAll(ApplyAll(s, KpiDispatches(kpi)), KpiDispatches(kpi)) == ApplyAll(s, KpiDispatches(kpi))
  {
    KpiClickEffect(s, kpi);
    KpiClickEffect(ApplyAll(s, KpiDispatches(kpi)), kpi);
  }

  /** Clicking the same card twice clears the highlight but keeps the filters the first click
      set: for 'financial' the status stays 'pending' and the query 'financial_aid'. */
  lemma SecondClickKeepsFilters(s: State, active: Option<string>, kpi: string)
    requires active != Some(kpi)
    ensures ToggledKpi(ToggledKpi(active, kpi), kpi) == None
    ensures ApplyAll(ApplyAll(s, KpiDispatches(kpi)), KpiDispatches(kpi)) == ApplyAll(s, KpiDispatches(kpi))
    ensures kpi == "financial" ==>
              var r := ApplyAll(ApplyAll(s, KpiDispatches(kpi)), KpiDispatches(kpi));
              r.filterStatus == OnlyPending && r.searchQuery == "financial_aid"
  {
    KpiClickIdempotent(s, kpi);
    KpiClickEffect(s, kpi);
  }

  /** Some flag of the case has a type that contains the query. */
  predicate FlagTypeMatches(c: FraudCase, query: string) {
    exists k :: 0 <= k < |c.flags| && IncludesIgnoringCase(FlagTypeName(c.flags[k].flagType), query)
  }

  /** The dashboard search: an empty query matches every case; otherwise the query, ignoring
      case, is part of the student's name, the student id, the stage or some flag type. */
  predicate MatchesSearch(query: string, c: FraudCase) {
    || query == ""
    || IncludesIgnoringCase(c.student.name, query)
    || IncludesIgnoringCase(c.student.id, query)
    || IncludesIgnoringCase(StageName(c.stage), query)
    || FlagTypeMatches(c, query)
  }

  /** A case passes both the status filter and the search. */
  predicate Shown(f: FilterStatus, query: string, c: FraudCase) {
    FilterAdmits(f, c.status) && MatchesSearch(query, c)
  }

  function ShownBy(f: FilterStatus, query: string): FraudCase -> bool {
    (c: FraudCase) => Shown(f, query, c)
  }

  /** `filteredCases`: the store's cases that pass the current filter and search, in store
      order. */
  function FilteredCases(s: State): (r: seq<FraudCase>)
    ensures IsSubsequence(r, s.fraudCases)
    ensures forall i :: 0 <= i < |r| ==> Shown(s.filterStatus, s.searchQuery, r[i])
    ensures forall i :: 0 <= i < |s.fraudCases| ==>
              (s.fraudCases[i] in r <==> Shown(s.filterStatus, s.searchQuery, s.fraudCases[i]))
  {
    Filter(s.fraudCases, ShownBy(s.filterStatus, s.searchQuery))
  }

  /** With the default filters the dashboard lists every case. */
  lemma DefaultFiltersShowEverything(s: State)
    requires s.filterStatus == AllStatuses && s.searchQuery == ""
    ensures FilteredCases(s) == s.fraudCases
  {
    FilterAll(s.fraudCases, ShownBy(s.filterStatus, s.searchQuery));
  }

  /** The status filter alone: a non-empty query can only narrow the list further. */
  lemma FilterNarrowsByStatus(s: State, i: nat)
    requires i < |FilteredCases(s)|
    ensures FilterAdmits(s.filterStatus, FilteredCases(s)[i].status)
    ensures FilteredCases(s)[i] in s.fraudCases
  {
  }

  /** A pending Alex Johnson and an escalated Sarah Williams, as two cases of the fixtures. */
  const AlexPending := Case001
  const SarahEscalated := Case002.(status := Escalated)

  /** 'alex' matches Alex's name. */
  lemma AlexMatchesAlex()
    ensures MatchesSearch("alex", AlexPending)
  {
    var name := Lower(Student001.name);
    assert name == "alex johnson";
    assert Lower("alex") == "alex";
    assert name[..4] == "alex";
    IncludesAt(name, "alex", 0);
  }

  /** Some character of the lower-cased query does not occur in the lower-cased text. */
  predicate LacksSomeCharOf(hay: string, query: string) {
    exists k: nat | k < |query| :: Lower(query)[k] !in Lower(hay)
  }

  /** A text that lacks a character of the query does not contain it. */
  lemma LackingTextMisses(hay: string, query: string)
    requires LacksSomeCharOf(hay, query)
    ensures !IncludesIgnoringCase(hay, query)
  {
    var k: nat :| k < |query| && Lower(query)[k] !in Lower(hay);
    MissingCharNotIncluded(Lower(hay), Lower(query), k);
  }

  /** A non-empty query that misses every searched field misses the case. */
  lemma SearchMissesCase(c: FraudCase, query: string)
    requires query != ""
    requires LacksSomeCharOf(c.student.name, query) && LacksSomeCharOf(c.student.id, query)
    requires LacksSomeCharOf(StageName(c.stage), query)
    requires forall k :: 0 <= k < |c.flags| ==> LacksSomeCharOf(FlagTypeName(c.flags[k].flagType), query)
    ensures !MatchesSearch(query, c)
  {
    LackingTextMisses(c.student.name, query);
    LackingTextMisses(c.student.id, query);
    LackingTextMisses(StageName(c.stage), query);
    forall k | 0 <= k < |c.flags| ensures !IncludesIgnoringCase(FlagTypeName(c.flags[k].flagType), query) {
      LackingTextMisses(FlagTypeName(c.flags[k].flagType), query);
    }
  }

  /** Nothing of Alex's case contains 'sarah': the name, id, stage and two flag types have no
      'r', and 'essay_similarity' has no 'h'. */
  lemma SarahMissesAlex()
    ensures !MatchesSearch("sarah", AlexPending)
  {
    var a := AlexPending;
    var q := "sarah";
    assert Lower(q) == q;
    assert a.student == Student001 && a.stage == Admissions;
    var f := CreateFraudFlags("CASE001");
    assert a.flags == f;
    assert Lower(q)[2] !in Lower(a.student.name);
    assert Lower(q)[2] !in Lower(a.student.id);
    assert Lower(q)[2] !in Lower(StageName(a.stage));
    assert Lower(q)[2] !in Lower(FlagTypeName(f[0].flagType));
    assert Lower(q)[4] !in Lower(FlagTypeName(f[1].flagType));
    assert Lower(q)[2] !in Lower(FlagTypeName(f[2].flagType));
    SearchMissesCase(a, q);
  }

  /** The filters compose: 'pending' with 'alex' lists exactly Alex's case, and 'pending' with
      'sarah' lists nothing, because Sarah's case is not pending and nothing of Alex's case
      contains 'sarah'. */
  lemma FilterAndSearchCompose(s: State)
    requires s.fraudCases == [AlexPending, SarahEscalated] && s.filterStatus == OnlyPending
    ensures s.searchQuery == "alex" ==> FilteredCases(s) == [AlexPending]
    ensures s.searchQuery == "sarah" ==> FilteredCases(s) == []
  {
    var p := ShownBy(s.filterStatus, s.searchQuery);
    assert !p(SarahEscalated);
    assert Filter([SarahEscalated], p) == [];
    assert s.fraudCases[1..] == [SarahEscalated];
    if s.searchQuery == "alex" {
      AlexMatchesAlex();
      assert p(AlexPending);
    } else if s.searchQuery == "sarah" {
      SarahMissesAlex();
      assert !p(AlexPending);
    }
  }

  /** Nothing of CASE001 contains an 'f', so 'financial_aid' misses it. */
  lemma FinancialMissesCase001()
    ensures !MatchesSearch("financial_aid", Case001)
  {
    var q := "financial_aid";
    assert Lower(q) == q;
    var a := Case001;
    var f := CreateFraudFlags("CASE001");
    assert a.student == Student001 && a.stage == Admissions && a.flags == f;
    assert Lower(q)[0] !in Lower(a.student.name);
    assert Lower(q)[0] !in Lower(a.student.id);
    assert Lower(q)[0] !in Lower(StageName(a.stage));
    assert Lower(q)[0] !in Lower(FlagTypeName(f[0].flagType));
    assert Lower(q)[0] !in Lower(FlagTypeName(f[1].flagType));
    assert Lower(q)[0] !in Lower(FlagTypeName(f[2].flagType));
    SearchMissesCase(a, q);
  }

  /** CASE002's stage is 'financial_aid'. */
  lemma FinancialMatchesCase002()
    ensures MatchesSearch("financial_aid", Case002)
  {
    var q := "financial_aid";
    assert Lower(q) == q;
    assert Lower(StageName(Case002.stage)) == q;
    IncludesAt(Lower(StageName(Case002.stage)), Lower(q), 0);
  }

  /** A filter that admits CASE002 alone keeps exactly it from the fixture cases. */
  lemma FilterFixturesToCase002(p: FraudCase -> bool)
    requires !p(Case001) && p(Case002) && !p(Case003) && !p(Case004)
    ensures Filter(MockFraudCases, p) == [Case002]
  {
    var m := MockFraudCases;
    assert m == [m[0], m[1]] + [m[2], m[3]];
    FilterAppend([m[0], m[1]], [m[2], m[3]], p);
    assert Filter([m[2], m[3]], p) == [];
    assert Filter([m[0], m[1]], p) == [m[1]];
  }

  /** Over the fixture cases the 'financial' card lists exactly CASE002: CASE001 is pending
      but does not match the query, and CASE003 and CASE004 are not pending. */
  lemma FinancialCardOnFixtures(s: State)
    requires s.fraudCases == MockFraudCases
    ensures FilteredCases(ApplyAll(s, KpiDispatches("financial"))) == [Case002]
  {
    KpiClickEffect(s, "financial");
    var r := ApplyAll(s, KpiDispatches("financial"));
    assert r.fraudCases == MockFraudCases;
    assert r.filterStatus == OnlyPending && r.searchQuery == "financial_aid";
    var p := ShownBy(OnlyPending, "financial_aid");
    assert !p(Case001) by { FinancialMissesCase001(); }
    assert p(Case002) by { FinancialMatchesCase002(); }
    assert !p(Case003) && !p(Case004);
    FilterFixturesToCase002(p);
  }

  /** After start-up, a click on the 'financial' card lists exactly CASE002. */
  lemma FinancialCardAfterStartUp()
    ensures FilteredCases(ApplyAll(ApplyAll(InitialState, InitDispatches), KpiDispatches("financial"))) == [Case002]
  {
    InitEffect(InitialState);
    FinancialCardOnFixtures(ApplyAll(InitialState, InitDispatches));
  }

  /** The dashboard's own state: which KPI card is highlighted. */
  class View {
    var activeKpi: Option<string>

    constructor()
      ensures activeKpi == None
    {
      activeKpi := None;
    }

    /** `handleKPIClick`: the highlight toggles and the card's filter actions are dispatched. */
    method HandleKpiClick(store: Store, kpi: string)
      modifies this, store
      ensures activeKpi == ToggledKpi(old(activeKpi), kpi)
      ensures store.state == ApplyAll(old(store.state), KpiDispatches(kpi))
    {
      activeKpi := ToggledKpi(activeKpi, kpi);
      ghost var s0 := store.state;
      if kpi == "financial" {
        store.Dispatch(SetFilterStatus(OnlyPending));
        store.Dispatch(SetSearchQuery("financial_aid"));
      } else if kpi == "ghost" {
        store.Dispatch(SetSearchQuery("no_lms_activity"));
      } else if kpi == "escalated" {
        store.Dispatch(SetFilterStatus(OnlyEscalated));
      } else {
        store.Dispatch(SetFilterStatus(AllStatuses));
        store.Dispatch(SetSearchQuery(""));
      }
      var d := KpiDispatches(kpi);
      ApplyAllShort(s0, d[0], if |d| == 2 then d[1] else d[0]);
    }
  }
}
