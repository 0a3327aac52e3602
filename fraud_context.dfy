/** The shared dashboard state: a reducer over ten actions, the action creators the views call
    (approve, escalate, dismiss, select, generate a summary, request documents), the start-up
    load and the periodic tick. Each action creator is described by the list of actions it
    dispatches (`...Dispatches`); the `Store` class issues those actions one at a time on its
    `state` field. The wall clock and the random draws are parameters. */
module FraudContext {
  import opened Wrappers
  import opened Types
  import opened Text
  import MockData

  /** The status filter; 'dismissed' is not one of its values. */
  datatype FilterStatus = AllStatuses | OnlyPending | OnlyReviewed | OnlyEscalated | OnlyResolved

  /** A case with status `s` passes the filter `f`. */
  predicate FilterAdmits(f: FilterStatus, s: CaseStatus) {
    match f
    case AllStatuses => true
    case OnlyPending => s == Pending
    case OnlyReviewed => s == Reviewed
    case OnlyEscalated => s == Escalated
    case OnlyResolved => s == Resolved
  }

  datatype State = State(
    fraudCases: seq<FraudCase>, selectedCase: Option<FraudCase>,
    notifications: seq<NotificationToast>, userSettings: UserSettings, kpiData: KpiData,
    isLoading: bool, filterStatus: FilterStatus, searchQuery: string)

  /** A `Partial<UserSettings>`: the fields that are present override, the others are kept. */
  datatype SettingsPatch = SettingsPatch(
    theme: Option<ThemeSetting>, notificationPrefs: Option<NotificationPreferences>,
    riskThreshold: Option<int>, enabledAgents: Option<EnabledAgents>,
    detectionRules: Option<seq<DetectionRule>>)

  const EmptyPatch := SettingsPatch(None, None, None, None, None)

  datatype Action =
    | SetLoading(loading: bool)
    | SetFraudCases(cases: seq<FraudCase>)
    | SetSelectedCase(selected: Option<FraudCase>)
    | UpdateCase(updated: FraudCase)
    | AddNotification(notification: NotificationToast)
    | MarkNotificationRead(notificationId: string)
    | UpdateSettings(patch: SettingsPatch)
    | SetFilterStatus(filter: FilterStatus)
    | SetSearchQuery(query: string)
    | UpdateKpiData(kpi: KpiData)

  /** The time source: `Date.now()` in milliseconds and `toISOString` of a millisecond count. */
  datatype Clock = Clock(nowMs: nat, iso: nat -> string) {
    function Now(): string {
      iso(nowMs)
    }
  }

  const WeekMs: nat := 7 * 24 * 60 * 60 * 1000

  /** `{ ...settings, ...patch }`. */
  function MergeSettings(s: UserSettings, p: SettingsPatch): UserSettings {
    UserSettings(p.theme.GetOr(s.theme), p.notificationPrefs.GetOr(s.notifications),
      p.riskThreshold.GetOr(s.riskThreshold), p.enabledAgents.GetOr(s.enabledAgents),
      p.detectionRules.GetOr(s.detectionRules))
  }

  /** A present field wins, an absent one keeps its value; an empty patch changes nothing and
      applying a patch twice is applying it once. */
  lemma MergeSettingsProperties(s: UserSettings, p: SettingsPatch)
    ensures p.theme.Some? ==> MergeSettings(s, p).theme == p.theme.value
    ensures p.theme.None? ==> MergeSettings(s, p).theme == s.theme
    ensures p.riskThreshold.Some? ==> MergeSettings(s, p).riskThreshold == p.riskThreshold.value
    ensures p.riskThreshold.None? ==> MergeSettings(s, p).riskThreshold == s.riskThreshold
    ensures p.notificationPrefs.Some? ==> MergeSettings(s, p).notifications == p.notificationPrefs.value
    ensures p.notificationPrefs.None? ==> MergeSettings(s, p).notifications == s.notifications
    ensures p.enabledAgents.Some? ==> MergeSettings(s, p).enabledAgents == p.enabledAgents.value
    ensures p.enabledAgents.None? ==> MergeSettings(s, p).enabledAgents == s.enabledAgents
    ensures p.detectionRules.Some? ==> MergeSettings(s, p).detectionRules == p.detectionRules.value
    ensures p.detectionRules.None? ==> MergeSettings(s, p).detectionRules == s.detectionRules
    ensures MergeSettings(s, EmptyPatch) == s
    ensures MergeSettings(MergeSettings(s, p), p) == MergeSettings(s, p)
  {
  }

  /** The ids of a case list, in order. */
  function CaseIds(cases: seq<FraudCase>): (r: seq<string>)
    ensures |r| == |cases|
    ensures forall i :: 0 <= i < |cases| ==> r[i] == cases[i].id
  {
    seq(|cases|, i requires 0 <= i < |cases| => cases[i].id)
  }

  /** No two cases share an id. */
  predicate DistinctIds(cases: seq<FraudCase>) {
    forall i, j :: 0 <= i < j < |cases| ==> cases[i].id != cases[j].id
  }

  /** `cases.find(c => c.id === id)`: the first case with that id, if any. */
  function FindCase(cases: seq<FraudCase>, id: string): (r: Option<FraudCase>)
    ensures r.Some? <==> exists i :: 0 <= i < |cases| && cases[i].id == id
    ensures r.Some? ==> r.value.id == id
    ensures r.Some? ==> exists i :: 0 <= i < |cases| && cases[i] == r.value &&
                                    forall j :: 0 <= j < i ==> cases[j].id != id
    decreases |cases|
  {
    if cases == [] then None
    else if cases[0].id == id then Some(cases[0])
    else
      var rest := FindCase(cases[1..], id);
      assert forall i :: 1 <= i < |cases| ==> cases[i] == cases[1..][i - 1];
      rest
  }

  /** `cases.map(c => c.id === u.id ? u : c)`. */
  function ReplaceById(cases: seq<FraudCase>, u: FraudCase): seq<FraudCase> {
    seq(|cases|, i requires 0 <= i < |cases| => if cases[i].id == u.id then u else cases[i])
  }

  /** Replacing keeps the length and the order of ids, swaps in `u` exactly where the id
      matches, is the identity when no id matches, and is idempotent. */
  lemma ReplaceByIdProperties(cases: seq<FraudCase>, u: FraudCase)
    ensures |ReplaceById(cases, u)| == |cases|
    ensures CaseIds(ReplaceById(cases, u)) == CaseIds(cases)
    ensures forall i :: 0 <= i < |cases| && cases[i].id == u.id ==> ReplaceById(cases, u)[i] == u
    ensures forall i :: 0 <= i < |cases| && cases[i].id != u.id ==>
              ReplaceById(cases, u)[i] == cases[i]
    ensures (forall i :: 0 <= i < |cases| ==> cases[i].id != u.id) ==> ReplaceById(cases, u) == cases
    ensures ReplaceById(ReplaceById(cases, u), u) == ReplaceById(cases, u)
  {
  }

  /** After a replacement, looking up the replaced id finds the replacement, and looking up any
      other id finds what it found before. */
  lemma FindAfterReplace(cases: seq<FraudCase>, u: FraudCase, id: string)
    ensures id == u.id && FindCase(cases, id).Some? ==> FindCase(ReplaceById(cases, u), id) == Some(u)
    ensures id == u.id && FindCase(cases, id).None? ==> FindCase(ReplaceById(cases, u), id) == None
    ensures id != u.id ==> FindCase(ReplaceById(cases, u), id) == FindCase(cases, id)
  {
    var r := ReplaceById(cases, u);
    if id == u.id {
      if FindCase(cases, id).Some? {
        var i :| 0 <= i < |cases| && cases[i].id == id;
        assert r[i].id == id;
        var j :| 0 <= j < |r| && r[j] == FindCase(r, id).value &&
                 forall k :: 0 <= k < j ==> r[k].id != id;
        assert r[j] == if cases[j].id == u.id then u else cases[j];
      }
    } else {
      FindIndexAfterReplace(cases, u, id);
    }
  }

  /** A replacement by `u` does not move the first case with any other id. */
  lemma {:induction false} FindIndexAfterReplace(cases: seq<FraudCase>, u: FraudCase, id: string)
    requires id != u.id
    ensures FindCase(ReplaceById(cases, u), id) == FindCase(cases, id)
    decreases |cases|
  {
    if cases != [] {
      var r := ReplaceById(cases, u);
      assert r[1..] == ReplaceById(cases[1..], u);
      FindIndexAfterReplace(cases[1..], u, id);
    }
  }

  /** `notifications.map(n => n.id === id ? { ...n, read: true } : n)`. */
  function MarkRead(ns: seq<NotificationToast>, id: string): seq<NotificationToast> {
    seq(|ns|, i requires 0 <= i < |ns| => if ns[i].id == id then ns[i].(read := true) else ns[i])
  }

  /** Marking sets `read` on exactly the entries with that id, changes nothing else about them
      and nothing about the others, and marking again changes nothing. */
  lemma MarkReadProperties(ns: seq<NotificationToast>, id: string)
    ensures |MarkRead(ns, id)| == |ns|
    ensures forall i :: 0 <= i < |ns| ==> MarkRead(ns, id)[i].read == (ns[i].read || ns[i].id == id)
    ensures forall i :: 0 <= i < |ns| ==> MarkRead(ns, id)[i].(read := ns[i].read) == ns[i]
    ensures MarkRead(MarkRead(ns, id), id) == MarkRead(ns, id)
  {
  }

  /** The reducer. */
  function Reduce(s: State, a: Action): State {
    match a
    case SetLoading(b) => s.(isLoading := b)
    case SetFraudCases(cs) => s.(fraudCases := cs)
    case SetSelectedCase(c) => s.(selectedCase := c)
    case UpdateCase(u) =>
      s.(fraudCases := ReplaceById(s.fraudCases, u),
         selectedCase := if s.selectedCase.Some? && s.selectedCase.value.id == u.id
                         then Some(u) else s.selectedCase)
    case AddNotification(n) => s.(notifications := [n] + s.notifications)
    case MarkNotificationRead(id) => s.(notifications := MarkRead(s.notifications, id))
    case UpdateSettings(p) => s.(userSettings := MergeSettings(s.userSettings, p))
    case SetFilterStatus(f) => s.(filterStatus := f)
    case SetSearchQuery(q) => s.(searchQuery := q)
    case UpdateKpiData(k) => s.(kpiData := k)
  }

  /** UPDATE_CASE changes only the case list and the selection: every case with the payload's
      id becomes the payload, the others stay where they are, and the selection is swapped only
      when it has the payload's id. */
  lemma UpdateCaseEffect(s: State, u: FraudCase)
    ensures var r := Reduce(s, UpdateCase(u));
      && |r.fraudCases| == |s.fraudCases|
      && CaseIds(r.fraudCases) == CaseIds(s.fraudCases)
      && (forall i :: 0 <= i < |s.fraudCases| ==>
            r.fraudCases[i] == if s.fraudCases[i].id == u.id then u else s.fraudCases[i])
      && (s.selectedCase.Some? && s.selectedCase.value.id == u.id ==> r.selectedCase == Some(u))
      && (s.selectedCase.None? || s.selectedCase.value.id != u.id ==> r.selectedCase == s.selectedCase)
      && r.(fraudCases := s.fraudCases, selectedCase := s.selectedCase) == s
  {
    ReplaceByIdProperties(s.fraudCases, u);
  }

  /** An UPDATE_CASE whose id matches nothing is the identity, and repeating one changes
      nothing more. */
  lemma UpdateCaseUnknownAndRepeated(s: State, u: FraudCase)
    ensures FindCase(s.fraudCases, u.id).None? && (s.selectedCase.None? || s.selectedCase.value.id != u.id)
            ==> Reduce(s, UpdateCase(u)) == s
    ensures Reduce(Reduce(s, UpdateCase(u)), UpdateCase(u)) == Reduce(s, UpdateCase(u))
  {
    ReplaceByIdProperties(s.fraudCases, u);
  }

  /** ADD_NOTIFICATION puts the new entry first and keeps the rest in order; MARK_NOTIFICATION_READ
      keeps the feed's length. Neither touches anything but the feed. */
  lemma NotificationActionsEffect(s: State, n: NotificationToast, id: string)
    ensures Reduce(s, AddNotification(n)).notifications == [n] + s.notifications
    ensures Reduce(s, AddNotification(n)).(notifications := s.notifications) == s
    ensures |Reduce(s, MarkNotificationRead(id)).notifications| == |s.notifications|
    ensures Reduce(s, MarkNotificationRead(id)).(notifications := s.notifications) == s
  {
    MarkReadProperties(s.notifications, id);
  }

  /** Dispatching a list of actions in order. */
  function ApplyAll(s: State, actions: seq<Action>): State
    decreases |actions|
  {
    if actions == [] then s else ApplyAll(Reduce(s, actions[0]), actions[1..])
  }

  /** Dispatching `a` then `b` is dispatching `a` and then dispatching `b`. */
  lemma {:induction false} ApplyAllAppend(s: State, a: seq<Action>, b: seq<Action>)
    ensures ApplyAll(s, a + b) == ApplyAll(ApplyAll(s, a), b)
    decreases |a|
  {
    if a == [] {
      assert a + b == b;
    } else {
      assert (a + b)[0] == a[0];
      assert (a + b)[1..] == a[1..] + b;
      ApplyAllAppend(Reduce(s, a[0]), a[1..], b);
    }
  }

  /** One more dispatch after a list of them. */
  lemma ApplyAllSnoc(s: State, a: seq<Action>, x: Action)
    ensures ApplyAll(s, a + [x]) == Reduce(ApplyAll(s, a), x)
  {
    ApplyAllAppend(s, a, [x]);
    assert ApplyAll(ApplyAll(s, a), [x]) == ApplyAll(Reduce(ApplyAll(s, a), x), []);
  }

  /** The provider's state before anything is loaded. */
  const InitialState := State([], None, [], MockData.MockUserSettings, MockData.MockKpiData,
    false, AllStatuses, "")

  /** What the start-up timer dispatches once the simulated delay is over: the fixture cases,
      the first two fixture notifications, and loading off. */
  const LoadDispatches: seq<Action> := [
    SetFraudCases(MockData.MockFraudCases),
    AddNotification(MockData.MockNotifications[0]), AddNotification(MockData.MockNotifications[1]),
    SetLoading(false)]

  /** The whole start-up effect: loading on when the provider mounts, then the timer's
      dispatches. */
  const InitDispatches: seq<Action> := [SetLoading(true)] + LoadDispatches

  /** The timer's dispatches leave the fixture cases, the second fixture notification above the
      first on top of whatever was in the feed, and loading off. */
  lemma LoadEffect(s: State)
    ensures ApplyAll(s, LoadDispatches) ==
      s.(fraudCases := MockData.MockFraudCases,
         notifications := [MockData.Notification002, MockData.Notification001] + s.notifications,
         isLoading := false)
  {
    var d := LoadDispatches;
    assert d == [d[0], d[1], d[2]] + [d[3]];
    ApplyAllSnoc(s, [d[0], d[1], d[2]], d[3]);
    assert [d[0], d[1], d[2]] == [d[0], d[1]] + [d[2]];
    ApplyAllSnoc(s, [d[0], d[1]], d[2]);
    assert [d[0], d[1]] == [d[0]] + [d[1]];
    ApplyAllSnoc(s, [d[0]], d[1]);
    assert ApplyAll(s, [d[0]]) == ApplyAll(Reduce(s, d[0]), []);
  }

  /** The whole start-up ends in the same state whatever the loading flag was: the flag is on
      only while the timer is pending. */
  lemma InitEffect(s: State)
    ensures ApplyAll(s, InitDispatches) ==
      s.(fraudCases := MockData.MockFraudCases,
         notifications := [MockData.Notification002, MockData.Notification001] + s.notifications,
         isLoading := false)
  {
    assert InitDispatches[0] == SetLoading(true) && InitDispatches[1..] == LoadDispatches;
    LoadEffect(Reduce(s, SetLoading(true)));
  }

  /** The notification `approveCase` adds. */
  function ApprovedNotification(caseId: string, clock: Clock): NotificationToast {
    NotificationToast("NOT" + NatToString(clock.nowMs), Success, "Case Approved",
      "Case " + caseId + " has been marked as legitimate", clock.Now(), false, Some(caseId))
  }

  /** The notification `escalateCase` adds. */
  function EscalatedNotification(caseId: string, clock: Clock): NotificationToast {
    NotificationToast("NOT" + NatToString(clock.nowMs), Error, "Case Escalated",
      "Case " + caseId + " has been escalated for further review", clock.Now(), false, Some(caseId))
  }

  /** The notification `requestDocuments` adds. */
  function DocumentsNotification(caseId: string, clock: Clock): NotificationToast {
    NotificationToast("NOT" + NatToString(clock.nowMs), Info, "Documents Requested",
      "Additional verification documents requested from student", clock.Now(), false, Some(caseId))
  }

  /** `approveCase`: when the id is found, the case becomes dismissed with a review time, then a
      success notification is added. The case's current status is not looked at. */
  function ApproveDispatches(s: State, caseId: string, clock: Clock): seq<Action> {
    match FindCase(s.fraudCases, caseId)
    case None => []
    case Some(c) =>
      [UpdateCase(c.(status := Dismissed, reviewedAt := Some(clock.Now()))),
       AddNotification(ApprovedNotification(caseId, clock))]
  }

  /** `escalateCase`: as approval, with status escalated and an error notification. */
  function EscalateDispatches(s: State, caseId: string, clock: Clock): seq<Action> {
    match FindCase(s.fraudCases, caseId)
    case None => []
    case Some(c) =>
      [UpdateCase(c.(status := Escalated, reviewedAt := Some(clock.Now()))),
       AddNotification(EscalatedNotification(caseId, clock))]
  }

  /** `dismissCase`: status dismissed with a review time, and no notification. */
  function DismissDispatches(s: State, caseId: string, clock: Clock): seq<Action> {
    match FindCase(s.fraudCases, caseId)
    case None => []
    case Some(c) => [UpdateCase(c.(status := Dismissed, reviewedAt := Some(clock.Now())))]
  }

  /** Dispatching one action, or two in a row. */
  lemma ApplyAllShort(s: State, a: Action, b: Action)
    ensures ApplyAll(s, [a]) == Reduce(s, a)
    ensures ApplyAll(s, [a, b]) == Reduce(Reduce(s, a), b)
  {
    assert ApplyAll(Reduce(s, a), []) == Reduce(s, a);
    ApplyAllSnoc(s, [a], b);
    assert [a] + [b] == [a, b];
  }

  /** What a review decision does to the state: an unknown id changes nothing; a known id
      replaces that case (whatever its status was) by a copy with the new status and a review
      time, and puts `n` on top of the feed when there is one. */
  predicate ReviewedAs(s: State, r: State, caseId: string, status: CaseStatus, clock: Clock,
                       n: Option<NotificationToast>) {
    match FindCase(s.fraudCases, caseId)
    case None => r == s
    case Some(c) =>
      var u := c.(status := status, reviewedAt := Some(clock.Now()));
      && r.fraudCases == ReplaceById(s.fraudCases, u)
      && FindCase(r.fraudCases, caseId) == Some(u)
      && r.notifications == (if n.Some? then [n.value] else []) + s.notifications
      && r.selectedCase == (if s.selectedCase.Some? && s.selectedCase.value.id == caseId
                            then Some(u) else s.selectedCase)
      && r.(fraudCases := s.fraudCases, notifications := s.notifications,
            selectedCase := s.selectedCase) == s
  }

  /** Approving: dismissed, reviewed now, success notification on top; no status guard. */
  lemma ApproveEffect(s: State, caseId: string, clock: Clock)
    ensures ReviewedAs(s, ApplyAll(s, ApproveDispatches(s, caseId, clock)), caseId, Dismissed,
                       clock, Some(ApprovedNotification(caseId, clock)))
  {
    match FindCase(s.fraudCases, caseId)
    case None =>
    case Some(c) =>
      var u := c.(status := Dismissed, reviewedAt := Some(clock.Now()));
      ApplyAllShort(s, UpdateCase(u), AddNotification(ApprovedNotification(caseId, clock)));
      FindAfterReplace(s.fraudCases, u, caseId);
  }

  /** Escalating: escalated, reviewed now, error notification on top; no status guard. */
  lemma EscalateEffect(s: State, caseId: string, clock: Clock)
    ensures ReviewedAs(s, ApplyAll(s, EscalateDispatches(s, caseId, clock)), caseId, Escalated,
                       clock, Some(EscalatedNotification(caseId, clock)))
  {
    match FindCase(s.fraudCases, caseId)
    case None =>
    case Some(c) =>
      var u := c.(status := Escalated, reviewedAt := Some(clock.Now()));
      ApplyAllShort(s, UpdateCase(u), AddNotification(EscalatedNotification(caseId, clock)));
      FindAfterReplace(s.fraudCases, u, caseId);
  }

  /** Dismissing: dismissed, reviewed now, and the feed is left alone. */
  lemma DismissEffect(s: State, caseId: string, clock: Clock)
    ensures ReviewedAs(s, ApplyAll(s, DismissDispatches(s, caseId, clock)), caseId, Dismissed,
                       clock, None)
  {
    match FindCase(s.fraudCases, caseId)
    case None =>
    case Some(c) =>
      var u := c.(status := Dismissed, reviewedAt := Some(clock.Now()));
      ApplyAllShort(s, UpdateCase(u), UpdateCase(u));
      FindAfterReplace(s.fraudCases, u, caseId);
  }

  /** Nothing stops a second approval of an already approved case: it adds a second success
      notification. */
  lemma ApproveTwiceNotifiesTwice(s: State, caseId: string, c1: Clock, c2: Clock)
    requires FindCase(s.fraudCases, caseId).Some?
    ensures var s1 := ApplyAll(s, ApproveDispatches(s, caseId, c1));
            var s2 := ApplyAll(s1, ApproveDispatches(s1, caseId, c2));
            s2.notifications ==
              [ApprovedNotification(caseId, c2), ApprovedNotification(caseId, c1)] + s.notifications
  {
    ApproveEffect(s, caseId, c1);
    var s1 := ApplyAll(s, ApproveDispatches(s, caseId, c1));
    ApproveEffect(s1, caseId, c2);
  }

  /** The document request `requestDocuments` builds: due a week after it was made. */
  function NewDocumentRequest(caseId: string, documentType: string, emailBody: string,
                              clock: Clock): DocumentRequest {
    DocumentRequest("DOC" + NatToString(clock.nowMs), documentType,
      "Additional " + documentType + " verification requested", clock.Now(),
      clock.iso(clock.nowMs + WeekMs), Sent, "Document Verification Required - Case " + caseId,
      emailBody)
  }

  /** `requestDocuments`: the request is appended to the case's list (an absent list counts as
      empty), then an info notification is added. */
  function RequestDocumentsDispatches(s: State, caseId: string, documentType: string,
                                      emailBody: string, clock: Clock): seq<Action> {
    match FindCase(s.fraudCases, caseId)
    case None => []
    case Some(c) =>
      var req := NewDocumentRequest(caseId, documentType, emailBody, clock);
      [UpdateCase(c.(documentsRequested := Some(c.documentsRequested.GetOr([]) + [req]))),
       AddNotification(DocumentsNotification(caseId, clock))]
  }

  /** A document request keeps every earlier request of the case and adds one at the end, sent
      and due in exactly one week; nothing else about the case changes. */
  lemma RequestDocumentsEffect(s: State, caseId: string, documentType: string,
                               emailBody: string, clock: Clock)
    requires FindCase(s.fraudCases, caseId).Some?
    ensures var c := FindCase(s.fraudCases, caseId).value;
            var r := ApplyAll(s, RequestDocumentsDispatches(s, caseId, documentType, emailBody, clock));
            var after := FindCase(r.fraudCases, caseId);
            && after.Some? && after.value.documentsRequested.Some?
            && var docs := after.value.documentsRequested.value;
            && var before := c.documentsRequested.GetOr([]);
            && |docs| == |before| + 1
            && docs[..|before|] == before
            && docs[|before|].status == Sent
            && docs[|before|].requestedAt == clock.iso(clock.nowMs)
            && docs[|before|].dueDate == clock.iso(clock.nowMs + WeekMs)
            && docs[|before|].docType == documentType
            && docs[|before|].emailSubject == "Document Verification Required - Case " + caseId
            && docs[|before|].emailBody == emailBody
            && after.value.(documentsRequested := c.documentsRequested) == c
            && r.fraudCases == ReplaceById(s.fraudCases, after.value)
            && r.selectedCase == (if s.selectedCase.Some? && s.selectedCase.value.id == caseId
                                  then after else s.selectedCase)
            && r.notifications == [DocumentsNotification(caseId, clock)] + s.notifications
            && r.(fraudCases := s.fraudCases, notifications := s.notifications,
                  selectedCase := s.selectedCase) == s
  {
    var c := FindCase(s.fraudCases, caseId).value;
    var req := NewDocumentRequest(caseId, documentType, emailBody, clock);
    var u := c.(documentsRequested := Some(c.documentsRequested.GetOr([]) + [req]));
    ApplyAllShort(s, UpdateCase(u), AddNotification(DocumentsNotification(caseId, clock)));
    FindAfterReplace(s.fraudCases, u, caseId);
    assert (c.documentsRequested.GetOr([]) + [req])[..|c.documentsRequested.GetOr([])|]
        == c.documentsRequested.GetOr([]);
  }

  /** The text `generateAISummary` writes into a case. */
  function SummaryText(caseId: string, c: FraudCase): string {
    "AI-generated analysis: Case " + caseId + " shows " + SeverityName(c.severity)
    + " risk patterns. " + NatToString(|c.flags|) + " flags detected. Recommended action: "
    + (if c.riskScore > 80 then "Immediate escalation" else "Standard review process") + "."
  }

  /** The recommendation is immediate escalation exactly when the risk score is above 80, and
      the summary always names the case. */
  lemma SummaryRecommendation(caseId: string, c: FraudCase)
    ensures EndsWith(SummaryText(caseId, c), "Immediate escalation.") <==> c.riskScore > 80
    ensures EndsWith(SummaryText(caseId, c), "Standard review process.") <==> c.riskScore <= 80
    ensures StartsWith(SummaryText(caseId, c), "AI-generated analysis: Case " + caseId)
    ensures SummaryText(caseId, c) != ""
  {
    var head := "AI-generated analysis: Case " + caseId + " shows " + SeverityName(c.severity)
      + " risk patterns. " + NatToString(|c.flags|) + " flags detected. Recommended action: ";
    var t := SummaryText(caseId, c);
    if c.riskScore > 80 {
      assert t == head + "Immediate escalation.";
      assert t[|t| - 2] == 'n';
    } else {
      assert t == head + "Standard review process.";
      assert t[|t| - 2] == 's';
    }
    assert t[..|"AI-generated analysis: Case " + caseId|] == "AI-generated analysis: Case " + caseId;
  }

  /** `generateAISummary` looks the case up before it waits and writes after it: the case as it
      was when the call started. */
  function SummarySnapshot(s: State, caseId: string): Option<FraudCase> {
    FindCase(s.fraudCases, caseId)
  }

  /** What is dispatched once the wait is over: the snapshot with the summary set. */
  function SummaryDispatches(caseId: string, snapshot: Option<FraudCase>): seq<Action> {
    match snapshot
    case None => []
    case Some(c) => [UpdateCase(c.(aiSummary := Some(SummaryText(caseId, c))))]
  }

  /** A decision made while a summary is being generated is lost when the summary lands: the
      case gets back the status it had when generation started. */
  lemma SummaryOverwritesConcurrentApproval(s: State, caseId: string, clock: Clock)
    requires SummarySnapshot(s, caseId).Some?
    ensures var snap := SummarySnapshot(s, caseId);
            var s1 := ApplyAll(s, ApproveDispatches(s, caseId, clock));
            var s2 := ApplyAll(s1, SummaryDispatches(caseId, snap));
            && FindCase(s1.fraudCases, caseId).Some?
            && FindCase(s1.fraudCases, caseId).value.status == Dismissed
            && FindCase(s2.fraudCases, caseId).Some?
            && FindCase(s2.fraudCases, caseId).value.status == snap.value.status
            && FindCase(s2.fraudCases, caseId).value.aiSummary.Some?
  {
    ApproveEffect(s, caseId, clock);
    var snap := SummarySnapshot(s, caseId);
    var s1 := ApplyAll(s, ApproveDispatches(s, caseId, clock));
    var u := snap.value.(aiSummary := Some(SummaryText(caseId, snap.value)));
    ApplyAllShort(s1, UpdateCase(u), UpdateCase(u));
    FindAfterReplace(s1.fraudCases, u, caseId);
  }

  /** The random draws of one tick of the simulated feed: whether an alert is raised, whether it
      is a warning, the case number in its text (0-99) and the flags added to the total (0-2). */
  datatype TickDraws = TickDraws(raiseAlert: bool, warning: bool, caseNumber: nat, extraFlags: nat)

  /** One tick: maybe a new alert without a case link, then the total flag count grows. */
  function TickDispatches(s: State, d: TickDraws, clock: Clock): seq<Action>
    requires d.caseNumber < 100 && d.extraFlags < 3
  {
    var alert := NotificationToast("NOT" + NatToString(clock.nowMs),
      if d.warning then Warning else Info, "New Fraud Alert",
      "Risk pattern detected in case " + NatToString(d.caseNumber), clock.Now(), false, None);
    (if d.raiseAlert then [AddNotification(alert)] else [])
    + [UpdateKpiData(s.kpiData.(totalFlags := s.kpiData.totalFlags + d.extraFlags))]
  }

  /** A tick raises the total by at most two and never lowers it, touches no other KPI figure,
      and adds at most one unread, unlinked alert. */
  lemma TickEffect(s: State, d: TickDraws, clock: Clock)
    requires d.caseNumber < 100 && d.extraFlags < 3
    ensures var r := ApplyAll(s, TickDispatches(s, d, clock));
            && s.kpiData.totalFlags <= r.kpiData.totalFlags <= s.kpiData.totalFlags + 2
            && r.kpiData.(totalFlags := s.kpiData.totalFlags) == s.kpiData
            && (d.raiseAlert ==>
                  && |r.notifications| == |s.notifications| + 1
                  && !r.notifications[0].read && r.notifications[0].caseId.None?
                  && r.notifications[1..] == s.notifications)
            && (!d.raiseAlert ==> r.notifications == s.notifications)
            && r.fraudCases == s.fraudCases
            && r.(notifications := s.notifications, kpiData := s.kpiData) == s
  {
    var k := UpdateKpiData(s.kpiData.(totalFlags := s.kpiData.totalFlags + d.extraFlags));
    var ds := TickDispatches(s, d, clock);
    if d.raiseAlert {
      assert ds == [ds[0]] + [k];
      ApplyAllSnoc(s, [ds[0]], k);
      assert ApplyAll(s, [ds[0]]) == ApplyAll(Reduce(s, ds[0]), []);
    } else {
      assert ds == [k];
      assert ApplyAll(s, ds) == ApplyAll(Reduce(s, k), []);
    }
  }

  /** The provider: one state value that every dispatch replaces. */
  class Store {
    var state: State

    constructor()
      ensures state == InitialState
    {
      state := InitialState;
    }

    method Dispatch(a: Action)
      modifies this
      ensures state == Reduce(old(state), a)
    {
      state := Reduce(state, a);
    }

    /** The mount half of the start-up effect: loading on, shown as a spinner until the
        timer fires; nothing else changes. */
    method Mount()
      modifies this
      ensures state == old(state).(isLoading := true)
      ensures state.isLoading
    {
      Dispatch(SetLoading(true));
    }

    /** The timer half of the start-up effect, run when the simulated delay is over. */
    method FinishLoading()
      modifies this
      ensures state == ApplyAll(old(state), LoadDispatches)
      ensures !state.isLoading && state.fraudCases == MockData.MockFraudCases
    {
      ghost var s0 := state;
      Dispatch(SetFraudCases(MockData.MockFraudCases));
      Dispatch(AddNotification(MockData.MockNotifications[0]));
      Dispatch(AddNotification(MockData.MockNotifications[1]));
      Dispatch(SetLoading(false));
      LoadEffect(s0);
    }

    /** Mounting and then letting the timer fire. */
    method Initialize()
      modifies this
      ensures state == ApplyAll(old(state), InitDispatches)
    {
      ghost var s0 := state;
      Mount();
      FinishLoading();
      InitEffect(s0);
    }

    method ApproveCase(caseId: string, clock: Clock)
      modifies this
      ensures state == ApplyAll(old(state), ApproveDispatches(old(state), caseId, clock))
    {
      var found := FindCase(state.fraudCases, caseId);
      if found.Some? {
        ghost var s0 := state;
        var updated := found.value.(status := Dismissed, reviewedAt := Some(clock.Now()));
        Dispatch(UpdateCase(updated));
        Dispatch(AddNotification(ApprovedNotification(caseId, clock)));
        ApplyAllShort(s0, UpdateCase(updated), AddNotification(ApprovedNotification(caseId, clock)));
      }
    }

    method EscalateCase(caseId: string, clock: Clock)
      modifies this
      ensures state == ApplyAll(old(state), EscalateDispatches(old(state), caseId, clock))
    {
      var found := FindCase(state.fraudCases, caseId);
      if found.Some? {
        ghost var s0 := state;
        var updated := found.value.(status := Escalated, reviewedAt := Some(clock.Now()));
        Dispatch(UpdateCase(updated));
        Dispatch(AddNotification(EscalatedNotification(caseId, clock)));
        ApplyAllShort(s0, UpdateCase(updated), AddNotification(EscalatedNotification(caseId, clock)));
      }
    }

    method DismissCase(caseId: string, clock: Clock)
      modifies this
      ensures state == ApplyAll(old(state), DismissDispatches(old(state), caseId, clock))
    {
      var found := FindCase(state.fraudCases, caseId);
      if found.Some? {
        ghost var s0 := state;
        var updated := found.value.(status := Dismissed, reviewedAt := Some(clock.Now()));
        Dispatch(UpdateCase(updated));
        ApplyAllShort(s0, UpdateCase(updated), UpdateCase(updated));
      }
    }

    method SelectCase(c: FraudCase)
      modifies this
      ensures state == Reduce(old(state), SetSelectedCase(Some(c)))
    {
      Dispatch(SetSelectedCase(Some(c)));
    }

    method RequestDocuments(caseId: string, documentType: string, emailBody: string, clock: Clock)
      modifies this
      ensures state == ApplyAll(old(state),
                RequestDocumentsDispatches(old(state), caseId, documentType, emailBody, clock))
    {
      var found := FindCase(state.fraudCases, caseId);
      if found.Some? {
        ghost var s0 := state;
        var c := found.value;
        var req := NewDocumentRequest(caseId, documentType, emailBody, clock);
        var updated := c.(documentsRequested := Some(c.documentsRequested.GetOr([]) + [req]));
        Dispatch(UpdateCase(updated));
        Dispatch(AddNotification(DocumentsNotification(caseId, clock)));
        ApplyAllShort(s0, UpdateCase(updated), AddNotification(DocumentsNotification(caseId, clock)));
      }
    }

    /** The first half of `generateAISummary`: the lookup made before the wait. */
    method BeginAiSummary(caseId: string) returns (snapshot: Option<FraudCase>)
      ensures snapshot == SummarySnapshot(state, caseId)
      ensures snapshot.Some? ==> snapshot.value.id == caseId
    {
      snapshot := FindCase(state.fraudCases, caseId);
    }

    /** The second half of `generateAISummary`: the write made after the wait, from the
        snapshot and not from the current state. */
    method CompleteAiSummary(caseId: string, snapshot: Option<FraudCase>)
      modifies this
      ensures state == ApplyAll(old(state), SummaryDispatches(caseId, snapshot))
    {
      if snapshot.Some? {
        ghost var s0 := state;
        var c := snapshot.value;
        var updated := c.(aiSummary := Some(SummaryText(caseId, c)));
        Dispatch(UpdateCase(updated));
        ApplyAllShort(s0, UpdateCase(updated), UpdateCase(updated));
      }
    }

    /** One tick of the simulated real-time feed. */
    method Tick(d: TickDraws, clock: Clock)
      requires d.caseNumber < 100 && d.extraFlags < 3
      modifies this
      ensures state == ApplyAll(old(state), TickDispatches(old(state), d, clock))
    {
      ghost var s0 := state;
      var ds := TickDispatches(state, d, clock);
      var k := UpdateKpiData(state.kpiData.(totalFlags := state.kpiData.totalFlags + d.extraFlags));
      if d.raiseAlert {
        var alert := NotificationToast("NOT" + NatToString(clock.nowMs),
          if d.warning then Warning else Info, "New Fraud Alert",
          "Risk pattern detected in case " + NatToString(d.caseNumber), clock.Now(), false, None);
        Dispatch(AddNotification(alert));
        Dispatch(k);
        assert ds == [AddNotification(alert)] + [k];
        ApplyAllSnoc(s0, [AddNotification(alert)], k);
        assert ApplyAll(s0, [AddNotification(alert)]) == ApplyAll(Reduce(s0, AddNotification(alert)), []);
      } else {
        Dispatch(k);
        assert ds == [k];
        assert ApplyAll(s0, ds) == ApplyAll(Reduce(s0, k), []);
      }
    }
  }
}
