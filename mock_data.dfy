/** The fixtures the dashboard starts from: four students, four cases, the KPI figures, four
    notifications and the user settings. `createTimelineEvents` and `createFraudFlags` build the
    evidence of the first case from its id. */
module MockData {
  import opened Wrappers
  import opened Types
  import opened Text

  const Student001 := Student("STU001", "Alex Johnson", "alex.johnson@email.com",
    Some("+1-555-0123"), "2024-01-15", "Computer Science", Active)
  const Student002 := Student("STU002", "Sarah Williams", "sarah.williams@email.com",
    Some("+1-555-0124"), "2024-01-20", "Business Administration", Active)
  const Student003 := Student("STU003", "Michael Chen", "michael.chen@email.com",
    None, "2024-02-01", "Engineering", Suspended)
  const Student004 := Student("STU004", "Emma Davis", "emma.davis@email.com",
    None, "2024-02-10", "Psychology", Active)

  const MockStudents: seq<Student> := [Student001, Student002, Student003, Student004]

  const MockPreviousIncidents: seq<PreviousIncident> := [
    PreviousIncident("INC001", "2023-09-15", "Document Forgery", High, OutcomeWarning,
      "Submitted falsified transcript from previous institution"),
    PreviousIncident("INC002", "2023-11-22", "Essay Plagiarism", Medium, OutcomeDismissed,
      "85% similarity detected in admission essay")
  ]

  const MockMemoryEcho := MemoryEcho("ME001", "STU001", MockPreviousIncidents, RepeatOffender,
    0.87, "2024-01-29T10:30:00Z")

  /** The five-event timeline of a case: ids `<caseId>-timeline-1` to `-5`, submitted at 08:00
      and escalated at 10:00 on 2024-01-29; the first event has no agent and no score. */
  function CreateTimelineEvents(caseId: string): (r: seq<TimelineEvent>)
    ensures |r| == 5
    ensures forall k :: 0 <= k < 5 ==> r[k].id == caseId + "-timeline-" + NatToString(k + 1)
    ensures r[0].agent == None && r[0].riskScore == None
    ensures forall k :: 1 <= k < 5 ==> r[k].agent.Some? && r[k].riskScore.Some?
    ensures r[0].eventType == ApplicationSubmitted && r[4].eventType == EscalationEvent
  {
    [ TimelineEvent(caseId + "-timeline-1", ApplicationSubmitted, "2024-01-29T08:00:00Z", None,
        "Student submitted application for Spring 2024", None),
      TimelineEvent(caseId + "-timeline-2", FlagTriggered, "2024-01-29T08:15:00Z",
        Some(ApplicationAgent), "VPN IP detected from multiple geographic locations", Some(75)),
      TimelineEvent(caseId + "-timeline-3", AiAnalysis, "2024-01-29T08:30:00Z",
        Some(MemoryAgent), "Previous incident pattern detected", Some(85)),
      TimelineEvent(caseId + "-timeline-4", FlagTriggered, "2024-01-29T09:00:00Z",
        Some(ApplicationAgent), "Essay similarity detected (92% match)", Some(92)),
      TimelineEvent(caseId + "-timeline-5", EscalationEvent, "2024-01-29T10:00:00Z",
        Some(EscalationAgent), "Case escalated due to high risk score and memory pattern", Some(92)) ]
  }

  /** The generated timeline is in chronological order. */
  lemma TimelineIsChronological(caseId: string)
    ensures forall k :: 0 <= k < 4 ==>
              LexLess(CreateTimelineEvents(caseId)[k].timestamp,
                      CreateTimelineEvents(caseId)[k + 1].timestamp)
  {
    var t := CreateTimelineEvents(caseId);
    assert FirstDifferenceAt(t[0].timestamp, t[1].timestamp, 14);
    assert FirstDifferenceAt(t[1].timestamp, t[2].timestamp, 14);
    assert FirstDifferenceAt(t[2].timestamp, t[3].timestamp, 12);
    assert FirstDifferenceAt(t[3].timestamp, t[4].timestamp, 11);
  }

  /** The three flags of a case: ids `<caseId>-flag-1` to `-3`, all raised by the application
      agent, with confidences in [0, 1]. */
  function CreateFraudFlags(caseId: string): (r: seq<FraudFlag>)
    ensures |r| == 3
    ensures forall k :: 0 <= k < 3 ==> r[k].id == caseId + "-flag-" + NatToString(k + 1)
    ensures forall k :: 0 <= k < 3 ==> r[k].triggeredBy == ApplicationAgent
    ensures forall k :: 0 <= k < 3 ==> 0.0 <= r[k].confidence <= 1.0
    ensures r[0].flagType == VpnIp && r[1].flagType == EssaySimilarity && r[2].flagType == EmailAge
  {
    [ FraudFlag(caseId + "-flag-1", VpnIp,
        "Application submitted from VPN with multiple geographic locations", High, 0.89,
        ApplicationAgent, "2024-01-29T08:15:00Z"),
      FraudFlag(caseId + "-flag-2", EssaySimilarity,
        "Personal statement shows 92% similarity to existing content", Critical, 0.92,
        ApplicationAgent, "2024-01-29T09:00:00Z"),
      FraudFlag(caseId + "-flag-3", EmailAge,
        "Email account created less than 7 days before application", Medium, 0.75,
        ApplicationAgent, "2024-01-29T08:30:00Z") ]
  }

  const Case001 := FraudCase("CASE001", "STU001", Student001, 92, Pending, Critical,
    "2024-01-29T08:15:00Z", None, Admissions, CreateFraudFlags("CASE001"),
    CreateTimelineEvents("CASE001"),
    Some("High-risk case with multiple red flags including VPN usage, essay plagiarism, and previous incident history. Recommend immediate escalation and document verification."),
    Some(MockMemoryEcho), Some([]))

  const Case002 := FraudCase("CASE002", "STU002", Student002, 68, Pending, Medium,
    "2024-01-29T10:20:00Z", None, FinancialAid,
    [ FraudFlag("CASE002-flag-1", NoLmsActivity,
        "No LMS login activity for 14 days despite active enrollment", Medium, 0.82,
        ApplicationAgent, "2024-01-29T10:20:00Z") ],
    [ TimelineEvent("CASE002-timeline-1", ApplicationSubmitted, "2024-01-20T09:00:00Z", None,
        "Financial aid application submitted", None),
      TimelineEvent("CASE002-timeline-2", FlagTriggered, "2024-01-29T10:20:00Z",
        Some(ApplicationAgent), "Ghost student pattern detected - no LMS activity", Some(68)) ],
    Some("Potential ghost student case. Student enrolled but showing no academic engagement. Recommend verification of active participation."),
    None, Some([]))

  const Case003 := FraudCase("CASE003", "STU003", Student003, 45, Reviewed, Low,
    "2024-01-28T14:30:00Z", Some("2024-01-29T09:15:00Z"), Enrollment,
    [ FraudFlag("CASE003-flag-1", SuspiciousTiming,
        "Multiple document submissions within 5-minute window", Low, 0.65,
        ApplicationAgent, "2024-01-28T14:30:00Z") ],
    [ TimelineEvent("CASE003-timeline-1", FlagTriggered, "2024-01-28T14:30:00Z",
        Some(ApplicationAgent), "Rapid document submission pattern detected", Some(45)),
      TimelineEvent("CASE003-timeline-2", HumanReview, "2024-01-29T09:15:00Z", None,
        "Manual review completed - legitimate bulk upload", Some(15)) ],
    Some("Low-risk case resolved. Pattern consistent with legitimate document preparation and bulk upload."),
    None, Some([]))

  const Case004 := FraudCase("CASE004", "STU004", Student004, 78, Escalated, High,
    "2024-01-29T11:45:00Z", None, Admissions,
    [ FraudFlag("CASE004-flag-1", DuplicateDocuments,
        "Identical documents submitted by multiple applicants", High, 0.95,
        ApplicationAgent, "2024-01-29T11:45:00Z") ],
    [ TimelineEvent("CASE004-timeline-1", FlagTriggered, "2024-01-29T11:45:00Z",
        Some(ApplicationAgent), "Document duplication detected across multiple applications",
        Some(78)),
      TimelineEvent("CASE004-timeline-2", EscalationEvent, "2024-01-29T12:00:00Z",
        Some(EscalationAgent), "Escalated due to organized fraud suspicion", Some(78)) ],
    Some("High-priority case indicating possible organized fraud ring. Multiple students using identical documents."),
    None, Some([]))

  const MockFraudCases: seq<FraudCase> := [Case001, Case002, Case003, Case004]

  const MockKpiData := KpiData(127, 34, 18, 23, [
    TrendPoint("2024-01-23", 15), TrendPoint("2024-01-24", 22), TrendPoint("2024-01-25", 18),
    TrendPoint("2024-01-26", 28), TrendPoint("2024-01-27", 25), TrendPoint("2024-01-28", 32),
    TrendPoint("2024-01-29", 38) ])

  const Notification001 := NotificationToast("NOT001", Error, "Critical Fraud Alert",
    "High-risk case detected: Essay plagiarism (92% similarity)", "2024-01-29T12:15:00Z", false,
    Some("CASE001"))
  const Notification002 := NotificationToast("NOT002", Warning, "Escalation Recommended",
    "MemoryAgent detected repeat offender pattern", "2024-01-29T11:30:00Z", false,
    Some("CASE001"))
  const Notification003 := NotificationToast("NOT003", Info, "New Document Request",
    "Additional verification documents requested from student", "2024-01-29T10:45:00Z", true,
    Some("CASE002"))
  const Notification004 := NotificationToast("NOT004", Success, "Case Resolved",
    "Manual review completed - case marked as legitimate", "2024-01-29T09:15:00Z", true,
    Some("CASE003"))

  const MockNotifications: seq<NotificationToast> :=
    [Notification001, Notification002, Notification003, Notification004]

  const MockUserSettings := UserSettings(DarkTheme,
    NotificationPreferences(true, true, true, false), 70,
    EnabledAgents(true, true, true, true),
    [ DetectionRule("RULE001", "VPN Detection",
        "Detect applications submitted through VPN services", true, RuleVpnIp, 0.8, High),
      DetectionRule("RULE002", "Essay Similarity",
        "Detect plagiarized or highly similar essays", true, RuleEssaySimilarity, 0.85, Critical),
      DetectionRule("RULE003", "Email Age Check",
        "Flag recently created email accounts", true, RuleEmailAge, 7.0, Medium),
      DetectionRule("RULE004", "LMS Activity Monitor",
        "Detect students with no LMS engagement", true, RuleNoLmsActivity, 14.0, Medium) ])

  /** The fixture cases have distinct ids, each case carries its own student, and risk scores
      lie in [0, 100]. */
  lemma MockCasesWellFormed()
    ensures forall i, j :: 0 <= i < j < |MockFraudCases| ==> MockFraudCases[i].id != MockFraudCases[j].id
    ensures forall i :: 0 <= i < |MockFraudCases| ==>
              MockFraudCases[i].studentId == MockFraudCases[i].student.id
    ensures forall i :: 0 <= i < |MockFraudCases| ==> 0 <= MockFraudCases[i].riskScore <= 100
  {
  }

  /** Exactly the first two fixture cases are pending, and only the reviewed one has a review
      time. */
  lemma MockCaseStatuses()
    ensures forall i :: 0 <= i < |MockFraudCases| ==> (IsPending(MockFraudCases[i]) <==> i < 2)
    ensures forall i :: 0 <= i < |MockFraudCases| ==>
              (MockFraudCases[i].reviewedAt.Some? <==> MockFraudCases[i].status == Reviewed)
  {
  }

  /** The first two fixture notifications are the unread ones. */
  lemma MockNotificationsReadFlags()
    ensures forall i :: 0 <= i < |MockNotifications| ==> (!MockNotifications[i].read <==> i < 2)
  {
  }
}
