/** The entities of the review dashboard: students, fraud cases with their flags, timeline and
    document requests, notifications, KPI figures and user settings. Every string union of the
    source is an enumeration here; every optional property (`x?: T`) is an `Option`. The untyped
    `metadata` records are not part of this model. */
module Types {
  import opened Wrappers

  datatype StudentStatus = Active | Suspended | Graduated | Withdrawn

  /** The five states of a case. */
  datatype CaseStatus = Pending | Reviewed | Escalated | Resolved | Dismissed

  datatype Severity = Low | Medium | High | Critical

  datatype Stage = Admissions | FinancialAid | Enrollment | LmsActivity

  datatype FlagType =
    | VpnIp | EssaySimilarity | EmailAge | NoLmsActivity | DuplicateDocuments | SuspiciousTiming

  datatype AgentType = ApplicationAgent | MemoryAgent | EscalationAgent | ExplainerAgent

  datatype TimelineEventType =
    | ApplicationSubmitted | DocumentUploaded | FlagTriggered | AiAnalysis | HumanReview
    | EscalationEvent | ResolutionEvent

  datatype RiskPattern = RepeatOffender | EscalatingPattern | SimilarBehavior

  datatype IncidentOutcome = OutcomeDismissed | OutcomeWarning | OutcomeSuspended | OutcomeExpelled

  /** The four states of a document request. */
  datatype DocumentStatus = Sent | AwaitingResponse | Received | Overdue

  datatype NotificationType = Info | Warning | Error | Success

  /** The detection rules cover only four of the six flag types. */
  datatype RuleType = RuleVpnIp | RuleEssaySimilarity | RuleEmailAge | RuleNoLmsActivity

  datatype ThemeSetting = LightTheme | DarkTheme | SystemTheme

  datatype Student = Student(
    id: string, name: string, email: string, phone: Option<string>,
    enrollmentDate: string, program: string, status: StudentStatus)

  /** One piece of evidence; `confidence` is the fraction the source keeps in [0, 1]. */
  datatype FraudFlag = FraudFlag(
    id: string, flagType: FlagType, description: string, severity: Severity,
    confidence: real, triggeredBy: AgentType, triggeredAt: string)

  datatype TimelineEvent = TimelineEvent(
    id: string, eventType: TimelineEventType, timestamp: string, agent: Option<AgentType>,
    description: string, riskScore: Option<int>)

  datatype PreviousIncident = PreviousIncident(
    id: string, date: string, incidentType: string, severity: Severity,
    outcome: IncidentOutcome, description: string)

  datatype MemoryEcho = MemoryEcho(
    id: string, studentId: string, previousIncidents: seq<PreviousIncident>,
    riskPattern: RiskPattern, confidence: real, lastUpdated: string)

  /** A document request. Its `docType` is kept as the string the caller passed: the source
      casts it to the declared union with `as any`, so nothing enforces the union. */
  datatype DocumentRequest = DocumentRequest(
    id: string, docType: string, description: string, requestedAt: string, dueDate: string,
    status: DocumentStatus, emailSubject: string, emailBody: string)

  /** A case. `reviewedAt`, `aiSummary`, `memoryEcho` and `documentsRequested` are optional. */
  datatype FraudCase = FraudCase(
    id: string, studentId: string, student: Student, riskScore: int, status: CaseStatus,
    severity: Severity, flaggedAt: string, reviewedAt: Option<string>, stage: Stage,
    flags: seq<FraudFlag>, timeline: seq<TimelineEvent>, aiSummary: Option<string>,
    memoryEcho: Option<MemoryEcho>, documentsRequested: Option<seq<DocumentRequest>>)

  /** The review queue and the header badge look only at pending cases. */
  predicate IsPending(c: FraudCase) {
    c.status == Pending
  }

  /** A feed entry: a `read` flag and an optional link to a case. */
  datatype NotificationToast = NotificationToast(
    id: string, kind: NotificationType, title: string, message: string, timestamp: string,
    read: bool, caseId: Option<string>)

  datatype TrendPoint = TrendPoint(date: string, value: int)

  datatype KpiData = KpiData(
    totalFlags: int, financialAidFlags: int, ghostStudents: int, escalatedCases: int,
    trend: seq<TrendPoint>)

  datatype DetectionRule = DetectionRule(
    id: string, name: string, description: string, enabled: bool, ruleType: RuleType,
    threshold: real, severity: Severity)

  datatype NotificationPreferences = NotificationPreferences(
    newFlags: bool, escalations: bool, documentUpdates: bool, emailNotifications: bool)

  datatype EnabledAgents = EnabledAgents(
    applicationAgent: bool, memoryAgent: bool, escalationAgent: bool, explainerAgent: bool)

  datatype UserSettings = UserSettings(
    theme: ThemeSetting, notifications: NotificationPreferences, riskThreshold: int,
    enabledAgents: EnabledAgents, detectionRules: seq<DetectionRule>)

  /** The string literal of a status, as the source stores it. */
  function StatusName(s: CaseStatus): (r: string)
    ensures ParseStatus(r) == Some(s)
  {
    match s
    case Pending => "pending"
    case Reviewed => "reviewed"
    case Escalated => "escalated"
    case Resolved => "resolved"
    case Dismissed => "dismissed"
  }

  /** The status a string literal names, if it names one: every status has exactly one name. */
  function ParseStatus(name: string): Option<CaseStatus> {
    if name == "pending" then Some(Pending)
    else if name == "reviewed" then Some(Reviewed)
    else if name == "escalated" then Some(Escalated)
    else if name == "resolved" then Some(Resolved)
    else if name == "dismissed" then Some(Dismissed)
    else None
  }

  /** Every value `ParseStatus` accepts names that status and no other. */
  lemma ParseStatusInverse(name: string, s: CaseStatus)
    requires ParseStatus(name) == Some(s)
    ensures StatusName(s) == name
  {
  }

  function SeverityName(s: Severity): string {
    match s
    case Low => "low"
    case Medium => "medium"
    case High => "high"
    case Critical => "critical"
  }

  function StageName(s: Stage): (r: string)
    ensures '_' in r <==> s == FinancialAid || s == LmsActivity
  {
    match s
    case Admissions => "admissions"
    case FinancialAid => "financial_aid"
    case Enrollment => "enrollment"
    case LmsActivity => "lms_activity"
  }

  function FlagTypeName(t: FlagType): string {
    match t
    case VpnIp => "vpn_ip"
    case EssaySimilarity => "essay_similarity"
    case EmailAge => "email_age"
    case NoLmsActivity => "no_lms_activity"
    case DuplicateDocuments => "duplicate_documents"
    case SuspiciousTiming => "suspicious_timing"
  }

  function AgentName(a: AgentType): string {
    match a
    case ApplicationAgent => "ApplicationAgent"
    case MemoryAgent => "MemoryAgent"
    case EscalationAgent => "EscalationAgent"
    case ExplainerAgent => "ExplainerAgent"
  }

  /** The flag type a detection rule's type literal stands for: the same string, so the
      mapping is one-to-one and misses `duplicate_documents` and `suspicious_timing`. */
  function RuleFlagType(t: RuleType): (f: FlagType)
    ensures f != DuplicateDocuments && f != SuspiciousTiming
  {
    match t
    case RuleVpnIp => VpnIp
    case RuleEssaySimilarity => EssaySimilarity
    case RuleEmailAge => EmailAge
    case RuleNoLmsActivity => NoLmsActivity
  }

  function RuleTypeName(t: RuleType): string {
    match t
    case RuleVpnIp => "vpn_ip"
    case RuleEssaySimilarity => "essay_similarity"
    case RuleEmailAge => "email_age"
    case RuleNoLmsActivity => "no_lms_activity"
  }

  /** Some detection rule type stands for flag type `f`. */
  predicate HasRuleType(f: FlagType) {
    exists t :: RuleFlagType(t) == f
  }

  /** Rule types are a strict subset of flag types: each rule literal is a flag literal, the
      embedding is injective, and exactly two flag types have no rule. */
  lemma RuleTypesAreStrictSubset()
    ensures forall t :: FlagTypeName(RuleFlagType(t)) == RuleTypeName(t)
    ensures forall t, u :: RuleFlagType(t) == RuleFlagType(u) ==> t == u
    ensures forall f :: !HasRuleType(f) <==> f == DuplicateDocuments || f == SuspiciousTiming
  {
    forall f | f != DuplicateDocuments && f != SuspiciousTiming
      ensures HasRuleType(f)
    {
      match f
      case VpnIp => assert RuleFlagType(RuleVpnIp) == f;
      case EssaySimilarity => assert RuleFlagType(RuleEssaySimilarity) == f;
      case EmailAge => assert RuleFlagType(RuleEmailAge) == f;
      case NoLmsActivity => assert RuleFlagType(RuleNoLmsActivity) == f;
    }
  }
}
