/** One card of the review stack: how the end of a drag is read as a decision, what the card
    shows of a case (stage badge, at most three flags, the overflow note, the confidence badge,
    the Generate button) and the card's own "generating" flag. */
module SwipeCard {
  import opened Wrappers
  import opened Types
  import opened Seqs
  import opened Text
  import opened FraudContext

  /** The drag offset reported when the pointer is released, in pixels (y grows downwards). */
  datatype Offset = Offset(x: int, y: int)

  /** The handler a released drag calls, if any. */
  datatype ReviewAction = Approve | Escalate | Expand | NoAction

  const SwipeThreshold := 150
  const ExpandThreshold := 100

  /** `handleDragEnd`: far enough right approves, far enough left escalates, and only when
      neither holds does far enough up expand. All three thresholds are strict. */
  function Classify(o: Offset): (a: ReviewAction)
    ensures a == Approve <==> o.x > SwipeThreshold
    ensures a == Escalate <==> o.x < -SwipeThreshold
    ensures a == Expand <==> -SwipeThreshold <= o.x <= SwipeThreshold && o.y < -ExpandThreshold
    ensures a == NoAction <==> -SwipeThreshold <= o.x <= SwipeThreshold && o.y >= -ExpandThreshold
  {
    if o.x > SwipeThreshold then Approve
    else if o.x < -SwipeThreshold then Escalate
    else if o.y < -ExpandThreshold then Expand
    else NoAction
  }

  /** The handlers one release calls, in order. */
  function HandlersCalled(o: Offset): (r: seq<ReviewAction>)
    ensures |r| <= 1
    ensures r == [] <==> Classify(o) == NoAction
    ensures forall i :: 0 <= i < |r| ==> r[i] == Classify(o) && r[i] != NoAction
  {
    if Classify(o) == NoAction then [] else [Classify(o)]
  }

  /** A horizontal swipe wins over a vertical one, and the thresholds themselves do nothing. */
  lemma ClassifyExamples()
    ensures Classify(Offset(200, -200)) == Approve
    ensures Classify(Offset(-200, -200)) == Escalate
    ensures Classify(Offset(0, -150)) == Expand
    ensures Classify(Offset(150, 0)) == NoAction
    ensures Classify(Offset(-150, -100)) == NoAction
    ensures Classify(Offset(151, 0)) == Approve
  {
  }

  /** The flags listed on the card: the first three. */
  function FlagPreview(flags: seq<FraudFlag>): seq<FraudFlag> {
    Take(flags, 3)
  }

  /** `+N more flags`, shown only when there are more than three. */
  function MoreFlagsNote(flags: seq<FraudFlag>): Option<nat> {
    if |flags| > 3 then Some(|flags| - 3) else None
  }

  /** The preview is a prefix of the flags, and the preview together with the note accounts
      for every flag. */
  lemma FlagPreviewAccountsForAll(flags: seq<FraudFlag>)
    ensures |FlagPreview(flags)| <= 3
    ensures FlagPreview(flags) == flags[..|FlagPreview(flags)|]
    ensures |FlagPreview(flags)| + MoreFlagsNote(flags).GetOr(0) == |flags|
    ensures MoreFlagsNote(flags).Some? <==> |FlagPreview(flags)| < |flags|
  {
  }

  /** `stage.replace('_', ' ')`: the stage name with its first underscore as a space. */
  function SpacedStage(s: Stage): string {
    ReplaceFirst(StageName(s), "_", " ")
  }

  /** `stage.replace('_', ' ').toUpperCase()`. */
  function StageLabel(s: Stage): string {
    Upper(SpacedStage(s))
  }

  /** `r` is `name` with every underscore turned into a space. */
  predicate SpacedCopy(name: string, r: string) {
    |r| == |name| && forall i :: 0 <= i < |name| ==> r[i] == if name[i] == '_' then ' ' else name[i]
  }

  lemma NameWithoutUnderscore(name: string)
    requires '_' !in name
    ensures SpacedCopy(name, ReplaceFirst(name, "_", " "))
  {
    MissingCharNotIncluded(name, "_", 0);
    ReplaceAbsent(name, "_", " ");
  }

  lemma NameWithUnderscore(a: string, b: string)
    requires '_' !in a && '_' !in b
    ensures SpacedCopy(a + "_" + b, ReplaceFirst(a + "_" + b, "_", " "))
  {
    ReplaceFirstChar(a, b, '_', " ");
  }

  /** Every stage name has at most one underscore, so replacing the first one is enough: the
      spaced stage is the stage name with every underscore as a space. */
  lemma SpacedStageSpec(s: Stage)
    ensures SpacedCopy(StageName(s), SpacedStage(s))
  {
    var n := StageName(s);
    match s
    case Admissions => NameWithoutUnderscore(n);
    case Enrollment => NameWithoutUnderscore(n);
    case FinancialAid =>
      assert n == "financial" + "_" + "aid";
      NameWithUnderscore("financial", "aid");
    case LmsActivity =>
      assert n == "lms" + "_" + "activity";
      NameWithUnderscore("lms", "activity");
  }

  /** The badge is the stage name with its underscore as a space, in capitals. */
  lemma StageLabelSpec(s: Stage)
    ensures |StageLabel(s)| == |StageName(s)|
    ensures forall i :: 0 <= i < |StageName(s)| ==>
              StageLabel(s)[i] == if StageName(s)[i] == '_' then ' ' else UpperChar(StageName(s)[i])
  {
    SpacedStageSpec(s);
  }

  /** No badge shows an underscore. */
  lemma StageLabelHasNoUnderscore(s: Stage)
    ensures '_' !in StageLabel(s)
  {
    StageLabelSpec(s);
    var l := StageLabel(s);
    forall i | 0 <= i < |l| ensures l[i] != '_' {
    }
  }

  /** The colour band of a confidence badge. */
  datatype Tone = DangerTone | WarningTone | SafeTone

  function ConfidenceTone(confidence: real): (t: Tone)
    ensures t == DangerTone <==> confidence > 0.8
    ensures t == WarningTone <==> 0.6 < confidence <= 0.8
    ensures t == SafeTone <==> confidence <= 0.6
  {
    if confidence > 0.8 then DangerTone else if confidence > 0.6 then WarningTone else SafeTone
  }

  /** `Math.round(confidence * 100)`: halves round up. */
  function ConfidencePercent(confidence: real): (p: int)
    ensures p as real - 0.5 <= confidence * 100.0 < p as real + 0.5
    ensures 0.0 <= confidence <= 1.0 ==> 0 <= p <= 100
  {
    (confidence * 100.0 + 0.5).Floor
  }

  /** The Generate button is offered while the case has no summary (an empty one counts as
      none). */
  predicate ShowGenerateButton(c: FraudCase) {
    c.aiSummary.None? || c.aiSummary.value == ""
  }

  /** Once a summary lands on a case, its card no longer offers the button. */
  lemma SummaryHidesGenerateButton(s: State, caseId: string)
    requires SummarySnapshot(s, caseId).Some?
    ensures var r := ApplyAll(s, SummaryDispatches(caseId, SummarySnapshot(s, caseId)));
            FindCase(r.fraudCases, caseId).Some? && !ShowGenerateButton(FindCase(r.fraudCases, caseId).value)
  {
    var c := SummarySnapshot(s, caseId).value;
    var u := c.(aiSummary := Some(SummaryText(caseId, c)));
    ApplyAllShort(s, UpdateCase(u), UpdateCase(u));
    FindAfterReplace(s.fraudCases, u, caseId);
    SummaryRecommendation(caseId, c);
  }

  /** The card's own state: whether its summary request is in flight. */
  class Card {
    var isGeneratingAI: bool

    constructor()
      ensures !isGeneratingAI
    {
      isGeneratingAI := false;
    }

    /** A click on Generate: the button is disabled while a request is in flight. The flag goes
        up and the context takes its snapshot of the case. */
    method StartGenerate(store: Store, caseId: string) returns (snapshot: Option<FraudCase>)
      requires !isGeneratingAI
      modifies this
      ensures isGeneratingAI
      ensures snapshot == SummarySnapshot(store.state, caseId)
    {
      isGeneratingAI := true;
      snapshot := store.BeginAiSummary(caseId);
    }

    /** The awaited request finishes: the summary is written and the flag comes down. */
    method FinishGenerate(store: Store, caseId: string, snapshot: Option<FraudCase>)
      modifies this, store
      ensures !isGeneratingAI
      ensures store.state == ApplyAll(old(store.state), SummaryDispatches(caseId, snapshot))
    {
      store.CompleteAiSummary(caseId, snapshot);
      isGeneratingAI := false;
    }
  }
}
