# Fraud-detection review dashboard, modelled in Dafny

This project models the core of a React dashboard that admissions and financial-aid staff use
to review applications flagged as possible fraud. The model covers the following parts:

- **Shared state** (`FraudContext`): one store holding the cases, the notification feed, the
  KPI figures, the user settings, the status filter and the search query. A reducer handles
  the ten actions. The provider's action creators are approve, escalate, dismiss, select,
  generate an AI summary and request documents, plus the start-up load and the simulated
  real-time tick. Each action creator is modelled as the list of actions it dispatches. The
  `Store` class applies that list one dispatch at a time.
- **Entities** (`Types`) and **fixtures** (`MockData`): the students, cases, flags, timeline
  events and notifications the dashboard starts from.
- **Dashboard** (`Dashboard`): the KPI cards that set the filters and the filtered case list.
- **Alerts table** (`AlertsTable`): the table's own search, stage cell, agent chips, mini
  timeline and empty message.
- **Review panel** (`CaseReview`): the queue of pending, unhandled cases, the cursor, the
  swipe, key and drag handlers, the stack of three cards and the session summary. A
  **swipe card** (`SwipeCard`) reads the end of a drag as a decision, shows a flag preview
  and confidence badges, and offers the Generate button.
- **Bell** (`NotificationSystem`): the unread badge, the dropdown, the click on an entry and
  the stack of at most five toasts.
- **Header** (`Header`): the pending badge on the review tab and the persisted light/dark
  theme.

Two modules are shared helpers. `Seqs` has filter, count, take, take-last and distinct.
`Text` models JavaScript's `toLowerCase`, `includes`, `replace` with a string pattern and
number-to-string. `Wrappers` holds `Option`.

Behaviour of the code worth noting:

- `approveCase` and `escalateCase` have no status guard. A case that is already decided is
  decided again and raises a second notification (`FraudContext.ApproveTwiceNotifiesTwice`).
- Clicking the active KPI card again clears the highlight but dispatches that card's filters
  again. The filters are not restored (`Dashboard.SecondClickKeepsFilters`).
- The review panel's cursor is advanced against the queue as it was before the decision, so it
  can skip a case or point past the end while cases remain. The reset button appears only on
  the "All Cases Reviewed" screen, so a stuck panel cannot be reset from within the panel;
  leaving the review tab and returning mounts a new panel, which starts a new session
  (`CaseReview.StuckAfterFirstOfTwo`, `CaseReview.FixtureSessionGetsStuck`).
- The approve action sets status `dismissed`, not a separate "approved" status.

## Model

| member | source | states |
|---|---|---|
| Types.StatusName | fraud-detection-dashboard/src/types/index.ts:16 | every case status has a string literal that parses back to it |
| Types.ParseStatusInverse | fraud-detection-dashboard/src/types/index.ts:16 | a literal that parses to a status is that status's one literal |
| Types.StageName | fraud-detection-dashboard/src/types/index.ts:11-26 | exactly the stages `financial_aid` and `lms_activity` have an underscore |
| Types.RuleFlagType | fraud-detection-dashboard/src/types/index.ts:106 | a detection rule type never stands for `duplicate_documents` or `suspicious_timing` |
| Types.RuleTypesAreStrictSubset | fraud-detection-dashboard/src/types/index.ts:28-30 | each rule literal is a flag literal, different rule types stand for different flag types, and exactly two flag types have no rule |
| MockData.CreateTimelineEvents | fraud-detection-dashboard/src/data/mockData.ts:72-116 | five events with ids `<case>-timeline-1..5`; the first has no agent and no score, the rest have both; submitted first, escalation last |
| MockData.TimelineIsChronological | fraud-detection-dashboard/src/data/mockData.ts:72-116 | each generated timestamp comes strictly before the next in string order, which for these ISO timestamps is time order |
| MockData.CreateFraudFlags | fraud-detection-dashboard/src/data/mockData.ts:119-150 | three flags with ids `<case>-flag-1..3`, all raised by the application agent, confidence in [0, 1], types vpn_ip, essay_similarity, email_age |
| MockData.MockCasesWellFormed | fraud-detection-dashboard/src/data/mockData.ts:153-295 | the fixture cases have distinct ids, each case's student id is its student's id, and risk scores lie in 0..100 |
| MockData.MockCaseStatuses | fraud-detection-dashboard/src/data/mockData.ts:153-295 | exactly the first two fixture cases are pending, and a fixture case has a review time iff its status is `reviewed` |
| MockData.MockNotificationsReadFlags | fraud-detection-dashboard/src/data/mockData.ts:315-352 | exactly the first two fixture notifications are unread |
| FraudContext.MergeSettingsProperties | fraud-detection-dashboard/src/context/FraudDetectionContext.tsx:82-86 | in the settings merge, for each of the five fields, a present field wins and an absent one is kept; the empty patch is the identity; the merge is idempotent |
| FraudContext.CaseIds | fraud-detection-dashboard/src/context/FraudDetectionContext.tsx:62-69 | the id list has one entry per case, the id of the case at the same position |
| FraudContext.FindCase | fraud-detection-dashboard/src/context/FraudDetectionContext.tsx:141-142 | `find` returns a case iff one has the id, and then the first case with that id |
| FraudContext.ReplaceByIdProperties | fraud-detection-dashboard/src/context/FraudDetectionContext.tsx:62-69 | UPDATE_CASE's map keeps length and id order, swaps in the payload exactly where the id matches, is the identity for an unknown id, and is idempotent |
| FraudContext.FindAfterReplace | fraud-detection-dashboard/src/context/FraudDetectionContext.tsx:62-69 | after a replacement the replaced id finds the payload and any other id finds what it found before |
| FraudContext.FindIndexAfterReplace | fraud-detection-dashboard/src/context/FraudDetectionContext.tsx:62-69 | a replacement does not change the lookup of any other id |
| FraudContext.MarkReadProperties | fraud-detection-dashboard/src/context/FraudDetectionContext.tsx:75-81 | marking read sets `read` on exactly the entries with that id, changes nothing else, keeps length, and is idempotent |
| FraudContext.UpdateCaseEffect | fraud-detection-dashboard/src/context/FraudDetectionContext.tsx:62-69 | UPDATE_CASE replaces every case with the payload's id, keeps the others in place, and swaps the selection only when it has that id |
| FraudContext.UpdateCaseUnknownAndRepeated | fraud-detection-dashboard/src/context/FraudDetectionContext.tsx:62-69 | an UPDATE_CASE matching nothing is the identity; repeating one changes nothing more |
| FraudContext.NotificationActionsEffect | fraud-detection-dashboard/src/context/FraudDetectionContext.tsx:70-81 | ADD_NOTIFICATION prepends and touches nothing else; MARK_NOTIFICATION_READ keeps the feed's length and touches nothing else |
| FraudContext.ApplyAllAppend | fraud-detection-dashboard/src/context/FraudDetectionContext.tsx:51-96 | dispatching two lists in a row is dispatching their concatenation |
| FraudContext.ApplyAllSnoc | fraud-detection-dashboard/src/context/FraudDetectionContext.tsx:51-96 | one more dispatch after a list is one more reducer step |
| FraudContext.ApplyAllShort | fraud-detection-dashboard/src/context/FraudDetectionContext.tsx:51-96 | dispatching one or two actions is one or two reducer steps |
| FraudContext.LoadEffect | fraud-detection-dashboard/src/context/FraudDetectionContext.tsx:106-111 | the timer's dispatches load the fixture cases, put the second fixture notification above the first on top of the feed, turn loading off and change nothing else |
| FraudContext.InitEffect | fraud-detection-dashboard/src/context/FraudDetectionContext.tsx:102-112 | the whole start-up loads the fixture cases, puts the second fixture notification above the first on top of the feed, ends with loading off and changes nothing else |
| FraudContext.ApproveEffect | fraud-detection-dashboard/src/context/FraudDetectionContext.tsx:141-162 | approval of a known id makes that case dismissed with a review time and puts a success notification on top; an unknown id changes nothing; no status guard; a selected case with that id is swapped for the updated one, and nothing else changes |
| FraudContext.EscalateEffect | fraud-detection-dashboard/src/context/FraudDetectionContext.tsx:164-185 | escalation of a known id makes that case escalated with a review time and puts an error notification on top; an unknown id changes nothing; a selected case with that id is swapped for the updated one, and nothing else changes |
| FraudContext.DismissEffect | fraud-detection-dashboard/src/context/FraudDetectionContext.tsx:187-197 | dismissal of a known id makes that case dismissed with a review time and leaves the feed alone; a selected case with that id is swapped for the updated one, and nothing else changes |
| FraudContext.ApproveTwiceNotifiesTwice | fraud-detection-dashboard/src/context/FraudDetectionContext.tsx:141-162 | approving the same case twice adds two success notifications |
| FraudContext.RequestDocumentsEffect | fraud-detection-dashboard/src/context/FraudDetectionContext.tsx:219-250 | a document request keeps the case's earlier requests (an absent list counts as empty), appends one sent request with the given type and body, the case's subject line and a due date one week later, changes nothing else about that case or any other, swaps a selected case with that id, adds an info notification, and touches no other field |
| FraudContext.SummaryRecommendation | fraud-detection-dashboard/src/context/FraudDetectionContext.tsx:209 | the summary recommends immediate escalation exactly when the risk score is above 80 and always starts with the case id |
| FraudContext.SummaryOverwritesConcurrentApproval | fraud-detection-dashboard/src/context/FraudDetectionContext.tsx:203-217 | a summary that lands after an approval puts back the status the case had when generation started |
| FraudContext.TickEffect | fraud-detection-dashboard/src/context/FraudDetectionContext.tsx:115-139 | a tick raises total flags by 0 to 2, touches no other KPI figure or case, adds at most one unread, unlinked alert on top, and touches no other field |
| FraudContext.Store.constructor | fraud-detection-dashboard/src/context/FraudDetectionContext.tsx:28-37 | the store starts in the initial state |
| FraudContext.Store.Dispatch | fraud-detection-dashboard/src/context/FraudDetectionContext.tsx:51-96 | the new state is the reducer applied to the old one |
| FraudContext.Store.Mount | fraud-detection-dashboard/src/context/FraudDetectionContext.tsx:102-103 | on mount loading goes on and nothing else changes |
| FraudContext.Store.FinishLoading | fraud-detection-dashboard/src/context/FraudDetectionContext.tsx:106-111 | when the timer fires the state becomes the old one after the timer's dispatches: fixture cases loaded, loading off |
| FraudContext.Store.Initialize | fraud-detection-dashboard/src/context/FraudDetectionContext.tsx:102-112 | mounting and then letting the timer fire gives the old state after the whole start-up |
| FraudContext.Store.ApproveCase | fraud-detection-dashboard/src/context/FraudDetectionContext.tsx:141-162 | the new state is the old one after the approval's dispatches |
| FraudContext.Store.EscalateCase | fraud-detection-dashboard/src/context/FraudDetectionContext.tsx:164-185 | the new state is the old one after the escalation's dispatches |
| FraudContext.Store.DismissCase | fraud-detection-dashboard/src/context/FraudDetectionContext.tsx:187-197 | the new state is the old one after the dismissal's dispatches |
| FraudContext.Store.SelectCase | fraud-detection-dashboard/src/context/FraudDetectionContext.tsx:199-201 | the new state is the old one with that case selected |
| FraudContext.Store.RequestDocuments | fraud-detection-dashboard/src/context/FraudDetectionContext.tsx:219-250 | the new state is the old one after the document request's dispatches |
| FraudContext.Store.BeginAiSummary | fraud-detection-dashboard/src/context/FraudDetectionContext.tsx:203-205 | the snapshot taken before the wait is the lookup of the id in the current state |
| FraudContext.Store.CompleteAiSummary | fraud-detection-dashboard/src/context/FraudDetectionContext.tsx:209-216 | after the wait the snapshot with its summary is dispatched |
| FraudContext.Store.Tick | fraud-detection-dashboard/src/context/FraudDetectionContext.tsx:115-139 | the new state is the old one after the tick's dispatches |
| SwipeCard.Classify | fraud-detection-dashboard/src/components/SwipeableFraudCard.tsx:51-64 | a release beyond +150 px approves, beyond -150 px escalates, otherwise above -100 px vertically expands, and anything else does nothing, each as an iff |
| SwipeCard.HandlersCalled | fraud-detection-dashboard/src/components/SwipeableFraudCard.tsx:51-64 | one release calls at most one handler, and none exactly when the drag means nothing |
| SwipeCard.ClassifyExamples | fraud-detection-dashboard/src/components/SwipeableFraudCard.tsx:51-64 | horizontal wins over vertical and the thresholds themselves do nothing |
| SwipeCard.FlagPreviewAccountsForAll | fraud-detection-dashboard/src/components/SwipeableFraudCard.tsx:166-198 | the card lists a prefix of at most three flags, and `+N more` counts exactly the rest |
| SwipeCard.SpacedStageSpec | fraud-detection-dashboard/src/components/SwipeableFraudCard.tsx:155 | replacing the first underscore of a stage name turns every underscore into a space |
| SwipeCard.StageLabelSpec | fraud-detection-dashboard/src/components/SwipeableFraudCard.tsx:155 | the stage badge is the stage name in capitals with its underscore as a space |
| SwipeCard.StageLabelHasNoUnderscore | fraud-detection-dashboard/src/components/SwipeableFraudCard.tsx:155 | no stage badge shows an underscore |
| SwipeCard.ConfidenceTone | fraud-detection-dashboard/src/components/SwipeableFraudCard.tsx:183-187 | danger above 0.8, warning in (0.6, 0.8], safe otherwise, each as an iff |
| SwipeCard.ConfidencePercent | fraud-detection-dashboard/src/components/SwipeableFraudCard.tsx:188 | the percentage is the nearest integer to confidence × 100, with halves rounding up, and lies in 0..100 for a confidence in [0, 1] |
| SwipeCard.SummaryHidesGenerateButton | fraud-detection-dashboard/src/components/SwipeableFraudCard.tsx:208-217 | once a summary lands on the case, its card no longer offers Generate |
| SwipeCard.Card.constructor | fraud-detection-dashboard/src/components/SwipeableFraudCard.tsx:44 | no request is in flight at first |
| SwipeCard.Card.StartGenerate | fraud-detection-dashboard/src/components/SwipeableFraudCard.tsx:66-68 | the flag goes up and the case is looked up |
| SwipeCard.Card.FinishGenerate | fraud-detection-dashboard/src/components/SwipeableFraudCard.tsx:68-69 | the summary is dispatched and the flag comes down |
| CaseReview.CurrentCase | fraud-detection-dashboard/src/components/CaseReviewPanel.tsx:18 | there is a current case iff the cursor is inside the queue, and then it is the queue's entry there |
| CaseReview.NextIndex | fraud-detection-dashboard/src/components/CaseReviewPanel.tsx:42-48 | the cursor moves one on if it was before the old queue's last entry, otherwise it goes back to 0 |
| CaseReview.KeyAction | fraud-detection-dashboard/src/components/CaseReviewPanel.tsx:55-72 | Right approves, Left escalates and Up expands, each as an iff |
| CaseReview.CardAction | fraud-detection-dashboard/src/components/CaseReviewPanel.tsx:137-146 | only the top card gets the real handlers |
| CaseReview.VisibleStack | fraud-detection-dashboard/src/components/CaseReviewPanel.tsx:137 | the stack is at most three consecutive queue entries starting at the cursor, and it is empty iff there is no current case |
| CaseReview.SummaryCountsBounded | fraud-detection-dashboard/src/components/CaseReviewPanel.tsx:198-210 | approved plus escalated never exceeds the session total |
| CaseReview.FilterKeepsIdsDistinct | fraud-detection-dashboard/src/components/CaseReviewPanel.tsx:14-16 | the queue of a store with distinct ids has distinct ids |
| CaseReview.QueueAfterDecision | fraud-detection-dashboard/src/components/CaseReviewPanel.tsx:20-34 | deciding a case and marking it handled removes exactly that id from the queue |
| CaseReview.RemoveUniqueId | fraud-detection-dashboard/src/components/CaseReviewPanel.tsx:14-16 | dropping the one case with an id from the queue cuts it out at its position |
| CaseReview.DecideEffect | fraud-detection-dashboard/src/components/CaseReviewPanel.tsx:20-34 | a swipe on the current case records the decision, cuts that case out of the queue, marks it handled and moves the cursor by the old queue's length |
| CaseReview.NoCurrentCaseIsInert | fraud-detection-dashboard/src/components/CaseReviewPanel.tsx:20-40 | with no current case every handler leaves everything as it is |
| CaseReview.StuckAfterFirstOfTwo | fraud-detection-dashboard/src/components/CaseReviewPanel.tsx:42-48 | after deciding the first of two cases the cursor points past the one-case queue, no handler does anything, and the reset screen is not shown |
| CaseReview.DecisionSkipsNext | fraud-detection-dashboard/src/components/CaseReviewPanel.tsx:42-48 | with three or more cases, deciding the first lands the cursor on the old third case |
| CaseReview.DecisionAtEndWraps | fraud-detection-dashboard/src/components/CaseReviewPanel.tsx:42-48 | deciding the last case wraps the cursor to the first case |
| CaseReview.ResetQueueIsAllPending | fraud-detection-dashboard/src/components/CaseReviewPanel.tsx:50-53 | after a reset the queue is every pending case |
| CaseReview.ExpandSelectsCurrent | fraud-detection-dashboard/src/components/CaseReviewPanel.tsx:36-40 | expanding selects the current case and changes nothing else |
| CaseReview.FixtureQueue | fraud-detection-dashboard/src/components/CaseReviewPanel.tsx:14-16 | a fresh session over the fixtures queues CASE001 then CASE002 |
| CaseReview.FixtureSessionGetsStuck | fraud-detection-dashboard/src/components/CaseReviewPanel.tsx:42-104 | on the fixtures, the first swipe leaves one case queued, no current case and no reset button |
| CaseReview.Panel.constructor | fraud-detection-dashboard/src/components/CaseReviewPanel.tsx:10-11 | the cursor starts at 0 with nothing handled |
| CaseReview.Panel.MoveToNext | fraud-detection-dashboard/src/components/CaseReviewPanel.tsx:42-48 | the cursor becomes the next index and the handled set is unchanged |
| CaseReview.Panel.HandleSwipeRight | fraud-detection-dashboard/src/components/CaseReviewPanel.tsx:20-26 | the store and session become the approval decision's result |
| CaseReview.Panel.HandleSwipeLeft | fraud-detection-dashboard/src/components/CaseReviewPanel.tsx:28-34 | the store and session become the escalation decision's result |
| CaseReview.Panel.HandleExpand | fraud-detection-dashboard/src/components/CaseReviewPanel.tsx:36-40 | the store selects the current case, if any |
| CaseReview.Panel.Handle | fraud-detection-dashboard/src/components/CaseReviewPanel.tsx:20-40 | one handler call has the effect its response function describes |
| CaseReview.Panel.HandleKey | fraud-detection-dashboard/src/components/CaseReviewPanel.tsx:55-72 | a key press has the effect of the handler its code names |
| CaseReview.Panel.HandleCardDragEnd | fraud-detection-dashboard/src/components/CaseReviewPanel.tsx:137-146 | a drag released on a card runs the decision only on the top card |
| CaseReview.Panel.ResetStack | fraud-detection-dashboard/src/components/CaseReviewPanel.tsx:50-53 | the cursor goes to 0 and the handled set is emptied |
| Dashboard.ToggledKpi | fraud-detection-dashboard/src/components/Dashboard.tsx:13 | the highlight clears iff the clicked card was active, otherwise it becomes that card |
| Dashboard.KpiClickEffect | fraud-detection-dashboard/src/components/Dashboard.tsx:12-31 | each card sets its filter values, the default resets both filters, and nothing else in the state changes |
| Dashboard.KpiClickIdempotent | fraud-detection-dashboard/src/components/Dashboard.tsx:12-31 | clicking the same card twice leaves the state of one click |
| Dashboard.SecondClickKeepsFilters | fraud-detection-dashboard/src/components/Dashboard.tsx:12-31 | the second click on the active card clears the highlight but keeps its filters |
| Dashboard.FilteredCases | fraud-detection-dashboard/src/components/Dashboard.tsx:33-42 | the list keeps store order and holds a case iff it passes both the status filter and the search |
| Dashboard.DefaultFiltersShowEverything | fraud-detection-dashboard/src/components/Dashboard.tsx:33-42 | with status `all` and an empty query every case is listed |
| Dashboard.FilterNarrowsByStatus | fraud-detection-dashboard/src/components/Dashboard.tsx:34 | every listed case is a store case whose status passes the filter |
| Dashboard.AlexMatchesAlex | fraud-detection-dashboard/src/components/Dashboard.tsx:35-39 | the query "alex" matches CASE001 through its student name |
| Dashboard.LackingTextMisses | fraud-detection-dashboard/src/components/Dashboard.tsx:35-39 | a text lacking some character of the query does not include it, ignoring case |
| Dashboard.SearchMissesCase | fraud-detection-dashboard/src/components/Dashboard.tsx:35-39 | a case none of whose searched fields can hold the query is not matched |
| Dashboard.SarahMissesAlex | fraud-detection-dashboard/src/components/Dashboard.tsx:35-39 | the query "sarah" does not match CASE001 |
| Dashboard.FilterAndSearchCompose | fraud-detection-dashboard/src/components/Dashboard.tsx:33-42 | with the pending filter, "alex" lists only the pending Alex case and "sarah" lists nothing, since her case is escalated |
| Dashboard.FinancialMissesCase001 | fraud-detection-dashboard/src/components/Dashboard.tsx:17-20 | the financial card's filters reject CASE001 |
| Dashboard.FinancialMatchesCase002 | fraud-detection-dashboard/src/components/Dashboard.tsx:17-20 | the financial card's filters accept CASE002 |
| Dashboard.FilterFixturesToCase002 | fraud-detection-dashboard/src/components/Dashboard.tsx:33-42 | a test that keeps only CASE002 of the fixtures filters them to CASE002 |
| Dashboard.FinancialCardOnFixtures | fraud-detection-dashboard/src/components/Dashboard.tsx:12-42 | the financial card over the fixture cases lists exactly CASE002 |
| Dashboard.FinancialCardAfterStartUp | fraud-detection-dashboard/src/components/Dashboard.tsx:12-42 | after start-up, the financial card lists exactly CASE002 |
| Dashboard.View.constructor | fraud-detection-dashboard/src/components/Dashboard.tsx:10 | no card is active at first |
| Dashboard.View.HandleKpiClick | fraud-detection-dashboard/src/components/Dashboard.tsx:12-31 | the highlight toggles and the store receives the card's dispatches |
| AlertsTable.TableRows | fraud-detection-dashboard/src/components/RecentAlertsTable.tsx:47-51 | the rows keep order and hold a case iff its name, id or stage includes the query, ignoring case |
| AlertsTable.EmptyTableSearchKeepsAll | fraud-detection-dashboard/src/components/RecentAlertsTable.tsx:47-51 | an empty table search keeps every case |
| AlertsTable.TableSearchImpliesDashboardSearch | fraud-detection-dashboard/src/components/RecentAlertsTable.tsx:47-51 | whatever the table search matches, the dashboard search matches too |
| AlertsTable.TableIgnoresFlagTypes | fraud-detection-dashboard/src/components/RecentAlertsTable.tsx:47-51 | strictly narrower: "no_lms" finds CASE002 on the dashboard but not in the table |
| AlertsTable.DisplayedRows | fraud-detection-dashboard/src/components/RecentAlertsTable.tsx:47-51 | a displayed row is a store case passing the dashboard filters and the table search, and every such case is displayed |
| AlertsTable.StageCell | fraud-detection-dashboard/src/components/RecentAlertsTable.tsx:183 | the stage cell is the stage name with every underscore as a space |
| AlertsTable.FlagAgents | fraud-detection-dashboard/src/components/RecentAlertsTable.tsx:201 | one agent per flag, in flag order |
| AlertsTable.AgentChips | fraud-detection-dashboard/src/components/RecentAlertsTable.tsx:201 | each agent that raised a flag appears once, only such agents appear, and they appear in first-flag order |
| AlertsTable.AgentLabelSpec | fraud-detection-dashboard/src/components/RecentAlertsTable.tsx:206 | the chip text is the agent name without its `Agent` suffix, and it is never empty |
| AlertsTable.AgentLabelInjective | fraud-detection-dashboard/src/components/RecentAlertsTable.tsx:206 | different agents get different chip texts |
| AlertsTable.MiniTimelineAccountsForAll | fraud-detection-dashboard/src/components/RecentAlertsTable.tsx:72-89 | the dots are the last three or fewer events, and `+N` counts exactly the events before them |
| AlertsTable.EmptyMessage | fraud-detection-dashboard/src/components/RecentAlertsTable.tsx:237-241 | a message appears iff there are no rows, and it is the no-match one iff the query is non-empty |
| AlertsTable.NoSearchMeansNoCases | fraud-detection-dashboard/src/components/RecentAlertsTable.tsx:237-241 | without a query the table is empty only when no case was passed in |
| NotificationSystem.UnreadAfterMarkRead | fraud-detection-dashboard/src/components/NotificationSystem.tsx:13-47 | marking an id read lowers the unread count by exactly the unread entries with that id |
| NotificationSystem.UnreadAfterAdd | fraud-detection-dashboard/src/components/NotificationSystem.tsx:13 | a new entry adds one to the unread count iff it is unread |
| NotificationSystem.BellBadge | fraud-detection-dashboard/src/components/NotificationSystem.tsx:77-83 | the badge shows iff some entry is unread, and reads the count capped at `9+` |
| NotificationSystem.DropdownSpec | fraud-detection-dashboard/src/components/NotificationSystem.tsx:107-150 | the dropdown lists the first ten entries or fewer; "View all" shows iff entries are left out; the empty message shows iff nothing is listed |
| NotificationSystem.LinkedCase | fraud-detection-dashboard/src/components/NotificationSystem.tsx:40-45 | a click selects a case iff the entry has a non-empty case id that the store finds |
| NotificationSystem.ClickEffect | fraud-detection-dashboard/src/components/NotificationSystem.tsx:35-47 | a click marks an unread entry read, selects its linked case, and touches nothing else |
| NotificationSystem.PushToast | fraud-detection-dashboard/src/components/NotificationSystem.tsx:49-50 | the new toast comes first, followed by the newest previous ones, at most five in all |
| NotificationSystem.WithoutToast | fraud-detection-dashboard/src/components/NotificationSystem.tsx:54 | removal drops every toast with the id and keeps the others in order |
| NotificationSystem.WithoutToastProperties | fraud-detection-dashboard/src/components/NotificationSystem.tsx:54 | removing an absent id changes nothing, and removing twice equals removing once |
| NotificationSystem.ToastFor | fraud-detection-dashboard/src/components/NotificationSystem.tsx:59-64 | the feed effect toasts the top entry iff it exists and is unread |
| NotificationSystem.ReviewDecisionRaisesToast | fraud-detection-dashboard/src/components/NotificationSystem.tsx:59-64 | approving or escalating a known case raises a toast for its notification |
| NotificationSystem.StartUpToast | fraud-detection-dashboard/src/components/NotificationSystem.tsx:13-64 | after start-up NOT002 is toasted and the bell counts two unread entries |
| NotificationSystem.Center.constructor | fraud-detection-dashboard/src/components/NotificationSystem.tsx:10-11 | the dropdown starts closed with no toasts |
| NotificationSystem.Center.ToggleOpen | fraud-detection-dashboard/src/components/NotificationSystem.tsx:73 | the bell flips the dropdown and leaves the toasts alone |
| NotificationSystem.Center.CloseOverlay | fraud-detection-dashboard/src/components/NotificationSystem.tsx:200-204 | the overlay closes the dropdown |
| NotificationSystem.Center.AddToast | fraud-detection-dashboard/src/components/NotificationSystem.tsx:49-51 | the toast is pushed and there are never more than five |
| NotificationSystem.Center.DismissToast | fraud-detection-dashboard/src/components/NotificationSystem.tsx:53-55 | the toasts with that id are removed, keeping the five-toast bound |
| NotificationSystem.Center.OnFeedChanged | fraud-detection-dashboard/src/components/NotificationSystem.tsx:59-64 | an unread top entry is pushed as a toast, otherwise the toasts stay |
| NotificationSystem.Center.HandleNotificationClick | fraud-detection-dashboard/src/components/NotificationSystem.tsx:35-47 | the store receives the click's dispatches and the dropdown closes |
| Header.PendingCountIsResetQueue | fraud-detection-dashboard/src/components/Header.tsx:38 | the header's pending count equals the length of a freshly reset review queue |
| Header.FixturePendingCount | fraud-detection-dashboard/src/components/Header.tsx:38 | with the fixtures loaded, two cases are pending |
| Header.TabBadge | fraud-detection-dashboard/src/components/Header.tsx:64-88 | only the review tab has a badge, only while something is pending, and it reads `9+` iff more than nine are pending |
| Header.InitialDarkMode | fraud-detection-dashboard/src/components/Header.tsx:13-16 | a stored `dark` means dark, another non-empty stored value means light, and with nothing stored the system preference decides |
| Header.StoredTheme | fraud-detection-dashboard/src/components/Header.tsx:23 | the stored theme is never empty and is `dark` exactly for the dark flag |
| Header.StoredThemeRoundTrip | fraud-detection-dashboard/src/components/Header.tsx:13-23 | after a reload the stored theme gives back the flag, whatever the system prefers |
| Header.Theme.constructor | fraud-detection-dashboard/src/components/Header.tsx:13-16 | the flag starts from the stored theme and the system preference |
| Header.Theme.ToggleTheme | fraud-detection-dashboard/src/components/Header.tsx:20-30 | the flag flips, the new theme is stored, and the root `dark` class follows |
| Text.CappedCount | fraud-detection-dashboard/src/components/NotificationSystem.tsx:83 | a count reads `9+` iff it is above nine, otherwise it reads as its own single digit |
| Text.IncludesIff | fraud-detection-dashboard/src/components/Dashboard.tsx:36 | `includes` holds iff the pattern occurs at some position |
| Text.ReplaceFirst | fraud-detection-dashboard/src/components/RecentAlertsTable.tsx:183 | `replace` with a string pattern swaps the leftmost occurrence for the replacement and keeps everything around it; without an occurrence the string is returned unchanged |
| Text.Lower | fraud-detection-dashboard/src/components/Dashboard.tsx:36 | lower-casing keeps the length, maps each character on its own and leaves no capital letter |
| Seqs.Take | fraud-detection-dashboard/src/components/NotificationSystem.tsx:113 | `slice(0, n)` is the prefix of length min(n, length) |
| Seqs.TakeLast | fraud-detection-dashboard/src/components/RecentAlertsTable.tsx:72 | `slice(-n)` is the suffix of length min(n, length) |
| Seqs.Distinct | fraud-detection-dashboard/src/components/RecentAlertsTable.tsx:201 | `[...new Set(xs)]` holds each element once, in first-occurrence order |

## Left out

- Timers and delays: the 1 s start-up delay, the 30 s tick, the 2 s summary wait and the 5 s
  toast auto-dismiss. The step a timer delays is a separate call (`Store.FinishLoading`,
  `Store.Tick`, `Store.CompleteAiSummary`, `Center.DismissToast`) made when it fires; the
  model does not say when that is. `Store.Initialize` runs both halves of start-up in one call.
- Randomness, the clock and id generation: `Math.random()` results are a `TickDraws` value,
  and `Date.now()` and `toISOString` are a `Clock` value handed in.
- `localStorage`, `matchMedia` and `document.documentElement.classList` are plain values held
  by `Header.Theme`.
- Case mapping: `Text.Lower` and `Text.Upper` map ASCII letters only. JavaScript's Unicode case
  mapping is not modelled.
- ConfidencePercent: takes an exact real, not a binary floating-point number. A confidence that
  floating point rounds just across a .5 boundary is not modelled, and neither are the same
  boundaries in `ConfidenceTone`.
- `date-fns` formatting of timestamps, the animations and the colour classes
  (severity and notification type) are display-only and left out.
- The highlight of new rows in the alerts table compares `flaggedAt` with `Date.now()`
  (RecentAlertsTable.tsx:54-69). It depends only on the clock and is left out.
- The "Case X of Y" line, the progress bar and the button row of the review panel repeat
  its handlers and indices. They are not modelled separately.
- A settings patch whose fields are explicitly `undefined` is not modelled. Such a field
  would overwrite the old value with `undefined`, while the model's patch either has the
  field or leaves it out, and a left-out field keeps the old value.
- A document request's `type` is kept as the string passed in. The source casts it (`as any`)
  without checking it against its union type.
- React scheduling: stale closures, batched state updates and effect ordering. Each handler
  reads the state as it was when it started. `generateAISummary` is split at its `await`.
- The mobile menu toggle, the tab routing in `App.tsx`, `KPICard` and `FraudRiskChart` are
  outside this model. The tab routing mounts the review panel only on the review tab, so
  each visit to it starts from `CaseReview.Panel.constructor`.
