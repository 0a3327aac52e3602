/** The swipe-to-review panel: a queue of the pending cases not yet handled in this session, a
    cursor into it, the handlers a swipe, a button or an arrow key calls, and the session
    summary. The queue is recomputed from the shared state on every render, so it shrinks as
    cases are decided while the cursor moves on separately. */
module CaseReview {
  import opened Wrappers
  import opened Types
  import opened Seqs
  import opened FraudContext
  import opened SwipeCard
  import MockData

  /** The panel's own state: the cursor and the ids handled in this session. */
  datatype Session = Session(currentIndex: nat, processed: set<string>)

  /** The pending cases that were not handled in this session, in state order. */
  predicate InQueue(processed: set<string>, c: FraudCase) {
    IsPending(c) && c.id !in processed
  }

  function Queued(processed: set<string>): FraudCase -> bool {
    (c: FraudCase) => InQueue(processed, c)
  }

  function Queue(cases: seq<FraudCase>, processed: set<string>): seq<FraudCase> {
    Filter(cases, Queued(processed))
  }

  /** The test that drops the case with id `id`. */
  function OtherId(id: string): FraudCase -> bool {
    (c: FraudCase) => c.id != id
  }

  /** `pendingCases[currentIndex]`, which is undefined past the end. */
  function CurrentCase(q: seq<FraudCase>, idx: nat): (r: Option<FraudCase>)
    ensures r.Some? <==> idx < |q|
    ensures r.Some? ==> r.value == q[idx]
  {
    if idx < |q| then Some(q[idx]) else None
  }

  /** `moveToNext`, judged against the queue as it was before the decision. */
  function NextIndex(idx: nat, queueLength: nat): (r: nat)
    ensures idx < queueLength - 1 ==> r == idx + 1
    ensures idx >= queueLength - 1 ==> r == 0
  {
    if idx < queueLength - 1 then idx + 1 else 0
  }

  /** `handleSwipeRight` (approve) and `handleSwipeLeft` (escalate): with a current case,
      decide it, add it to the handled ids and move the cursor; without one, nothing. */
  function Decide(s: State, sess: Session, approve: bool, clock: Clock): (State, Session) {
    var q := Queue(s.fraudCases, sess.processed);
    match CurrentCase(q, sess.currentIndex)
    case None => (s, sess)
    case Some(c) =>
      var ds := if approve then ApproveDispatches(s, c.id, clock) else EscalateDispatches(s, c.id, clock);
      (ApplyAll(s, ds), Session(NextIndex(sess.currentIndex, |q|), sess.processed + {c.id}))
  }

  /** `handleExpand`: select the current case, if there is one. */
  function ExpandState(s: State, sess: Session): State {
    match CurrentCase(Queue(s.fraudCases, sess.processed), sess.currentIndex)
    case None => s
    case Some(c) => Reduce(s, SetSelectedCase(Some(c)))
  }

  /** What one handler call does to the shared state and the session. */
  function Respond(s: State, sess: Session, a: ReviewAction, clock: Clock): (State, Session) {
    match a
    case Approve => Decide(s, sess, true, clock)
    case Escalate => Decide(s, sess, false, clock)
    case Expand => (ExpandState(s, sess), sess)
    case NoAction => (s, sess)
  }

  /** The arrow keys: right approves, left escalates, up expands, any other key does nothing. */
  function KeyAction(code: string): (a: ReviewAction)
    ensures a == Approve <==> code == "ArrowRight"
    ensures a == Escalate <==> code == "ArrowLeft"
    ensures a == Expand <==> code == "ArrowUp"
  {
    if code == "ArrowRight" then Approve
    else if code == "ArrowLeft" then Escalate
    else if code == "ArrowUp" then Expand
    else NoAction
  }

  /** Only the top card of the stack gets the real handlers; the others get no-ops. */
  function CardAction(position: nat, a: ReviewAction): (r: ReviewAction)
    ensures position > 0 ==> r == NoAction
    ensures position == 0 ==> r == a
  {
    if position == 0 then a else NoAction
  }

  /** `pendingCases.slice(currentIndex, currentIndex + 3)`. */
  function VisibleStack(q: seq<FraudCase>, idx: nat): (r: seq<FraudCase>)
    ensures |r| <= 3
    ensures r == [] <==> CurrentCase(q, idx).None?
    ensures r != [] ==> r[0] == CurrentCase(q, idx).value
    ensures r != [] ==> idx + |r| <= |q| && r == q[idx..idx + |r|]
  {
    if idx >= |q| then [] else Take(q[idx..], 3)
  }

  /** The "All Cases Reviewed" screen, the only one with the reset button, is shown exactly when
      the queue is empty. */
  predicate ShowsAllReviewed(q: seq<FraudCase>) {
    |q| == 0
  }

  /** The status the shared state currently holds for an id. */
  function StatusOf(cases: seq<FraudCase>, id: string): Option<CaseStatus> {
    match FindCase(cases, id)
    case None => None
    case Some(c) => Some(c.status)
  }

  /** The session summary: handled ids whose case is now dismissed, and now escalated. */
  function ApprovedCount(cases: seq<FraudCase>, processed: set<string>): nat {
    |set id | id in processed && StatusOf(cases, id) == Some(Dismissed)|
  }

  function EscalatedCount(cases: seq<FraudCase>, processed: set<string>): nat {
    |set id | id in processed && StatusOf(cases, id) == Some(Escalated)|
  }

  /** The approved and escalated figures count different ids of the session, so together they
      never exceed the total. */
  lemma SummaryCountsBounded(cases: seq<FraudCase>, processed: set<string>)
    ensures ApprovedCount(cases, processed) + EscalatedCount(cases, processed) <= |processed|
  {
    var a := set id | id in processed && StatusOf(cases, id) == Some(Dismissed);
    var e := set id | id in processed && StatusOf(cases, id) == Some(Escalated);
    assert a * e == {};
    assert a + e <= processed;
    assert |a + e| == |a| + |e|;
    SubsetCardinality(a + e, processed);
  }

  lemma {:induction false} SubsetCardinality(a: set<string>, b: set<string>)
    requires a <= b
    ensures |a| <= |b|
    decreases |b|
  {
    if a != {} {
      var x :| x in a;
      SubsetCardinality(a - {x}, b - {x});
    }
  }

  /** The ids of a filtered list are distinct when the ids of the list are. */
  lemma {:induction false} FilterKeepsIdsDistinct(cases: seq<FraudCase>, p: FraudCase -> bool)
    requires DistinctIds(cases)
    ensures DistinctIds(Filter(cases, p))
    decreases |cases|
  {
    if cases != [] {
      var rest := cases[1..];
      FilterKeepsIdsDistinct(rest, p);
      var fr := Filter(rest, p);
      if p(cases[0]) {
        forall i | 0 <= i < |fr| ensures fr[i].id != cases[0].id {
          var j :| 0 <= j < |rest| && rest[j] == fr[i];
          assert cases[j + 1] == rest[j];
        }
      }
    }
  }

  /** Deciding case `u.id` and adding its id to the handled set removes exactly that id from
      the queue and keeps the order of everything else. */
  lemma {:induction false} QueueAfterDecision(cases: seq<FraudCase>, processed: set<string>, u: FraudCase)
    ensures Queue(ReplaceById(cases, u), processed + {u.id}) ==
            Filter(Queue(cases, processed), OtherId(u.id))
    decreases |cases|
  {
    if cases != [] {
      var r := ReplaceById(cases, u);
      assert r[1..] == ReplaceById(cases[1..], u);
      QueueAfterDecision(cases[1..], processed, u);
    }
  }

  /** Removing the one case with a given id from a list of distinct ids is cutting it out. */
  lemma {:induction false} RemoveUniqueId(q: seq<FraudCase>, i: nat)
    requires i < |q| && DistinctIds(q)
    ensures Filter(q, OtherId(q[i].id)) == q[..i] + q[i + 1..]
    decreases |q|
  {
    var id := q[i].id;
    var rest := q[1..];
    DistinctIdsTail(q);
    if i == 0 {
      RemoveHead(q);
      assert q[..i] + q[i + 1..] == q[1..];
    } else {
      assert rest[i - 1] == q[i];
      RemoveUniqueId(rest, i - 1);
      KeepHead(q, id);
      assert q[..i] + q[i + 1..] == [q[0]] + (rest[..i - 1] + rest[i..]);
    }
  }

  lemma DistinctIdsTail(q: seq<FraudCase>)
    requires q != [] && DistinctIds(q)
    ensures DistinctIds(q[1..])
  {
    var rest := q[1..];
    forall a, b | 0 <= a < b < |rest| ensures rest[a].id != rest[b].id {
      assert rest[a] == q[a + 1] && rest[b] == q[b + 1];
    }
  }

  lemma RemoveHead(q: seq<FraudCase>)
    requires q != [] && DistinctIds(q)
    ensures Filter(q, OtherId(q[0].id)) == q[1..]
  {
    var rest := q[1..];
    forall j | 0 <= j < |rest| ensures rest[j].id != q[0].id {
      assert rest[j] == q[j + 1];
    }
    FilterNoneRemoved(rest, q[0].id);
  }

  lemma KeepHead(q: seq<FraudCase>, id: string)
    requires q != [] && q[0].id != id
    ensures Filter(q, OtherId(id)) == [q[0]] + Filter(q[1..], OtherId(id))
  {
  }

  /** A list without the id is left whole by the removal. */
  lemma {:induction false} FilterNoneRemoved(q: seq<FraudCase>, id: string)
    requires forall j :: 0 <= j < |q| ==> q[j].id != id
    ensures Filter(q, OtherId(id)) == q
    decreases |q|
  {
    if q != [] {
      FilterNoneRemoved(q[1..], id);
    }
  }

  /** A swipe on the current case: the shared state records the decision, the queue loses
      exactly that case and keeps its order, and the cursor follows `moveToNext` against the
      queue's old length. */
  lemma DecideEffect(s: State, sess: Session, approve: bool, clock: Clock)
    requires DistinctIds(s.fraudCases)
    requires CurrentCase(Queue(s.fraudCases, sess.processed), sess.currentIndex).Some?
    ensures var q := Queue(s.fraudCases, sess.processed);
            var i := sess.currentIndex;
            var (s1, sess1) := Decide(s, sess, approve, clock);
            && Queue(s1.fraudCases, sess1.processed) == q[..i] + q[i + 1..]
            && sess1.currentIndex == NextIndex(i, |q|)
            && sess1.processed == sess.processed + {q[i].id}
            && StatusOf(s1.fraudCases, q[i].id) == Some(if approve then Dismissed else Escalated)
  {
    var q := Queue(s.fraudCases, sess.processed);
    var i := sess.currentIndex;
    var c := q[i];
    assert c in s.fraudCases;
    FilterKeepsIdsDistinct(s.fraudCases, Queued(sess.processed));
    var status := if approve then Dismissed else Escalated;
    if approve {
      ApproveEffect(s, c.id, clock);
    } else {
      EscalateEffect(s, c.id, clock);
    }
    var found := FindCase(s.fraudCases, c.id).value;
    var u := found.(status := status, reviewedAt := Some(clock.Now()));
    QueueAfterDecision(s.fraudCases, sess.processed, u);
    RemoveUniqueId(q, i);
  }

  /** Without a current case every handler leaves everything as it is. */
  lemma NoCurrentCaseIsInert(s: State, sess: Session, a: ReviewAction, clock: Clock)
    requires CurrentCase(Queue(s.fraudCases, sess.processed), sess.currentIndex).None?
    ensures Respond(s, sess, a, clock) == (s, sess)
  {
  }

  /** The cursor can get stuck: deciding the first of two cases moves the cursor to 1 while the
      queue shrinks to one case, so there is no current case, the reset screen is not shown,
      and every handler does nothing. */
  lemma StuckAfterFirstOfTwo(s: State, sess: Session, approve: bool, clock: Clock, a: ReviewAction,
                             clock2: Clock)
    requires DistinctIds(s.fraudCases)
    requires |Queue(s.fraudCases, sess.processed)| == 2 && sess.currentIndex == 0
    ensures var q := Queue(s.fraudCases, sess.processed);
            var (s1, sess1) := Decide(s, sess, approve, clock);
            var q1 := Queue(s1.fraudCases, sess1.processed);
            && q1 == [q[1]]
            && sess1.currentIndex == 1
            && CurrentCase(q1, sess1.currentIndex).None?
            && !ShowsAllReviewed(q1)
            && Respond(s1, sess1, a, clock2) == (s1, sess1)
  {
    DecideEffect(s, sess, approve, clock);
    var q := Queue(s.fraudCases, sess.processed);
    assert q[..0] + q[1..] == [q[1]];
  }

  /** With three or more cases, deciding the first skips the second: the cursor lands on what
      was the third. */
  lemma DecisionSkipsNext(s: State, sess: Session, approve: bool, clock: Clock)
    requires DistinctIds(s.fraudCases)
    requires |Queue(s.fraudCases, sess.processed)| >= 3 && sess.currentIndex == 0
    ensures var q := Queue(s.fraudCases, sess.processed);
            var (s1, sess1) := Decide(s, sess, approve, clock);
            CurrentCase(Queue(s1.fraudCases, sess1.processed), sess1.currentIndex) == Some(q[2])
  {
    DecideEffect(s, sess, approve, clock);
  }

  /** Deciding the last case of the queue wraps the cursor to the front, where the first case
      not yet handled is. */
  lemma DecisionAtEndWraps(s: State, sess: Session, approve: bool, clock: Clock)
    requires DistinctIds(s.fraudCases)
    requires var q := Queue(s.fraudCases, sess.processed); |q| >= 2 && sess.currentIndex == |q| - 1
    ensures var q := Queue(s.fraudCases, sess.processed);
            var (s1, sess1) := Decide(s, sess, approve, clock);
            CurrentCase(Queue(s1.fraudCases, sess1.processed), sess1.currentIndex) == Some(q[0])
  {
    DecideEffect(s, sess, approve, clock);
  }

  /** After `resetStack` the queue is every pending case again. */
  lemma ResetQueueIsAllPending(cases: seq<FraudCase>)
    ensures Queue(cases, {}) == Filter(cases, IsPending)
  {
    FilterExtensional(cases, Queued({}), IsPending);
  }

  /** Expanding selects the current case and changes nothing else. */
  lemma ExpandSelectsCurrent(s: State, sess: Session)
    requires CurrentCase(Queue(s.fraudCases, sess.processed), sess.currentIndex).Some?
    ensures ExpandState(s, sess) ==
            s.(selectedCase := CurrentCase(Queue(s.fraudCases, sess.processed), sess.currentIndex))
  {
  }

  /** A fresh session over the fixture cases queues CASE001 and CASE002. */
  lemma FixtureQueue()
    ensures Queue(MockData.MockFraudCases, {}) == [MockData.Case001, MockData.Case002]
  {
    var m := MockData.MockFraudCases;
    MockData.MockCaseStatuses();
    ResetQueueIsAllPending(m);
    assert m == [m[0], m[1]] + [m[2], m[3]];
    FilterAppend([m[0], m[1]], [m[2], m[3]], IsPending);
    assert Filter([m[2], m[3]], IsPending) == [];
    assert Filter([m[0], m[1]], IsPending) == [m[0], m[1]];
  }

  /** On the fixture data the first swipe already leaves the panel stuck: the queue is
      [CASE001, CASE002], and after deciding CASE001 the cursor points past the one left. */
  lemma FixtureSessionGetsStuck(approve: bool, clock: Clock)
    ensures var s := ApplyAll(InitialState, InitDispatches);
            var (s1, sess1) := Decide(s, Session(0, {}), approve, clock);
            && Queue(s.fraudCases, {}) == [MockData.Case001, MockData.Case002]
            && Queue(s1.fraudCases, sess1.processed) == [MockData.Case002]
            && CurrentCase(Queue(s1.fraudCases, sess1.processed), sess1.currentIndex).None?
  {
    InitEffect(InitialState);
    var s := ApplyAll(InitialState, InitDispatches);
    MockData.MockCasesWellFormed();
    FixtureQueue();
    StuckAfterFirstOfTwo(s, Session(0, {}), approve, clock, NoAction, clock);
  }

  /** The panel's own state, updated by its handlers. */
  class Panel {
    var currentIndex: nat
    var processed: set<string>

    constructor()
      ensures currentIndex == 0 && processed == {}
    {
      currentIndex := 0;
      processed := {};
    }

    function SessionOf(): Session
      reads this
    {
      Session(currentIndex, processed)
    }

    method MoveToNext(queueLength: nat)
      modifies this
      ensures currentIndex == NextIndex(old(currentIndex), queueLength)
      ensures processed == old(processed)
    {
      if currentIndex < queueLength - 1 {
        currentIndex := currentIndex + 1;
      } else {
        currentIndex := 0;
      }
    }

    method HandleSwipeRight(store: Store, clock: Clock)
      modifies this, store
      ensures (store.state, SessionOf()) == Decide(old(store.state), old(SessionOf()), true, clock)
    {
      var q := Queue(store.state.fraudCases, processed);
      var current := CurrentCase(q, currentIndex);
      if current.Some? {
        store.ApproveCase(current.value.id, clock);
        processed := processed + {current.value.id};
        MoveToNext(|q|);
      }
    }

    method HandleSwipeLeft(store: Store, clock: Clock)
      modifies this, store
      ensures (store.state, SessionOf()) == Decide(old(store.state), old(SessionOf()), false, clock)
    {
      var q := Queue(store.state.fraudCases, processed);
      var current := CurrentCase(q, currentIndex);
      if current.Some? {
        store.EscalateCase(current.value.id, clock);
        processed := processed + {current.value.id};
        MoveToNext(|q|);
      }
    }

    method HandleExpand(store: Store)
      modifies store
      ensures store.state == ExpandState(old(store.state), SessionOf())
    {
      var current := CurrentCase(Queue(store.state.fraudCases, processed), currentIndex);
      if current.Some? {
        store.SelectCase(current.value);
      }
    }

    method Handle(store: Store, a: ReviewAction, clock: Clock)
      modifies this, store
      ensures (store.state, SessionOf()) == Respond(old(store.state), old(SessionOf()), a, clock)
    {
      match a
      case Approve => HandleSwipeRight(store, clock);
      case Escalate => HandleSwipeLeft(store, clock);
      case Expand => HandleExpand(store);
      case NoAction =>
    }

    /** A key press anywhere on the page. */
    method HandleKey(store: Store, code: string, clock: Clock)
      modifies this, store
      ensures (store.state, SessionOf()) ==
              Respond(old(store.state), old(SessionOf()), KeyAction(code), clock)
    {
      Handle(store, KeyAction(code), clock);
    }

    /** A drag released on the card at `position` in the visible stack. */
    method HandleCardDragEnd(store: Store, position: nat, o: Offset, clock: Clock)
      modifies this, store
      ensures (store.state, SessionOf()) ==
              Respond(old(store.state), old(SessionOf()), CardAction(position, Classify(o)), clock)
    {
      Handle(store, CardAction(position, Classify(o)), clock);
    }

    /** "Review Again": forget the session. */
    method ResetStack()
      modifies this
      ensures currentIndex == 0 && processed == {}
    {
      processed := {};
      currentIndex := 0;
    }
  }
}
