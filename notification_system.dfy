/** The bell in the header: the unread badge, the dropdown over the feed, the click on a feed
    entry, and the stack of at most five toasts raised when an unread entry lands on top of
    the feed. */
module NotificationSystem {
  import opened Wrappers
  import opened Types
  import opened Seqs
  import opened Text
  import opened FraudContext
  import opened MockData

  predicate IsUnread(n: NotificationToast) {
    !n.read
  }

  /** `unreadCount`: how many feed entries are unread. */
  function UnreadCount(ns: seq<NotificationToast>): nat {
    Count(ns, IsUnread)
  }

  function UnreadWith(id: string): NotificationToast -> bool {
    (n: NotificationToast) => !n.read && n.id == id
  }

  /** Marking `id` read lowers the unread count by the number of unread entries with that id,
      and by nothing else. */
  lemma {:induction false} UnreadAfterMarkRead(ns: seq<NotificationToast>, id: string)
    ensures UnreadCount(MarkRead(ns, id)) + Count(ns, UnreadWith(id)) == UnreadCount(ns)
    decreases |ns|
  {
    if ns != [] {
      var m := MarkRead(ns, id);
      assert m[1..] == MarkRead(ns[1..], id);
      assert m[0] == if ns[0].id == id then ns[0].(read := true) else ns[0];
      UnreadAfterMarkRead(ns[1..], id);
    }
  }

  /** A new entry on top of the feed adds one to the unread count exactly when it is unread. */
  lemma UnreadAfterAdd(ns: seq<NotificationToast>, n: NotificationToast)
    ensures UnreadCount([n] + ns) == UnreadCount(ns) + (if n.read then 0 else 1)
  {
    assert ([n] + ns)[1..] == ns;
  }

  /** The bell's badge: shown only while something is unread, reading `9+` above nine. */
  function BellBadge(ns: seq<NotificationToast>): (r: Option<string>)
    ensures r.Some? <==> exists i :: 0 <= i < |ns| && !ns[i].read
    ensures r.Some? ==> r.value == CappedCount(UnreadCount(ns))
  {
    if UnreadCount(ns) > 0 then Some(CappedCount(UnreadCount(ns))) else None
  }

  /** The entries the dropdown lists: the first ten. */
  function DropdownItems(ns: seq<NotificationToast>): seq<NotificationToast> {
    Take(ns, 10)
  }

  /** The "View all notifications" link appears when there are more than ten entries. */
  predicate ShowViewAll(ns: seq<NotificationToast>) {
    |ns| > 10
  }

  /** "No notifications yet" replaces the list when the feed is empty. */
  predicate ShowNoNotifications(ns: seq<NotificationToast>) {
    |ns| == 0
  }

  /** The dropdown lists the newest entries, as many as fit in ten; the link is offered exactly
      when some entry is left out, and the empty message exactly when nothing is listed. */
  lemma DropdownSpec(ns: seq<NotificationToast>)
    ensures var d := DropdownItems(ns);
      && |d| <= 10 && d == ns[..|d|]
      && (|d| == 10 || d == ns)
      && (ShowViewAll(ns) <==> |d| < |ns|)
      && (ShowNoNotifications(ns) <==> d == [])
  {
  }

  /** The selection a click on `n` makes: when it links a case id (an empty one is falsy) that
      the store has, that case; otherwise none. */
  function LinkedCase(s: State, n: NotificationToast): (r: Option<FraudCase>)
    ensures r.Some? ==> n.caseId.Some? && n.caseId.value != "" && r == FindCase(s.fraudCases, n.caseId.value)
    ensures r.None? ==> n.caseId.None? || n.caseId.value == "" || FindCase(s.fraudCases, n.caseId.value).None?
  {
    if n.caseId.Some? && n.caseId.value != "" then FindCase(s.fraudCases, n.caseId.value) else None
  }

  /** `handleNotificationClick`: mark it read if it is unread, then select its case if the
      store has it. */
  function ClickDispatches(s: State, n: NotificationToast): seq<Action> {
    (if !n.read then [MarkNotificationRead(n.id)] else [])
    + (if LinkedCase(s, n).Some? then [SetSelectedCase(LinkedCase(s, n))] else [])
  }

  /** A click touches only the feed and the selection: an entry already read leaves the feed
      as it is, an unread one is marked read; the selection changes only to a linked case the
      store has. */
  lemma ClickEffect(s: State, n: NotificationToast)
    ensures var r := ApplyAll(s, ClickDispatches(s, n));
      && r.notifications == (if n.read then s.notifications else MarkRead(s.notifications, n.id))
      && r.selectedCase == (if LinkedCase(s, n).Some? then LinkedCase(s, n) else s.selectedCase)
      && r.(notifications := s.notifications, selectedCase := s.selectedCase) == s
  {
    var d := ClickDispatches(s, n);
    if |d| == 1 {
      ApplyAllShort(s, d[0], d[0]);
    } else if |d| == 2 {
      ApplyAllShort(s, d[0], d[1]);
    }
  }

  const MaxToasts := 5

  /** `addToast`: the new toast first, then at most four of the previous ones, newest first. */
  function PushToast(toasts: seq<NotificationToast>, n: NotificationToast): (r: seq<NotificationToast>)
    ensures 1 <= |r| <= MaxToasts && r[0] == n
    ensures |r| == MaxToasts || |r| == |toasts| + 1
    ensures |r| - 1 <= |toasts| && r[1..] == toasts[..|r| - 1]
  {
    [n] + Take(toasts, MaxToasts - 1)
  }

  function OtherToast(id: string): NotificationToast -> bool {
    (t: NotificationToast) => t.id != id
  }

  /** Closing a toast, or its timer running out: every toast with that id goes, the others
      stay in order. */
  function WithoutToast(toasts: seq<NotificationToast>, id: string): (r: seq<NotificationToast>)
    ensures IsSubsequence(r, toasts)
    ensures forall i :: 0 <= i < |r| ==> r[i].id != id
    ensures forall i :: 0 <= i < |toasts| && toasts[i].id != id ==> toasts[i] in r
    ensures |r| <= |toasts|
  {
    Filter(toasts, OtherToast(id))
  }

  /** Removing an id that no toast has changes nothing, and removing twice is removing once. */
  lemma WithoutToastProperties(toasts: seq<NotificationToast>, id: string)
    ensures (forall i :: 0 <= i < |toasts| ==> toasts[i].id != id) ==> WithoutToast(toasts, id) == toasts
    ensures WithoutToast(WithoutToast(toasts, id), id) == WithoutToast(toasts, id)
  {
    FilterIdempotent(toasts, OtherToast(id));
    if forall i :: 0 <= i < |toasts| ==> toasts[i].id != id {
      FilterAll(toasts, OtherToast(id));
    }
  }

  /** The toast the feed effect raises: the top entry, when it is unread. */
  function ToastFor(ns: seq<NotificationToast>): (r: Option<NotificationToast>)
    ensures r.Some? <==> ns != [] && !ns[0].read
    ensures r.Some? ==> r.value == ns[0]
  {
    if ns != [] && !ns[0].read then Some(ns[0]) else None
  }

  /** Approving or escalating a case the store has puts its unread notification on top of the
      feed, so it raises a toast for it. */
  lemma ReviewDecisionRaisesToast(s: State, caseId: string, clock: Clock)
    requires FindCase(s.fraudCases, caseId).Some?
    ensures ToastFor(ApplyAll(s, ApproveDispatches(s, caseId, clock)).notifications) ==
            Some(ApprovedNotification(caseId, clock))
    ensures ToastFor(ApplyAll(s, EscalateDispatches(s, caseId, clock)).notifications) ==
            Some(EscalatedNotification(caseId, clock))
  {
    ApproveEffect(s, caseId, clock);
    EscalateEffect(s, caseId, clock);
  }

  /** After start-up the feed's top entry is the unread NOT002, so it is toasted, and the bell
      counts the two unread fixture entries. */
  lemma StartUpToast()
    ensures var ns := ApplyAll(InitialState, InitDispatches).notifications;
            ToastFor(ns) == Some(Notification002) && UnreadCount(ns) == 2
  {
    InitEffect(InitialState);
    var ns := [Notification002, Notification001];
    assert ApplyAll(InitialState, InitDispatches).notifications == ns + [];
    UnreadAfterAdd([Notification001], Notification002);
    UnreadAfterAdd([], Notification001);
  }

  /** The bell's own state: whether the dropdown is open, and the toasts on screen. */
  class Center {
    var isOpen: bool
    var toasts: seq<NotificationToast>

    /** Never more than five toasts. */
    predicate Valid()
      reads this
    {
      |toasts| <= MaxToasts
    }

    constructor()
      ensures Valid() && !isOpen && toasts == []
    {
      isOpen := false;
      toasts := [];
    }

    /** A click on the bell. */
    method ToggleOpen()
      modifies this
      ensures isOpen == !old(isOpen) && toasts == old(toasts)
    {
      isOpen := !isOpen;
    }

    /** A click on the overlay behind the open dropdown. */
    method CloseOverlay()
      modifies this
      ensures !isOpen && toasts == old(toasts)
    {
      isOpen := false;
    }

    method AddToast(n: NotificationToast)
      modifies this
      ensures Valid()
      ensures toasts == PushToast(old(toasts), n) && isOpen == old(isOpen)
    {
      toasts := PushToast(toasts, n);
    }

    /** The close button of a toast, and its auto-dismiss timer when it fires. */
    method DismissToast(id: string)
      requires Valid()
      modifies this
      ensures Valid()
      ensures toasts == WithoutToast(old(toasts), id) && isOpen == old(isOpen)
    {
      toasts := WithoutToast(toasts, id);
    }

    /** The effect that runs when the feed changes: toast the top entry if it is unread. */
    method OnFeedChanged(store: Store)
      requires Valid()
      modifies this
      ensures Valid() && isOpen == old(isOpen)
      ensures ToastFor(store.state.notifications).Some? ==>
                toasts == PushToast(old(toasts), ToastFor(store.state.notifications).value)
      ensures ToastFor(store.state.notifications).None? ==> toasts == old(toasts)
    {
      var t := ToastFor(store.state.notifications);
      if t.Some? {
        AddToast(t.value);
      }
    }

    /** A click on a feed entry: the store gets the click's actions and the dropdown closes. */
    method HandleNotificationClick(store: Store, n: NotificationToast)
      modifies this, store
      ensures store.state == ApplyAll(old(store.state), ClickDispatches(old(store.state), n))
      ensures !isOpen && toasts == old(toasts)
    {
      ghost var s0 := store.state;
      if !n.read {
        store.Dispatch(MarkNotificationRead(n.id));
      }
      var linked := LinkedCase(store.state, n);
      if linked.Some? {
        store.SelectCase(linked.value);
      }
      isOpen := false;
      var d := ClickDispatches(s0, n);
      if |d| == 1 {
        ApplyAllShort(s0, d[0], d[0]);
      } else if |d| == 2 {
        ApplyAllShort(s0, d[0], d[1]);
      }
    }
  }
}
