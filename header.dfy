/** The header: the pending-case badge on the review tab, and the light/dark switch with the
    theme it persists. The key-value store and the system colour-scheme query are values
    handed in. */
module Header {
  import opened Wrappers
  import opened Types
  import opened Seqs
  import opened Text
  import opened FraudContext
  import opened MockData
  import CaseReview

  /** How many store cases are pending. */
  function PendingCount(cases: seq<FraudCase>): nat {
    Count(cases, IsPending)
  }

  /** The header's count is the length of a freshly reset review queue: both are the pending
      cases of the store. */
  lemma PendingCountIsResetQueue(cases: seq<FraudCase>)
    ensures PendingCount(cases) == |CaseReview.Queue(cases, {})|
  {
    CaseReview.ResetQueueIsAllPending(cases);
  }

  /** With the fixtures loaded, two cases are pending. */
  lemma FixturePendingCount()
    ensures PendingCount(MockFraudCases) == 2
  {
    CaseReview.FixtureQueue();
    PendingCountIsResetQueue(MockFraudCases);
  }

  /** The badge on a tab: only the 'review' tab has one, only while something is pending, and
      it reads `9+` above nine. */
  function TabBadge(tabId: string, pending: nat): (r: Option<string>)
    ensures r.Some? <==> tabId == "review" && pending > 0
    ensures r.Some? ==> r.value == CappedCount(pending)
    ensures r == Some("9+") <==> tabId == "review" && pending > 9
  {
    if tabId == "review" && pending > 0 then Some(CappedCount(pending)) else None
  }

  /** The initial dark flag: the stored theme is 'dark', or nothing (or an empty string) is
      stored and the system prefers dark. */
  function InitialDarkMode(stored: Option<string>, prefersDark: bool): (dark: bool)
    ensures stored == Some("dark") ==> dark
    ensures stored.Some? && stored.value != "" && stored.value != "dark" ==> !dark
    ensures (stored.None? || stored.value == "") ==> dark == prefersDark
  {
    stored == Some("dark") || ((stored.None? || stored.value == "") && prefersDark)
  }

  /** The value `toggleTheme` stores for a dark flag. */
  function StoredTheme(dark: bool): (v: string)
    ensures v != ""
    ensures v == "dark" <==> dark
  {
    if dark then "dark" else "light"
  }

  /** The stored theme reproduces the flag after a reload, whatever the system prefers. */
  lemma StoredThemeRoundTrip(dark: bool, prefersDark: bool)
    ensures InitialDarkMode(Some(StoredTheme(dark)), prefersDark) == dark
  {
  }

  /** The header's theme state: the flag, the stored value and the root element's `dark`
      class. */
  class Theme {
    var isDarkMode: bool
    var storedTheme: Option<string>
    var rootDark: bool

    constructor(stored: Option<string>, prefersDark: bool, rootIsDark: bool)
      ensures isDarkMode == InitialDarkMode(stored, prefersDark)
      ensures storedTheme == stored && rootDark == rootIsDark
    {
      isDarkMode := InitialDarkMode(stored, prefersDark);
      storedTheme := stored;
      rootDark := rootIsDark;
    }

    /** After a toggle the flag, the stored value and the root class agree. */
    predicate Consistent()
      reads this
    {
      storedTheme == Some(StoredTheme(isDarkMode)) && rootDark == isDarkMode
    }

    /** `toggleTheme`: the flag flips, the new value is stored, and the root class follows. */
    method ToggleTheme()
      modifies this
      ensures isDarkMode == !old(isDarkMode)
      ensures storedTheme == Some(StoredTheme(isDarkMode)) && rootDark == isDarkMode
      ensures Consistent()
    {
      var newTheme := !isDarkMode;
      isDarkMode := newTheme;
      storedTheme := Some(if newTheme then "dark" else "light");
      if newTheme {
        rootDark := true;
      } else {
        rootDark := false;
      }
    }
  }
}
