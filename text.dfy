/** The string operations the views use: `toLowerCase`/`toUpperCase` (ASCII letters),
    `includes`, `replace` with a string pattern (first occurrence only), and the decimal
    rendering of a count inside a template literal. */
module Text {
  import opened Wrappers

  function LowerChar(c: char): char {
    if 'A' <= c <= 'Z' then (c as int + 32) as char else c
  }

  function UpperChar(c: char): char {
    if 'a' <= c <= 'z' then (c as int - 32) as char else c
  }

  /** `s.toLowerCase()`: the same length, every ASCII capital replaced by its small letter. */
  function Lower(s: string): (r: string)
    ensures |r| == |s|
    ensures forall i :: 0 <= i < |s| ==> r[i] == LowerChar(s[i])
    ensures forall i :: 0 <= i < |r| ==> !('A' <= r[i] <= 'Z')
  {
    seq(|s|, i requires 0 <= i < |s| => LowerChar(s[i]))
  }

  /** `s.toUpperCase()`: the same length, every ASCII small letter replaced by its capital. */
  function Upper(s: string): (r: string)
    ensures |r| == |s|
    ensures forall i :: 0 <= i < |s| ==> r[i] == UpperChar(s[i])
    ensures forall i :: 0 <= i < |r| ==> !('a' <= r[i] <= 'z')
  {
    seq(|s|, i requires 0 <= i < |s| => UpperChar(s[i]))
  }

  /** Lower-casing twice is lower-casing once. */
  lemma LowerIdempotent(s: string)
    ensures Lower(Lower(s)) == Lower(s)
  {
  }

  predicate StartsWith(s: string, prefix: string) {
    |prefix| <= |s| && s[..|prefix|] == prefix
  }

  predicate EndsWith(s: string, suffix: string) {
    |suffix| <= |s| && s[|s| - |suffix|..] == suffix
  }

  /** `pat` occurs in `s` starting at position `i`. */
  predicate OccursAt(s: string, pat: string, i: nat) {
    i + |pat| <= |s| && s[i..i + |pat|] == pat
  }

  /** An occurrence one place further in `s` is an occurrence in `s[1..]`. */
  lemma OccursAtShift(s: string, pat: string, j: nat)
    requires |s| > 0
    ensures OccursAt(s, pat, j + 1) <==> OccursAt(s[1..], pat, j)
  {
    if j + 1 + |pat| <= |s| {
      assert s[j + 1..j + 1 + |pat|] == s[1..][j..j + |pat|];
    }
  }

  /** The position of the leftmost occurrence of `pat` in `s` (`s.indexOf(pat)`, with None
      for -1). */
  function IndexOf(s: string, pat: string): (r: Option<nat>)
    ensures r.Some? ==> OccursAt(s, pat, r.value)
    ensures r.Some? ==> forall j :: 0 <= j < r.value ==> !OccursAt(s, pat, j)
    ensures r.None? ==> forall j :: 0 <= j <= |s| ==> !OccursAt(s, pat, j)
    decreases |s|
  {
    if StartsWith(s, pat) then
      assert OccursAt(s, pat, 0);
      Some(0)
    else if s == [] then None
    else
      var rest := IndexOf(s[1..], pat);
      assert !OccursAt(s, pat, 0);
      forall j: nat | 1 <= j <= |s| ensures OccursAt(s, pat, j) <==> OccursAt(s[1..], pat, j - 1) {
        OccursAtShift(s, pat, j - 1);
      }
      match rest
      case None => None
      case Some(i) => Some(i + 1)
  }

  /** `hay.includes(needle)`. */
  predicate Includes(hay: string, needle: string) {
    IndexOf(hay, needle).Some?
  }

  /** `Includes` means: `needle` occurs in `hay` at some position. */
  lemma IncludesIff(hay: string, needle: string)
    ensures Includes(hay, needle) <==> exists i: nat :: i <= |hay| && OccursAt(hay, needle, i)
  {
    var idx := IndexOf(hay, needle);
    if idx.Some? {
      assert OccursAt(hay, needle, idx.value);
    }
  }

  /** A witness position proves `Includes`. */
  lemma IncludesAt(hay: string, needle: string, i: nat)
    requires OccursAt(hay, needle, i)
    ensures Includes(hay, needle)
  {
    IncludesIff(hay, needle);
  }

  /** `hay.toLowerCase().includes(needle.toLowerCase())`: the case-insensitive match used by
      both search boxes. */
  predicate IncludesIgnoringCase(hay: string, needle: string) {
    Includes(Lower(hay), Lower(needle))
  }

  /** The empty query is contained in every string. */
  lemma EmptyIsIncluded(hay: string)
    ensures IncludesIgnoringCase(hay, "")
  {
    assert Lower("") == "";
    IncludesAt(Lower(hay), "", 0);
  }

  /** A needle with a character the haystack lacks is not contained in it. */
  lemma MissingCharNotIncluded(hay: string, needle: string, k: nat)
    requires k < |needle| && needle[k] !in hay
    ensures !Includes(hay, needle)
  {
  }

  /** `s.replace(pat, rep)` with a string pattern: only the leftmost occurrence is replaced,
      and a string without an occurrence is returned as it is. */
  function ReplaceFirst(s: string, pat: string, rep: string): (r: string)
    ensures IndexOf(s, pat).None? ==> r == s
    ensures IndexOf(s, pat).Some? ==>
              var i := IndexOf(s, pat).value; r == s[..i] + rep + s[i + |pat|..]
    decreases |s|
  {
    if StartsWith(s, pat) then rep + s[|pat|..]
    else if s == [] then []
    else
      var tail := ReplaceFirst(s[1..], pat, rep);
      match IndexOf(s[1..], pat)
      case None => [s[0]] + tail
      case Some(i) =>
        assert s[..i + 1] == [s[0]] + s[1..][..i];
        assert s[i + 1 + |pat|..] == s[1..][i + |pat|..];
        [s[0]] + tail
  }

  /** Replacing the first `c` touches only the first one: everything after it, including later
      copies of `c`, is kept. */
  lemma ReplaceFirstChar(a: string, b: string, c: char, rep: string)
    requires c !in a
    ensures ReplaceFirst(a + [c] + b, [c], rep) == a + rep + b
  {
    var s := a + [c] + b;
    forall j | 0 <= j < |a| ensures !OccursAt(s, [c], j) {
      assert s[j..j + 1] == [a[j]];
    }
    assert s[|a|..|a| + 1] == [c];
    assert OccursAt(s, [c], |a|);
    var idx := IndexOf(s, [c]);
    assert idx.Some? && idx.value == |a|;
    assert s[..|a|] == a && s[|a| + 1..] == b;
  }

  /** When the pattern's second character occurs neither in `a` nor as the pattern's first,
      the pattern cannot start inside `a`, so `replace` acts on the copy appended to `a`. */
  lemma ReplaceFirstAtEnd(a: string, pat: string, rep: string)
    requires |pat| >= 2 && pat[1] !in a && pat[1] != pat[0]
    ensures ReplaceFirst(a + pat, pat, rep) == a + rep
  {
    var s := a + pat;
    forall j | 0 <= j < |a| ensures !OccursAt(s, pat, j) {
      if j + 1 < |a| {
        assert s[j + 1] == a[j + 1];
      } else {
        assert s[j + 1] == pat[0];
      }
      assert j + |pat| <= |s| ==> s[j..j + |pat|][1] == s[j + 1];
    }
    assert s[|a|..|a| + |pat|] == pat;
    assert OccursAt(s, pat, |a|);
    var idx := IndexOf(s, pat);
    assert idx.Some? && idx.value == |a|;
    assert s[..|a|] == a && s[|a| + |pat|..] == [];
  }

  /** A string without an occurrence of the pattern is left unchanged. */
  lemma ReplaceAbsent(s: string, pat: string, rep: string)
    requires !Includes(s, pat)
    ensures ReplaceFirst(s, pat, rep) == s
  {
  }

  /** `a` and `b` agree before position `k` and `a` has the smaller character there. */
  predicate FirstDifferenceAt(a: string, b: string, k: nat) {
    k < |a| && k < |b| && a[..k] == b[..k] && a[k] < b[k]
  }

  /** `a < b` on strings of the same length: for ISO-8601 timestamps written with the same
      pattern, this is the chronological order. */
  predicate LexLess(a: string, b: string) {
    exists k: nat | k < |a| :: FirstDifferenceAt(a, b, k)
  }

  function DigitChar(d: nat): (c: char)
    requires d < 10
    ensures '0' <= c <= '9'
  {
    ('0' as int + d) as char
  }

  predicate IsDigits(s: string) {
    forall i :: 0 <= i < |s| ==> '0' <= s[i] <= '9'
  }

  /** The decimal rendering of a natural number, as a template literal prints it. */
  function NatToString(n: nat): (r: string)
    ensures |r| >= 1 && IsDigits(r)
    decreases n
  {
    if n < 10 then [DigitChar(n)] else NatToString(n / 10) + [DigitChar(n % 10)]
  }

  /** The value of a string of decimal digits. */
  function DigitsValue(s: string): nat
    requires IsDigits(s)
    decreases |s|
  {
    if s == [] then 0
    else DigitsValue(s[..|s| - 1]) * 10 + (s[|s| - 1] as int - '0' as int)
  }

  /** A count on a badge: the number itself up to 9, and `9+` above. */
  function CappedCount(n: nat): (r: string)
    ensures r == "9+" <==> n > 9
    ensures n <= 9 ==> |r| == 1 && IsDigits(r) && DigitsValue(r) == n
  {
    if n > 9 then "9+"
    else
      var r := NatToString(n);
      assert r[..0] == [];
      r
  }

  /** Reading back the decimal rendering gives the number: the rendering loses nothing. */
  lemma {:induction false} NatToStringRoundTrip(n: nat)
    ensures DigitsValue(NatToString(n)) == n
    decreases n
  {
    var r := NatToString(n);
    if n >= 10 {
      NatToStringRoundTrip(n / 10);
      assert r[..|r| - 1] == NatToString(n / 10);
    }
  }

  /** Different numbers render differently. */
  lemma NatToStringInjective(m: nat, n: nat)
    requires NatToString(m) == NatToString(n)
    ensures m == n
  {
    NatToStringRoundTrip(m);
    NatToStringRoundTrip(n);
  }
}
