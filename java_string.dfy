/** The parts of java.lang.String that the chemical-component core relies on:
    `trim()`, `toUpperCase()` (restricted to ASCII letters) and `compareTo`. */
module JavaString {

  /** `String.trim()` strips every char whose code is at most U+0020. */
  predicate IsBlank(c: char) {
    c <= ' '
  }

  predicate AllBlank(s: string) {
    forall i | 0 <= i < |s| :: IsBlank(s[i])
  }

  /** A string that `trim()` leaves as it is: empty, or non-blank at both ends. */
  predicate IsTrimmed(s: string) {
    s == [] || (!IsBlank(s[0]) && !IsBlank(s[|s| - 1]))
  }

  predicate IsAsciiLower(c: char) {
    'a' <= c <= 'z'
  }

  // ---------------------------------------------------------------------
  // toUpperCase, over ASCII

  function UpperChar(c: char): (u: char)
    ensures !IsAsciiLower(u)
    ensures IsBlank(u) <==> IsBlank(c)
    ensures !IsAsciiLower(c) ==> u == c
  {
    if IsAsciiLower(c) then (c as int - 32) as char else c
  }

  function ToUpperCase(s: string): (r: string)
    ensures |r| == |s|
    ensures forall i | 0 <= i < |s| :: r[i] == UpperChar(s[i])
  {
    if s == [] then [] else [UpperChar(s[0])] + ToUpperCase(s[1..])
  }

  /** Two strings that are equal once ASCII letters are upper-cased. */
  predicate SameIgnoringAsciiCase(a: string, b: string) {
    |a| == |b| && forall i | 0 <= i < |a| :: UpperChar(a[i]) == UpperChar(b[i])
  }

  lemma UpperCaseIdempotent(s: string)
    ensures ToUpperCase(ToUpperCase(s)) == ToUpperCase(s)
  {
    var u := ToUpperCase(s);
    assert forall i | 0 <= i < |u| :: ToUpperCase(u)[i] == u[i];
  }

  lemma UpperCaseIgnoresCase(a: string, b: string)
    requires SameIgnoringAsciiCase(a, b)
    ensures ToUpperCase(a) == ToUpperCase(b)
  {
    assert forall i | 0 <= i < |a| :: ToUpperCase(a)[i] == ToUpperCase(b)[i];
  }

  lemma UpperCaseAppend(a: string, b: string)
    ensures ToUpperCase(a + b) == ToUpperCase(a) + ToUpperCase(b)
  {
    var l, r := ToUpperCase(a + b), ToUpperCase(a) + ToUpperCase(b);
    assert forall k | 0 <= k < |l| :: l[k] == r[k];
  }

  // ---------------------------------------------------------------------
  // trim

  /** The number of blanks the first loop of `trim()` skips. */
  function LeadingBlanks(s: string): (n: nat)
    ensures n <= |s|
    ensures AllBlank(s[..n])
    ensures n < |s| ==> !IsBlank(s[n])
  {
    if |s| > 0 && IsBlank(s[0]) then
      var n := 1 + LeadingBlanks(s[1..]);
      assert s[..n] == [s[0]] + s[1..][..n - 1];
      n
    else 0
  }

  /** The number of blanks the second loop of `trim()` drops from the end. */
  function TrailingBlanks(s: string): (n: nat)
    ensures n <= |s|
    ensures AllBlank(s[|s| - n..])
    ensures n < |s| ==> !IsBlank(s[|s| - 1 - n])
  {
    if |s| > 0 && IsBlank(s[|s| - 1]) then
      var p := s[..|s| - 1];
      var n := 1 + TrailingBlanks(p);
      assert s[|s| - n..] == p[|p| - (n - 1)..] + [s[|s| - 1]];
      n
    else 0
  }

  /** `String.trim()`: skip the leading blanks, then drop the trailing ones. */
  function Trim(s: string): (r: string)
    ensures |r| <= |s| - LeadingBlanks(s)
    ensures forall k | 0 <= k < |r| :: r[k] == s[LeadingBlanks(s) + k]
    ensures AllBlank(s[LeadingBlanks(s) + |r|..])
    ensures IsTrimmed(r)
    ensures r == [] <==> AllBlank(s)
  {
    var t := s[LeadingBlanks(s)..];
    assert s[..|s|] == s;
    t[..|t| - TrailingBlanks(t)]
  }

  lemma {:induction false} LeadingBlanksOfBlankPrefix(p: string, s: string)
    requires AllBlank(p)
    ensures LeadingBlanks(p + s) == |p| + LeadingBlanks(s)
  {
    if p != [] {
      assert (p + s)[1..] == p[1..] + s;
      LeadingBlanksOfBlankPrefix(p[1..], s);
    } else {
      assert p + s == s;
    }
  }

  lemma {:induction false} TrailingBlanksOfBlankSuffix(s: string, q: string)
    requires AllBlank(q)
    ensures TrailingBlanks(s + q) == |q| + TrailingBlanks(s)
  {
    if q != [] {
      var q' := q[..|q| - 1];
      assert (s + q)[..|s + q| - 1] == s + q';
      TrailingBlanksOfBlankSuffix(s, q');
    } else {
      assert s + q == s;
    }
  }

  /** Once a non-blank char is met, whatever follows does not matter. */
  lemma {:induction false} LeadingBlanksStopEarly(s: string, q: string)
    requires LeadingBlanks(s) < |s|
    ensures LeadingBlanks(s + q) == LeadingBlanks(s)
  {
    if IsBlank(s[0]) {
      assert (s + q)[1..] == s[1..] + q;
      LeadingBlanksStopEarly(s[1..], q);
    }
  }

  lemma TrimBlankPrefix(p: string, s: string)
    requires AllBlank(p)
    ensures Trim(p + s) == Trim(s)
  {
    LeadingBlanksOfBlankPrefix(p, s);
    assert (p + s)[LeadingBlanks(p + s)..] == s[LeadingBlanks(s)..];
  }

  lemma TrimBlankSuffix(s: string, q: string)
    requires AllBlank(q)
    ensures Trim(s + q) == Trim(s)
  {
    if LeadingBlanks(s) < |s| {
      LeadingBlanksStopEarly(s, q);
      var t := s[LeadingBlanks(s)..];
      assert (s + q)[LeadingBlanks(s + q)..] == t + q;
      TrailingBlanksOfBlankSuffix(t, q);
      assert (t + q)[..|t + q| - TrailingBlanks(t + q)] == t[..|t| - TrailingBlanks(t)];
    } else {
      assert s[..LeadingBlanks(s)] == s;
      assert AllBlank(s + q);
    }
  }

  /** Blank padding on either side never changes what `trim()` returns. */
  lemma TrimIgnoresPadding(p: string, s: string, q: string)
    requires AllBlank(p) && AllBlank(q)
    ensures Trim(p + s + q) == Trim(s)
  {
    TrimBlankPrefix(p, s + q);
    assert p + s + q == p + (s + q);
    TrimBlankSuffix(s, q);
  }

  lemma TrimOfTrimmed(s: string)
    requires IsTrimmed(s)
    ensures Trim(s) == s
  {
    if s != [] {
      assert s[LeadingBlanks(s)..] == s;
    }
  }

  lemma TrimIdempotent(s: string)
    ensures Trim(Trim(s)) == Trim(s)
  {
    TrimOfTrimmed(Trim(s));
  }

  /** Whether each char is blank is all that the two loops of `trim()` look at. */
  predicate SameBlanks(s: string, t: string) {
    |s| == |t| && forall i | 0 <= i < |s| :: IsBlank(s[i]) <==> IsBlank(t[i])
  }

  lemma {:induction false} LeadingBlanksSameBlanks(s: string, t: string)
    requires SameBlanks(s, t)
    ensures LeadingBlanks(s) == LeadingBlanks(t)
  {
    if |s| > 0 && IsBlank(s[0]) {
      LeadingBlanksSameBlanks(s[1..], t[1..]);
    }
  }

  lemma {:induction false} TrailingBlanksSameBlanks(s: string, t: string)
    requires SameBlanks(s, t)
    ensures TrailingBlanks(s) == TrailingBlanks(t)
  {
    if |s| > 0 && IsBlank(s[|s| - 1]) {
      TrailingBlanksSameBlanks(s[..|s| - 1], t[..|t| - 1]);
    }
  }

  /** Upper-casing keeps every blank blank and every non-blank non-blank. */
  lemma UpperCaseSameBlanks(s: string)
    ensures SameBlanks(s, ToUpperCase(s))
  {
  }

  /** Strings with blanks in the same places trim to the same positions. */
  lemma TrimSameBlanks(s: string, t: string)
    requires SameBlanks(s, t)
    ensures LeadingBlanks(s) == LeadingBlanks(t) && |Trim(s)| == |Trim(t)|
  {
    LeadingBlanksSameBlanks(s, t);
    var n := LeadingBlanks(s);
    assert SameBlanks(s[n..], t[n..]);
    TrailingBlanksSameBlanks(s[n..], t[n..]);
  }

  /** Upper-casing and trimming commute. */
  lemma UpperCaseTrimCommute(s: string)
    ensures ToUpperCase(Trim(s)) == Trim(ToUpperCase(s))
  {
    var u := ToUpperCase(s);
    UpperCaseSameBlanks(s);
    TrimSameBlanks(s, u);
    var n, ts, tu := LeadingBlanks(s), Trim(s), Trim(u);
    forall k | 0 <= k < |ts|
      ensures ToUpperCase(ts)[k] == tu[k]
    {
      assert ts[k] == s[n + k] && tu[k] == u[n + k];
    }
  }

  // ---------------------------------------------------------------------
  // compareTo

  /** `String.compareTo`: the difference of the first chars that differ, or
      else the difference of the lengths; 0 exactly for equal strings. */
  function CompareTo(s: string, t: string): (r: int)
    ensures r == 0 <==> s == t
  {
    if s == [] || t == [] then |s| - |t|
    else if s[0] != t[0] then s[0] as int - t[0] as int
    else
      assert s == [s[0]] + s[1..] && t == [t[0]] + t[1..];
      CompareTo(s[1..], t[1..])
  }

  lemma {:induction false} CompareToAntisymmetric(s: string, t: string)
    ensures CompareTo(s, t) == -CompareTo(t, s)
  {
    if s != [] && t != [] && s[0] == t[0] {
      CompareToAntisymmetric(s[1..], t[1..]);
    }
  }
}
