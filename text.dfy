/**
 * The Python string operations the router relies on, over `seq<char>`:
 * `strip`, `lower`, `upper`, `in`, `startswith`, `replace`, `split` and `join`.
 */
module Text {

  /** Python's `str.isspace()`: exactly the characters `str.strip()` removes. */
  predicate IsSpace(c: char) {
    || ('\t' <= c <= '\r')
    || ('\U{1C}' <= c <= '\U{1F}')
    || c == ' ' || c == '\U{85}' || c == '\U{A0}' || c == '\U{1680}'
    || ('\U{2000}' <= c <= '\U{200A}')
    || c == '\U{2028}' || c == '\U{2029}' || c == '\U{202F}' || c == '\U{205F}' || c == '\U{3000}'
  }

  predicate AllSpace(s: string) {
    forall i :: 0 <= i < |s| ==> IsSpace(s[i])
  }

  /** How many white-space characters `s` begins with. */
  function LeadingSpaces(s: string): (n: nat)
    ensures n <= |s|
    decreases |s|
  {
    if s != [] && IsSpace(s[0]) then 1 + LeadingSpaces(s[1..]) else 0
  }

  /** How many white-space characters `s` ends with. */
  function TrailingSpaces(s: string): (n: nat)
    ensures n <= |s|
    decreases |s|
  {
    if s != [] && IsSpace(s[|s| - 1]) then 1 + TrailingSpaces(s[..|s| - 1]) else 0
  }

  /** `s.lstrip()`: drops the leading white space. */
  function TrimStart(s: string): string {
    s[LeadingSpaces(s)..]
  }

  /** `s.rstrip()`: drops the trailing white space. */
  function TrimEnd(s: string): string {
    s[..|s| - TrailingSpaces(s)]
  }

  /** `s.strip()` */
  function Strip(s: string): string {
    TrimEnd(TrimStart(s))
  }

  /** The count covers white space only, and stops at the first other character. */
  lemma {:induction false} LeadingSpacesSpec(s: string)
    ensures forall i :: 0 <= i < LeadingSpaces(s) ==> IsSpace(s[i])
    ensures LeadingSpaces(s) == |s| || !IsSpace(s[LeadingSpaces(s)])
    decreases |s|
  {
    if s != [] && IsSpace(s[0]) {
      var n := LeadingSpaces(s);
      LeadingSpacesSpec(s[1..]);
      forall i | 1 <= i < n ensures IsSpace(s[i]) {
        assert s[i] == s[1..][i - 1];
      }
      if n < |s| {
        assert s[n] == s[1..][n - 1];
      }
    }
  }

  /** The count covers white space only, and stops at the last other character. */
  lemma {:induction false} TrailingSpacesSpec(s: string)
    ensures forall i :: |s| - TrailingSpaces(s) <= i < |s| ==> IsSpace(s[i])
    ensures TrailingSpaces(s) == |s| || !IsSpace(s[|s| - 1 - TrailingSpaces(s)])
    decreases |s|
  {
    if s != [] && IsSpace(s[|s| - 1]) {
      var t := s[..|s| - 1];
      TrailingSpacesSpec(t);
      forall i | |s| - TrailingSpaces(s) <= i < |s| - 1 ensures IsSpace(s[i]) {
        assert s[i] == t[i];
      }
      if TrailingSpaces(s) < |s| {
        assert s[|s| - 1 - TrailingSpaces(s)] == t[|t| - 1 - TrailingSpaces(t)];
      }
    }
  }

  lemma LeadingSpacesStops(s: string, k: nat)
    requires k < |s| && !IsSpace(s[k])
    ensures LeadingSpaces(s) <= k
  {
    LeadingSpacesSpec(s);
  }

  lemma TrailingSpacesStops(s: string, k: nat)
    requires k < |s| && !IsSpace(s[k])
    ensures k < |s| - TrailingSpaces(s)
  {
    TrailingSpacesSpec(s);
  }

  /** `Strip` keeps a contiguous slice and removes only white space around it. */
  lemma StripIsSlice(s: string) returns (a: nat, b: nat)
    ensures a <= b <= |s| && Strip(s) == s[a..b]
    ensures forall i :: 0 <= i < a ==> IsSpace(s[i])
    ensures forall i :: b <= i < |s| ==> IsSpace(s[i])
    ensures a < b ==> !IsSpace(s[a]) && !IsSpace(s[b - 1])
  {
    a := LeadingSpaces(s);
    b := |s| - TrailingSpaces(s[a..]);
    LeadingSpacesSpec(s);
    TrailingSpacesOfSuffix(s, a);
    SliceOfDrop(s, a, 0, b - a);
    assert s[a..][..b - a] == s[a..][0..b - a];
  }

  /** The trailing white space of a suffix, read back in the whole text. */
  lemma TrailingSpacesOfSuffix(s: string, a: nat)
    requires a <= |s|
    ensures forall i :: |s| - TrailingSpaces(s[a..]) <= i < |s| ==> IsSpace(s[i])
    ensures TrailingSpaces(s[a..]) < |s| - a ==> !IsSpace(s[|s| - 1 - TrailingSpaces(s[a..])])
  {
    var t := s[a..];
    var m := TrailingSpaces(t);
    TrailingSpacesSpec(t);
    forall i | |s| - m <= i < |s| ensures IsSpace(s[i]) {
      assert s[i] == t[i - a];
    }
    if m < |t| {
      assert s[|s| - 1 - m] == t[|t| - 1 - m];
    }
  }

  /** White space in front of a text is all counted as leading white space. */
  lemma {:induction false} LeadingSpacesAfter(w: string, s: string)
    requires AllSpace(w)
    ensures LeadingSpaces(w + s) == |w| + LeadingSpaces(s)
    decreases |w|
  {
    if w == [] {
      assert w + s == s;
    } else {
      assert (w + s)[0] == w[0];
      assert (w + s)[1..] == w[1..] + s;
      LeadingSpacesAfter(w[1..], s);
    }
  }

  /** White space in front of a text does not survive `strip()`. */
  lemma StripSpacePrefix(w: string, s: string)
    requires AllSpace(w)
    ensures Strip(w + s) == Strip(s)
  {
    LeadingSpacesAfter(w, s);
    assert (w + s)[|w| + LeadingSpaces(s)..] == s[LeadingSpaces(s)..];
  }

  /** Stripping twice is stripping once. */
  lemma StripIdempotent(s: string)
    ensures Strip(Strip(s)) == Strip(s)
  {
    var a, b := StripIsSlice(s);
    var t := Strip(s);
    if t != [] {
      assert t[0] == s[a] && t[|t| - 1] == s[b - 1];
      assert LeadingSpaces(t) == 0;
      assert t[0..] == t;
      assert TrailingSpaces(t) == 0;
    }
  }

  // ----- prefixes and substrings -----

  /** `s.startswith(p)` */
  predicate StartsWith(s: string, p: string) {
    |p| <= |s| && s[..|p|] == p
  }

  /** `w in s`, Python's substring test, by a left-to-right scan. */
  predicate Contains(s: string, w: string)
    decreases |s|
  {
    StartsWith(s, w) || (s != [] && Contains(s[1..], w))
  }

  lemma {:induction false} ContainsAt(s: string, w: string, k: nat)
    requires k + |w| <= |s| && s[k..k + |w|] == w
    ensures Contains(s, w)
  {
    if k > 0 {
      assert s[1..][k - 1..k - 1 + |w|] == s[k..k + |w|];
      ContainsAt(s[1..], w, k - 1);
    }
  }

  lemma {:induction false} ContainsWitness(s: string, w: string) returns (k: nat)
    requires Contains(s, w)
    ensures k + |w| <= |s| && s[k..k + |w|] == w
    decreases |s|
  {
    if StartsWith(s, w) {
      k := 0;
    } else {
      var j := ContainsWitness(s[1..], w);
      k := j + 1;
      assert s[k..k + |w|] == s[1..][j..j + |w|];
    }
  }

  lemma ContainsSelfInMiddle(a: string, w: string, b: string)
    ensures Contains(a + w + b, w)
  {
    assert (a + w + b)[|a|..|a| + |w|] == w;
    ContainsAt(a + w + b, w, |a|);
  }

  /** A word that neither begins nor ends with white space survives `strip()` wherever it occurs. */
  lemma ContainsStrip(s: string, w: string)
    requires w != [] && !IsSpace(w[0]) && !IsSpace(w[|w| - 1])
    ensures Contains(Strip(s), w) <==> Contains(s, w)
  {
    if Contains(s, w) {
      var k := ContainsWitness(s, w);
      OccurrenceSurvivesStrip(s, w, k);
    }
    if Contains(Strip(s), w) {
      ContainsOfStrip(s, w);
    }
  }

  lemma SliceOfDrop(s: string, a: nat, i: nat, j: nat)
    requires a <= |s| && i <= j <= |s| - a
    ensures s[a..][i..j] == s[a + i..a + j]
  {
  }

  lemma SliceOfTake(s: string, b: nat, i: nat, j: nat)
    requires b <= |s| && i <= j <= b
    ensures s[..b][i..j] == s[i..j]
  {
  }

  lemma OccurrenceSurvivesStrip(s: string, w: string, k: nat)
    requires w != [] && !IsSpace(w[0]) && !IsSpace(w[|w| - 1])
    requires k + |w| <= |s| && s[k..k + |w|] == w
    ensures Contains(Strip(s), w)
  {
    var j := OccurrenceSurvivesTrimStart(s, w, k);
    OccurrenceSurvivesTrimEnd(TrimStart(s), w, j);
  }

  lemma OccurrenceSurvivesTrimStart(s: string, w: string, k: nat) returns (j: nat)
    requires w != [] && !IsSpace(w[0])
    requires k + |w| <= |s| && s[k..k + |w|] == w
    ensures j + |w| <= |TrimStart(s)| && TrimStart(s)[j..j + |w|] == w
  {
    var a := LeadingSpaces(s);
    assert s[k] == w[0];
    LeadingSpacesStops(s, k);
    SliceOfDrop(s, a, k - a, k - a + |w|);
    j := k - a;
  }

  lemma OccurrenceSurvivesTrimEnd(t: string, w: string, k: nat)
    requires w != [] && !IsSpace(w[|w| - 1])
    requires k + |w| <= |t| && t[k..k + |w|] == w
    ensures Contains(TrimEnd(t), w)
  {
    var b := |t| - TrailingSpaces(t);
    OccurrenceBeforeTrailing(t, w, k);
    SliceOfTake(t, b, k, k + |w|);
    ContainsAt(t[..b], w, k);
  }

  /** An occurrence that ends in a non-space character ends before the trailing white space. */
  lemma OccurrenceBeforeTrailing(t: string, w: string, k: nat)
    requires w != [] && !IsSpace(w[|w| - 1])
    requires k + |w| <= |t| && t[k..k + |w|] == w
    ensures k + |w| <= |t| - TrailingSpaces(t)
  {
    var last := k + |w| - 1;
    assert t[last] == t[k..k + |w|][|w| - 1];
    TrailingSpacesStops(t, last);
  }

  lemma ContainsOfStrip(s: string, w: string)
    requires Contains(Strip(s), w)
    ensures Contains(s, w)
  {
    var a, b := StripIsSlice(s);
    var k := ContainsWitness(s[a..b], w);
    SliceOfSlice(s, a, b, k, k + |w|);
    ContainsAt(s, w, a + k);
  }

  lemma SliceOfSlice(s: string, a: nat, b: nat, i: nat, j: nat)
    requires a <= b <= |s| && i <= j <= b - a
    ensures s[a..b][i..j] == s[a + i..a + j]
  {
    forall k | 0 <= k < j - i ensures s[a..b][i..j][k] == s[a + i..a + j][k] {
      assert s[a..b][i..j][k] == s[a..b][i + k];
    }
  }

  // ----- case mapping (ASCII letters) -----

  function LowerChar(c: char): char {
    if 'A' <= c <= 'Z' then (c as int + 32) as char else c
  }

  function UpperChar(c: char): char {
    if 'a' <= c <= 'z' then (c as int - 32) as char else c
  }

  /** `s.lower()` */
  function Lower(s: string): (r: string)
    ensures |r| == |s| && forall i :: 0 <= i < |s| ==> r[i] == LowerChar(s[i])
  {
    seq(|s|, i requires 0 <= i < |s| => LowerChar(s[i]))
  }

  /** `s.upper()` */
  function Upper(s: string): (r: string)
    ensures |r| == |s| && forall i :: 0 <= i < |s| ==> r[i] == UpperChar(s[i])
  {
    seq(|s|, i requires 0 <= i < |s| => UpperChar(s[i]))
  }

  lemma LowerSlice(s: string, i: nat, j: nat)
    requires i <= j <= |s|
    ensures Lower(s)[i..j] == Lower(s[i..j])
  {
    var l, r := Lower(s)[i..j], Lower(s[i..j]);
    forall k | 0 <= k < j - i ensures l[k] == r[k] {
      assert l[k] == Lower(s)[i + k];
      assert s[i..j][k] == s[i + k];
    }
  }

  lemma UpperSlice(s: string, i: nat, j: nat)
    requires i <= j <= |s|
    ensures Upper(s)[i..j] == Upper(s[i..j])
  {
    var l, r := Upper(s)[i..j], Upper(s[i..j]);
    forall k | 0 <= k < j - i ensures l[k] == r[k] {
      assert l[k] == Upper(s)[i + k];
      assert s[i..j][k] == s[i + k];
    }
  }

  /** A substring stays a substring once both texts are lower-cased. */
  lemma ContainsLower(s: string, w: string)
    requires Contains(s, w)
    ensures Contains(Lower(s), Lower(w))
  {
    var k := ContainsWitness(s, w);
    LowerSlice(s, k, k + |w|);
    ContainsAt(Lower(s), Lower(w), k);
  }

  /** A substring stays a substring once both texts are upper-cased. */
  lemma ContainsUpper(s: string, w: string)
    requires Contains(s, w)
    ensures Contains(Upper(s), Upper(w))
  {
    var k := ContainsWitness(s, w);
    UpperSlice(s, k, k + |w|);
    ContainsAt(Upper(s), Upper(w), k);
  }

  /** Two texts of one length with white space at the same places. */
  predicate SameSpacing(s: string, t: string) {
    |s| == |t| && forall i :: 0 <= i < |s| ==> IsSpace(s[i]) == IsSpace(t[i])
  }

  lemma UpperSameSpacing(s: string)
    ensures SameSpacing(s, Upper(s))
  {
  }

  lemma {:induction false} SameSpacingLeading(s: string, t: string)
    requires SameSpacing(s, t)
    ensures LeadingSpaces(s) == LeadingSpaces(t)
    decreases |s|
  {
    if s != [] {
      assert IsSpace(s[0]) == IsSpace(t[0]);
      assert SameSpacing(s[1..], t[1..]) by {
        forall i | 0 <= i < |s| - 1 ensures IsSpace(s[1..][i]) == IsSpace(t[1..][i]) {
          assert s[1..][i] == s[i + 1] && t[1..][i] == t[i + 1];
        }
      }
      SameSpacingLeading(s[1..], t[1..]);
    }
  }

  lemma {:induction false} SameSpacingTrailing(s: string, t: string)
    requires SameSpacing(s, t)
    ensures TrailingSpaces(s) == TrailingSpaces(t)
    decreases |s|
  {
    if s != [] {
      var n := |s| - 1;
      assert IsSpace(s[n]) == IsSpace(t[n]);
      assert SameSpacing(s[..n], t[..n]) by {
        forall i | 0 <= i < n ensures IsSpace(s[..n][i]) == IsSpace(t[..n][i]) {
          assert s[..n][i] == s[i] && t[..n][i] == t[i];
        }
      }
      SameSpacingTrailing(s[..n], t[..n]);
    }
  }

  /** Upper-casing never turns a letter into white space, so it commutes with `strip()`. */
  lemma StripUpper(s: string)
    ensures Strip(Upper(s)) == Upper(Strip(s))
  {
    UpperSameSpacing(s);
    SameSpacingLeading(s, Upper(s));
    var a := LeadingSpaces(s);
    var t := s[a..];
    UpperSlice(s, a, |s|);
    assert Upper(s)[a..] == Upper(t);
    UpperSameSpacing(t);
    SameSpacingTrailing(t, Upper(t));
    var b := |t| - TrailingSpaces(t);
    UpperSlice(t, 0, b);
    assert Upper(t)[..b] == Upper(t)[0..b];
  }

  /** For a word with no white space at either end, `w in s.strip().upper()` is `w in s.upper()`. */
  lemma ContainsStripUpper(s: string, w: string)
    requires w != [] && !IsSpace(w[0]) && !IsSpace(w[|w| - 1])
    ensures Contains(Upper(Strip(s)), w) <==> Contains(Upper(s), w)
  {
    StripUpper(s);
    ContainsStrip(Upper(s), w);
  }

  // ----- any(keyword in text for keyword in keywords) -----

  /** Python's `any(k in text for k in keywords)`, scanning the list in order. */
  predicate AnyKeyword(keywords: seq<string>, text: string)
    ensures AnyKeyword(keywords, text) <==> exists i :: 0 <= i < |keywords| && Contains(text, keywords[i])
  {
    |keywords| > 0 && (Contains(text, keywords[0]) || AnyKeyword(keywords[1..], text))
  }

  // ----- replace -----

  /**
   * `s.replace(p, r)`: every occurrence of `p` found by a left-to-right scan that
   * resumes after each match is replaced by `r`.
   */
  function ReplaceAll(s: string, p: string, r: string): string
    requires p != []
    decreases |s|
  {
    if |s| < |p| then s
    else if s[..|p|] == p then r + ReplaceAll(s[|p|..], p, r)
    else [s[0]] + ReplaceAll(s[1..], p, r)
  }

  /** `s.replace(p, r, 1)`: only the first occurrence is replaced. */
  function ReplaceFirst(s: string, p: string, r: string): string
    requires p != []
    decreases |s|
  {
    if |s| < |p| then s
    else if s[..|p|] == p then r + s[|p|..]
    else [s[0]] + ReplaceFirst(s[1..], p, r)
  }

  /** A text without the pattern comes back from `replace` unchanged. */
  lemma {:induction false} ReplaceAllAbsent(s: string, p: string, r: string)
    requires p != [] && !Contains(s, p)
    ensures ReplaceAll(s, p, r) == s
    decreases |s|
  {
    if |s| >= |p| {
      assert !StartsWith(s, p);
      ReplaceAllAbsent(s[1..], p, r);
    }
  }

  /**
   * When the last character of `a` does not occur in `p`, no occurrence of `p`
   * straddles the seam, so `replace` works on the two halves separately.
   */
  lemma {:induction false} ReplaceAllSplits(a: string, b: string, p: string, r: string)
    requires p != []
    requires a == [] || a[|a| - 1] !in p
    ensures ReplaceAll(a + b, p, r) == ReplaceAll(a, p, r) + ReplaceAll(b, p, r)
    decreases |a|
  {
    if a == [] {
      assert a + b == b;
    } else if |a| >= |p| && a[..|p|] == p {
      ReplaceAllSplits(a[|p|..], b, p, r);
      ReplaceAllMatchStep(a, b, p, r);
    } else {
      assert a[1..] == [] || a[1..][|a[1..]| - 1] == a[|a| - 1];
      ReplaceAllSplits(a[1..], b, p, r);
      ReplaceAllSkipStep(a, b, p, r);
    }
  }

  /** One step of `ReplaceAllSplits` when `a` starts with the pattern. */
  lemma ReplaceAllMatchStep(a: string, b: string, p: string, r: string)
    requires p != [] && |a| >= |p| && a[..|p|] == p
    requires ReplaceAll(a[|p|..] + b, p, r) == ReplaceAll(a[|p|..], p, r) + ReplaceAll(b, p, r)
    ensures ReplaceAll(a + b, p, r) == ReplaceAll(a, p, r) + ReplaceAll(b, p, r)
  {
    assert (a + b)[..|p|] == p;
    ConcatDrop(a, b, |p|);
  }

  lemma ConcatDrop(a: string, b: string, n: nat)
    requires n <= |a|
    ensures (a + b)[n..] == a[n..] + b
  {
  }

  /** One step of `ReplaceAllSplits` when `a` does not start with the pattern. */
  lemma ReplaceAllSkipStep(a: string, b: string, p: string, r: string)
    requires p != [] && a != [] && a[|a| - 1] !in p
    requires !(|a| >= |p| && a[..|p|] == p)
    requires ReplaceAll(a[1..] + b, p, r) == ReplaceAll(a[1..], p, r) + ReplaceAll(b, p, r)
    ensures ReplaceAll(a + b, p, r) == ReplaceAll(a, p, r) + ReplaceAll(b, p, r)
  {
    if |a + b| < |p| {
      ShortUnchanged(a, b, p, r);
    } else {
      SeamBlocksMatch(a, b, p);
      SkipOne(a + b, p, r);
      SkipOne(a, p, r);
      ConcatDrop(a, b, 1);
      ConcatAssoc([a[0]], ReplaceAll(a[1..], p, r), ReplaceAll(b, p, r));
    }
  }

  /** Texts shorter than the pattern are left alone. */
  lemma ShortUnchanged(a: string, b: string, p: string, r: string)
    requires p != [] && |a + b| < |p|
    ensures ReplaceAll(a + b, p, r) == ReplaceAll(a, p, r) + ReplaceAll(b, p, r)
  {
    assert ReplaceAll(a, p, r) == a;
    assert ReplaceAll(b, p, r) == b;
  }

  /** Away from a match, `replace` keeps the first character and carries on. */
  lemma SkipOne(a: string, p: string, r: string)
    requires p != [] && a != [] && !(|a| >= |p| && a[..|p|] == p)
    ensures ReplaceAll(a, p, r) == [a[0]] + ReplaceAll(a[1..], p, r)
  {
    if |a| < |p| {
      assert ReplaceAll(a[1..], p, r) == a[1..];
      assert a == [a[0]] + a[1..];
    }
  }

  /** A text that starts with `a` but not with `p` cannot start with `p` after `b` is appended. */
  lemma SeamBlocksMatch(a: string, b: string, p: string)
    requires p != [] && a != [] && a[|a| - 1] !in p
    requires !(|a| >= |p| && a[..|p|] == p)
    requires |a + b| >= |p|
    ensures (a + b)[..|p|] != p
  {
    var s := a + b;
    if |a| >= |p| {
      assert s[..|p|] == a[..|p|];
    } else {
      assert s[..|p|][|a| - 1] == a[|a| - 1];
    }
  }

  /** The pattern on its own is replaced whole. */
  lemma ReplaceAllSelf(p: string, r: string)
    requires p != []
    ensures ReplaceAll(p, p, r) == r
  {
    assert p[..|p|] == p;
    assert p[|p|..] == [];
    assert ReplaceAll([], p, r) == [];
  }

  /** Appending a character that is not in `p` cannot create an occurrence of `p`. */
  lemma AppendKeepsAbsent(a: string, c: char, p: string)
    requires p != [] && c !in p
    ensures Contains(a + [c], p) ==> Contains(a, p)
  {
    if Contains(a + [c], p) {
      var k := ContainsWitness(a + [c], p);
      assert (a + [c])[k + |p| - 1] == p[|p| - 1];
      assert (a + [c])[|a|] == c;
      assert k + |p| <= |a|;
      assert a[k..k + |p|] == (a + [c])[k..k + |p|];
      ContainsAt(a, p, k);
    }
  }

  /** When the text starts with the pattern, `replace(p, "", 1)` drops exactly that prefix. */
  lemma ReplaceFirstPrefix(p: string, rest: string)
    requires p != []
    ensures ReplaceFirst(p + rest, p, "") == rest
  {
    assert (p + rest)[..|p|] == p;
    assert (p + rest)[|p|..] == rest;
  }

  // ----- split and join -----

  /** `s.split(sep)` for a one-character separator; always at least one piece. */
  function Split(s: string, sep: char): (parts: seq<string>)
    ensures |parts| >= 1
  {
    if s == [] then [[]]
    else
      var rest := Split(s[1..], sep);
      if s[0] == sep then [[]] + rest else [[s[0]] + rest[0]] + rest[1..]
  }

  /** `sep.join(parts)` */
  function Join(parts: seq<string>, sep: string): string {
    if |parts| == 0 then []
    else if |parts| == 1 then parts[0]
    else parts[0] + sep + Join(parts[1..], sep)
  }

  /** `split` loses nothing: joining the pieces with the separator gives back the text, and no piece holds the separator. */
  lemma {:induction false} SplitJoin(s: string, sep: char)
    ensures Join(Split(s, sep), [sep]) == s
    ensures forall i :: 0 <= i < |Split(s, sep)| ==> sep !in Split(s, sep)[i]
  {
    if s != [] {
      var rest := Split(s[1..], sep);
      SplitJoin(s[1..], sep);
      if s[0] == sep {
        assert Split(s, sep) == [[]] + rest;
        JoinAfterEmptyPiece(rest, sep);
      } else {
        assert Split(s, sep) == [[s[0]] + rest[0]] + rest[1..];
        JoinExtendFirstPiece(s[0], rest, sep);
      }
      assert [s[0]] + s[1..] == s;
    }
  }

  /** An empty first piece contributes only the separator after it. */
  lemma JoinAfterEmptyPiece(rest: seq<string>, sep: char)
    requires |rest| >= 1
    requires forall i :: 0 <= i < |rest| ==> sep !in rest[i]
    ensures Join([[]] + rest, [sep]) == [sep] + Join(rest, [sep])
    ensures forall i :: 0 <= i < |rest| + 1 ==> sep !in ([[]] + rest)[i]
  {
    var parts := [[]] + rest;
    assert parts[1..] == rest;
    assert Join(parts, [sep]) == parts[0] + [sep] + Join(rest, [sep]);
    assert parts[0] + [sep] == [sep];
    forall i | 0 <= i < |parts| ensures sep !in parts[i] {
      if i > 0 {
        assert parts[i] == rest[i - 1];
      }
    }
  }

  /** A character that is not the separator is glued onto the first piece. */
  lemma JoinExtendFirstPiece(c: char, rest: seq<string>, sep: char)
    requires |rest| >= 1 && c != sep
    requires forall i :: 0 <= i < |rest| ==> sep !in rest[i]
    ensures Join([[c] + rest[0]] + rest[1..], [sep]) == [c] + Join(rest, [sep])
    ensures forall i :: 0 <= i < |rest| ==> sep !in ([[c] + rest[0]] + rest[1..])[i]
  {
    var parts := [[c] + rest[0]] + rest[1..];
    if |rest| == 1 {
      assert Join(parts, [sep]) == parts[0];
    } else {
      var tail := Join(rest[1..], [sep]);
      assert parts[1..] == rest[1..];
      assert Join(rest, [sep]) == rest[0] + [sep] + tail;
      assert Join(parts, [sep]) == ([c] + rest[0]) + [sep] + tail;
      ConcatAssoc([c], rest[0], [sep]);
      ConcatAssoc([c], rest[0] + [sep], tail);
    }
    forall i | 0 <= i < |parts| ensures sep !in parts[i] {
      if i == 0 {
        assert sep !in rest[0];
      } else {
        assert parts[i] == rest[i];
      }
    }
  }

  lemma ConcatAssoc(a: string, b: string, d: string)
    ensures (a + b) + d == a + (b + d)
  {
  }

  /** `[p.strip() for p in parts]` */
  function StripEach(parts: seq<string>): (r: seq<string>)
    ensures |r| == |parts| && forall i :: 0 <= i < |parts| ==> r[i] == Strip(parts[i])
  {
    seq(|parts|, i requires 0 <= i < |parts| => Strip(parts[i]))
  }
}
