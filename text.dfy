/** The string operations the handlers apply to incoming text and callback
    data: Python's `str.strip()`, `str.startswith(p)` and `str.replace(p, "")`. */
module Text {

  /** The code points of the characters for which Python's `str.isspace()`
      holds: the whitespace that `str.strip()` with no argument removes. */
  const Whitespace: set<int> :=
    {9, 10, 11, 12, 13, 28, 29, 30, 31, 32, 0x85, 0xA0, 0x1680,
     0x2000, 0x2001, 0x2002, 0x2003, 0x2004, 0x2005, 0x2006, 0x2007, 0x2008, 0x2009, 0x200A,
     0x2028, 0x2029, 0x202F, 0x205F, 0x3000}

  predicate IsSpace(c: char)
  {
    c as int in Whitespace
  }

  /** The number of whitespace characters `s` starts with. */
  function LeadingSpaces(s: string): (n: nat)
    ensures n <= |s|
    ensures forall k :: 0 <= k < n ==> IsSpace(s[k])
    ensures n < |s| ==> !IsSpace(s[n])
  {
    if s != [] && IsSpace(s[0]) then
      var m := LeadingSpaces(s[1..]);
      assert forall k :: 1 <= k < m + 1 ==> s[k] == s[1..][k - 1];
      m + 1
    else 0
  }

  /** The length of `s` without the whitespace it ends with. */
  function ContentEnd(s: string): (n: nat)
    ensures n <= |s|
    ensures forall k :: n <= k < |s| ==> IsSpace(s[k])
    ensures n > 0 ==> !IsSpace(s[n - 1])
  {
    if s != [] && IsSpace(s[|s| - 1]) then
      var m := ContentEnd(s[..|s| - 1]);
      assert forall k :: 0 <= k < |s| - 1 ==> s[k] == s[..|s| - 1][k];
      m
    else |s|
  }

  /** `s.strip()`: the text between the leading and the trailing whitespace. */
  function Strip(s: string): string
  {
    var i := LeadingSpaces(s);
    s[i..i + ContentEnd(s[i..])]
  }

  /** The stripped text is the slice of `s` between a run of leading and a
      run of trailing whitespace. */
  lemma StripIsTrimmedSlice(s: string)
    ensures var r, i := Strip(s), LeadingSpaces(s);
      && r == s[i..i + |r|]
      && (forall k :: 0 <= k < i ==> IsSpace(s[k]))
      && (forall k :: i + |r| <= k < |s| ==> IsSpace(s[k]))
  {
    var i := LeadingSpaces(s);
    var l := s[i..];
    var n := ContentEnd(l);
    forall k | i + n <= k < |s|
      ensures IsSpace(s[k])
    {
      assert s[k] == l[k - i];
    }
  }

  /** The stripped text neither starts nor ends with whitespace. */
  lemma StripEnds(s: string)
    ensures var r := Strip(s);
      r != [] ==> !IsSpace(r[0]) && !IsSpace(r[|r| - 1])
  {
    var i := LeadingSpaces(s);
    var l := s[i..];
    var n := ContentEnd(l);
    var r := Strip(s);
    if r != [] {
      assert r[0] == l[0];
      assert r[|r| - 1] == l[n - 1];
    }
  }

  /** The stripped text is empty exactly when `s` is all whitespace. */
  lemma StripEmpty(s: string)
    ensures Strip(s) == [] <==> forall k :: 0 <= k < |s| ==> IsSpace(s[k])
  {
    var i := LeadingSpaces(s);
    var l := s[i..];
    if i < |s| {
      assert l[0] == s[i];
      assert ContentEnd(l) > 0;
    }
  }

  /** Stripping twice is stripping once. */
  lemma StripIdempotent(s: string)
    ensures Strip(Strip(s)) == Strip(s)
  {
    var r := Strip(s);
    StripEnds(s);
    assert LeadingSpaces(r) == 0;
    assert r[0..] == r;
    assert ContentEnd(r) == |r|;
  }

  predicate StartsWith(s: string, prefix: string)
  {
    |prefix| <= |s| && s[..|prefix|] == prefix
  }

  /** `pat` occurs somewhere in `s` as a contiguous piece. */
  predicate Occurs(pat: string, s: string)
    decreases |s|
  {
    |pat| <= |s| && (s[..|pat|] == pat || (s != [] && Occurs(pat, s[1..])))
  }

  /** A pattern whose first character is missing from `s` does not occur in it. */
  lemma {:induction false} AbsentFirstChar(pat: string, s: string)
    requires pat != [] && pat[0] !in s
    ensures !Occurs(pat, s)
  {
    if |pat| <= |s| {
      assert s[..|pat|][0] == s[0];
      AbsentFirstChar(pat, s[1..]);
    }
  }

  /** `s.replace(pat, "")`: every occurrence of `pat` found scanning left to
      right, without overlap, is removed. */
  function RemoveAll(s: string, pat: string): string
    requires pat != []
    decreases |s|
  {
    if |s| < |pat| then s
    else if s[..|pat|] == pat then RemoveAll(s[|pat|..], pat)
    else [s[0]] + RemoveAll(s[1..], pat)
  }

  /** Removing a pattern that does not occur leaves the string as it is. */
  lemma {:induction false} RemoveAllAbsent(s: string, pat: string)
    requires pat != [] && !Occurs(pat, s)
    ensures RemoveAll(s, pat) == s
  {
    if |s| >= |pat| {
      assert s[..|pat|] != pat;
      RemoveAllAbsent(s[1..], pat);
      assert s == [s[0]] + s[1..];
    }
  }

  /** A callback token built as `prefix + payload` starts with the prefix,
      and removing the prefix gives back the payload, provided the payload
      does not itself contain the prefix. */
  lemma TokenRoundTrip(prefix: string, payload: string)
    requires prefix != [] && !Occurs(prefix, payload)
    ensures StartsWith(prefix + payload, prefix)
    ensures RemoveAll(prefix + payload, prefix) == payload
  {
    var t := prefix + payload;
    assert t[..|prefix|] == prefix;
    assert t[|prefix|..] == payload;
    RemoveAllAbsent(payload, prefix);
  }
}
