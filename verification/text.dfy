/** The Python string operations the repository relies on: `strip`, `lower`,
    `upper`, `title`, `in` (substring), `startswith`, `split`, `join`, `str(int)`
    and slicing. Strings are sequences of Unicode scalar values, so `|s|` is
    Python's `len(s)`. Case mapping covers the ASCII letters only. */
module Text {
  import opened Base

  // ---------------------------------------------------------------------------
  // Whitespace and strip
  // ---------------------------------------------------------------------------

  /** The characters Python's `str.isspace` (and the regex class `\s`) accept. */
  predicate IsSpace(c: char) {
    || c == ' '
    || ('\U{9}' <= c <= '\U{D}')
    || ('\U{1C}' <= c <= '\U{1F}')
    || c == '\U{85}' || c == '\U{A0}' || c == '\U{1680}'
    || ('\U{2000}' <= c <= '\U{200A}')
    || c == '\U{2028}' || c == '\U{2029}' || c == '\U{202F}' || c == '\U{205F}'
    || c == '\U{3000}'
  }

  predicate AllSpace(s: string) {
    forall i :: 0 <= i < |s| ==> IsSpace(s[i])
  }

  /** The first index at or after `i` that does not hold whitespace (`|s|`
      when there is none). */
  function SkipSpace(s: string, i: nat): (j: nat)
    requires i <= |s|
    ensures i <= j <= |s|
    ensures forall k :: i <= k < j ==> IsSpace(s[k])
    ensures j == |s| || !IsSpace(s[j])
    decreases |s| - i
  {
    if i == |s| || !IsSpace(s[i]) then i else SkipSpace(s, i + 1)
  }

  /** The end of `s[lo..j]` once its trailing whitespace is dropped. */
  function TrimEnd(s: string, lo: nat, j: nat): (e: nat)
    requires lo <= j <= |s|
    ensures lo <= e <= j
    ensures forall k :: e <= k < j ==> IsSpace(s[k])
    ensures e == lo || !IsSpace(s[e - 1])
    decreases j
  {
    if j == lo || !IsSpace(s[j - 1]) then j else TrimEnd(s, lo, j - 1)
  }

  /** Where the stripped text starts in `s`. */
  function StripStart(s: string): nat {
    SkipSpace(s, 0)
  }

  /** Where the stripped text ends in `s`. */
  function StripEnd(s: string): nat {
    TrimEnd(s, StripStart(s), |s|)
  }

  /** `s.strip()`: the slice of `s` between its leading and its trailing
      whitespace. */
  function Strip(s: string): (r: string)
    ensures StripStart(s) <= StripEnd(s) <= |s| && r == s[StripStart(s)..StripEnd(s)]
    ensures forall k :: 0 <= k < StripStart(s) ==> IsSpace(s[k])
    ensures forall k :: StripEnd(s) <= k < |s| ==> IsSpace(s[k])
    ensures r == "" || (!IsSpace(r[0]) && !IsSpace(r[|r| - 1]))
  {
    s[StripStart(s)..StripEnd(s)]
  }

  /** Stripping leaves nothing exactly when the text is all whitespace. */
  lemma StripBlankIff(s: string)
    ensures Strip(s) == "" <==> AllSpace(s)
  {
  }

  /** Text without whitespace at either end is its own strip. */
  lemma StripNoEdgeSpace(s: string)
    requires |s| > 0 && !IsSpace(s[0]) && !IsSpace(s[|s| - 1])
    ensures Strip(s) == s
  {
    assert s[0..|s|] == s;
  }

  /** Stripping is idempotent. */
  lemma StripIdempotent(s: string)
    ensures Strip(Strip(s)) == Strip(s)
  {
    var r := Strip(s);
    if r != "" {
      StripNoEdgeSpace(r);
    }
  }

  // ---------------------------------------------------------------------------
  // Case mapping (ASCII)
  // ---------------------------------------------------------------------------

  predicate IsUpperAscii(c: char) { 'A' <= c <= 'Z' }
  predicate IsLowerAscii(c: char) { 'a' <= c <= 'z' }
  predicate IsAsciiLetter(c: char) { IsUpperAscii(c) || IsLowerAscii(c) }

  function LowerChar(c: char): char {
    if IsUpperAscii(c) then (c as int + 32) as char else c
  }

  function UpperChar(c: char): char {
    if IsLowerAscii(c) then (c as int - 32) as char else c
  }

  /** `s.lower()`. */
  function Lower(s: string): (r: string)
    ensures |r| == |s|
    ensures forall i :: 0 <= i < |s| ==> r[i] == LowerChar(s[i])
  {
    seq(|s|, i requires 0 <= i < |s| => LowerChar(s[i]))
  }

  /** `s.upper()`. */
  function Upper(s: string): (r: string)
    ensures |r| == |s|
    ensures forall i :: 0 <= i < |s| ==> r[i] == UpperChar(s[i])
  {
    seq(|s|, i requires 0 <= i < |s| => UpperChar(s[i]))
  }

  /** `s.title()`: a letter that follows a non-letter is upper-cased, every
      other letter is lower-cased. */
  function Title(s: string): (r: string)
    ensures |r| == |s|
  {
    seq(|s|, i requires 0 <= i < |s| =>
      if i == 0 || !IsAsciiLetter(s[i - 1]) then UpperChar(s[i]) else LowerChar(s[i]))
  }

  // ---------------------------------------------------------------------------
  // Substring search
  // ---------------------------------------------------------------------------

  /** `pat` occurs in `s` starting at index `i`. */
  predicate PrefixAt(s: string, i: nat, pat: string) {
    i + |pat| <= |s| && s[i..i + |pat|] == pat
  }

  /** An occurrence inside a slice is an occurrence in the whole text. */
  lemma PrefixAtSlice(s: string, lo: nat, hi: nat, q: nat, pat: string)
    requires lo <= hi <= |s|
    ensures PrefixAt(s[lo..hi], q, pat) ==> PrefixAt(s, lo + q, pat)
  {
    if PrefixAt(s[lo..hi], q, pat) {
      forall k | 0 <= k < |pat| ensures s[lo + q + k] == pat[k] {
        assert s[lo..hi][q..q + |pat|][k] == pat[k];
      }
      assert s[lo + q..lo + q + |pat|] == pat;
    }
  }

  /** Python's `sub in s`. */
  predicate Contains(s: string, sub: string) {
    exists i :: 0 <= i <= |s| && PrefixAt(s, i, sub)
  }

  /** `s.startswith(p)`. */
  predicate StartsWith(s: string, p: string) {
    PrefixAt(s, 0, p)
  }

  /** The first index at or after `from` where `pat` occurs (`s.find(pat, from)`). */
  function FindFrom(s: string, pat: string, from: nat): (r: Option<nat>)
    ensures r.Some? ==> from <= r.value && PrefixAt(s, r.value, pat)
    ensures r.Some? ==> forall j :: from <= j < r.value ==> !PrefixAt(s, j, pat)
    ensures r.None? <==> forall j :: from <= j ==> !PrefixAt(s, j, pat)
    decreases |s| - from
  {
    if from > |s| then None
    else if PrefixAt(s, from, pat) then Some(from)
    else FindFrom(s, pat, from + 1)
  }

  /** The last index below `upto` where `pat` occurs. */
  function FindLastBelow(s: string, pat: string, upto: nat): (r: Option<nat>)
    ensures r.Some? ==> r.value < upto && PrefixAt(s, r.value, pat)
    ensures r.Some? ==> forall j :: r.value < j < upto ==> !PrefixAt(s, j, pat)
    ensures r.None? <==> forall j :: 0 <= j < upto ==> !PrefixAt(s, j, pat)
  {
    if upto == 0 then None
    else if PrefixAt(s, upto - 1, pat) then Some(upto - 1)
    else FindLastBelow(s, pat, upto - 1)
  }

  /** The last index where `pat` occurs (`s.rfind(pat)`). */
  function FindLast(s: string, pat: string): (r: Option<nat>)
    ensures r.Some? ==> PrefixAt(s, r.value, pat)
    ensures r.Some? ==> forall j :: r.value < j ==> !PrefixAt(s, j, pat)
    ensures r.None? <==> !Contains(s, pat)
  {
    FindLastBelow(s, pat, |s| + 1)
  }

  lemma FindFromContains(s: string, pat: string)
    ensures FindFrom(s, pat, 0).Some? <==> Contains(s, pat)
  {
    if Contains(s, pat) {
      var i :| 0 <= i <= |s| && PrefixAt(s, i, pat);
      assert !(forall j :: 0 <= j ==> !PrefixAt(s, j, pat));
    }
  }

  /** `pat` occurs at `i` and nowhere before: the leftmost occurrence. */
  predicate FirstAt(s: string, pat: string, i: nat) {
    PrefixAt(s, i, pat) && forall j :: 0 <= j < i ==> !PrefixAt(s, j, pat)
  }

  /** The leftmost occurrence is the one `find` returns. */
  lemma FindFromFirst(s: string, pat: string)
    ensures forall i: nat :: FirstAt(s, pat, i) ==> FindFrom(s, pat, 0) == Some(i)
  {
  }

  /** A witness index proves containment. */
  lemma ContainsAt(s: string, sub: string, i: nat)
    requires PrefixAt(s, i, sub)
    ensures Contains(s, sub)
  {
  }

  /** A string whose first character does not occur in `s` is not a substring of `s`. */
  lemma NotContainsFirstChar(s: string, sub: string)
    requires |sub| > 0
    requires forall i :: 0 <= i < |s| ==> s[i] != sub[0]
    ensures !Contains(s, sub)
  {
    forall i | 0 <= i <= |s|
      ensures !PrefixAt(s, i, sub)
    {
      if i < |s| {
        assert s[i] != sub[0];
      }
    }
  }

  /** Containment is transitive: a string containing `big` contains every substring of `big`. */
  lemma ContainsTransitive(s: string, big: string, small: string)
    requires Contains(s, big) && Contains(big, small)
    ensures Contains(s, small)
  {
    var i :| 0 <= i <= |s| && PrefixAt(s, i, big);
    var j :| 0 <= j <= |big| && PrefixAt(big, j, small);
    assert forall k :: 0 <= k < |big| ==> s[i + k] == big[k] by {
      assert s[i..i + |big|] == big;
    }
    assert forall k :: 0 <= k < |small| ==> big[j + k] == small[k] by {
      assert big[j..j + |small|] == small;
    }
    assert s[i + j..i + j + |small|] == small;
    assert PrefixAt(s, i + j, small);
  }

  /** Text without upper-case letters is its own lower-case form. */
  lemma LowerNoUpper(s: string)
    requires forall i :: 0 <= i < |s| ==> !IsUpperAscii(s[i])
    ensures Lower(s) == s
  {
  }

  /** Stripping only removes characters: one absent from `s` is absent from `Strip(s)`. */
  lemma StripKeepsOut(s: string, c: char)
    requires c !in s
    ensures c !in Strip(s)
  {
    var sp := Strip(s);
    var a := StripStart(s);
    forall k | 0 <= k < |sp|
      ensures sp[k] != c
    {
      assert sp[k] == s[a + k];
    }
  }

  /** Lower-casing creates no character other than letters. */
  lemma LowerKeepsOut(s: string, c: char)
    requires c !in s && !IsAsciiLetter(c)
    ensures c !in Lower(s)
  {
    var l := Lower(s);
    forall k | 0 <= k < |l|
      ensures l[k] != c
    {
      assert l[k] == LowerChar(s[k]);
    }
  }

  // ---------------------------------------------------------------------------
  // split and join
  // ---------------------------------------------------------------------------

  /** The first index at or after `from` holding `c`. */
  function IndexOfChar(s: string, c: char, from: nat): (r: Option<nat>)
    ensures r.Some? ==> from <= r.value < |s| && s[r.value] == c
    ensures r.Some? ==> forall j :: from <= j < r.value ==> s[j] != c
    ensures r.None? <==> forall j :: from <= j < |s| ==> s[j] != c
    decreases |s| - from
  {
    if from >= |s| then None
    else if s[from] == c then Some(from)
    else IndexOfChar(s, c, from + 1)
  }

  /** The last index holding `c`. */
  function LastIndexOfChar(s: string, c: char): (r: Option<nat>)
    ensures r.Some? ==> r.value < |s| && s[r.value] == c
    ensures r.Some? ==> forall j :: r.value < j < |s| ==> s[j] != c
    ensures r.None? <==> forall j :: 0 <= j < |s| ==> s[j] != c
  {
    if |s| == 0 then None
    else if s[|s| - 1] == c then Some(|s| - 1)
    else LastIndexOfChar(s[..|s| - 1], c)
  }

  /** `s.split(sep)` for a one-character separator: always at least one part,
      and no part contains the separator. */
  function Split(s: string, sep: char): (r: seq<string>)
    ensures |r| >= 1
    ensures forall i :: 0 <= i < |r| ==> sep !in r[i]
    decreases |s|
  {
    match IndexOfChar(s, sep, 0)
    case None => [s]
    case Some(k) =>
      assert sep !in s[..k] by {
        forall j | 0 <= j < k ensures s[..k][j] != sep { }
      }
      [s[..k]] + Split(s[k + 1..], sep)
  }

  /** `sep.join(parts)`. */
  function Join(sep: string, parts: seq<string>): string
  {
    if |parts| == 0 then ""
    else if |parts| == 1 then parts[0]
    else parts[0] + sep + Join(sep, parts[1..])
  }

  /** Joining the parts of a split with the separator gives the original text back. */
  lemma {:induction false} SplitJoin(s: string, sep: char)
    ensures Join([sep], Split(s, sep)) == s
    decreases |s|
  {
    match IndexOfChar(s, sep, 0)
    case None =>
    case Some(k) =>
      var rest := Split(s[k + 1..], sep);
      SplitJoin(s[k + 1..], sep);
      assert Split(s, sep) == [s[..k]] + rest;
      assert ([s[..k]] + rest)[1..] == rest;
      assert s == s[..k] + [sep] + s[k + 1..];
  }

  /** Splitting at the first separator: the separator-free text before it,
      then the split of the rest. */
  lemma SplitAtFirst(a: string, sep: char, b: string)
    requires sep !in a
    ensures Split(a + [sep] + b, sep) == [a] + Split(b, sep)
  {
    var s := a + [sep] + b;
    var k := |a|;
    assert s[k] == sep;
    assert forall j :: 0 <= j < k ==> s[j] == a[j];
    assert IndexOfChar(s, sep, 0) == Some(k);
    assert s[..k] == a;
    assert s[k + 1..] == b;
  }

  /** Splitting a join of separator-free parts gives the parts back. */
  lemma {:induction false} JoinSplit(parts: seq<string>, sep: char)
    requires |parts| >= 1
    requires forall i :: 0 <= i < |parts| ==> sep !in parts[i]
    ensures Split(Join([sep], parts), sep) == parts
    decreases |parts|
  {
    if |parts| == 1 {
      assert IndexOfChar(parts[0], sep, 0).None?;
    } else {
      var tail := Join([sep], parts[1..]);
      assert Join([sep], parts) == parts[0] + [sep] + tail;
      SplitAtFirst(parts[0], sep, tail);
      JoinSplit(parts[1..], sep);
      assert parts == [parts[0]] + parts[1..];
    }
  }

  // ---------------------------------------------------------------------------
  // Decimal rendering of integers (`str(n)`)
  // ---------------------------------------------------------------------------

  predicate IsDigit(c: char) { '0' <= c <= '9' }

  predicate AllDigits(s: string) {
    forall i :: 0 <= i < |s| ==> IsDigit(s[i])
  }

  function DigitChar(d: nat): (c: char)
    requires d < 10
    ensures IsDigit(c)
  {
    (48 + d) as char
  }

  function DigitValue(c: char): nat
    requires IsDigit(c)
  {
    c as int - 48
  }

  /** The decimal digits of `n`, most significant first, without leading zeros. */
  function NatToString(n: nat): (r: string)
    ensures |r| >= 1 && AllDigits(r)
    ensures r[0] == '0' ==> n == 0 && r == "0"
    decreases n
  {
    if n < 10 then [DigitChar(n)] else NatToString(n / 10) + [DigitChar(n % 10)]
  }

  /** Python's `str(i)` for an `int`. */
  function IntToString(i: int): (r: string)
    ensures |r| >= 1
    ensures (r[0] == '-') <==> i < 0
  {
    if i < 0 then "-" + NatToString(-i) else NatToString(i)
  }

  /** The number a string of decimal digits denotes. */
  function DecimalValue(s: string): nat
    requires AllDigits(s)
  {
    if |s| == 0 then 0 else DecimalValue(s[..|s| - 1]) * 10 + DigitValue(s[|s| - 1])
  }

  /** Reading back the rendering of `n` gives `n`. */
  lemma {:induction false} NatToStringRoundTrip(n: nat)
    ensures DecimalValue(NatToString(n)) == n
    decreases n
  {
    if n >= 10 {
      var r := NatToString(n);
      NatToStringRoundTrip(n / 10);
      assert r[..|r| - 1] == NatToString(n / 10);
    }
  }

  /** Distinct numbers render differently. */
  lemma NatToStringInjective(a: nat, b: nat)
    requires NatToString(a) == NatToString(b)
    ensures a == b
  {
    NatToStringRoundTrip(a);
    NatToStringRoundTrip(b);
  }
}
