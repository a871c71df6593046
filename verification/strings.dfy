/** The string operations of Python and JavaScript that the modelled code
    relies on, defined once and shared: prefix/suffix/substring tests,
    `split` and `join` on a separator, Python's `str.replace(p, "")`,
    whitespace stripping, ASCII lower-casing and decimal rendering of
    naturals (the `{i}` of an f-string or template literal). */
module Strings {

  // ---------------------------------------------------------------------
  // Prefix, suffix and substring tests
  // ---------------------------------------------------------------------

  /** Python `s.startswith(p)`, JavaScript `s.startsWith(p)`. */
  predicate StartsWith(s: string, p: string) {
    |p| <= |s| && s[..|p|] == p
  }

  /** Python `s.endswith(p)`. */
  predicate EndsWith(s: string, p: string) {
    |p| <= |s| && s[|s| - |p|..] == p
  }

  /** Python `p in s`, JavaScript `s.includes(p)`: some position of `s`
      starts an occurrence of `p`. */
  predicate Contains(s: string, p: string)
    decreases |s|
  {
    StartsWith(s, p) || (|s| > 0 && Contains(s[1..], p))
  }

  /** Every character of a pattern that occurs in `s` occurs in `s`. */
  lemma {:induction false} ContainedCharsOccur(s: string, p: string, i: nat)
    requires i < |p|
    ensures Contains(s, p) ==> p[i] in s
    decreases |s|
  {
    if StartsWith(s, p) {
      assert s[..|p|][i] == s[i];
    }
    if |s| > 0 {
      ContainedCharsOccur(s[1..], p, i);
      if p[i] in s[1..] {
        var j :| 0 <= j < |s[1..]| && s[1..][j] == p[i];
        assert s[j + 1] == p[i];
      }
    }
  }

  /** An occurrence of `p` inside a part is an occurrence in the whole. */
  lemma {:induction false} ContainsInPrefix(a: string, b: string, p: string)
    requires Contains(a, p)
    ensures Contains(a + b, p)
    decreases |a|
  {
    if StartsWith(a, p) {
      assert (a + b)[..|p|] == a[..|p|];
    } else {
      assert (a + b)[1..] == a[1..] + b;
      ContainsInPrefix(a[1..], b, p);
    }
  }

  /** An occurrence in `a + b` starts either inside `a` or inside `b`. */
  lemma {:induction false} NotContainsAfterPrefix(a: string, b: string, p: string)
    requires forall i :: 0 <= i < |a| ==> !StartsWith((a + b)[i..], p)
    requires !Contains(b, p)
    ensures !Contains(a + b, p)
    decreases |a|
  {
    if |a| > 0 {
      assert (a + b)[1..] == a[1..] + b;
      forall i | 0 <= i < |a[1..]|
        ensures !StartsWith((a[1..] + b)[i..], p)
      {
        assert (a[1..] + b)[i..] == (a + b)[i + 1..];
      }
      NotContainsAfterPrefix(a[1..], b, p);
      assert (a + b)[0..] == a + b;
    } else {
      assert a + b == b;
    }
  }

  // ---------------------------------------------------------------------
  // split / join
  // ---------------------------------------------------------------------

  function Last<T>(s: seq<T>): T
    requires |s| > 0
  {
    s[|s| - 1]
  }

  /** Python `s.split(sep)` and JavaScript `s.split(sep)` for a non-empty
      separator: the text between the leftmost non-overlapping occurrences
      of `sep`. Always at least one part (`"".split("/") == [""]`). */
  function Split(s: string, sep: string): (parts: seq<string>)
    requires |sep| > 0
    ensures |parts| >= 1
    decreases |s|
  {
    if |s| < |sep| then [s]
    else if s[..|sep|] == sep then [""] + Split(s[|sep|..], sep)
    else
      var rest := Split(s[1..], sep);
      [[s[0]] + rest[0]] + rest[1..]
  }

  /** Python `sep.join(parts)`, JavaScript `parts.join(sep)`. */
  function Join(parts: seq<string>, sep: string): string
    decreases |parts|
  {
    if |parts| == 0 then ""
    else if |parts| == 1 then parts[0]
    else parts[0] + sep + Join(parts[1..], sep)
  }

  lemma JoinConsHead(c: char, rest: seq<string>, sep: string)
    requires |rest| >= 1
    ensures Join([[c] + rest[0]] + rest[1..], sep) == [c] + Join(rest, sep)
  {
    var l := [[c] + rest[0]] + rest[1..];
    if |rest| > 1 {
      assert l[1..] == rest[1..];
    }
  }

  /** Joining the parts with the separator gives back the text: no
      character is lost or invented by `Split`. */
  lemma {:induction false} JoinSplit(s: string, sep: string)
    requires |sep| > 0
    ensures Join(Split(s, sep), sep) == s
    decreases |s|
  {
    if |s| < |sep| {
    } else if s[..|sep|] == sep {
      var t := s[|sep|..];
      JoinSplit(t, sep);
      var r := Split(t, sep);
      assert Split(s, sep) == [""] + r;
      assert ([""] + r)[1..] == r;
      assert s == sep + t;
    } else {
      JoinSplit(s[1..], sep);
      JoinConsHead(s[0], Split(s[1..], sep), sep);
      assert s == [s[0]] + s[1..];
    }
  }

  /** Text without the separator's first character is a single part. */
  lemma {:induction false} SplitWithoutSep(s: string, sep: string)
    requires |sep| > 0 && sep[0] !in s
    ensures Split(s, sep) == [s]
    decreases |s|
  {
    if |s| >= |sep| {
      assert s[..|sep|][0] == s[0];
      assert forall j :: 0 <= j < |s[1..]| ==> s[1..][j] == s[j + 1];
      SplitWithoutSep(s[1..], sep);
      assert s == [s[0]] + s[1..];
    }
  }

  /** A separator-free piece followed by the separator is the first part. */
  lemma {:induction false} SplitAfterPiece(x: string, t: string, sep: string)
    requires |sep| > 0 && sep[0] !in x
    ensures Split(x + sep + t, sep) == [x] + Split(t, sep)
    decreases |x|
  {
    var s := x + sep + t;
    if |x| == 0 {
      assert s[..|sep|] == sep;
      assert s[|sep|..] == t;
    } else {
      assert s[..|sep|][0] == x[0];
      assert x[0] in x;
      assert forall j :: 0 <= j < |x[1..]| ==> x[1..][j] == x[j + 1];
      assert s[1..] == x[1..] + sep + t;
      SplitAfterPiece(x[1..], t, sep);
      assert x == [x[0]] + x[1..];
    }
  }

  /** Split inverts Join when no part contains the separator's first
      character: the parts come back unchanged and in order. */
  lemma {:induction false} SplitJoin(xs: seq<string>, sep: string)
    requires |sep| > 0 && |xs| >= 1
    requires forall i :: 0 <= i < |xs| ==> sep[0] !in xs[i]
    ensures Split(Join(xs, sep), sep) == xs
    decreases |xs|
  {
    if |xs| == 1 {
      SplitWithoutSep(xs[0], sep);
    } else {
      SplitAfterPiece(xs[0], Join(xs[1..], sep), sep);
      SplitJoin(xs[1..], sep);
      assert xs == [xs[0]] + xs[1..];
    }
  }

  /** One step of `Split` on a one-character separator that leads `s`. */
  lemma SplitStepSep(s: string, c: char)
    requires |s| > 0 && s[0] == c
    ensures Split(s, [c]) == [""] + Split(s[1..], [c])
  {
    assert s[..1] == [c];
  }

  /** One step of `Split` on a one-character separator that does not lead
      `s`: the first character joins the first part. */
  lemma SplitStepChar(s: string, c: char)
    requires |s| > 0 && s[0] != c
    ensures Split(s, [c]) == [[s[0]] + Split(s[1..], [c])[0]] + Split(s[1..], [c])[1..]
  {
    assert s[..1] != [c] by { assert s[..1][0] == s[0]; }
  }

  /** With a one-character separator, splitting around one occurrence of it
      concatenates the parts of either side. */
  lemma {:induction false} SplitAround(a: string, b: string, c: char)
    ensures Split(a + [c] + b, [c]) == Split(a, [c]) + Split(b, [c])
    decreases |a|
  {
    var s := a + [c] + b;
    if |a| == 0 {
      assert s == [c] + b;
      SplitStepSep(s, c);
      assert s[1..] == b;
    } else {
      assert s[1..] == a[1..] + [c] + b;
      SplitAround(a[1..], b, c);
      if a[0] == c {
        SplitAroundSep(a, b, c);
      } else {
        SplitAroundChar(a, b, c);
      }
    }
  }

  /** The step of `SplitAround` when `a` starts with the separator. */
  lemma SplitAroundSep(a: string, b: string, c: char)
    requires |a| > 0 && a[0] == c
    requires Split(a[1..] + [c] + b, [c]) == Split(a[1..], [c]) + Split(b, [c])
    ensures Split(a + [c] + b, [c]) == Split(a, [c]) + Split(b, [c])
  {
    var t := a[1..] + [c] + b;
    var pa, pb := Split(a[1..], [c]), Split(b, [c]);
    calc {
      Split(a + [c] + b, [c]);
    == { assert a + [c] + b == [c] + t; }
      Split([c] + t, [c]);
    == { SplitLeadingSep(c, t); }
      [""] + (pa + pb);
    ==
      ([""] + pa) + pb;
    == { assert a == [c] + a[1..]; SplitLeadingSep(c, a[1..]); }
      Split(a, [c]) + pb;
    }
  }

  /** A leading separator opens an empty first part. */
  lemma SplitLeadingSep(c: char, t: string)
    ensures Split([c] + t, [c]) == [""] + Split(t, [c])
  {
    SplitStepSep([c] + t, c);
    assert ([c] + t)[1..] == t;
  }

  /** The step of `SplitAround` when `a` starts with another character. */
  lemma SplitAroundChar(a: string, b: string, c: char)
    requires |a| > 0 && a[0] != c
    requires Split(a[1..] + [c] + b, [c]) == Split(a[1..], [c]) + Split(b, [c])
    ensures Split(a + [c] + b, [c]) == Split(a, [c]) + Split(b, [c])
  {
    var s := a + [c] + b;
    assert s[0] == a[0];
    assert s[1..] == a[1..] + [c] + b;
    SplitStepChar(s, c);
    SplitStepChar(a, c);
    PrependToFirst([a[0]], Split(a[1..], [c]), Split(b, [c]));
  }

  /** Extending the first part of a concatenation of part lists extends
      the first list's first part. */
  lemma PrependToFirst(h: string, pa: seq<string>, pb: seq<string>)
    requires |pa| >= 1
    ensures [h + (pa + pb)[0]] + (pa + pb)[1..] == ([h + pa[0]] + pa[1..]) + pb
  {
    assert (pa + pb)[0] == pa[0];
    assert (pa + pb)[1..] == pa[1..] + pb;
  }

  /** Python `s.split(c)[-1]`, JavaScript `s.split(c).at(-1)`: the text after
      the last `c`. */
  function LastSegment(s: string, c: char): string {
    Last(Split(s, [c]))
  }

  /** Python `s.split(c)[0]`: the text before the first `c`. */
  function FirstSegment(s: string, c: char): string {
    Split(s, [c])[0]
  }

  /** The last segment is whatever follows the final separator. */
  lemma LastSegmentAfter(a: string, b: string, c: char)
    requires c !in b
    ensures LastSegment(a + [c] + b, c) == b
  {
    SplitAround(a, b, c);
    SplitWithoutSep(b, [c]);
  }

  /** A string without the separator is its own last segment. */
  lemma LastSegmentWhole(b: string, c: char)
    requires c !in b
    ensures LastSegment(b, c) == b
  {
    SplitWithoutSep(b, [c]);
  }

  /** The first segment is whatever precedes the first separator. */
  lemma FirstSegmentBefore(a: string, b: string, c: char)
    requires c !in a
    ensures FirstSegment(a + [c] + b, c) == a
  {
    SplitAround(a, b, c);
    SplitWithoutSep(a, [c]);
  }

  // ---------------------------------------------------------------------
  // Python str.replace(pat, "")
  // ---------------------------------------------------------------------

  /** Python `s.replace(pat, "")`: one left-to-right pass deleting the
      leftmost non-overlapping occurrences of `pat`. */
  function RemoveAll(s: string, pat: string): string
    requires |pat| > 0
    decreases |s|
  {
    if |s| < |pat| then s
    else if s[..|pat|] == pat then RemoveAll(s[|pat|..], pat)
    else [s[0]] + RemoveAll(s[1..], pat)
  }

  /** Deleting an absent pattern changes nothing. */
  lemma {:induction false} RemoveAllAbsent(s: string, pat: string)
    requires |pat| > 0 && !Contains(s, pat)
    ensures RemoveAll(s, pat) == s
    decreases |s|
  {
    if |s| >= |pat| {
      RemoveAllAbsent(s[1..], pat);
      assert s == [s[0]] + s[1..];
    }
  }

  /** A pattern whose first character does not recur in it cannot overlap a
      shifted copy of itself. */
  predicate Unbordered(pat: string) {
    |pat| > 0 && forall i :: 1 <= i < |pat| ==> pat[i] != pat[0]
  }

  /** Deleting an unbordered pattern from `x + pat`, where `x` holds no
      occurrence, leaves exactly `x`: no occurrence can straddle the seam. */
  lemma {:induction false} RemoveAllTrailing(x: string, pat: string)
    requires Unbordered(pat) && !Contains(x, pat)
    ensures RemoveAll(x + pat, pat) == x
    decreases |x|
  {
    var s := x + pat;
    if |x| == 0 {
      assert s[..|pat|] == pat;
      assert s[|pat|..] == "";
    } else {
      if |x| >= |pat| {
        assert s[..|pat|] == x[..|pat|];
      } else {
        assert s[..|pat|][|x|] == pat[0];
        assert pat[|x|] != pat[0];
      }
      assert s[1..] == x[1..] + pat;
      RemoveAllTrailing(x[1..], pat);
      assert x == [x[0]] + x[1..];
    }
  }

  /** Deleting a pattern that leads the text just drops it. */
  lemma RemoveAllLeading(pat: string, t: string)
    requires |pat| > 0
    ensures RemoveAll(pat + t, pat) == RemoveAll(t, pat)
  {
    var s := pat + t;
    assert s[..|pat|] == pat;
    assert s[|pat|..] == t;
  }

  // ---------------------------------------------------------------------
  // Whitespace
  // ---------------------------------------------------------------------

  /** The ASCII whitespace characters stripped by Python `str.strip()` and
      JavaScript `String.prototype.trim()`. */
  predicate IsSpace(c: char) {
    c == ' ' || c == '\t' || c == '\n' || c == '\r' || c as int == 11 || c as int == 12
  }

  /** `not s.strip()` / `!s.trim()`: nothing but whitespace. */
  predicate IsBlank(s: string) {
    forall i :: 0 <= i < |s| ==> IsSpace(s[i])
  }

  function TrimStart(s: string): (r: string)
    ensures |r| <= |s| && r == s[|s| - |r|..]
    ensures IsBlank(s[..|s| - |r|])
    ensures |r| > 0 ==> !IsSpace(r[0])
    decreases |s|
  {
    if |s| > 0 && IsSpace(s[0]) then
      var r := TrimStart(s[1..]);
      assert s[..|s| - |r|] == [s[0]] + s[1..][..|s[1..]| - |r|];
      r
    else s
  }

  function TrimEnd(s: string): (r: string)
    ensures |r| <= |s| && r == s[..|r|]
    ensures IsBlank(s[|r|..])
    ensures |r| > 0 ==> !IsSpace(r[|r| - 1])
    decreases |s|
  {
    if |s| > 0 && IsSpace(s[|s| - 1]) then
      var r := TrimEnd(s[..|s| - 1]);
      assert s[|r|..] == s[..|s| - 1][|r|..] + [s[|s| - 1]];
      r
    else s
  }

  /** Python `s.strip()`, JavaScript `s.trim()`: empty exactly for blank
      text, otherwise starting and ending with a non-space character. */
  function Trim(s: string): (r: string)
    ensures r == "" <==> IsBlank(s)
    ensures |r| > 0 ==> !IsSpace(r[0]) && !IsSpace(r[|r| - 1])
    ensures |r| <= |s|
  {
    TrimBlank(s);
    TrimEnd(TrimStart(s))
  }

  lemma TrimBlank(s: string)
    ensures TrimEnd(TrimStart(s)) == "" <==> IsBlank(s)
    ensures |TrimEnd(TrimStart(s))| > 0 ==> !IsSpace(TrimEnd(TrimStart(s))[0])
  {
    var t := TrimStart(s);
    var k := |s| - |t|;
    var r := TrimEnd(t);
    assert s[k..] == t;
    assert IsBlank(s[..k]);
    BlankSplit(s, k);
    assert IsBlank(s) <==> IsBlank(t);
    assert IsBlank(t) ==> |t| == 0 by {
      assert |t| > 0 ==> !IsSpace(t[0]);
    }
    assert r == "" ==> IsBlank(t) by {
      assert r == "" ==> t[|r|..] == t;
    }
    assert |r| > 0 ==> r[0] == t[0];
  }

  /** Text is blank exactly when both sides of any cut are. */
  lemma BlankSplit(s: string, k: nat)
    requires k <= |s|
    ensures IsBlank(s) <==> IsBlank(s[..k]) && IsBlank(s[k..])
  {
    assert forall i :: 0 <= i < k ==> s[..k][i] == s[i];
    assert forall i :: k <= i < |s| ==> s[k..][i - k] == s[i];
  }

  // ---------------------------------------------------------------------
  // Case
  // ---------------------------------------------------------------------

  function LowerChar(c: char): char {
    if 'A' <= c <= 'Z' then (c as int + 32) as char else c
  }

  /** Python `s.lower()` on ASCII letters. */
  function Lower(s: string): string {
    seq(|s|, i requires 0 <= i < |s| => LowerChar(s[i]))
  }

  /** Lower-casing keeps every occurrence, lower-cased. */
  lemma {:induction false} LowerKeepsContains(s: string, p: string)
    requires Contains(s, p)
    ensures Contains(Lower(s), Lower(p))
    decreases |s|
  {
    if StartsWith(s, p) {
      assert Lower(s)[..|p|] == Lower(p);
    } else {
      assert Lower(s)[1..] == Lower(s[1..]);
      LowerKeepsContains(s[1..], p);
    }
  }

  // ---------------------------------------------------------------------
  // Decimal rendering of naturals
  // ---------------------------------------------------------------------

  predicate IsDigit(c: char) {
    '0' as int <= c as int <= '9' as int
  }

  function DigitChar(d: nat): char
    requires d < 10
  {
    ('0' as int + d) as char
  }

  /** The `{n}` of an f-string or template literal for a natural `n`:
      non-empty, all digits. */
  function NatToString(n: nat): (r: string)
    ensures |r| >= 1
    ensures forall i :: 0 <= i < |r| ==> IsDigit(r[i])
    decreases n
  {
    if n < 10 then [DigitChar(n)] else NatToString(n / 10) + [DigitChar(n % 10)]
  }

  /** Python `str(v)` for an integer. */
  function IntToString(v: int): string {
    if v < 0 then "-" + NatToString(-v) else NatToString(v)
  }

  /** Reading a string of digits as a decimal number. */
  function ParseNat(s: string): nat
    requires forall i :: 0 <= i < |s| ==> IsDigit(s[i])
    decreases |s|
  {
    if |s| == 0 then 0
    else
      var d := s[|s| - 1] as int - '0' as int;
      assert IsDigit(s[|s| - 1]);
      ParseNat(s[..|s| - 1]) * 10 + d
  }

  /** Rendering is undone by parsing, so distinct numbers render distinctly. */
  lemma {:induction false} ParseNatToString(n: nat)
    ensures ParseNat(NatToString(n)) == n
    decreases n
  {
    if n >= 10 {
      var s := NatToString(n);
      assert s[..|s| - 1] == NatToString(n / 10);
      ParseNatToString(n / 10);
    }
  }

  lemma NatToStringInjective(a: nat, b: nat)
    ensures NatToString(a) == NatToString(b) <==> a == b
  {
    ParseNatToString(a);
    ParseNatToString(b);
  }

  /** Digits never include the characters the models use as separators. */
  lemma NatToStringHasNo(n: nat, c: char)
    requires !IsDigit(c)
    ensures c !in NatToString(n)
  {
  }
}
