/** The string operations of JavaScript that the application relies on:
    `trim`, `indexOf`/`includes`, `replace` with a one-character pattern,
    `replace(/\s+/g, ...)`, `split` on one character, `toLowerCase` (ASCII
    letters only), `String(n)` for naturals and `padStart`. */
module Text {
  import opened Wrappers

  /** The characters that `String.prototype.trim` removes and that the regex
      class `\s` matches: ECMAScript WhiteSpace plus LineTerminator. */
  predicate IsSpace(c: char) {
    || c == ' ' || c == '\t' || c == '\n' || c == '\r'
    || c == '\U{000B}' || c == '\U{000C}' || c == '\U{00A0}' || c == '\U{1680}'
    || ('\U{2000}' <= c <= '\U{200A}')
    || c == '\U{2028}' || c == '\U{2029}' || c == '\U{202F}' || c == '\U{205F}'
    || c == '\U{3000}' || c == '\U{FEFF}'
  }

  predicate AllSpace(s: string) {
    forall i :: 0 <= i < |s| ==> IsSpace(s[i])
  }

  predicate NoSpace(s: string) {
    forall i :: 0 <= i < |s| ==> !IsSpace(s[i])
  }

  /** `s` neither starts nor ends with white space. */
  predicate Trimmed(s: string) {
    s == [] || (!IsSpace(s[0]) && !IsSpace(s[|s| - 1]))
  }

  /** The number of white-space characters `s` starts with. */
  function LeadingSpace(s: string): (n: nat)
    ensures n <= |s|
    ensures forall k :: 0 <= k < n ==> IsSpace(s[k])
    ensures n < |s| ==> !IsSpace(s[n])
  {
    if s == [] || !IsSpace(s[0]) then 0 else 1 + LeadingSpace(s[1..])
  }

  /** Where `s[lo..hi]` ends once its trailing white space is dropped. */
  function TrailingSpaceFrom(s: string, lo: nat, hi: nat): (n: nat)
    requires lo <= hi <= |s|
    ensures lo <= n <= hi
    ensures forall k :: n <= k < hi ==> IsSpace(s[k])
    ensures lo < n ==> !IsSpace(s[n - 1])
    decreases hi
  {
    if hi == lo || !IsSpace(s[hi - 1]) then hi else TrailingSpaceFrom(s, lo, hi - 1)
  }

  /** `String.prototype.trim`: the slice of `s` left after removing white
      space at both ends. */
  function Trim(s: string): (r: string)
    ensures Trimmed(r)
    ensures r == [] <==> AllSpace(s)
  {
    var lo := LeadingSpace(s);
    var hi := TrailingSpaceFrom(s, lo, |s|);
    TrimmedBetween(s, lo, hi);
    NothingBetween(s, lo, hi);
    s[lo..hi]
  }

  /** What `Trim` keeps is a slice of `s` with only white space before and
      after it. */
  lemma TrimIsSlice(s: string)
    ensures var r := Trim(s);
      exists i ::
        && 0 <= i <= |s| - |r| && r == s[i..i + |r|]
        && AllSpace(s[..i]) && AllSpace(s[i + |r|..])
  {
    var lo := LeadingSpace(s);
    var hi := TrailingSpaceFrom(s, lo, |s|);
    SpaceOutside(s, lo, hi);
    var r := Trim(s);
    assert r == s[lo..hi];
    assert lo + |r| == hi;
    assert 0 <= lo <= |s| - |r| && r == s[lo..lo + |r|] && AllSpace(s[..lo]) && AllSpace(s[lo + |r|..]);
  }

  /** The slice `Trim` keeps neither starts nor ends with white space. */
  lemma TrimmedBetween(s: string, lo: nat, hi: nat)
    requires lo == LeadingSpace(s) && hi == TrailingSpaceFrom(s, lo, |s|)
    ensures Trimmed(s[lo..hi])
  {
    if lo < hi {
      assert s[lo..hi][0] == s[lo];
      assert s[lo..hi][hi - lo - 1] == s[hi - 1];
    }
  }

  /** The slice `Trim` keeps is empty exactly when `s` is all white space. */
  lemma NothingBetween(s: string, lo: nat, hi: nat)
    requires lo == LeadingSpace(s) && hi == TrailingSpaceFrom(s, lo, |s|)
    ensures s[lo..hi] == [] <==> AllSpace(s)
  {
    if lo == hi {
      forall k | 0 <= k < |s| ensures IsSpace(s[k]) {
        if k < lo {
        } else {
        }
      }
    } else {
      assert !IsSpace(s[lo]);
    }
  }

  /** Only white space lies before and after the slice `Trim` keeps. */
  lemma SpaceOutside(s: string, lo: nat, hi: nat)
    requires lo == LeadingSpace(s) && hi == TrailingSpaceFrom(s, lo, |s|)
    ensures AllSpace(s[..lo]) && AllSpace(s[hi..])
  {
    forall k | 0 <= k < lo ensures IsSpace(s[..lo][k]) {
      assert s[..lo][k] == s[k];
    }
    forall k | 0 <= k < |s| - hi ensures IsSpace(s[hi..][k]) {
      assert s[hi..][k] == s[hi + k];
    }
  }

  /** Trimming a string without outer white space changes nothing. */
  lemma TrimKeepsTrimmed(s: string)
    requires Trimmed(s)
    ensures Trim(s) == s
  {
  }

  /** Trimming is idempotent. */
  lemma TrimIdempotent(s: string)
    ensures Trim(Trim(s)) == Trim(s)
  {
    TrimKeepsTrimmed(Trim(s));
  }

  /** `pat` occurs in `s` starting at index `k`. */
  predicate OccursAt(s: string, pat: string, k: int) {
    0 <= k && k + |pat| <= |s| && s[k..k + |pat|] == pat
  }

  /** `s.indexOf(pat, from)`, with `None` for -1: the first occurrence of
      `pat` at or after `from`. */
  function IndexOfFrom(s: string, pat: string, from: nat): (r: Option<nat>)
    ensures r.Some? ==> from <= r.value && OccursAt(s, pat, r.value)
    ensures r.Some? ==> forall k :: from <= k < r.value ==> !OccursAt(s, pat, k)
    ensures r.None? ==> forall k :: from <= k ==> !OccursAt(s, pat, k)
    decreases |s| - from
  {
    if from + |pat| > |s| then None
    else if s[from..from + |pat|] == pat then Some(from)
    else IndexOfFrom(s, pat, from + 1)
  }

  /** `s.includes(pat)`. */
  function Contains(s: string, pat: string): (r: bool)
    ensures r <==> exists k :: OccursAt(s, pat, k)
  {
    IndexOfFrom(s, pat, 0).Some?
  }

  /** Index of the first `c` in `s`. */
  function FirstIndex(s: string, c: char): (k: nat)
    requires c in s
    ensures k < |s| && s[k] == c && c !in s[..k]
  {
    if s[0] == c then 0
    else
      var k := FirstIndex(s[1..], c);
      assert s[..k + 1] == [s[0]] + s[1..][..k];
      k + 1
  }

  /** `s.replace(c, d)` with one-character strings: only the first `c` is
      replaced. */
  function ReplaceFirst(s: string, c: char, d: char): (r: string)
    ensures |r| == |s|
    ensures forall i :: 0 <= i < |s| ==> r[i] == if s[i] == c && c !in s[..i] then d else s[i]
  {
    if s == [] then []
    else if s[0] == c then [d] + s[1..]
    else
      var r := [s[0]] + ReplaceFirst(s[1..], c, d);
      assert forall i :: 1 <= i <= |s| ==> s[..i] == [s[0]] + s[1..][..i - 1];
      r
  }

  /** Only the first `c` is replaced, whatever follows it. */
  lemma {:induction false} ReplaceFirstAt(a: string, c: char, d: char, b: string)
    requires c !in a
    ensures ReplaceFirst(a + [c] + b, c, d) == a + [d] + b
  {
    if a != [] {
      assert (a + [c] + b)[1..] == a[1..] + [c] + b;
      ReplaceFirstAt(a[1..], c, d, b);
    }
  }

  /** `s.replace(/c/g, d)`: every `c` becomes `d`, nothing else moves. */
  function ReplaceAll(s: string, c: char, d: char): (r: string)
    ensures |r| == |s|
    ensures forall i :: 0 <= i < |s| ==> r[i] == if s[i] == c then d else s[i]
  {
    if s == [] then [] else [if s[0] == c then d else s[0]] + ReplaceAll(s[1..], c, d)
  }

  function LowerChar(c: char): (r: char)
    ensures !('A' <= r <= 'Z')
  {
    if 'A' <= c <= 'Z' then (c as int + 32) as char else c
  }

  /** `toLowerCase`, restricted to ASCII letters. */
  function ToLower(s: string): (r: string)
    ensures |r| == |s|
    ensures forall i :: 0 <= i < |s| ==> r[i] == LowerChar(s[i])
  {
    if s == [] then [] else [LowerChar(s[0])] + ToLower(s[1..])
  }

  /** `s.replace(/\s+/g, d)`: every maximal run of white space becomes one
      `d`. The result holds no white space and is empty exactly when `s`
      is; `ReplaceSpaceRunsKeeps` and `ReplaceSpaceRunsAt` fix it run by
      run. */
  function ReplaceSpaceRuns(s: string, d: char): (r: string)
    requires !IsSpace(d)
    ensures NoSpace(r)
    ensures r == [] <==> s == []
    ensures |r| <= |s|
    decreases |s|
  {
    if s == [] then []
    else if IsSpace(s[0]) then [d] + ReplaceSpaceRuns(s[LeadingSpace(s)..], d)
    else [s[0]] + ReplaceSpaceRuns(s[1..], d)
  }

  /** A text without white space is left as it is. */
  lemma {:induction false} ReplaceSpaceRunsKeeps(s: string, d: char)
    requires !IsSpace(d) && NoSpace(s)
    ensures ReplaceSpaceRuns(s, d) == s
    decreases |s|
  {
    if s != [] {
      NoSpaceTail(s);
      ReplaceSpaceRunsKeeps(s[1..], d);
      assert s == [s[0]] + s[1..];
    }
  }

  /** A run of white space after a space-free prefix becomes one `d`, and
      the replacement goes on after the run; together with `NoSpace(s) ==>
      r == s` this fixes the result run by run. */
  lemma ReplaceSpaceRunsAt(a: string, w: string, b: string, d: char)
    requires !IsSpace(d)
    requires NoSpace(a) && w != [] && AllSpace(w)
    requires b == [] || !IsSpace(b[0])
    ensures ReplaceSpaceRuns(a + w + b, d) == a + [d] + ReplaceSpaceRuns(b, d)
  {
    var t := w + b;
    assert t[..|w|] == w && t[|w|..] == b;
    assert |w| < |t| ==> t[|w|] == b[0];
    SpaceRunAfter(a, t, |w|, d);
    assert a + w + b == a + t;
  }

  /** The same with the run and the rest as one text `t` whose first `n`
      characters are the run. */
  lemma {:induction false} SpaceRunAfter(a: string, t: string, n: nat, d: char)
    requires !IsSpace(d) && NoSpace(a)
    requires 0 < n <= |t| && AllSpace(t[..n]) && (n == |t| || !IsSpace(t[n]))
    ensures ReplaceSpaceRuns(a + t, d) == a + [d] + ReplaceSpaceRuns(t[n..], d)
    decreases |a|
  {
    if a == [] {
      assert a + t == t;
      ReplaceSpaceRunsOfRun(t[..n], t[n..], d);
      assert t[..n] + t[n..] == t;
    } else {
      NoSpaceTail(a);
      SpaceRunAfter(a[1..], t, n, d);
      KeptInFront(a, t, ReplaceSpaceRuns(t[n..], d), d);
    }
  }

  lemma NoSpaceTail(a: string)
    requires a != [] && NoSpace(a)
    ensures !IsSpace(a[0]) && NoSpace(a[1..])
  {
    forall i | 0 <= i < |a| - 1 ensures !IsSpace(a[1..][i]) {
      assert a[1..][i] == a[i + 1];
    }
  }

  /** One step of the induction: a kept first character of `a` stays in
      front. */
  lemma KeptInFront(a: string, t: string, u: string, d: char)
    requires !IsSpace(d) && a != [] && !IsSpace(a[0])
    requires ReplaceSpaceRuns(a[1..] + t, d) == a[1..] + [d] + u
    ensures ReplaceSpaceRuns(a + t, d) == a + [d] + u
  {
    ReplaceSpaceRunsCons(a[0], a[1..] + t, a[1..] + [d] + u, d);
    assert a + t == [a[0]] + (a[1..] + t);
    assert [a[0]] + (a[1..] + [d] + u) == a + [d] + u;
  }

  /** A leading run of white space becomes one `d`. */
  lemma ReplaceSpaceRunsOfRun(w: string, b: string, d: char)
    requires !IsSpace(d)
    requires w != [] && AllSpace(w)
    requires b == [] || !IsSpace(b[0])
    ensures ReplaceSpaceRuns(w + b, d) == [d] + ReplaceSpaceRuns(b, d)
  {
    LeadingSpaceOfRun(w, b);
    assert (w + b)[0] == w[0];
    assert (w + b)[|w|..] == b;
  }

  /** A character that is not white space is kept in front. */
  lemma ReplaceSpaceRunsCons(c: char, t: string, u: string, d: char)
    requires !IsSpace(d) && !IsSpace(c)
    requires ReplaceSpaceRuns(t, d) == u
    ensures ReplaceSpaceRuns([c] + t, d) == [c] + u
  {
    assert ([c] + t)[0] == c;
    assert ([c] + t)[1..] == t;
  }

  /** The leading white space of `w + b` is exactly the all-space `w` when
      `b` does not start with white space. */
  lemma {:induction false} LeadingSpaceOfRun(w: string, b: string)
    requires AllSpace(w)
    requires b == [] || !IsSpace(b[0])
    ensures LeadingSpace(w + b) == |w|
    decreases |w|
  {
    if w != [] {
      assert (w + b)[0] == w[0];
      assert (w + b)[1..] == w[1..] + b;
      LeadingSpaceOfRun(w[1..], b);
    } else {
      assert w + b == b;
    }
  }

  /** Every character of `ReplaceSpaceRuns(s, d)` is `d` or one of `s`. */
  lemma {:induction false} ReplaceSpaceRunsChars(s: string, d: char)
    requires !IsSpace(d)
    ensures forall c :: c in ReplaceSpaceRuns(s, d) ==> c == d || c in s
    decreases |s|
  {
    if s != [] {
      if IsSpace(s[0]) {
        var n := LeadingSpace(s);
        var t := s[n..];
        ReplaceSpaceRunsChars(t, d);
        assert forall c :: c in t ==> c in s by {
          forall c | c in t ensures c in s {
            var i :| 0 <= i < |t| && t[i] == c;
            assert s[n + i] == c;
          }
        }
      } else {
        ReplaceSpaceRunsChars(s[1..], d);
        assert forall c :: c in s[1..] ==> c in s;
      }
    }
  }

  /** The inverse of `Split`: the parts with `sep` between them. */
  function Join(parts: seq<string>, sep: char): string
    requires |parts| >= 1
  {
    if |parts| == 1 then parts[0] else parts[0] + [sep] + Join(parts[1..], sep)
  }

  /** `s.split(sep)` for a one-character separator: the segments between
      separators, at least one, none holding `sep`, and joining them back
      gives `s`. */
  function Split(s: string, sep: char): (r: seq<string>)
    ensures |r| >= 1
    ensures forall i :: 0 <= i < |r| ==> sep !in r[i]
    ensures Join(r, sep) == s
    decreases |s|
  {
    if sep !in s then [s]
    else
      var k := FirstIndex(s, sep);
      var rest := Split(s[k + 1..], sep);
      var r := [s[..k]] + rest;
      assert r[1..] == rest;
      assert s == s[..k] + [sep] + s[k + 1..];
      r
  }

  /** Splitting undoes joining, for parts that do not hold the separator. */
  lemma {:induction false} SplitJoin(parts: seq<string>, sep: char)
    requires |parts| >= 1
    requires forall i :: 0 <= i < |parts| ==> sep !in parts[i]
    ensures Split(Join(parts, sep), sep) == parts
    decreases |parts|
  {
    if |parts| > 1 {
      var s := Join(parts, sep);
      JoinHead(parts, sep);
      assert forall i :: 0 <= i < |parts| - 1 ==> parts[1..][i] == parts[i + 1];
      SplitJoin(parts[1..], sep);
      assert Split(s, sep) == [parts[0]] + Split(Join(parts[1..], sep), sep);
      assert parts == [parts[0]] + parts[1..];
    }
  }

  /** In a join of several parts the first separator follows the first
      part, and after it comes the join of the others. */
  lemma JoinHead(parts: seq<string>, sep: char)
    requires |parts| > 1 && sep !in parts[0]
    ensures var s := Join(parts, sep);
      && sep in s
      && FirstIndex(s, sep) == |parts[0]|
      && s[..|parts[0]|] == parts[0]
      && s[|parts[0]| + 1..] == Join(parts[1..], sep)
  {
    var s := Join(parts, sep);
    var p0 := parts[0];
    assert s == p0 + [sep] + Join(parts[1..], sep);
    assert s[|p0|] == sep;
    assert s[..|p0|] == p0;
  }

  /** The first segment of a split is the text before the first separator. */
  lemma SplitFirst(a: string, sep: char, b: string)
    requires sep !in a
    ensures Split(a + [sep] + b, sep)[0] == a
  {
    var s := a + [sep] + b;
    var k := FirstIndex(s, sep);
    assert s[|a|] == sep;
    assert s[..k] == a;
  }

  /** The text after the last `sep` (`s.split(sep).pop()`): all of `s` when
      there is no `sep`. */
  function LastSegment(s: string, sep: char): string {
    var parts := Split(s, sep);
    parts[|parts| - 1]
  }

  /** The last segment is free of `sep` and is a suffix of `s`: all of it
      when there is no `sep`, and otherwise what follows the last `sep`. */
  lemma LastSegmentShape(s: string, sep: char)
    ensures var r := LastSegment(s, sep);
      && sep !in r
      && |r| <= |s| && r == s[|s| - |r|..]
      && (sep !in s ==> r == s)
      && (sep in s ==> |r| < |s| && s[|s| - |r| - 1] == sep)
  {
    LastPartIsSuffix(Split(s, sep), sep);
  }

  lemma {:induction false} LastPartIsSuffix(parts: seq<string>, sep: char)
    requires |parts| >= 1
    ensures var j, last := Join(parts, sep), parts[|parts| - 1];
      |last| <= |j| && last == j[|j| - |last|..]
      && (|parts| > 1 ==> |last| < |j| && j[|j| - |last| - 1] == sep)
    decreases |parts|
  {
    if |parts| > 1 {
      LastPartIsSuffix(parts[1..], sep);
      var rest := Join(parts[1..], sep);
      assert Join(parts, sep) == (parts[0] + [sep]) + rest;
    }
  }

  predicate IsDigit(c: char) {
    '0' as int <= c as int <= '9' as int
  }

  function DigitChar(d: nat): (c: char)
    requires d < 10
    ensures IsDigit(c)
  {
    ('0' as int + d) as char
  }

  /** `String(n)` for a natural number: its decimal digits, without leading
      zeros. */
  function NatToString(n: nat): (r: string)
    ensures |r| >= 1
    ensures forall i :: 0 <= i < |r| ==> IsDigit(r[i])
    ensures n < 10 <==> |r| == 1
    ensures n < 100 ==> |r| <= 2
    ensures n > 0 ==> r[0] != '0'
  {
    if n < 10 then [DigitChar(n)]
    else
      var high := NatToString(n / 10);
      assert (high + [DigitChar(n % 10)])[0] == high[0];
      high + [DigitChar(n % 10)]
  }

  /** The number a string of decimal digits denotes. */
  function DigitsValue(s: string): nat
    requires forall i :: 0 <= i < |s| ==> IsDigit(s[i])
  {
    if s == [] then 0
    else
      var last := s[|s| - 1];
      assert IsDigit(last);
      DigitsValue(s[..|s| - 1]) * 10 + (last as int - '0' as int)
  }

  /** Reading the digits of `String(n)` gives back `n`. */
  lemma {:induction false} NatToStringRoundTrip(n: nat)
    ensures DigitsValue(NatToString(n)) == n
  {
    if n >= 10 {
      NatToStringRoundTrip(n / 10);
      var s := NatToString(n);
      assert s[..|s| - 1] == NatToString(n / 10);
    }
  }

  /** `s.padStart(width, c)`: `s` preceded by as many `c` as make it `width`
      long; `s` itself when it is already that long. */
  function PadStart(s: string, width: nat, c: char): (r: string)
    ensures |r| == if |s| >= width then |s| else width
    ensures r[|r| - |s|..] == s
    ensures forall i :: 0 <= i < |r| - |s| ==> r[i] == c
  {
    if |s| >= width then s else seq(width - |s|, _ => c) + s
  }
}
