/** The string operations the generator relies on: substring search (`in`,
    `str.find`), `str.replace`, `str.split`/`str.join`, `str.strip()` and
    zero-padded decimal digits, over strings of Unicode code points as Python
    has them. */
module Text {
  import opened Wrappers

  /** `p` occurs in `s` starting at index `i`. */
  predicate OccursAt(s: string, p: string, i: int) {
    0 <= i && i + |p| <= |s| && s[i..i + |p|] == p
  }

  /** The first index at or after `from` where `p` occurs in `s`. */
  function IndexOf(s: string, p: string, from: nat): (r: Option<nat>)
    ensures r.Some? ==> from <= r.value && OccursAt(s, p, r.value)
    ensures forall j :: from <= j && (r.None? || j < r.value) ==> !OccursAt(s, p, j)
    decreases |s| - from
  {
    if from + |p| > |s| then None
    else if s[from..from + |p|] == p then Some(from)
    else IndexOf(s, p, from + 1)
  }

  /** Python's `p in s` on strings. */
  function Contains(s: string, p: string): (b: bool)
    ensures b <==> exists i :: OccursAt(s, p, i)
  {
    var r := IndexOf(s, p, 0);
    assert r.Some? ==> OccursAt(s, p, r.value);
    r.Some?
  }

  /** An occurrence inside a slice of `s` is an occurrence in `s`, shifted
      by where the slice starts and ending inside the slice. */
  lemma OccursInSlice(s: string, a: nat, b: nat, p: string, k: int)
    requires a <= b <= |s|
    ensures OccursAt(s[a..b], p, k) ==> OccursAt(s, p, a + k) && a + k + |p| <= b
  {
    if OccursAt(s[a..b], p, k) {
      forall t | 0 <= t < |p| ensures s[a + k..a + k + |p|][t] == p[t] {
        assert s[a..b][k..k + |p|][t] == p[t];
      }
      assert s[a + k..a + k + |p|] == p;
    }
  }

  /** An occurrence starts with the first character of the pattern. */
  lemma OccursAtFirst(s: string, p: string, i: int)
    requires p != []
    ensures OccursAt(s, p, i) ==> s[i] == p[0]
  {
    if OccursAt(s, p, i) {
      assert s[i..i + |p|][0] == s[i];
    }
  }

  /** A text without the first character of `p` does not contain `p`. */
  lemma AbsentFirst(s: string, p: string)
    requires p != [] && forall i :: 0 <= i < |s| ==> s[i] != p[0]
    ensures !Contains(s, p)
  {
    forall i ensures !OccursAt(s, p, i) {
      OccursAtFirst(s, p, i);
    }
  }

  /** Python's `s.replace(p, v)`: every non-overlapping occurrence of `p`,
      taken from left to right, is replaced by `v`. */
  function ReplaceAll(s: string, p: string, v: string): (r: string)
    requires p != []
    ensures v == p ==> r == s
    ensures |v| == |p| ==> |r| == |s|
    decreases |s|
  {
    if |s| < |p| then s
    else if s[..|p|] == p then v + ReplaceAll(s[|p|..], p, v)
    else [s[0]] + ReplaceAll(s[1..], p, v)
  }

  /** The text from `a` up to the first occurrence of `p` at or after `a`
      does not contain `p`. */
  lemma BeforeFirstOccurrence(s: string, p: string, a: nat, j: nat)
    requires p != [] && IndexOf(s, p, a) == Some(j)
    ensures a <= j <= |s| && !Contains(s[a..j], p)
  {
    forall k ensures !OccursAt(s[a..j], p, k) {
      OccursInSlice(s, a, j, p, k);
    }
  }

  /** Python's `s.split(p)`: the pieces between the non-overlapping
      occurrences of `p`; no piece contains `p`. */
  function SplitOn(s: string, p: string): (parts: seq<string>)
    requires p != []
    ensures |parts| >= 1
    ensures forall k :: 0 <= k < |parts| ==> !Contains(parts[k], p)
    decreases |s|
  {
    match IndexOf(s, p, 0)
    case None => [s]
    case Some(i) =>
      BeforeFirstOccurrence(s, p, 0, i);
      assert s[0..i] == s[..i];
      [s[..i]] + SplitOn(s[i + |p|..], p)
  }

  /** Python's `sep.join(parts)`. */
  function Join(parts: seq<string>, sep: string): (r: string)
    ensures parts != [] ==> |parts[0]| <= |r| && r[..|parts[0]|] == parts[0]
  {
    if parts == [] then []
    else if |parts| == 1 then parts[0]
    else parts[0] + sep + Join(parts[1..], sep)
  }

  /** A slice of a suffix is a slice of the whole. */
  lemma SliceOfSuffix(s: string, a: nat, j: nat, n: nat)
    requires a + j + n <= |s|
    ensures s[a..][j..j + n] == s[a + j..a + j + n]
  {
  }

  /** Replacing runs over the text up to the first occurrence unchanged. */
  lemma {:induction false} ReplaceAllSkips(s: string, p: string, v: string, i: nat)
    requires p != [] && i <= |s|
    requires forall j :: 0 <= j < i ==> !OccursAt(s, p, j)
    ensures ReplaceAll(s, p, v) == s[..i] + ReplaceAll(s[i..], p, v)
    decreases i
  {
    if i == 0 {
      assert s[i..] == s;
    } else if |s| < |p| {
      assert |s[i..]| < |p|;
    } else {
      assert !OccursAt(s, p, 0);
      var t := s[1..];
      forall j | 0 <= j < i - 1 ensures !OccursAt(t, p, j) {
        assert !OccursAt(s, p, j + 1);
        if j + |p| <= |t| {
          SliceOfSuffix(s, 1, j, |p|);
        }
      }
      ReplaceAllSkips(t, p, v, i - 1);
      assert t[i - 1..] == s[i..];
      assert [s[0]] + t[..i - 1] == s[..i];
    }
  }

  /** `str.replace` is `split` followed by `join` with the replacement. */
  lemma {:induction false} ReplaceAllIsJoinOfSplit(s: string, p: string, v: string)
    requires p != []
    ensures ReplaceAll(s, p, v) == Join(SplitOn(s, p), v)
    decreases |s|
  {
    match IndexOf(s, p, 0)
    case None =>
      ReplaceAllSkips(s, p, v, |s|);
      assert s[..|s|] == s;
    case Some(i) =>
      var rest := s[i + |p|..];
      ReplaceAllAt(s, p, v, i);
      SplitOnAt(s, p, i);
      ReplaceAllIsJoinOfSplit(rest, p, v);
      JoinCons(s[..i], SplitOn(rest, p), v);
  }

  /** Replacing up to and over the first occurrence, at `i`. */
  lemma ReplaceAllAt(s: string, p: string, v: string, i: nat)
    requires p != [] && IndexOf(s, p, 0) == Some(i)
    ensures ReplaceAll(s, p, v) == s[..i] + v + ReplaceAll(s[i + |p|..], p, v)
  {
    ReplaceAllSkips(s, p, v, i);
    ReplaceAllOver(s, p, v, i);
    AppendAssoc(s[..i], v, ReplaceAll(s[i + |p|..], p, v));
  }

  /** `split` at the first occurrence, at `i`. The statement is one
      unfolding, so no induction hypothesis is wanted (it only makes the
      proof search costly). */
  lemma {:induction false} SplitOnAt(s: string, p: string, i: nat)
    requires p != [] && IndexOf(s, p, 0) == Some(i)
    ensures SplitOn(s, p) == [s[..i]] + SplitOn(s[i + |p|..], p)
  {
  }

  /** `replace` on the text from an occurrence of `p` on. */
  lemma ReplaceAllOver(s: string, p: string, v: string, i: nat)
    requires p != [] && OccursAt(s, p, i)
    ensures ReplaceAll(s[i..], p, v) == v + ReplaceAll(s[i + |p|..], p, v)
  {
    var t := s[i..];
    assert t[..|p|] == p;
    assert t[|p|..] == s[i + |p|..];
  }

  lemma AppendAssoc(a: string, b: string, c: string)
    ensures a + (b + c) == a + b + c
  {
  }

  lemma JoinCons(x: string, ys: seq<string>, sep: string)
    requires ys != []
    ensures Join([x] + ys, sep) == x + sep + Join(ys, sep)
  {
    assert ([x] + ys)[1..] == ys;
  }

  /** Splitting and joining again with the same separator gives back the text. */
  lemma {:induction false} JoinSplitRoundTrip(s: string, p: string)
    requires p != []
    ensures Join(SplitOn(s, p), p) == s
    decreases |s|
  {
    match IndexOf(s, p, 0)
    case None =>
      assert SplitOn(s, p) == [s];
    case Some(i) =>
      var rest := s[i + |p|..];
      JoinSplitRoundTrip(rest, p);
      SplitOnAt(s, p, i);
      JoinCons(s[..i], SplitOn(rest, p), p);
      AroundOccurrence(s, p, i);
  }

  /** A text is the part before an occurrence, the occurrence, and the rest. */
  lemma AroundOccurrence(s: string, p: string, i: nat)
    requires OccursAt(s, p, i)
    ensures s == s[..i] + p + s[i + |p|..]
  {
    assert s == s[..i] + s[i..i + |p|] + s[i + |p|..];
  }

  /** Joining pieces with a one-character separator none of them contains
      and splitting again gives back the pieces. */
  lemma {:induction false} SplitJoinRoundTrip(parts: seq<string>, sep: string)
    requires |sep| == 1 && parts != []
    requires forall k :: 0 <= k < |parts| ==> !Contains(parts[k], sep)
    ensures SplitOn(Join(parts, sep), sep) == parts
    decreases |parts|
  {
    if |parts| == 1 {
      assert Join(parts, sep) == parts[0];
    } else {
      var head, tail := parts[0], Join(parts[1..], sep);
      var s := head + sep + tail;
      assert Join(parts, sep) == s;
      assert OccursAt(s, sep, |head|) by {
        assert s[|head|..|head| + 1] == sep;
      }
      forall j | 0 <= j < |head| ensures !OccursAt(s, sep, j) {
        assert !OccursAt(head, sep, j);
        assert s[j..j + 1] == head[j..j + 1];
      }
      assert IndexOf(s, sep, 0) == Some(|head|);
      assert s[..|head|] == head;
      assert s[|head| + 1..] == tail;
      SplitJoinRoundTrip(parts[1..], sep);
    }
  }

  /** A text that does not contain `p` is left as it is by `replace`. */
  lemma ReplaceAllAbsent(s: string, p: string, v: string)
    requires p != [] && !Contains(s, p)
    ensures ReplaceAll(s, p, v) == s
  {
    ReplaceAllIsJoinOfSplit(s, p, v);
  }

  /** Python's `str.isspace()` for one code point. */
  predicate IsSpace(c: char) {
    || '\t' <= c <= '\r'
    || '\U{1C}' <= c <= ' '
    || c == '\U{85}' || c == '\U{A0}' || c == '\U{1680}'
    || '\U{2000}' <= c <= '\U{200A}'
    || c == '\U{2028}' || c == '\U{2029}' || c == '\U{202F}' || c == '\U{205F}' || c == '\U{3000}'
  }

  /** The number of whitespace code points at the start of `s`. */
  function LeadingSpaces(s: string): (n: nat)
    ensures n <= |s|
    ensures forall k :: 0 <= k < n ==> IsSpace(s[k])
    ensures n < |s| ==> !IsSpace(s[n])
  {
    if s == [] || !IsSpace(s[0]) then 0 else 1 + LeadingSpaces(s[1..])
  }

  /** The number of whitespace code points at the end of `s`. */
  function TrailingSpaces(s: string): (n: nat)
    ensures n <= |s|
    ensures forall k :: |s| - n <= k < |s| ==> IsSpace(s[k])
    ensures n < |s| ==> !IsSpace(s[|s| - n - 1])
  {
    if s == [] || !IsSpace(s[|s| - 1]) then 0 else 1 + TrailingSpaces(s[..|s| - 1])
  }

  /** Python's `s.strip()`: the part of `s` left after removing whitespace at
      both ends. It is a contiguous slice of `s`, everything around it is
      whitespace, and it neither starts nor ends with whitespace. */
  function Strip(s: string): (r: string)
    ensures |r| <= |s|
    ensures r == [] || (!IsSpace(r[0]) && !IsSpace(r[|r| - 1]))
    ensures exists i :: StrippedAt(s, r, i)
  {
    var a := LeadingSpaces(s);
    var t := s[a..];
    var b := TrailingSpaces(t);
    var r := t[..|t| - b];
    assert s[a..a + |r|] == r;
    assert forall k :: a + |r| <= k < |s| ==> s[k] == t[k - a];
    assert StrippedAt(s, r, a);
    r
  }

  /** `r` sits in `s` at index `i` with only whitespace before and after it. */
  ghost predicate StrippedAt(s: string, r: string, i: int) {
    && 0 <= i <= |s| - |r| && s[i..i + |r|] == r
    && (forall k :: 0 <= k < i ==> IsSpace(s[k]))
    && (forall k :: i + |r| <= k < |s| ==> IsSpace(s[k]))
  }

  /** Stripping is idempotent. */
  lemma StripIdempotent(s: string)
    ensures Strip(Strip(s)) == Strip(s)
  {
    var r := Strip(s);
    assert LeadingSpaces(r) == 0;
    assert r[0..] == r;
    assert TrailingSpaces(r) == 0;
    assert r[..|r|] == r;
  }

  function Pow10(w: nat): (r: nat)
    ensures r >= 1
  {
    if w == 0 then 1 else 10 * Pow10(w - 1)
  }

  predicate IsDigit(c: char) {
    '0' <= c <= '9'
  }

  /** `n` written in decimal with exactly `w` digits, zero-padded on the left
      (what `%0wd` and `strftime`'s `%m`, `%d`, `%Y` produce). */
  function PadDecimal(n: nat, w: nat): (r: string)
    requires n < Pow10(w)
    ensures |r| == w
    ensures forall k :: 0 <= k < w ==> IsDigit(r[k])
  {
    if w == 0 then [] else PadDecimal(n / 10, w - 1) + [('0' as int + n % 10) as char]
  }

  /** The number a string of decimal digits denotes. */
  function DecimalValue(s: string): nat
    requires forall k :: 0 <= k < |s| ==> IsDigit(s[k])
  {
    if s == [] then 0
    else
      var last := s[|s| - 1];
      assert IsDigit(last);
      10 * DecimalValue(s[..|s| - 1]) + (last as int - '0' as int)
  }

  /** Reading back a zero-padded decimal gives the number. */
  lemma {:induction false} DecimalRoundTrip(n: nat, w: nat)
    requires n < Pow10(w)
    ensures DecimalValue(PadDecimal(n, w)) == n
  {
    if w > 0 {
      var r := PadDecimal(n, w);
      DecimalRoundTrip(n / 10, w - 1);
      assert r[..|r| - 1] == PadDecimal(n / 10, w - 1);
    }
  }
}
