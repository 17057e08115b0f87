/** The text processing of `parse_obsidian_journal`: the `## Structured`
    section, the `[work]`/`[insight]`/`[ai]` items found in it, the length of
    the `## Raw Input` text, and the mood. The three regular expressions are
    reproduced by hand-built scanners with Python's semantics: `.` stops at a
    newline, `+?` is lazy, and `$` (without MULTILINE) matches only at the end
    of the text or before a final newline. */
module Journal {
  import opened Wrappers
  import opened Text
  import opened Records

  const StructuredHeading: string := "## Structured"
  const RawInputHeading: string := "## Raw Input"
  const WorkTag: string := "[work] "
  const InsightTag: string := "[insight] "
  const AiTag: string := "[ai] "

  /** `re.search(r'## Structured(.*)', content, re.DOTALL)`, group 1:
      everything after the first `## Structured`. */
  function StructuredSection(content: string): (r: Option<string>)
    ensures r.None? <==> !Contains(content, StructuredHeading)
    ensures r.Some? ==>
      && |r.value| + |StructuredHeading| <= |content|
      && var i := |content| - |r.value| - |StructuredHeading|;
      && OccursAt(content, StructuredHeading, i)
      && r.value == content[i + |StructuredHeading|..]
      && forall j :: 0 <= j < i ==> !OccursAt(content, StructuredHeading, j)
  {
    match IndexOf(content, StructuredHeading, 0)
    case None => None
    case Some(i) => Some(content[i + |StructuredHeading|..])
  }

  // ---- `re.findall(r'\[tag\] (.+?)(?: #|$)', structured)` ----

  /** What the item may be followed by, `(?: #|$)` at index `j`: ` #`, the end
      of the text, or a newline that is the last character. */
  predicate ItemEndsAt(s: string, j: int) {
    && 0 <= j <= |s|
    && ((j + 2 <= |s| && s[j] == ' ' && s[j + 1] == '#') || j == |s| || (j == |s| - 1 && s[j] == '\n'))
  }

  /** `(.+?)(?: #|$)` can match with the group `s[g..g + k]`: at least one
      character, no newline, and a permitted ending right after it. */
  predicate AcceptsItem(s: string, g: int, k: int) {
    && 0 <= g && 1 <= k && g + k <= |s|
    && (forall t :: g <= t < g + k ==> s[t] != '\n')
    && ItemEndsAt(s, g + k)
  }

  /** The lazy `+?`: tries group lengths `k`, `k + 1`, ... and stops at the
      first one that can be followed by the ending; gives up at a newline or
      at the end of the text. The result is the least accepted length. */
  function LazyItemLength(s: string, g: nat, k: nat): (r: Option<nat>)
    requires 1 <= k && g + k <= |s| + 1
    requires forall t :: g <= t < g + k - 1 ==> s[t] != '\n'
    ensures r.Some? ==> k <= r.value && AcceptsItem(s, g, r.value)
    ensures forall k' :: k <= k' && (r.None? || k' < r.value) ==> !AcceptsItem(s, g, k')
    decreases |s| - g - k
  {
    if g + k > |s| || s[g + k - 1] == '\n' then None
    else if ItemEndsAt(s, g + k) then Some(k)
    else LazyItemLength(s, g, k + 1)
  }

  /** Some group starting at `g` is accepted. */
  ghost predicate ItemPossible(s: string, g: int) {
    exists k :: AcceptsItem(s, g, k)
  }

  datatype ItemMatch = ItemMatch(item: string, end: nat)

  /** One attempt of the pattern at index `i`: the tag, then the shortest
      accepted item. `end` is where the match stops (after ` #` when that is
      what followed the item). */
  function MatchAt(s: string, tag: string, i: nat): (r: Option<ItemMatch>)
    ensures r.Some? ==> i < r.value.end <= |s|
  {
    if OccursAt(s, tag, i) then
      var g := i + |tag|;
      match LazyItemLength(s, g, 1)
      case None => None
      case Some(k) =>
        var end := if g + k < |s| && s[g + k] == ' ' then g + k + 2 else g + k;
        Some(ItemMatch(s[g..g + k], end))
    else None
  }

  /** An attempt at `i` succeeds exactly when the tag is there and some group
      after it is accepted; the group it captures is then the shortest
      accepted one, and the match ends after the ` #` if that followed. */
  lemma MatchAtIsLazyMatch(s: string, tag: string, i: nat)
    ensures MatchAt(s, tag, i).Some? <==> OccursAt(s, tag, i) && ItemPossible(s, i + |tag|)
    ensures MatchAt(s, tag, i).Some? ==>
      && var m, g := MatchAt(s, tag, i).value, i + |tag|;
      && AcceptsItem(s, g, |m.item|)
      && m.item == s[g..g + |m.item|]
      && (forall k' :: 1 <= k' < |m.item| ==> !AcceptsItem(s, g, k'))
      && m.end == (if g + |m.item| < |s| && s[g + |m.item|] == ' ' then g + |m.item| + 2 else g + |m.item|)
  {
    if OccursAt(s, tag, i) && ItemPossible(s, i + |tag|) {
      var k :| AcceptsItem(s, i + |tag|, k);
      assert LazyItemLength(s, i + |tag|, 1).Some?;
    }
  }

  // The scanning strategy of `re.findall`, independent of the pattern: an
  // `attempt` gives the match the pattern makes when tried at an index, and
  // `n` is the length of the text.

  /** Every successful attempt ends after its start and within the text. */
  ghost predicate Advances(attempt: nat -> Option<ItemMatch>, n: nat) {
    forall p: nat :: p < n && attempt(p).Some? ==> p < attempt(p).value.end <= n
  }

  /** No attempt succeeds at any index in `[lo, hi)`. */
  ghost predicate NoMatchBetween(attempt: nat -> Option<ItemMatch>, n: nat, lo: int, hi: int) {
    forall p: nat :: lo <= p < hi ==> attempt(p).None?
  }

  datatype Found = Found(start: nat, item: string, end: nat)

  /** Each of `ms` is a match at its start, at or after `from`. */
  ghost predicate AllMatch(attempt: nat -> Option<ItemMatch>, n: nat, from: int, ms: seq<Found>) {
    forall k :: 0 <= k < |ms| ==>
      && from <= ms[k].start < ms[k].end <= n
      && attempt(ms[k].start) == Some(ItemMatch(ms[k].item, ms[k].end))
  }

  /** `ms` is in text order and no match starts between two neighbours. */
  ghost predicate NoneBetween(attempt: nat -> Option<ItemMatch>, n: nat, ms: seq<Found>) {
    && (forall i, j :: 0 <= i < j < |ms| ==> ms[i].end <= ms[j].start)
    && (forall i, j :: 0 <= i && j == i + 1 && j < |ms| ==> NoMatchBetween(attempt, n, ms[i].end, ms[j].start))
  }

  /** No match starts before the first of `ms` or after the last. */
  ghost predicate NoneOutside(attempt: nat -> Option<ItemMatch>, n: nat, from: int, ms: seq<Found>) {
    && (ms == [] ==> NoMatchBetween(attempt, n, from, n))
    && (ms != [] ==> NoMatchBetween(attempt, n, from, ms[0].start) && NoMatchBetween(attempt, n, ms[|ms| - 1].end, n))
  }

  /** `ms` is exactly the leftmost non-overlapping matches in the text from index
      `from` on: each is a match at its start, they are in text order, and no
      match starts in the gaps before, between or after them. */
  ghost predicate LeftmostMatches(attempt: nat -> Option<ItemMatch>, n: nat, from: int, ms: seq<Found>) {
    AllMatch(attempt, n, from, ms) && NoneBetween(attempt, n, ms) && NoneOutside(attempt, n, from, ms)
  }

  /** A failed attempt at `from` extends the leftmost matches from `from + 1`. */
  lemma LeftmostSkip(attempt: nat -> Option<ItemMatch>, n: nat, from: nat, ms: seq<Found>)
    requires attempt(from).None? && LeftmostMatches(attempt, n, from + 1, ms)
    ensures LeftmostMatches(attempt, n, from, ms)
  {
    var hi := if ms == [] then n else ms[0].start;
    assert NoMatchBetween(attempt, n, from, hi) by {
      assert NoMatchBetween(attempt, n, from + 1, hi);
    }
  }

  /** A match at `from` followed by the leftmost matches from its end. */
  lemma LeftmostCons(attempt: nat -> Option<ItemMatch>, n: nat, from: nat, m: ItemMatch, rest: seq<Found>)
    requires from < n && Advances(attempt, n)
    requires attempt(from) == Some(m) && LeftmostMatches(attempt, n, m.end, rest)
    ensures LeftmostMatches(attempt, n, from, [Found(from, m.item, m.end)] + rest)
  {
    var ms := [Found(from, m.item, m.end)] + rest;
    ConsAllMatch(attempt, n, from, m, rest);
    ConsNoneBetween(attempt, n, from, m, rest);
    assert ms[|ms| - 1].end == if rest == [] then m.end else rest[|rest| - 1].end;
    assert NoMatchBetween(attempt, n, from, from);
  }

  lemma ConsAllMatch(attempt: nat -> Option<ItemMatch>, n: nat, from: nat, m: ItemMatch, rest: seq<Found>)
    requires from < n && Advances(attempt, n)
    requires attempt(from) == Some(m) && AllMatch(attempt, n, m.end, rest)
    ensures AllMatch(attempt, n, from, [Found(from, m.item, m.end)] + rest)
  {
    var ms := [Found(from, m.item, m.end)] + rest;
    forall k | 0 <= k < |ms|
      ensures from <= ms[k].start < ms[k].end <= n
      ensures attempt(ms[k].start) == Some(ItemMatch(ms[k].item, ms[k].end))
    {
      if k > 0 {
        assert ms[k] == rest[k - 1];
      }
    }
  }

  lemma ConsNoneBetween(attempt: nat -> Option<ItemMatch>, n: nat, from: nat, m: ItemMatch, rest: seq<Found>)
    requires NoneBetween(attempt, n, rest) && NoneOutside(attempt, n, m.end, rest)
    requires forall k :: 0 <= k < |rest| ==> m.end <= rest[k].start
    ensures NoneBetween(attempt, n, [Found(from, m.item, m.end)] + rest)
  {
    var ms := [Found(from, m.item, m.end)] + rest;
    forall i, j | 0 <= i < j < |ms| ensures ms[i].end <= ms[j].start {
      assert ms[j] == rest[j - 1];
      if i > 0 {
        assert ms[i] == rest[i - 1];
      }
    }
    forall i, j | 0 <= i && j == i + 1 && j < |ms|
      ensures NoMatchBetween(attempt, n, ms[i].end, ms[j].start)
    {
      assert ms[j] == rest[j - 1];
      if i > 0 {
        assert ms[i] == rest[i - 1];
      }
    }
  }

  /** `re.findall` from index `from`: each attempt starts where the previous
      match ended, or one index further after a failed attempt. */
  function FindAllMatches(attempt: nat -> Option<ItemMatch>, n: nat, from: nat): (ms: seq<Found>)
    requires from <= n && Advances(attempt, n)
    ensures LeftmostMatches(attempt, n, from, ms)
    decreases n - from
  {
    if from == n then []
    else
      match attempt(from)
      case Some(m) =>
        var rest := FindAllMatches(attempt, n, m.end);
        LeftmostCons(attempt, n, from, m, rest);
        [Found(from, m.item, m.end)] + rest
      case None =>
        var rest := FindAllMatches(attempt, n, from + 1);
        LeftmostSkip(attempt, n, from, rest);
        rest
  }

  /** The leftmost matches are unique: any sequence with the leftmost-match
      property is what the scanner returns. */
  lemma LeftmostIsFindAll(attempt: nat -> Option<ItemMatch>, n: nat, from: nat, ms: seq<Found>)
    requires from <= n && Advances(attempt, n) && LeftmostMatches(attempt, n, from, ms)
    ensures ms == FindAllMatches(attempt, n, from)
  {
    LeftmostUnique(attempt, n, from, ms, FindAllMatches(attempt, n, from));
  }

  /** Two sequences with the leftmost-match property from the same index
      are equal. */
  lemma {:induction false} LeftmostUnique(attempt: nat -> Option<ItemMatch>, n: nat, from: nat, ms1: seq<Found>, ms2: seq<Found>)
    requires from <= n && Advances(attempt, n)
    requires LeftmostMatches(attempt, n, from, ms1) && LeftmostMatches(attempt, n, from, ms2)
    ensures ms1 == ms2
    decreases n - from
  {
    if from == n {
      MatchesNeedRoom(attempt, n, from, ms1);
      MatchesNeedRoom(attempt, n, from, ms2);
    } else if attempt(from).Some? {
      LeftmostSplit(attempt, n, from, ms1);
      LeftmostSplit(attempt, n, from, ms2);
      LeftmostUnique(attempt, n, attempt(from).value.end, ms1[1..], ms2[1..]);
    } else {
      LeftmostSkipBack(attempt, n, from, ms1);
      LeftmostSkipBack(attempt, n, from, ms2);
      LeftmostUnique(attempt, n, from + 1, ms1, ms2);
    }
  }

  lemma MatchesNeedRoom(attempt: nat -> Option<ItemMatch>, n: nat, from: nat, ms: seq<Found>)
    requires AllMatch(attempt, n, from, ms)
    ensures ms != [] ==> from < n
  {
    if ms != [] {
      assert from <= ms[0].start < ms[0].end <= n;
    }
  }

  /** When the attempt at `from` succeeds, it is the first leftmost match. */
  lemma LeftmostHead(attempt: nat -> Option<ItemMatch>, n: nat, from: nat, ms: seq<Found>)
    requires from < n && LeftmostMatches(attempt, n, from, ms) && attempt(from).Some?
    ensures ms != [] && ms[0] == Found(from, attempt(from).value.item, attempt(from).value.end)
  {
    assert ms == [] ==> attempt(from).None?;
    assert ms[0].start > from ==> attempt(from).None?;
  }

  /** When the attempt at `from` fails, the leftmost matches start later. */
  lemma LeftmostSkipBack(attempt: nat -> Option<ItemMatch>, n: nat, from: nat, ms: seq<Found>)
    requires LeftmostMatches(attempt, n, from, ms) && attempt(from).None?
    ensures LeftmostMatches(attempt, n, from + 1, ms)
  {
    forall k | 0 <= k < |ms| ensures from + 1 <= ms[k].start {
      assert attempt(ms[k].start).Some?;
    }
    assert ms == [] ==> NoMatchBetween(attempt, n, from + 1, n);
    assert ms != [] ==> NoMatchBetween(attempt, n, from + 1, ms[0].start);
  }

  /** Leftmost matches from a position where an attempt succeeds are that
      match followed by the leftmost matches from its end. */
  lemma LeftmostSplit(attempt: nat -> Option<ItemMatch>, n: nat, from: nat, ms: seq<Found>)
    requires from < n && Advances(attempt, n) && LeftmostMatches(attempt, n, from, ms) && attempt(from).Some?
    ensures from < attempt(from).value.end <= n
    ensures ms == [Found(from, attempt(from).value.item, attempt(from).value.end)] + ms[1..]
    ensures LeftmostMatches(attempt, n, attempt(from).value.end, ms[1..])
  {
    LeftmostHead(attempt, n, from, ms);
    LeftmostTail(attempt, n, from, ms);
  }

  lemma LeftmostTail(attempt: nat -> Option<ItemMatch>, n: nat, from: nat, ms: seq<Found>)
    requires LeftmostMatches(attempt, n, from, ms) && ms != []
    ensures LeftmostMatches(attempt, n, ms[0].end, ms[1..])
  {
    var tail := ms[1..];
    forall k | 0 <= k < |tail|
      ensures ms[0].end <= tail[k].start < tail[k].end <= n
      ensures attempt(tail[k].start) == Some(ItemMatch(tail[k].item, tail[k].end))
    {
      assert tail[k] == ms[k + 1];
    }
    forall i, j | 0 <= i < j < |tail| ensures tail[i].end <= tail[j].start {
      assert tail[i] == ms[i + 1] && tail[j] == ms[j + 1];
    }
    forall i, j | 0 <= i && j == i + 1 && j < |tail|
      ensures NoMatchBetween(attempt, n, tail[i].end, tail[j].start)
    {
      assert tail[i] == ms[i + 1] && tail[j] == ms[j + 1];
    }
    assert tail != [] ==> tail[|tail| - 1] == ms[|ms| - 1];
  }

  /** The pattern tried at every index of `s`. */
  function Attempts(s: string, tag: string): (attempt: nat -> Option<ItemMatch>)
    ensures Advances(attempt, |s|)
  {
    (p: nat) => MatchAt(s, tag, p)
  }

  /** Every match of the tag pattern has a well-formed group: non-empty, on
      one line, and right after an occurrence of the tag. */
  lemma FoundItemsWellFormed(s: string, tag: string, ms: seq<Found>)
    requires AllMatch(Attempts(s, tag), |s|, 0, ms)
    ensures forall k :: 0 <= k < |ms| ==>
      OccursAt(s, tag, ms[k].start) && AcceptsItem(s, ms[k].start + |tag|, |ms[k].item|)
    ensures forall k :: 0 <= k < |ms| ==>
      ms[k].item != [] && forall t :: 0 <= t < |ms[k].item| ==> ms[k].item[t] != '\n'
  {
    forall k | 0 <= k < |ms|
      ensures OccursAt(s, tag, ms[k].start) && AcceptsItem(s, ms[k].start + |tag|, |ms[k].item|)
      ensures ms[k].item != [] && forall t :: 0 <= t < |ms[k].item| ==> ms[k].item[t] != '\n'
    {
      var i, g := ms[k].start, ms[k].start + |tag|;
      assert MatchAt(s, tag, i) == Some(ItemMatch(ms[k].item, ms[k].end));
      MatchAtIsLazyMatch(s, tag, i);
      forall t | 0 <= t < |ms[k].item| ensures ms[k].item[t] != '\n' {
        assert ms[k].item[t] == s[g + t];
      }
    }
  }

  /** The list `re.findall` returns: the group of every match, in order.
      Each item is non-empty and has no newline; a text without the tag
      yields nothing. */
  function FindAll(s: string, tag: string): (items: seq<string>)
    ensures forall k :: 0 <= k < |items| ==>
      items[k] != [] && forall t :: 0 <= t < |items[k]| ==> items[k][t] != '\n'
    ensures !Contains(s, tag) ==> items == []
  {
    var ms := FindAllMatches(Attempts(s, tag), |s|, 0);
    FoundItemsWellFormed(s, tag, ms);
    assert ms != [] ==> OccursAt(s, tag, ms[0].start);
    seq(|ms|, k requires 0 <= k < |ms| => ms[k].item)
  }

  /** A tagged line that has no ` #` and is not the last line yields nothing
      at that tag. */
  lemma UnterminatedLineYieldsNothing(s: string, tag: string, i: nat, n: nat)
    requires OccursAt(s, tag, i)
    requires i + |tag| <= n < |s| - 1 && s[n] == '\n'
    requires forall t :: i + |tag| <= t < n ==> s[t] != '\n'
    requires forall t :: i + |tag| < t < n ==> !(s[t] == ' ' && s[t + 1] == '#')
    ensures MatchAt(s, tag, i) == None
  {
    MatchAtIsLazyMatch(s, tag, i);
    var g := i + |tag|;
    forall k | 1 <= k ensures !AcceptsItem(s, g, k) {
      if g + k > n {
        assert g <= n < g + k && s[n] == '\n';
      } else if g + k < n {
        assert !(s[g + k] == ' ' && s[g + k + 1] == '#');
      }
    }
  }

  /** A tagged item followed by ` #` is captured whole, and the match ends
      after the ` #`, when the item is non-empty, has no newline and holds no
      ` #` of its own. */
  lemma DelimitedItem(s: string, tag: string, i: nat, item: string)
    requires OccursAt(s, tag, i)
    requires item != [] && (forall t :: 0 <= t < |item| ==> item[t] != '\n')
    requires forall t :: 0 <= t < |item| - 1 ==> !(item[t] == ' ' && item[t + 1] == '#')
    requires i + |tag| + |item| + 2 <= |s| && s[i + |tag|..i + |tag| + |item|] == item
    requires s[i + |tag| + |item|] == ' ' && s[i + |tag| + |item| + 1] == '#'
    ensures MatchAt(s, tag, i) == Some(ItemMatch(item, i + |tag| + |item| + 2))
  {
    var g := i + |tag|;
    forall t | 0 <= t < |item| ensures s[g + t] == item[t] {
      assert s[g..g + |item|][t] == s[g + t];
    }
    assert AcceptsItem(s, g, |item|);
    forall k' | 1 <= k' < |item| ensures !AcceptsItem(s, g, k') {
      assert !(s[g + k'] == ' ' && s[g + k' + 1] == '#');
    }
    MatchAtIsLazyMatch(s, tag, i);
    var m := MatchAt(s, tag, i).value;
    assert |m.item| == |item|;
  }

  /** An occurrence of a tag starts with the tag's first two characters. */
  lemma OccursAtHead(s: string, tag: string, i: int)
    requires |tag| >= 2
    ensures OccursAt(s, tag, i) ==> s[i] == tag[0] && s[i + 1] == tag[1]
  {
    if OccursAt(s, tag, i) {
      assert s[i..i + |tag|][0] == s[i] && s[i..i + |tag|][1] == s[i + 1];
    }
  }

  /** `re.findall` returns the groups of the leftmost matches, whatever way
      they are described. */
  lemma FindAllIsLeftmost(s: string, tag: string, ms: seq<Found>)
    requires LeftmostMatches(Attempts(s, tag), |s|, 0, ms)
    ensures FindAll(s, tag) == seq(|ms|, k requires 0 <= k < |ms| => ms[k].item)
  {
    LeftmostIsFindAll(Attempts(s, tag), |s|, 0, ms);
  }

  // ---- `re.search(r'## Raw Input(.*?)## Structured', content, re.DOTALL)` ----

  /** The search tried at each start index from `pos` on: at an index where
      `## Raw Input` occurs, the lazy `.*?` stops at the first
      `## Structured` after the heading; if there is none, the search moves
      on to the next index. */
  function RawInputFrom(content: string, pos: nat): (r: Option<string>)
    ensures r.Some? ==> !Contains(r.value, StructuredHeading)
    decreases |content| - pos
  {
    if pos >= |content| then None
    else if OccursAt(content, RawInputHeading, pos) then
      match IndexOf(content, StructuredHeading, pos + |RawInputHeading|)
      case Some(j) =>
        BeforeFirstOccurrence(content, StructuredHeading, pos + |RawInputHeading|, j);
        Some(content[pos + |RawInputHeading|..j])
      case None => RawInputFrom(content, pos + 1)
    else RawInputFrom(content, pos + 1)
  }

  /** The raw-input text the search finds, described directly: the text
      between the first `## Raw Input` and the first `## Structured` after
      it, or nothing when either heading is missing. */
  function FirstRawInput(content: string): Option<string> {
    match IndexOf(content, RawInputHeading, 0)
    case None => None
    case Some(i) =>
      match IndexOf(content, StructuredHeading, i + |RawInputHeading|)
      case None => None
      case Some(j) => Some(content[i + |RawInputHeading|..j])
  }

  /** Once no `## Structured` occurs at or after `a`, no later start index can
      succeed. */
  lemma {:induction false} RawInputGivesUp(content: string, pos: nat, a: nat)
    requires IndexOf(content, StructuredHeading, a).None? && a <= pos + |RawInputHeading|
    ensures RawInputFrom(content, pos).None?
    decreases |content| - pos
  {
    if pos < |content| {
      if OccursAt(content, RawInputHeading, pos) {
        assert IndexOf(content, StructuredHeading, pos + |RawInputHeading|).None?;
      }
      RawInputGivesUp(content, pos + 1, a);
    }
  }

  lemma {:induction false} RawInputFromIsFirst(content: string, pos: nat)
    requires pos <= |content|
    ensures RawInputFrom(content, pos) ==
      match IndexOf(content, RawInputHeading, pos)
      case None => None
      case Some(i) =>
        match IndexOf(content, StructuredHeading, i + |RawInputHeading|)
        case None => None
        case Some(j) => Some(content[i + |RawInputHeading|..j])
    decreases |content| - pos
  {
    if pos == |content| {
      assert IndexOf(content, RawInputHeading, pos).None?;
    } else if OccursAt(content, RawInputHeading, pos) {
      assert IndexOf(content, RawInputHeading, pos) == Some(pos);
      RawInputAtHeading(content, pos);
    } else {
      assert IndexOf(content, RawInputHeading, pos) == IndexOf(content, RawInputHeading, pos + 1);
      RawInputFromIsFirst(content, pos + 1);
    }
  }

  /** At an index where `## Raw Input` occurs, the search ends with the span
      up to the next `## Structured`, or finds nothing at all. */
  lemma RawInputAtHeading(content: string, pos: nat)
    requires pos < |content| && OccursAt(content, RawInputHeading, pos)
    ensures RawInputFrom(content, pos) ==
      match IndexOf(content, StructuredHeading, pos + |RawInputHeading|)
      case None => None
      case Some(j) => Some(content[pos + |RawInputHeading|..j])
  {
    if IndexOf(content, StructuredHeading, pos + |RawInputHeading|).None? {
      RawInputGivesUp(content, pos + 1, pos + |RawInputHeading|);
    }
  }

  /** The regular-expression search finds the text between the first
      `## Raw Input` and the next `## Structured`. */
  lemma RawInputIsFirstPair(content: string)
    ensures RawInputFrom(content, 0) == FirstRawInput(content)
  {
    RawInputFromIsFirst(content, 0);
  }

  /** `thinking_chars`: the stripped length of the raw-input text, absent
      when the headings are not there. */
  function ThinkingChars(content: string): (r: Option<nat>)
    ensures r.Some? <==> FirstRawInput(content).Some?
    ensures r.Some? ==> r.value <= |FirstRawInput(content).value|
    ensures r.Some? ==> r.value == |Strip(FirstRawInput(content).value)|
  {
    RawInputIsFirstPair(content);
    match RawInputFrom(content, 0)
    case None => None
    case Some(raw) => Some(|Strip(raw)|)
  }

  // ---- mood ----

  /** The mood markers the parser looks for, in priority order. */
  const PositiveMarkers: seq<string> := ["积极", "😊"]
  const NegativeMarkers: seq<string> := ["消极", "沮丧", "😔"]

  /** Some marker of `markers` occurs somewhere in `content`. */
  ghost predicate HasMarker(content: string, markers: seq<string>) {
    exists m, i :: m in markers && OccursAt(content, m, i)
  }

  /** The fixed-priority mood test over the whole document: a positive marker
      wins over any negative one, and neutral is the default. */
  function ClassifyMood(content: string): (m: Mood)
    ensures m == Positive <==> HasMarker(content, PositiveMarkers)
    ensures m == Negative <==> !HasMarker(content, PositiveMarkers) && HasMarker(content, NegativeMarkers)
    ensures m == Neutral <==> !HasMarker(content, PositiveMarkers) && !HasMarker(content, NegativeMarkers)
  {
    if Contains(content, "积极") || Contains(content, "😊") then Positive
    else if Contains(content, "消极") || Contains(content, "沮丧") || Contains(content, "😔") then Negative
    else Neutral
  }

  lemma OccursInConcat(a: string, b: string, p: string, i: int)
    requires OccursAt(a, p, i)
    ensures OccursAt(a + b, p, i) && OccursAt(b + a, p, |b| + i)
  {
    assert (a + b)[i..i + |p|] == a[i..i + |p|];
    assert (b + a)[|b| + i..|b| + i + |p|] == a[i..i + |p|];
  }

  /** A positive marker anywhere settles the mood: adding text before or
      after a positive document keeps it positive, whatever the added text
      says. */
  lemma PositiveIsSticky(a: string, b: string)
    requires ClassifyMood(a) == Positive
    ensures ClassifyMood(a + b) == Positive && ClassifyMood(b + a) == Positive
  {
    var m, i :| m in PositiveMarkers && OccursAt(a, m, i);
    OccursInConcat(a, b, m, i);
  }

  // ---- the whole extraction ----

  /** What one journal contributes to the record. */
  datatype Extraction = Extraction(
    work: seq<string>,
    insights: seq<string>,
    aiCollab: seq<string>,
    thinkingChars: Option<nat>,
    mood: Mood)

  /** `parse_obsidian_journal` on the text of an existing journal. */
  function Extract(content: string): (ex: Extraction)
    ensures !Contains(content, StructuredHeading) ==> ex.work == ex.insights == ex.aiCollab == []
  {
    var items := (tag: string) =>
      match StructuredSection(content)
      case None => []
      case Some(section) => FindAll(section, tag);
    Extraction(items(WorkTag), items(InsightTag), items(AiTag), ThinkingChars(content), ClassifyMood(content))
  }
}
