# Life briefing generator: a Dafny model

This project models the text processing of `LifeBriefingGenerator` in
`scripts/generate_briefing.py`. That is the script that turns one day's
Obsidian journal into a Markdown briefing and a dashboard metrics entry.
Four pieces are modelled, with the file system cut away.

- **Date labels.** The generator keeps two zero-padded strings for its date:
  `YYYY-MM-DD` and `YYYY_MM_DD`. It also keeps the Monday-first weekday label
  `周一`…`周日`, computed from the proleptic Gregorian ordinal the way
  Python's `date.weekday()` computes it.
- **Journal extraction.** `parse_obsidian_journal` works on the journal text:
  - it takes the section after the first `## Structured`;
  - it collects the `[work] `, `[insight] ` and `[ai] ` items;
  - it measures the whitespace-stripped length of the first `## Raw Input` …
    `## Structured` span;
  - it classifies the mood by fixed-priority marker tests.

  The three `re.findall` calls are reproduced by a hand-built scanner with
  Python's semantics:
  - `.` does not cross a newline;
  - `+?` is lazy;
  - `$` matches at the end of the text or before one final newline;
  - matches are leftmost and never overlap.

  The scanner is proved to return exactly the leftmost, non-overlapping
  matches.
- **Template rendering.** `generate_briefing` is twelve literal replace-all
  steps in the script's order, applied to the template text:
  - the bullet lists fall back to `- 无记录` when they are empty;
  - the mood emoji comes from a lookup that defaults to `😐`;
  - the principles count and its `✅`/`⚠️` glyph are filled in.
- **Metrics update.** `update_metrics` starts from the stored map, or from
  the default shape when nothing is stored. It overwrites `"today"` with the
  day's summary and leaves every other key unchanged.

The generator is a class, `Briefing.BriefingGenerator`. Its `data` field is
the day's record, and `ParseObsidianJournal` updates it in place. Its inputs
are parameters: the journal text (`None` when the file is missing), the
template text, the timestamp text and the stored metrics (`None` when there
is no metrics file).

Modules:

| module | file | contents |
|---|---|---|
| `Wrappers` | `wrappers.dfy` | `Option` and `Result` |
| `Text` | `text.dfy` | substring search, `str.replace`, split and join, `str.strip()`, zero-padded decimals |
| `Dates` | `dates.dfy` | Gregorian dates, ordinals, weekdays, the two date strings |
| `Records` | `records.dfy` | the `data` record, moods, principles |
| `Journal` | `journal.dfy` | sections, the tag scanner, the raw-input length, mood |
| `JournalExample` | `journal_example.dfy` | a worked two-item journal |
| `Render` | `render.dfy` | the replace table, list rendering, emoji, principles glyph |
| `Metrics` | `metrics.dfy` | JSON values and the `"today"` update |
| `Briefing` | `generator.dfy` | paths and the `BriefingGenerator` class |

## Model

| member | source | states |
|---|---|---|
| Text.IndexOf | scripts/generate_briefing.py:56 | The result is an occurrence at or after the start position, with no occurrence between the start and it. `None` only when there is no occurrence at or after the start. |
| Text.Contains | scripts/generate_briefing.py:78-80 | Python's `in` on strings: true exactly when the pattern occurs at some index. |
| Text.ReplaceAll | scripts/generate_briefing.py:101-126 | `str.replace` replacing every occurrence. Replacing a token with itself changes nothing, and a replacement of the token's length keeps the text's length. |
| Text.ReplaceAllIsJoinOfSplit | scripts/generate_briefing.py:101 | `str.replace` equals splitting at every leftmost non-overlapping occurrence and joining the pieces with the replacement. |
| Text.JoinSplitRoundTrip | scripts/generate_briefing.py:101 | Joining the split pieces with the pattern gives back the original text. So replacing a token with itself changes nothing. |
| Text.ReplaceAllAbsent | scripts/generate_briefing.py:101-126 | A replace step whose token does not occur leaves the text unchanged. |
| Text.ReplaceAllSkips | scripts/generate_briefing.py:101 | A prefix holding no occurrence is kept verbatim by the replace. |
| Text.Join | scripts/generate_briefing.py:109 | `sep.join`: a non-empty join starts with the first part. |
| Text.SplitJoinRoundTrip | scripts/generate_briefing.py:109 | Lines without the one-character separator, joined and split again, are the same lines. |
| Text.Strip | scripts/generate_briefing.py:75 | `str.strip()`: the result is a slice of the input, only whitespace is removed around it, and it neither starts nor ends with whitespace. |
| Text.StripIdempotent | scripts/generate_briefing.py:75 | Stripping twice is stripping once. |
| Text.PadDecimal | scripts/generate_briefing.py:22-23 | A zero-padded decimal has exactly the width asked for and only digits. |
| Text.DecimalRoundTrip | scripts/generate_briefing.py:22-23 | Reading a zero-padded decimal back gives the number. |
| Dates.DaysInMonth | scripts/generate_briefing.py:21-23 | Months have 28 to 31 days; 29 exactly for February of a Gregorian leap year. |
| Dates.Ordinal | scripts/generate_briefing.py:43 | `date.toordinal()`: every valid date has an ordinal of at least 1. |
| Dates.Weekday | scripts/generate_briefing.py:43 | `date.weekday()`: `(ordinal + 6) % 7`, an index from 0 to 6. |
| Dates.DaysInYear | scripts/generate_briefing.py:43 | The ordinal of January 1st advances by 366 after a leap year and 365 otherwise. |
| Dates.NextDayOrdinal | scripts/generate_briefing.py:43 | Consecutive days have consecutive ordinals, across month and year ends. |
| Dates.NextDayWeekday | scripts/generate_briefing.py:41-43 | The weekday index and its label advance by one each day, wrapping from 周日 to 周一. |
| Dates.KnownWeekdays | scripts/generate_briefing.py:41-43 | 0001-01-01 is a Monday labelled 周一; 2026-10-11 is a Sunday labelled 周日. |
| Dates.WeekdayLabel | scripts/generate_briefing.py:41-43 | The label is an entry of the Monday-first list, two characters starting with `周`. |
| Dates.FormatDate | scripts/generate_briefing.py:22-23 | The date string is ten characters with the separator at indices 4 and 7. |
| Dates.DashDate | scripts/generate_briefing.py:22 | `date_str` is ten characters and parses back to the date with `-`. |
| Dates.UnderscoreDate | scripts/generate_briefing.py:23 | `date_file` is ten characters and parses back to the date with `_`. |
| Dates.DateRoundTrip | scripts/generate_briefing.py:22-23 | Parsing a formatted date with the same separator gives the date back. |
| Dates.FormatDateInjective | scripts/generate_briefing.py:22-23 | Different dates give different date strings. |
| Dates.DateStringsAgree | scripts/generate_briefing.py:22-23 | `date_str` and `date_file` carry the same digits and differ only in the separators: `-` and `_`. |
| Records.MoodText | scripts/generate_briefing.py:79-83 | The three mood texts stored in `data["mood"]`, each two characters. |
| Records.MoodTextInjective | scripts/generate_briefing.py:79-83 | Different moods are stored as different texts. |
| Records.InitialRecord | scripts/generate_briefing.py:24-39 | The record `__init__` builds. The date parses back to the date, and the weekday is the date's label. There is no mood or thinking length, all four lists are empty, and no principle is done. |
| Journal.StructuredSection | scripts/generate_briefing.py:56-58 | `None` iff `## Structured` is absent; otherwise everything after its first occurrence. |
| Journal.LazyItemLength | scripts/generate_briefing.py:61 | The length found is accepted, and no shorter length from the starting point is. |
| Journal.MatchAt | scripts/generate_briefing.py:61 | A match at an index ends after it and within the text. |
| Journal.MatchAtIsLazyMatch | scripts/generate_briefing.py:61 | An attempt succeeds iff the tag is there and some newline-free, non-empty item followed by ` #` or `$` is. The item is the shortest such. The match ends after ` #` when that followed the item. |
| Journal.FindAllMatches | scripts/generate_briefing.py:61-70 | The scan returns leftmost matches in order, non-overlapping, with no match possible between or around them. |
| Journal.LeftmostUnique | scripts/generate_briefing.py:61-70 | There is only one sequence of leftmost matches. |
| Journal.LeftmostIsFindAll | scripts/generate_briefing.py:61-70 | Any sequence of leftmost non-overlapping matches is the scan's result. |
| Journal.FindAllIsLeftmost | scripts/generate_briefing.py:61-70 | The found items are the items of the leftmost matches, in document order. |
| Journal.FoundItemsWellFormed | scripts/generate_briefing.py:61 | Every match starts at the tag. Its item is accepted, non-empty and newline-free. |
| Journal.FindAll | scripts/generate_briefing.py:61-70 | Items are non-empty and newline-free; a section without the tag yields none. |
| Journal.UnterminatedLineYieldsNothing | scripts/generate_briefing.py:61 | A tagged line without ` #` that is followed by more than a final newline yields no match. |
| Journal.DelimitedItem | scripts/generate_briefing.py:61 | A newline-free item without ` #` inside, followed by ` #`, is exactly the match. |
| Journal.RawInputFrom | scripts/generate_briefing.py:73 | The `re.search` tried from each start index. The lazy `(.*?)` stops at the first `## Structured` after the heading, so a span it returns never contains `## Structured`. |
| Journal.RawInputFromIsFirst | scripts/generate_briefing.py:73 | The lazy `(.*?)` search takes the first `## Raw Input` that has a later `## Structured`. It gives up when the first one has none. |
| Journal.RawInputIsFirstPair | scripts/generate_briefing.py:73 | The search result is the text between the first `## Raw Input` and the next `## Structured` after it. |
| Journal.ThinkingChars | scripts/generate_briefing.py:73-75 | Set iff that span exists. It is then the length of the stripped span, so never longer than the span. |
| Journal.ClassifyMood | scripts/generate_briefing.py:78-83 | Positive iff `积极` or `😊` occurs. Negative iff no positive marker occurs and `消极`, `沮丧` or `😔` does. Neutral iff neither kind of marker occurs. |
| Journal.PositiveIsSticky | scripts/generate_briefing.py:78-79 | Adding text before or after a positive journal keeps it positive, whatever negative markers are added. |
| Journal.Extract | scripts/generate_briefing.py:56-83 | Without `## Structured` all three lists are empty. |
| JournalExample.WorkItemMatches | scripts/generate_briefing.py:61 | In `\n[work] shipped feature X #done\n…` the work attempt at the tag yields `shipped feature X`, ending after ` #`. |
| JournalExample.SampleExtraction | scripts/generate_briefing.py:56-70 | The sample journal yields work `["shipped feature X"]`, insights `["sleep matters"]`, no AI items. |
| Render.Prefixed | scripts/generate_briefing.py:109 | One line per item, in order, each the prefix followed by the item. |
| Render.RenderList | scripts/generate_briefing.py:109-118 | An empty list renders as `- 无记录`. |
| Render.RenderListLines | scripts/generate_briefing.py:109-118 | A non-empty list of one-line items splits back into exactly the prefixed items, one per line, in order. |
| Render.CompletedCount | scripts/generate_briefing.py:121 | The count is at most 3. It is 3 iff all three flags are true, and 0 iff none is. |
| Render.PrinciplesStatus | scripts/generate_briefing.py:123 | `✅` iff the count is 3, `⚠️` otherwise. |
| Render.MoodEmoji | scripts/generate_briefing.py:105 | `😊` iff positive, `😔` iff negative, `😐` iff neutral or unset. |
| Render.Table | scripts/generate_briefing.py:101-126 | Twelve steps whose tokens are the twelve placeholders in the script's order. |
| Render.Substitutions | scripts/generate_briefing.py:106 | As written, the replace table fails iff the mood was never set. |
| Render.IntendedSubstitutions | scripts/generate_briefing.py:105-106 | The corrected table's `{{mood_text}}` value is the mood's text, with an unset mood shown as `中性`. |
| Render.TwelveSteps | scripts/generate_briefing.py:101-126 | Running the table is the twelve `replace` calls one after another. |
| Render.ApplySteps | scripts/generate_briefing.py:101-126 | Runs the replace steps in order. Steps replacing tokens with themselves leave the text unchanged, and steps with same-length values keep its length. |
| Render.RenderAsWritten | scripts/generate_briefing.py:101-128 | `generate_briefing` as written: it fails, with `MoodNotSet`, exactly when the mood is unset. |
| Render.RenderIntended | scripts/generate_briefing.py:101-128 | The corrected rendering: a template without `{` comes out unchanged. |
| Render.UnsetMoodFails | scripts/generate_briefing.py:106 | As written, rendering a record whose mood is unset fails, whatever the template. |
| Render.IntendedAgrees | scripts/generate_briefing.py:101-128 | Once the mood is set, the corrected rendering is the script's rendering. |
| Render.UnsetRendersAsNeutral | scripts/generate_briefing.py:103-106 | Corrected, an unset mood renders exactly as the script renders a neutral journal. |
| Render.NoBraceTemplate | scripts/generate_briefing.py:101-126 | A template without `{` comes out unchanged. |
| Render.EmptyRecordValues | scripts/generate_briefing.py:103-123 | An empty record shows `😐` and `中性`. Each of its three lists shows `- 无记录`. Its principles show count `0` and `⚠️`. |
| Metrics.PrinciplesJson | scripts/generate_briefing.py:160 | The principles map has exactly `app`, `margin`, `output`, each as a boolean. |
| Metrics.TodaySummary | scripts/generate_briefing.py:154-161 | The summary has exactly the six keys and the date string. Sleep and exercise are `null`. Thinking is the measured length, or 0 when unmeasured. Mood is the mood's text, or `null` iff unset. Principles are the three flags. |
| Metrics.Loaded | scripts/generate_briefing.py:148-151 | The stored map when there is one, otherwise the default shape with keys `weekly` and `monthly`. |
| Metrics.Updated | scripts/generate_briefing.py:148-161 | The keys are the loaded keys plus `"today"`, which holds the summary; every other key keeps its loaded value. |
| Metrics.UpdateIdempotent | scripts/generate_briefing.py:148-161 | Updating twice with the same summary equals updating once. |
| Metrics.FirstUpdateShape | scripts/generate_briefing.py:150-151 | Without stored metrics the result is the default `weekly` and `monthly` entries plus `"today"`. |
| Metrics.OldTodayDiscarded | scripts/generate_briefing.py:154 | A previously stored `"today"` does not influence the result. |
| Briefing.JournalPath | scripts/generate_briefing.py:47 | The journal path has fixed length. It is the journal directory and `/`, then `date_file`, then `.md`. |
| Briefing.BriefingPath | scripts/generate_briefing.py:132-138 | The briefing path has fixed length. It starts with the briefings directory and `/`, ends with `.md`, and holds `date_str` just before `.md`. |
| Briefing.BriefingPathFollowsDate | scripts/generate_briefing.py:132-138 | The year and month directories are the year and month of `date_str`. |
| Briefing.PathsInjective | scripts/generate_briefing.py:132-138 | Different dates read different journals and write different briefings. |
| Briefing.BriefingGenerator.constructor | scripts/generate_briefing.py:20-39 | Both date strings are set. The record has the date, the weekday label, no mood, empty lists and all principles false. |
| Briefing.BriefingGenerator.ParseObsidianJournal | scripts/generate_briefing.py:45-83 | A missing journal changes nothing. Otherwise each list is extended by its extracted items, the thinking length is set only when measured, and the mood is set. Every other field, including the date labels and principles, stays as it was. |
| Briefing.BriefingGenerator.GenerateBriefing | scripts/generate_briefing.py:95-128 | The result is the corrected rendering. Whenever the mood is set, it is exactly the script's rendering. |
| Briefing.BriefingGenerator.UpdateMetrics | scripts/generate_briefing.py:144-161 | The result is the update of the stored metrics, or of the default shape, with the day's summary. |
| Briefing.RenderedChain | scripts/generate_briefing.py:101-126 | The corrected rendering is the script's twelve `replace` calls, in order, on the values the script computes: the date, the weekday, two empty sleep texts, the emoji, the mood text, the three rendered lists, the count, the glyph and the timestamp. |

## Left out

- File-system work is not modelled: the existence tests, reads, writes and `mkdir` (lines 47-53, 97-98, 135-139, 146-149, 163). The journal, the template and the stored metrics are inputs, and the briefing and the metrics are outputs. `Path.read_text` opens files in text mode, so the journal and template inputs are the newline-translated text: `\r\n` and `\r` have already become `\n`, which is what the scanner's `$` and `.` and the item contents are stated over. Only the two path strings are modelled.
- `datetime.now()` is not modelled. The generator takes its date as a parameter, and the `{{timestamp}}` text is an opaque input.
- JSON encoding and decoding are not modelled. Metrics are a map from keys to `Json` values, and a metrics file whose top level is not an object is not modelled.
- `print` and `main` are left out, because they are plumbing.
- `check_principles` is left out because it is an empty stub. The constructor sets every principle false, and `ParseObsidianJournal` keeps them as they are. So the count is always 0 in a run of the script.
- `functions/_worker.js` is not part of this model. It is a network proxy.
- `sleep_rating` and `sleep` are never set by the script, so their placeholders render as empty text and the summary reports `null`. `sleep` and `exercise` are not fields of the record.
- `strftime("%Y")` for years below 1000 depends on the platform. The model always pads the year to four digits.
- Dictionary insertion order in the metrics JSON is not modelled.
- The `principles` dictionary is shared between the record and the metrics entry. That aliasing is not modelled, because nothing mutates it afterwards.
- Briefing.BriefingGenerator.GenerateBriefing: returns the corrected rendering, with an unset mood shown as neutral. The script's own behaviour with an unset mood is the failure stated by Render.UnsetMoodFails; see Findings.

## Findings

| source | as written | input that shows it | evidently intended | confidence | as-written member | corrected member |
|---|---|---|---|---|---|---|
| scripts/generate_briefing.py:49-51, 106 | With no journal file, `parse_obsidian_journal` returns early and the mood stays `None`. `briefing.replace("{{mood_text}}", None)` then raises `TypeError`, and the run stops before anything is saved. | A date with no journal file | The early return only prints a notice, so it is meant to be harmless. The mood emoji lookup already falls back to the neutral face, so the briefing should render with the neutral mood `中性`. | not executed | Render.UnsetMoodFails | Render.UnsetRendersAsNeutral |
