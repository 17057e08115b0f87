/** The text `generate_briefing` fills into the template: the placeholder
    table in the order the script replaces it, the bullet lists, the mood
    emoji and the principles count and glyph. */
module Render {
  import opened Wrappers
  import opened Text
  import opened Records

  /** What an empty list renders as. */
  const NoRecord: string := "- 无记录"
  const BulletPrefix: string := "- "
  const InsightPrefix: string := "- **洞察**: "
  const LineBreak: string := "\n"

  /** Each item on a line of its own, after the prefix. */
  function Prefixed(items: seq<string>, prefix: string): (lines: seq<string>)
    ensures |lines| == |items|
    ensures forall k :: 0 <= k < |items| ==> lines[k] == prefix + items[k]
  {
    seq(|items|, k requires 0 <= k < |items| => prefix + items[k])
  }

  /** A list as `"\n".join(prefix + item ...)`, or `- 无记录` when it is
      empty. */
  function RenderList(items: seq<string>, prefix: string): (r: string)
    ensures items == [] ==> r == NoRecord
  {
    if items == [] then NoRecord else Join(Prefixed(items, prefix), LineBreak)
  }

  /** A non-empty list of one-line items renders as exactly one line per
      item, in order, each with the prefix. */
  lemma RenderListLines(items: seq<string>, prefix: string)
    requires items != []
    requires forall t :: 0 <= t < |prefix| ==> prefix[t] != '\n'
    requires forall k, t :: 0 <= k < |items| && 0 <= t < |items[k]| ==> items[k][t] != '\n'
    ensures SplitOn(RenderList(items, prefix), LineBreak) == Prefixed(items, prefix)
  {
    var lines := Prefixed(items, prefix);
    forall k | 0 <= k < |lines| ensures !Contains(lines[k], LineBreak) {
      forall i | 0 <= i < |lines[k]| ensures lines[k][i] != '\n' {
        if i < |prefix| {
          assert lines[k][i] == prefix[i];
        } else {
          assert lines[k][i] == items[k][i - |prefix|];
        }
      }
      AbsentFirst(lines[k], LineBreak);
    }
    SplitJoinRoundTrip(lines, LineBreak);
  }

  /** `sum(principles.values())`: how many of the three flags are true. */
  function CompletedCount(p: Principles): (c: nat)
    ensures c <= 3
    ensures c == 3 <==> p.app && p.margin && p.output
    ensures c == 0 <==> !p.app && !p.margin && !p.output
  {
    (if p.app then 1 else 0) + (if p.margin then 1 else 0) + (if p.output then 1 else 0)
  }

  const AllDone: string := "✅"
  const NotAllDone: string := "⚠️"

  /** The status glyph: a check mark when all three principles are done, a
      warning sign otherwise. */
  function PrinciplesStatus(c: nat): (r: string)
    ensures r == AllDone <==> c == 3
    ensures r == NotAllDone <==> c != 3
  {
    if c == 3 then AllDone else NotAllDone
  }

  /** The mood emoji lookup; anything that is not one of the three moods,
      including an unset mood, gets the neutral face. */
  function MoodEmoji(m: Option<Mood>): (r: string)
    ensures m == Some(Positive) <==> r == "😊"
    ensures m == Some(Negative) <==> r == "😔"
    ensures m.None? || m == Some(Neutral) <==> r == "😐"
  {
    match m
    case Some(Positive) => "😊"
    case Some(Negative) => "😔"
    case _ => "😐"
  }

  /** One replace step: a placeholder and the text it is replaced with. */
  datatype Sub = Sub(token: string, value: string)

  const DateToken: string := "{{date}}"
  const WeekdayToken: string := "{{weekday}}"
  const SleepRatingToken: string := "{{sleep_rating}}"
  const SleepHoursToken: string := "{{sleep_hours}}"
  const MoodEmojiToken: string := "{{mood_emoji}}"
  const MoodTextToken: string := "{{mood_text}}"
  const WorkToken: string := "{{work_items}}"
  const InsightsToken: string := "{{insights}}"
  const AiToken: string := "{{ai_collaboration}}"
  const CompletedToken: string := "{{principles_completed}}"
  const StatusToken: string := "{{principles_status}}"
  const TimestampToken: string := "{{timestamp}}"

  /** The twelve placeholders, in the order they are replaced. */
  const Tokens: seq<string> := [DateToken, WeekdayToken, SleepRatingToken, SleepHoursToken,
                                MoodEmojiToken, MoodTextToken, WorkToken, InsightsToken, AiToken,
                                CompletedToken, StatusToken, TimestampToken]

  /** `"⭐" * sleep_rating` and the `({sleep}h)` text: nothing in the script
      sets a rating or a sleep time, so both are always empty. */
  const SleepRatingText: string := ""
  const SleepHoursText: string := ""

  /** The replace steps for a given mood text, in the script's order. */
  function Table(data: DailyRecord, moodText: string, timestamp: string): (subs: seq<Sub>)
    ensures |subs| == |Tokens| == 12 && forall k :: 0 <= k < |subs| ==> subs[k].token == Tokens[k]
  {
    var completed := CompletedCount(data.principles);
    [Sub(DateToken, data.date),
     Sub(WeekdayToken, data.weekday),
     Sub(SleepRatingToken, SleepRatingText),
     Sub(SleepHoursToken, SleepHoursText),
     Sub(MoodEmojiToken, MoodEmoji(data.mood)),
     Sub(MoodTextToken, moodText),
     Sub(WorkToken, RenderList(data.work, BulletPrefix)),
     Sub(InsightsToken, RenderList(data.insights, InsightPrefix)),
     Sub(AiToken, RenderList(data.aiCollab, BulletPrefix)),
     Sub(CompletedToken, PadDecimal(completed, 1)),
     Sub(StatusToken, PrinciplesStatus(completed)),
     Sub(TimestampToken, timestamp)]
  }

  /** The error the as-written chain stops with. */
  datatype RenderError = MoodNotSet

  /** The replace steps as the script runs them: the `{{mood_text}}` step
      needs a mood string and fails when the mood was never set. */
  function Substitutions(data: DailyRecord, timestamp: string): (r: Result<seq<Sub>, RenderError>)
    ensures r.Failure? <==> data.mood.None?
  {
    match data.mood
    case None => Failure(MoodNotSet)
    case Some(m) => Success(Table(data, MoodText(m), timestamp))
  }

  /** The replace steps with an unset mood shown as neutral, matching the
      neutral face the emoji lookup already falls back to. */
  function IntendedSubstitutions(data: DailyRecord, timestamp: string): (subs: seq<Sub>)
    ensures |subs| == 12 && subs[5] == Sub(MoodTextToken, MoodText(if data.mood.Some? then data.mood.value else Neutral))
  {
    Table(data, MoodText(if data.mood.Some? then data.mood.value else Neutral), timestamp)
  }

  /** Runs the replace steps from step `i` on, one after another, over the
      text. */
  function ApplySteps(t: string, subs: seq<Sub>, i: nat): (r: string)
    requires i <= |subs| && forall k :: 0 <= k < |subs| ==> subs[k].token != []
    ensures (forall k :: i <= k < |subs| ==> subs[k].value == subs[k].token) ==> r == t
    ensures (forall k :: i <= k < |subs| ==> |subs[k].value| == |subs[k].token|) ==> |r| == |t|
    decreases |subs| - i
  {
    if i == |subs| then t else ApplySteps(ReplaceAll(t, subs[i].token, subs[i].value), subs, i + 1)
  }

  /** Twelve steps, written out one replace after another. */
  lemma TwelveSteps(t: string, subs: seq<Sub>)
    requires |subs| == 12 && forall k :: 0 <= k < |subs| ==> subs[k].token != []
    ensures ApplySteps(t, subs, 0) == ReplaceAll(ReplaceAll(ReplaceAll(ReplaceAll(ReplaceAll(ReplaceAll(ReplaceAll(ReplaceAll(ReplaceAll(ReplaceAll(ReplaceAll(ReplaceAll(t, subs[0].token, subs[0].value), subs[1].token, subs[1].value), subs[2].token, subs[2].value), subs[3].token, subs[3].value), subs[4].token, subs[4].value), subs[5].token, subs[5].value), subs[6].token, subs[6].value), subs[7].token, subs[7].value), subs[8].token, subs[8].value), subs[9].token, subs[9].value), subs[10].token, subs[10].value), subs[11].token, subs[11].value)
  {
    assert ApplySteps(t, subs, 0) == ApplySteps(ReplaceAll(t, subs[0].token, subs[0].value), subs, 1);
    assert ApplySteps(t, subs, 0) == ApplySteps(ReplaceAll(ReplaceAll(t, subs[0].token, subs[0].value), subs[1].token, subs[1].value), subs, 2);
    assert ApplySteps(t, subs, 0) == ApplySteps(ReplaceAll(ReplaceAll(ReplaceAll(t, subs[0].token, subs[0].value), subs[1].token, subs[1].value), subs[2].token, subs[2].value), subs, 3);
    assert ApplySteps(t, subs, 0) == ApplySteps(ReplaceAll(ReplaceAll(ReplaceAll(ReplaceAll(t, subs[0].token, subs[0].value), subs[1].token, subs[1].value), subs[2].token, subs[2].value), subs[3].token, subs[3].value), subs, 4);
    assert ApplySteps(t, subs, 0) == ApplySteps(ReplaceAll(ReplaceAll(ReplaceAll(ReplaceAll(ReplaceAll(t, subs[0].token, subs[0].value), subs[1].token, subs[1].value), subs[2].token, subs[2].value), subs[3].token, subs[3].value), subs[4].token, subs[4].value), subs, 5);
    assert ApplySteps(t, subs, 0) == ApplySteps(ReplaceAll(ReplaceAll(ReplaceAll(ReplaceAll(ReplaceAll(ReplaceAll(t, subs[0].token, subs[0].value), subs[1].token, subs[1].value), subs[2].token, subs[2].value), subs[3].token, subs[3].value), subs[4].token, subs[4].value), subs[5].token, subs[5].value), subs, 6);
    assert ApplySteps(t, subs, 0) == ApplySteps(ReplaceAll(ReplaceAll(ReplaceAll(ReplaceAll(ReplaceAll(ReplaceAll(ReplaceAll(t, subs[0].token, subs[0].value), subs[1].token, subs[1].value), subs[2].token, subs[2].value), subs[3].token, subs[3].value), subs[4].token, subs[4].value), subs[5].token, subs[5].value), subs[6].token, subs[6].value), subs, 7);
    assert ApplySteps(t, subs, 0) == ApplySteps(ReplaceAll(ReplaceAll(ReplaceAll(ReplaceAll(ReplaceAll(ReplaceAll(ReplaceAll(ReplaceAll(t, subs[0].token, subs[0].value), subs[1].token, subs[1].value), subs[2].token, subs[2].value), subs[3].token, subs[3].value), subs[4].token, subs[4].value), subs[5].token, subs[5].value), subs[6].token, subs[6].value), subs[7].token, subs[7].value), subs, 8);
    assert ApplySteps(t, subs, 0) == ApplySteps(ReplaceAll(ReplaceAll(ReplaceAll(ReplaceAll(ReplaceAll(ReplaceAll(ReplaceAll(ReplaceAll(ReplaceAll(t, subs[0].token, subs[0].value), subs[1].token, subs[1].value), subs[2].token, subs[2].value), subs[3].token, subs[3].value), subs[4].token, subs[4].value), subs[5].token, subs[5].value), subs[6].token, subs[6].value), subs[7].token, subs[7].value), subs[8].token, subs[8].value), subs, 9);
    assert ApplySteps(t, subs, 0) == ApplySteps(ReplaceAll(ReplaceAll(ReplaceAll(ReplaceAll(ReplaceAll(ReplaceAll(ReplaceAll(ReplaceAll(ReplaceAll(ReplaceAll(t, subs[0].token, subs[0].value), subs[1].token, subs[1].value), subs[2].token, subs[2].value), subs[3].token, subs[3].value), subs[4].token, subs[4].value), subs[5].token, subs[5].value), subs[6].token, subs[6].value), subs[7].token, subs[7].value), subs[8].token, subs[8].value), subs[9].token, subs[9].value), subs, 10);
    assert ApplySteps(t, subs, 0) == ApplySteps(ReplaceAll(ReplaceAll(ReplaceAll(ReplaceAll(ReplaceAll(ReplaceAll(ReplaceAll(ReplaceAll(ReplaceAll(ReplaceAll(ReplaceAll(t, subs[0].token, subs[0].value), subs[1].token, subs[1].value), subs[2].token, subs[2].value), subs[3].token, subs[3].value), subs[4].token, subs[4].value), subs[5].token, subs[5].value), subs[6].token, subs[6].value), subs[7].token, subs[7].value), subs[8].token, subs[8].value), subs[9].token, subs[9].value), subs[10].token, subs[10].value), subs, 11);
    assert ApplySteps(t, subs, 0) == ApplySteps(ReplaceAll(ReplaceAll(ReplaceAll(ReplaceAll(ReplaceAll(ReplaceAll(ReplaceAll(ReplaceAll(ReplaceAll(ReplaceAll(ReplaceAll(ReplaceAll(t, subs[0].token, subs[0].value), subs[1].token, subs[1].value), subs[2].token, subs[2].value), subs[3].token, subs[3].value), subs[4].token, subs[4].value), subs[5].token, subs[5].value), subs[6].token, subs[6].value), subs[7].token, subs[7].value), subs[8].token, subs[8].value), subs[9].token, subs[9].value), subs[10].token, subs[10].value), subs[11].token, subs[11].value), subs, 12);
  }

  lemma TokensNonEmpty()
    ensures forall k :: 0 <= k < |Tokens| ==> Tokens[k] != [] && Tokens[k][0] == '{'
  {
  }

  /** `generate_briefing` as written. */
  function RenderAsWritten(template: string, data: DailyRecord, timestamp: string): (r: Result<string, RenderError>)
    ensures r.Failure? <==> data.mood.None?
    ensures r.Failure? ==> r.error == MoodNotSet
  {
    TokensNonEmpty();
    match Substitutions(data, timestamp)
    case Failure(e) => Failure(e)
    case Success(subs) => Success(ApplySteps(template, subs, 0))
  }

  /** `generate_briefing` with the unset mood rendered as neutral. */
  function RenderIntended(template: string, data: DailyRecord, timestamp: string): (r: string)
    ensures (forall j :: 0 <= j < |template| ==> template[j] != '{') ==> r == template
  {
    TokensNonEmpty();
    var subs := IntendedSubstitutions(data, timestamp);
    ApplyStepsNoBrace(template, subs, 0);
    ApplySteps(template, subs, 0)
  }

  /** As written, a record whose mood was never set cannot be rendered,
      whatever the template. */
  lemma UnsetMoodFails(template: string, data: DailyRecord, timestamp: string)
    requires data.mood.None?
    ensures RenderAsWritten(template, data, timestamp) == Failure(MoodNotSet)
  {
  }

  /** Once a mood is set, the corrected rendering is the script's rendering. */
  lemma IntendedAgrees(template: string, data: DailyRecord, timestamp: string)
    requires data.mood.Some?
    ensures RenderAsWritten(template, data, timestamp) == Success(RenderIntended(template, data, timestamp))
  {
  }

  /** Corrected, an unset mood renders exactly as the script renders a
      journal classified as neutral. */
  lemma UnsetRendersAsNeutral(template: string, data: DailyRecord, timestamp: string)
    requires data.mood.None?
    ensures RenderAsWritten(template, data.(mood := Some(Neutral)), timestamp) == Success(RenderIntended(template, data, timestamp))
  {
    assert Substitutions(data.(mood := Some(Neutral)), timestamp) == Success(IntendedSubstitutions(data, timestamp));
  }

  /** A template without any `{` is returned unchanged. */
  lemma {:induction false} ApplyStepsNoBrace(t: string, subs: seq<Sub>, i: nat)
    requires i <= |subs| && forall k :: 0 <= k < |subs| ==> subs[k].token != [] && subs[k].token[0] == '{'
    ensures (forall j :: 0 <= j < |t| ==> t[j] != '{') ==> ApplySteps(t, subs, i) == t
    decreases |subs| - i
  {
    if i < |subs| && forall j :: 0 <= j < |t| ==> t[j] != '{' {
      var p := subs[i].token;
      AbsentFirst(t, p);
      ReplaceAllAbsent(t, p, subs[i].value);
      ApplyStepsNoBrace(t, subs, i + 1);
    }
  }

  /** A template without placeholders is the briefing, as written and
      corrected alike (as written, once the mood is set). */
  lemma NoBraceTemplate(template: string, data: DailyRecord, timestamp: string)
    requires forall j :: 0 <= j < |template| ==> template[j] != '{'
    ensures RenderIntended(template, data, timestamp) == template
    ensures data.mood.Some? ==> RenderAsWritten(template, data, timestamp) == Success(template)
  {
    TokensNonEmpty();
    ApplyStepsNoBrace(template, IntendedSubstitutions(data, timestamp), 0);
    if data.mood.Some? {
      ApplyStepsNoBrace(template, Substitutions(data, timestamp).value, 0);
    }
  }

  /** With nothing recorded, the corrected briefing shows `- 无记录` for each
      list, the neutral mood and face, a count of 0 and the warning sign. */
  lemma EmptyRecordValues(data: DailyRecord, timestamp: string)
    requires data.mood.None? && data.work == data.insights == data.aiCollab == []
    requires data.principles == Principles(false, false, false)
    ensures var subs := IntendedSubstitutions(data, timestamp);
      && subs[4].value == "😐" && subs[5].value == "中性"
      && subs[6].value == subs[7].value == subs[8].value == NoRecord
      && subs[9].value == "0" && subs[10].value == NotAllDone
  {
  }
}
