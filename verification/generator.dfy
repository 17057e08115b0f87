/** `LifeBriefingGenerator`: the day's record, filled from the journal text,
    rendered into the template and summarised into the metrics. The journal
    text, the template text, the clock reading and the stored metrics are
    passed in; the files they come from and go to are not modelled. */
module Briefing {
  import opened Wrappers
  import opened Text
  import opened Dates
  import opened Records
  import opened Journal
  import opened Render
  import opened Metrics

  const JournalDir: string := "../obsidian-sync/journals"
  const BriefingsDir: string := "../briefings"

  /** Where the journal for a date is read from: `<date_file>.md`. */
  function JournalPath(d: Date): (p: string)
    requires ValidDate(d)
    ensures |p| == |JournalDir| + 14
    ensures p[..|JournalDir| + 1] == JournalDir + "/" && p[|JournalDir| + 11..] == ".md"
    ensures p[|JournalDir| + 1..|JournalDir| + 11] == UnderscoreDate(d)
  {
    JournalDir + "/" + UnderscoreDate(d) + ".md"
  }

  /** Where the briefing for a date is written: a year directory, a month
      directory, then `<date_str>.md`. */
  function BriefingPath(d: Date): (p: string)
    requires ValidDate(d)
    ensures |p| == |BriefingsDir| + 22
    ensures p[..|BriefingsDir| + 1] == BriefingsDir + "/" && p[|BriefingsDir| + 19..] == ".md"
    ensures p[|BriefingsDir| + 9..|BriefingsDir| + 19] == DashDate(d)
  {
    BriefingsDir + "/" + PadDecimal(d.year, 4) + "/" + PadDecimal(d.month, 2) + "/" + DashDate(d) + ".md"
  }

  /** The year and month directories of the briefing path are the year and
      month of the briefing's own date string. */
  lemma BriefingPathFollowsDate(d: Date)
    requires ValidDate(d)
    ensures BriefingPath(d) == BriefingsDir + "/" + DashDate(d)[..4] + "/" + DashDate(d)[5..7] + "/" + DashDate(d) + ".md"
  {
    assert DashDate(d)[..4] == PadDecimal(d.year, 4);
    assert DashDate(d)[5..7] == PadDecimal(d.month, 2);
  }

  /** Different dates read different journals and write different briefings. */
  lemma PathsInjective(d1: Date, d2: Date)
    requires ValidDate(d1) && ValidDate(d2) && d1 != d2
    ensures JournalPath(d1) != JournalPath(d2)
    ensures BriefingPath(d1) != BriefingPath(d2)
  {
    DateRoundTrip(d1, '_');
    DateRoundTrip(d2, '_');
    DateRoundTrip(d1, '-');
    DateRoundTrip(d2, '-');
  }

  class BriefingGenerator {
    const date: Date
    const dateStr: string
    const dateFile: string
    var data: DailyRecord

    /** The date strings and the record's date fields belong to `date`. */
    ghost predicate Valid()
      reads this
    {
      && ValidDate(date)
      && dateStr == DashDate(date) && dateFile == UnderscoreDate(date)
      && data.date == dateStr && data.weekday == WeekdayLabel(date)
    }

    /** `__init__`: both date strings and the empty record for the date. */
    constructor(d: Date)
      requires ValidDate(d)
      ensures date == d && dateStr == DashDate(d) && dateFile == UnderscoreDate(d)
      ensures data == InitialRecord(d)
      ensures Valid()
    {
      date := d;
      dateStr := DashDate(d);
      dateFile := UnderscoreDate(d);
      data := InitialRecord(d);
    }

    /** `parse_obsidian_journal`, given the journal text or `None` when
        there is no journal: appends the items of each tag to their lists,
        sets the thinking length when the headings are there, and sets the
        mood. Without a journal nothing changes. */
    method ParseObsidianJournal(journal: Option<string>)
      requires Valid()
      modifies this
      ensures Valid()
      ensures journal.None? ==> data == old(data)
      ensures journal.Some? ==>
        var ex := Extract(journal.value);
        data == old(data).(
          work := old(data).work + ex.work,
          insights := old(data).insights + ex.insights,
          aiCollab := old(data).aiCollab + ex.aiCollab,
          thinkingChars := if ex.thinkingChars.Some? then ex.thinkingChars else old(data).thinkingChars,
          mood := Some(ex.mood))
    {
      if journal.None? {
        return;
      }
      var content := journal.value;
      var section := StructuredSection(content);
      if section.Some? {
        var work := FindAll(section.value, WorkTag);
        data := data.(work := data.work + work);
        var insights := FindAll(section.value, InsightTag);
        data := data.(insights := data.insights + insights);
        var ai := FindAll(section.value, AiTag);
        data := data.(aiCollab := data.aiCollab + ai);
      }
      var thinking := ThinkingChars(content);
      if thinking.Some? {
        data := data.(thinkingChars := thinking);
      }
      data := data.(mood := Some(ClassifyMood(content)));
    }

    /** `generate_briefing` with the template text and the timestamp text
        given: the twelve replace steps in order. An unset mood is shown as
        neutral; whenever the mood is set this is exactly the script's
        output. */
    method GenerateBriefing(template: string, timestamp: string) returns (briefing: string)
      ensures briefing == RenderIntended(template, data, timestamp)
      ensures data.mood.Some? ==> RenderAsWritten(template, data, timestamp) == Success(briefing)
    {
      var d := data;
      var moodText := MoodText(if d.mood.Some? then d.mood.value else Neutral);
      var emoji := MoodEmoji(d.mood);
      var work := RenderList(d.work, BulletPrefix);
      var insights := RenderList(d.insights, InsightPrefix);
      var ai := RenderList(d.aiCollab, BulletPrefix);
      var completed := CompletedCount(d.principles);
      var count, status := PadDecimal(completed, 1), PrinciplesStatus(completed);
      briefing := template;
      briefing := ReplaceAll(briefing, DateToken, d.date);
      briefing := ReplaceAll(briefing, WeekdayToken, d.weekday);
      briefing := ReplaceAll(briefing, SleepRatingToken, SleepRatingText);
      briefing := ReplaceAll(briefing, SleepHoursToken, SleepHoursText);
      briefing := ReplaceAll(briefing, MoodEmojiToken, emoji);
      briefing := ReplaceAll(briefing, MoodTextToken, moodText);
      briefing := ReplaceAll(briefing, WorkToken, work);
      briefing := ReplaceAll(briefing, InsightsToken, insights);
      briefing := ReplaceAll(briefing, AiToken, ai);
      briefing := ReplaceAll(briefing, CompletedToken, count);
      briefing := ReplaceAll(briefing, StatusToken, status);
      briefing := ReplaceAll(briefing, TimestampToken, timestamp);
      RenderedChain(template, d, timestamp);
    }

    /** `update_metrics` with the stored metrics given (`None` when there is
        no metrics file): the result is written back in place of the file. */
    method UpdateMetrics(stored: Option<map<string, Json>>) returns (metrics: map<string, Json>)
      ensures metrics == Updated(stored, TodaySummary(data, dateStr))
    {
      if stored.Some? {
        metrics := stored.value;
      } else {
        metrics := DefaultMetrics;
      }
      metrics := metrics[TodayKey := TodaySummary(data, dateStr)];
    }
  }

  /** The corrected rendering, written out as the twelve replace calls on
      the values the script computes for them. */
  lemma RenderedChain(template: string, data: DailyRecord, timestamp: string)
    ensures
      var moodText := MoodText(if data.mood.Some? then data.mood.value else Neutral);
      var completed := CompletedCount(data.principles);
      RenderIntended(template, data, timestamp) ==
        ReplaceAll(ReplaceAll(ReplaceAll(ReplaceAll(ReplaceAll(ReplaceAll(
        ReplaceAll(ReplaceAll(ReplaceAll(ReplaceAll(ReplaceAll(ReplaceAll(template,
          DateToken, data.date),
          WeekdayToken, data.weekday),
          SleepRatingToken, SleepRatingText),
          SleepHoursToken, SleepHoursText),
          MoodEmojiToken, MoodEmoji(data.mood)),
          MoodTextToken, moodText),
          WorkToken, RenderList(data.work, BulletPrefix)),
          InsightsToken, RenderList(data.insights, InsightPrefix)),
          AiToken, RenderList(data.aiCollab, BulletPrefix)),
          CompletedToken, PadDecimal(completed, 1)),
          StatusToken, PrinciplesStatus(completed)),
          TimestampToken, timestamp)
    ensures data.mood.Some? ==> RenderAsWritten(template, data, timestamp) == Success(RenderIntended(template, data, timestamp))
  {
    TokensNonEmpty();
    TwelveSteps(template, IntendedSubstitutions(data, timestamp));
    if data.mood.Some? {
      IntendedAgrees(template, data, timestamp);
    }
  }
}
