/** The generator's `data` dictionary: one day's record, filled in by the
    journal parser and read by the renderer and the metrics update. */
module Records {
  import opened Wrappers
  import opened Dates

  /** The three values the parser stores under `"mood"`. */
  datatype Mood = Positive | Negative | Neutral

  /** The mood as the text stored in `data["mood"]`. */
  function MoodText(m: Mood): (t: string)
    ensures |t| == 2
  {
    match m
    case Positive => "积极"
    case Negative => "消极"
    case Neutral => "中性"
  }

  /** `data["principles"]`: the three habit flags `app`, `margin`, `output`. */
  datatype Principles = Principles(app: bool, margin: bool, output: bool)

  /** `data`. `sleep` and `exercise` are left out: nothing in the script sets
      them, so they are always `None`. `thinkingChars` is `None` while the
      `"thinking_chars"` key is absent. */
  datatype DailyRecord = DailyRecord(
    date: string,
    weekday: string,
    mood: Option<Mood>,
    work: seq<string>,
    insights: seq<string>,
    outputs: seq<string>,
    aiCollab: seq<string>,
    principles: Principles,
    thinkingChars: Option<nat>)

  /** The record `__init__` builds for a date: no mood, empty lists, every
      principle false. */
  function InitialRecord(d: Date): (r: DailyRecord)
    requires ValidDate(d)
    ensures ParseDate(r.date, '-') == Some(d) && r.weekday == WeekdayNames[Weekday(d)]
    ensures r.mood.None? && r.thinkingChars.None?
    ensures r.work == r.insights == r.outputs == r.aiCollab == []
    ensures !r.principles.app && !r.principles.margin && !r.principles.output
  {
    DailyRecord(DashDate(d), WeekdayLabel(d), None, [], [], [], [],
                Principles(false, false, false), None)
  }

  /** Different moods are stored as different texts. */
  lemma MoodTextInjective(a: Mood, b: Mood)
    requires MoodText(a) == MoodText(b)
    ensures a == b
  {
  }
}
