/** The dashboard metrics: a JSON object whose `"today"` entry is rewritten
    from the day's record on every run, leaving every other entry alone. */
module Metrics {
  import opened Wrappers
  import opened Records

  /** JSON values as `json.loads` produces them. The day's summary only
      holds integers; any other number in a stored metrics file is kept
      as it is, so its kind does not matter to the update. */
  datatype Json =
    | JNull
    | JBool(b: bool)
    | JNum(n: int)
    | JStr(s: string)
    | JArr(items: seq<Json>)
    | JObj(fields: map<string, Json>)

  const TodayKey: string := "today"

  /** The shape used when no metrics file exists yet. */
  const DefaultMetrics: map<string, Json> :=
    map["weekly" := JObj(map["days" := JArr([])]),
        "monthly" := JObj(map["principleCompletion" := JObj(map[])])]

  /** The keys of the `"today"` record. */
  const SummaryKeys: set<string> := {"date", "sleep", "exercise", "thinking", "mood", "principles"}

  /** The principles map as JSON: the three flags as booleans. */
  function PrinciplesJson(p: Principles): (j: Json)
    ensures j.JObj? && j.fields.Keys == {"app", "margin", "output"}
    ensures j.fields["app"] == JBool(p.app) && j.fields["margin"] == JBool(p.margin)
         && j.fields["output"] == JBool(p.output)
  {
    JObj(map["app" := JBool(p.app), "margin" := JBool(p.margin), "output" := JBool(p.output)])
  }

  /** The record stored under `"today"`. Sleep and exercise are never set,
      so they are `null`; the thinking length defaults to 0; an unset mood
      is `null`. */
  function TodaySummary(data: DailyRecord, dateStr: string): (j: Json)
    ensures j.JObj? && j.fields.Keys == SummaryKeys
    ensures j.fields["date"] == JStr(dateStr)
    ensures j.fields["sleep"] == JNull && j.fields["exercise"] == JNull
    ensures j.fields["thinking"].JNum? && j.fields["thinking"].n >= 0
    ensures j.fields["thinking"].n == 0 <== data.thinkingChars.None?
    ensures j.fields["mood"] == JNull <==> data.mood.None?
    ensures data.thinkingChars.Some? ==> j.fields["thinking"] == JNum(data.thinkingChars.value)
    ensures data.mood.Some? ==> j.fields["mood"] == JStr(MoodText(data.mood.value))
    ensures j.fields["principles"] == PrinciplesJson(data.principles)
  {
    JObj(map[
      "date" := JStr(dateStr),
      "sleep" := JNull,
      "exercise" := JNull,
      "thinking" := JNum(match data.thinkingChars case Some(c) => c case None => 0),
      "mood" := (match data.mood case Some(m) => JStr(MoodText(m)) case None => JNull),
      "principles" := PrinciplesJson(data.principles)])
  }

  /** The stored metrics, or the default shape when there are none. */
  function Loaded(stored: Option<map<string, Json>>): (m: map<string, Json>)
    ensures stored.Some? ==> m == stored.value
    ensures stored.None? ==> m.Keys == {"weekly", "monthly"}
  {
    match stored
    case Some(m) => m
    case None => DefaultMetrics
  }

  /** The metrics after the update: `"today"` holds the summary and every
      other key keeps the value it had (the default shape when nothing was
      stored). */
  function Updated(stored: Option<map<string, Json>>, today: Json): (m: map<string, Json>)
    ensures m.Keys == Loaded(stored).Keys + {TodayKey}
    ensures m[TodayKey] == today
    ensures forall k :: k in m && k != TodayKey ==> m[k] == Loaded(stored)[k]
  {
    Loaded(stored)[TodayKey := today]
  }

  /** Updating twice with the same summary gives what one update gives. */
  lemma UpdateIdempotent(stored: Option<map<string, Json>>, today: Json)
    ensures Updated(Some(Updated(stored, today)), today) == Updated(stored, today)
  {
    var once := Updated(stored, today);
    var twice := Updated(Some(once), today);
    assert twice.Keys == once.Keys;
    forall k | k in twice ensures twice[k] == once[k] {
      if k != TodayKey {
        assert twice[k] == once[k];
      }
    }
  }

  /** Without stored metrics the result has exactly the default keys and
      `"today"`, with the default entries untouched. */
  lemma FirstUpdateShape(today: Json)
    ensures Updated(None, today).Keys == {"weekly", "monthly", TodayKey}
    ensures Updated(None, today)["weekly"] == JObj(map["days" := JArr([])])
    ensures Updated(None, today)["monthly"] == JObj(map["principleCompletion" := JObj(map[])])
  {
    assert DefaultMetrics.Keys == {"weekly", "monthly"};
  }

  /** The update only depends on the stored entries other than `"today"`:
      an earlier `"today"` is discarded. */
  lemma OldTodayDiscarded(stored: map<string, Json>, previous: Json, today: Json)
    ensures Updated(Some(stored[TodayKey := previous]), today) == Updated(Some(stored), today)
  {
    var a := Updated(Some(stored[TodayKey := previous]), today);
    var b := Updated(Some(stored), today);
    assert a.Keys == b.Keys;
  }
}
