/** A worked journal: one `[work]` line and one `[insight]` line after the
    `## Structured` heading, each closed by a ` #` hashtag. */
module JournalExample {
  import opened Wrappers
  import opened Text
  import opened Journal

  /** The `## Structured` section of the sample, written in short pieces:
      a newline, `[work] shipped feature X #done`, a newline and
      `[insight] sleep matters #note`. Positions: `[work] ` at 1, its item
      at 8..25, ` #` at 25; `[insight] ` at 32, its item at 42..55, ` #` at
      55; 61 characters in all. */
  const Section: string :=
    "\n[work] " + "shipped feature X" + " #done\n" + "[insight] " + "sleep matters" + " #note"

  const Sample: string := StructuredHeading + Section

  lemma SectionFound()
    ensures |Section| == 61
    ensures StructuredSection(Sample) == Some(Section)
  {
    assert Sample[0..|StructuredHeading|] == StructuredHeading;
    assert OccursAt(Sample, StructuredHeading, 0);
    assert Sample[|StructuredHeading|..] == Section;
  }

  lemma WorkItemMatches()
    ensures MatchAt(Section, WorkTag, 1) == Some(ItemMatch("shipped feature X", 27))
  {
    var item := "shipped feature X";
    assert '#' !in item;
    assert Section[1..8] == WorkTag;
    assert Section[8..25] == item;
    forall t | 0 <= t < |item| - 1 ensures !(item[t] == ' ' && item[t + 1] == '#') {
      assert item[t + 1] in item;
    }
    DelimitedItem(Section, WorkTag, 1, item);
  }

  lemma InsightItemMatches()
    ensures MatchAt(Section, InsightTag, 32) == Some(ItemMatch("sleep matters", 57))
  {
    var item := "sleep matters";
    assert '#' !in item;
    assert Section[32..42] == InsightTag;
    assert Section[42..55] == item;
    forall t | 0 <= t < |item| - 1 ensures !(item[t] == ' ' && item[t + 1] == '#') {
      assert item[t + 1] in item;
    }
    DelimitedItem(Section, InsightTag, 32, item);
  }

  /** The only `[` in the section are at 1 (before `work`) and 32 (before
      `insight`). */
  lemma Brackets(p: int)
    requires 0 <= p < |Section| - 1
    ensures Section[p] == '[' ==> (p == 1 && Section[p + 1] == 'w') || (p == 32 && Section[p + 1] == 'i')
  {
    assert p == 0 || p == 1 || p == 2 || p == 3 || p == 4 || p == 5 || p == 6 || p == 7 || p == 8 || p == 9 || p == 10 || p == 11 || p == 12 || p == 13 || p == 14 || p == 15 || p == 16 || p == 17 || p == 18 || p == 19 || p == 20 || p == 21 || p == 22 || p == 23 || p == 24 || p == 25 || p == 26 || p == 27 || p == 28 || p == 29 || p == 30 || p == 31 || p == 32 || p == 33 || p == 34 || p == 35 || p == 36 || p == 37 || p == 38 || p == 39 || p == 40 || p == 41 || p == 42 || p == 43 || p == 44 || p == 45 || p == 46 || p == 47 || p == 48 || p == 49 || p == 50 || p == 51 || p == 52 || p == 53 || p == 54 || p == 55 || p == 56 || p == 57 || p == 58 || p == 59;
  }

  lemma OnlyTagAt(tag: string, at: int, lo: int, hi: int)
    requires tag in {WorkTag, InsightTag, AiTag}
    requires tag == WorkTag ==> at == 1
    requires tag == InsightTag ==> at == 32
    requires tag == AiTag ==> at == -1
    ensures forall p :: lo <= p < hi && p != at ==> !OccursAt(Section, tag, p)
  {
    forall p | lo <= p < hi && p != at ensures !OccursAt(Section, tag, p) {
      OccursAtHead(Section, tag, p);
      if 0 <= p < |Section| - 1 {
        Brackets(p);
      }
    }
  }

  lemma WorkItems()
    ensures FindAll(Section, WorkTag) == ["shipped feature X"]
  {
    WorkItemMatches();
    OnlyTagAt(WorkTag, 1, 0, |Section|);
    var ms := [Found(1, "shipped feature X", 27)];
    assert LeftmostMatches(Attempts(Section, WorkTag), |Section|, 0, ms);
    FindAllIsLeftmost(Section, WorkTag, ms);
  }

  lemma InsightItems()
    ensures FindAll(Section, InsightTag) == ["sleep matters"]
  {
    InsightItemMatches();
    OnlyTagAt(InsightTag, 32, 0, |Section|);
    var ms := [Found(32, "sleep matters", 57)];
    assert LeftmostMatches(Attempts(Section, InsightTag), |Section|, 0, ms);
    FindAllIsLeftmost(Section, InsightTag, ms);
  }

  lemma NoAiItems()
    ensures FindAll(Section, AiTag) == []
  {
    OnlyTagAt(AiTag, -1, 0, |Section|);
    assert !Contains(Section, AiTag);
  }

  /** The sample journal yields the work item `shipped feature X`, the
      insight `sleep matters` and no AI item: each item stops at its ` #`. */
  lemma SampleExtraction()
    ensures Extract(Sample).work == ["shipped feature X"]
    ensures Extract(Sample).insights == ["sleep matters"]
    ensures Extract(Sample).aiCollab == []
  {
    SectionFound();
    WorkItems();
    InsightItems();
    NoAiItems();
  }
}
