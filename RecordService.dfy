/** The record service: the once-a-day rule and seed reward of record creation, the rolling weekly
    aggregate refreshed after each create or edit, the local keyword and summary generators an edit
    uses, and the emotion distribution of the statistics call. */
module RecordService {
  import opened Common
  import opened EmotionColor
  import opened AiAnalysis
  import opened Models

  // ---------------------------------------------------------------------------------------------
  // The weekly upsert: drop the items of the item's date, append it, keep the last `periodDays`.

  /** The items whose date is not `day`. */
  function OtherDays(items: seq<WeeklyItem>, day: int): (r: seq<WeeklyItem>)
    ensures |r| <= |items|
    ensures forall x :: x in r <==> x in items && x.date != day
  {
    if items == [] then []
    else
      var rest := OtherDays(items[..|items| - 1], day);
      assert forall x :: x in items <==> x in items[..|items| - 1] || x == items[|items| - 1];
      if items[|items| - 1].date != day then rest + [items[|items| - 1]] else rest
  }

  /** Filtering distributes over concatenation, so the kept items stay in their relative order. */
  lemma {:induction false} OtherDaysAppend(a: seq<WeeklyItem>, b: seq<WeeklyItem>, day: int)
    ensures OtherDays(a + b, day) == OtherDays(a, day) + OtherDays(b, day)
    decreases |b|
  {
    if b == [] {
      assert a + b == a;
    } else {
      var b0 := b[..|b| - 1];
      assert (a + b)[..|a + b| - 1] == a + b0;
      OtherDaysAppend(a, b0, day);
    }
  }

  /** The new item list: `[item]` for a new cache, otherwise the other days' items, then the item,
      cut to the last `periodDays` when longer. */
  function Upsert(existing: Option<seq<WeeklyItem>>, item: WeeklyItem, periodDays: int): seq<WeeklyItem>
  {
    match existing
      case None => [item]
      case Some(items) =>
        var kept := OtherDays(items, item.date) + [item];
        if |kept| > periodDays then PyTail(kept, periodDays) else kept
  }

  /** With a positive period, the item is last and is the only one of its date, a new cache holds
      only the item, and an existing one keeps the latest of its other days' items, in order, so
      that at most `periodDays` remain. */
  /** The other days' items, then the item, cut to the last `n`. */
  lemma KeptTail(others: seq<WeeklyItem>, item: WeeklyItem, n: int, r: seq<WeeklyItem>)
    requires n >= 1
    requires forall i :: 0 <= i < |others| ==> others[i].date != item.date
    requires r == (if |others| + 1 > n then (others + [item])[|others| + 1 - n..] else others + [item])
    ensures r != [] && r[|r| - 1] == item
    ensures forall i :: 0 <= i < |r| - 1 ==> r[i].date != item.date
    ensures |r| == (if |others| + 1 <= n then |others| + 1 else n)
    ensures r[..|r| - 1] == others[|others| - (|r| - 1)..]
  {
    var kept := others + [item];
    assert kept[..|others|] == others && kept[|others|] == item;
    if |others| + 1 > n {
      var lo := |others| + 1 - n;
      assert r[..|r| - 1] == kept[lo..|others|] == others[lo..];
      forall i | 0 <= i < |r| - 1 ensures r[i].date != item.date {
        assert r[i] == others[lo + i];
      }
    } else {
      assert r[..|r| - 1] == others;
    }
  }

  lemma UpsertShape(existing: Option<seq<WeeklyItem>>, item: WeeklyItem, periodDays: int)
    requires periodDays >= 1
    ensures var r := Upsert(existing, item, periodDays);
            && r != [] && r[|r| - 1] == item
            && (forall i :: 0 <= i < |r| - 1 ==> r[i].date != item.date)
            && (existing.None? ==> r == [item])
            && (existing.Some? ==>
                  var others := OtherDays(existing.value, item.date);
                  && |r| == (if |others| + 1 <= periodDays then |others| + 1 else periodDays)
                  && r[..|r| - 1] == others[|others| - (|r| - 1)..])
  {
    if existing.Some? {
      var others := OtherDays(existing.value, item.date);
      assert forall i :: 0 <= i < |others| ==> others[i] in others;
      var kept := others + [item];
      var r := Upsert(existing, item, periodDays);
      assert r == (if |others| + 1 > periodDays then kept[|kept| - periodDays..] else kept);
      KeptTail(others, item, periodDays, r);
    }
  }


  /** How many items carry a negative primary emotion. */
  function NegativeCount(items: seq<WeeklyItem>): (n: nat)
    ensures n <= |items|
  {
    if items == [] then 0
    else NegativeCount(items[..|items| - 1]) + (if items[|items| - 1].primaryEmotion in NegativeEmotions then 1 else 0)
  }

  /** An item without a primary emotion is stored with "" and never counts as negative. */
  lemma EmptyEmotionNotNegative(items: seq<WeeklyItem>, date: int, summary: string)
    ensures NegativeCount(items + [WeeklyItem(date, summary, "")]) == NegativeCount(items)
  {
    assert (items + [WeeklyItem(date, summary, "")])[..|items|] == items;
  }

  /** The non-empty summaries, in item order. */
  function Summaries(items: seq<WeeklyItem>): (ss: seq<string>)
    ensures forall s :: s in ss ==> s != ""
  {
    if items == [] then []
    else
      var rest := Summaries(items[..|items| - 1]);
      if items[|items| - 1].summary != "" then rest + [items[|items| - 1].summary] else rest
  }

  /** The last three non-empty summaries joined by single spaces. */
  function LastThreeJoined(items: seq<WeeklyItem>): string
  {
    Join(" ", PyTail(Summaries(items), 3))
  }

  /** `" ".join(summaries[-3:])[:200]`. */
  function RollUp(items: seq<WeeklyItem>): string
  {
    Prefix(LastThreeJoined(items), 200)
  }

  /** The roll-up is at most 200 characters, always a prefix of the joined last three summaries,
      and all of it when that fits. */
  lemma RollUpBounds(items: seq<WeeklyItem>)
    ensures var r := RollUp(items);
            && |r| <= 200
            && r == LastThreeJoined(items)[..|r|]
            && (|LastThreeJoined(items)| <= 200 ==> r == LastThreeJoined(items))
  {
  }

  /** The cache after an upsert: new items, and, when there are any, the negative ratio over them
      and the roll-up; with no items the two derived fields keep their old values. */
  function Refresh(cache: Option<WeeklyCache>, item: WeeklyItem, periodDays: int): (c: WeeklyCache)
    ensures c.items == Upsert(if cache.Some? then Some(cache.value.items) else None, item, periodDays)
    ensures c.items != [] ==>
              && c.negativeRatio == Some(Ratio(NegativeCount(c.items), |c.items|))
              && c.oneLineSummary == Some(RollUp(c.items))
    ensures c.items == [] ==> cache.Some? && c.negativeRatio == cache.value.negativeRatio
                              && c.oneLineSummary == cache.value.oneLineSummary
  {
    var items := Upsert(if cache.Some? then Some(cache.value.items) else None, item, periodDays);
    if items != [] then WeeklyCache(items, Some(RollUp(items)), Some(Ratio(NegativeCount(items), |items|)))
    else WeeklyCache(items, cache.value.oneLineSummary, cache.value.negativeRatio)
  }

  /** With a positive period the refreshed cache always has items, and its ratio lies in [0, 1]. */
  lemma RefreshRatio(cache: Option<WeeklyCache>, item: WeeklyItem, periodDays: int)
    requires periodDays >= 1
    ensures var c := Refresh(cache, item, periodDays);
            c.items != [] && c.negativeRatio.Some? && RatioInUnitRange(c.negativeRatio.value)
            && c.negativeRatio.value.total == |c.items| <= periodDays
  {
    UpsertShape(if cache.Some? then Some(cache.value.items) else None, item, periodDays);
  }

  /** The primary emotion an item stores: the analysis's label, or "" when it has none. */
  function PrimaryOf(analysis: Option<EmotionAnalysis>): string
  {
    if analysis.Some? && analysis.value.primaryEmotion.Some? then analysis.value.primaryEmotion.value else ""
  }

  /** The filter of the existing items, as a loop. */
  method FilterOtherDays(items: seq<WeeklyItem>, day: int) returns (kept: seq<WeeklyItem>)
    ensures kept == OtherDays(items, day)
  {
    kept := [];
    for i := 0 to |items|
      invariant kept == OtherDays(items[..i], day)
    {
      assert items[..i + 1][..i] == items[..i];
      if items[i].date != day {
        kept := kept + [items[i]];
      }
    }
    assert items[..|items|] == items;
  }

  /** The negative count and the non-empty summaries, collected in one pass. */
  method CountAndCollect(items: seq<WeeklyItem>) returns (negative: nat, summaries: seq<string>)
    ensures negative == NegativeCount(items) && summaries == Summaries(items)
  {
    negative := 0;
    summaries := [];
    for i := 0 to |items|
      invariant negative == NegativeCount(items[..i])
      invariant summaries == Summaries(items[..i])
    {
      assert items[..i + 1][..i] == items[..i];
      if items[i].primaryEmotion in NegativeEmotions {
        negative := negative + 1;
      }
      if items[i].summary != "" {
        summaries := summaries + [items[i].summary];
      }
    }
    assert items[..|items|] == items;
  }

  /** The cache row after an upsert, computed step by step. */
  method RefreshCache(cache: Option<WeeklyCache>, item: WeeklyItem, periodDays: int) returns (updated: WeeklyCache)
    ensures updated == Refresh(cache, item, periodDays)
  {
    var items: seq<WeeklyItem>;
    if cache.None? {
      items := [item];
    } else {
      items := FilterOtherDays(cache.value.items, item.date);
      items := items + [item];
      if |items| > periodDays {
        items := PyTail(items, periodDays);
      }
    }
    var negative, summaries := CountAndCollect(items);
    if |items| > 0 {
      updated := WeeklyCache(items, Some(Prefix(Join(" ", PyTail(summaries, 3)), 200)), Some(Ratio(negative, |items|)));
    } else {
      updated := WeeklyCache(items, cache.value.oneLineSummary, cache.value.negativeRatio);
    }
  }

  /** The cache key of a user's aggregate over `periodDays`, and its row if there is one. */
  function CacheRow(rows: map<(int, int), WeeklyCache>, userId: int, periodDays: int): Option<WeeklyCache>
  {
    if (userId, periodDays) in rows then Some(rows[(userId, periodDays)]) else None
  }

  /** `_update_weekly_cache_after_create`: the row of (user, period) becomes the refreshed cache,
      created when missing; no other row changes. */
  method UpdateWeeklyCache(weekly: WeeklyCaches, userId: int, today: int, summary: string,
                           analysis: Option<EmotionAnalysis>, periodDays: int)
    modifies weekly
    ensures weekly.rows == old(weekly.rows)[(userId, periodDays) :=
              Refresh(CacheRow(old(weekly.rows), userId, periodDays), WeeklyItem(today, summary, PrimaryOf(analysis)), periodDays)]
  {
    var updated := RefreshCache(CacheRow(weekly.rows, userId, periodDays), WeeklyItem(today, summary, PrimaryOf(analysis)), periodDays);
    weekly.rows := weekly.rows[(userId, periodDays) := updated];
  }

  // ---------------------------------------------------------------------------------------------
  // `_extract_keywords`

  const RecordVocabulary: seq<string> := [
    "기쁨", "신뢰", "두려움", "놀람", "슬픔", "혐오", "분노", "기대",
    "행복", "안전", "불안", "예상", "우울", "짜증", "화남", "희망"
  ]

  /** `xs` is `ys` with some entries dropped and the rest kept in order. */
  predicate Subsequence(xs: seq<string>, ys: seq<string>)
    decreases |ys|
  {
    if xs == [] then true
    else if ys == [] then false
    else (xs[|xs| - 1] == ys[|ys| - 1] && Subsequence(xs[..|xs| - 1], ys[..|ys| - 1]))
         || Subsequence(xs, ys[..|ys| - 1])
  }

  /** The words of `vocabulary` that occur in `content`, in vocabulary order. */
  function Matching(content: string, vocabulary: seq<string>): (ms: seq<string>)
    ensures |ms| <= |vocabulary|
    ensures forall w :: w in ms <==> w in vocabulary && Contains(content, w)
    ensures Subsequence(ms, vocabulary)
  {
    if vocabulary == [] then []
    else
      var rest := Matching(content, vocabulary[..|vocabulary| - 1]);
      var w := vocabulary[|vocabulary| - 1];
      assert forall x :: x in vocabulary <==> x in vocabulary[..|vocabulary| - 1] || x == w;
      if Contains(content, w) then rest + [w] else rest
  }

  /** The keywords of a text: up to five matching vocabulary words, or the two default words. */
  function ExtractKeywords(content: string): (ks: seq<string>)
    ensures 1 <= |ks| <= 5
    ensures Matching(content, RecordVocabulary) == [] <==> ks == ["일상", "감정기록"]
    ensures ks != ["일상", "감정기록"] ==> ks == Prefix(Matching(content, RecordVocabulary), 5)
  {
    var ms := Matching(content, RecordVocabulary);
    if ms == [] then ["일상", "감정기록"]
    else
      assert "일상" !in RecordVocabulary;
      assert ms[0] in RecordVocabulary;
      Prefix(ms, 5)
  }

  /** Each returned keyword is a vocabulary word that occurs in the text, unless none does. */
  lemma ExtractKeywordsOccur(content: string)
    ensures var ks := ExtractKeywords(content);
            ks == ["일상", "감정기록"] || forall k :: k in ks ==> k in RecordVocabulary && Contains(content, k)
  {
    var ms := Matching(content, RecordVocabulary);
    var ks := ExtractKeywords(content);
    if ks != ["일상", "감정기록"] {
      assert ks == ms[..|ks|];
      forall k | k in ks ensures k in ms {
        var i :| 0 <= i < |ks| && ks[i] == k;
        assert ms[i] == k;
      }
    }
  }

  /** One more vocabulary word adds itself when it occurs and nothing otherwise. */
  lemma MatchingStep(content: string, vocabulary: seq<string>, i: nat)
    requires i < |vocabulary|
    ensures Matching(content, vocabulary[..i + 1])
            == Matching(content, vocabulary[..i]) + (if Contains(content, vocabulary[i]) then [vocabulary[i]] else [])
  {
    assert vocabulary[..i + 1][..i] == vocabulary[..i];
  }

  /** The loop that appends each matching word, then the default and the cap. */
  method ExtractKeywordsLoop(content: string) returns (keywords: seq<string>)
    ensures keywords == ExtractKeywords(content)
  {
    keywords := [];
    for i := 0 to |RecordVocabulary|
      invariant keywords == Matching(content, RecordVocabulary[..i])
    {
      MatchingStep(content, RecordVocabulary, i);
      if Contains(content, RecordVocabulary[i]) {
        keywords := keywords + [RecordVocabulary[i]];
      }
    }
    assert RecordVocabulary[..|RecordVocabulary|] == RecordVocabulary;
    if |keywords| == 0 {
      keywords := ["일상", "감정기록"];
    }
    keywords := Prefix(keywords, 5);
  }

  // ---------------------------------------------------------------------------------------------
  // `_generate_summary`

  /** The summary of a text: the template of the emotion the keyword scorer picks. That scorer
      only names wheel emotions, so the generic sentence is never produced. */
  function GenerateSummary(content: string): (s: string)
    ensures s in SummarySentences
  {
    var e := AnalyzeEmotionFromText(content).primaryEmotion;
    assert IsEmotion(e);
    SummaryFor(e)
  }

  // ---------------------------------------------------------------------------------------------
  // `create_record`

  /** What the AI calls produced for a text: keywords, a summary and an analysis. */
  datatype AiOutputs = AiOutputs(keywords: seq<string>, summary: string, analysis: Option<EmotionAnalysis>)

  /** The primary emotion as a one-keyword list, when the analysis names a non-empty one. */
  function PrimaryKeyword(analysis: Option<EmotionAnalysis>): seq<string>
  {
    match analysis
      case Some(EmotionAnalysis(Some(p), _)) => if p != "" then [p] else []
      case _ => []
  }

  /** The record's keywords: the model's, else the local extractor's, else the primary emotion. */
  function RecordKeywords(ai: AiOutputs, content: string): seq<string>
  {
    var ks := if ai.keywords == [] then ExtractKeywords(content) else ai.keywords;
    if ks == [] then PrimaryKeyword(ai.analysis) else ks
  }

  /** The local extractor never comes back empty, so the last resort never applies. */
  lemma PrimaryKeywordFallbackUnused(ai: AiOutputs, content: string)
    ensures RecordKeywords(ai, content) == if ai.keywords == [] then ExtractKeywords(content) else ai.keywords
    ensures RecordKeywords(ai, content) != []
  {
  }

  /** Someone already wrote a record on the day of `now`. */
  predicate WroteOn(records: seq<Record>, userId: int, now: int)
  {
    exists i :: 0 <= i < |records| && records[i].userId == userId && Day(records[i].createdAt) == Day(now)
  }

  /** The daily limit applies to everyone but an existing developer. */
  predicate LimitApplies(users: map<int, User>, userId: int)
  {
    !(userId in users && users[userId].isDeveloper)
  }

  predicate MayCreate(users: map<int, User>, records: seq<Record>, userId: int, now: int)
  {
    !LimitApplies(users, userId) || !WroteOn(records, userId, now)
  }

  /** Two seeds for an existing author; an unknown user id changes no user. */
  function Rewarded(users: map<int, User>, userId: int): (us: map<int, User>)
    ensures us.Keys == users.Keys
    ensures userId in users ==> us[userId] == users[userId].(seeds := users[userId].seeds + 2)
    ensures forall u :: u in users && u != userId ==> us[u] == users[u]
  {
    if userId in users then users[userId := users[userId].(seeds := users[userId].seeds + 2)] else users
  }

  /** Once a user the limit applies to has written today, a second record the same day is refused. */
  lemma SecondRecordRefused(users: map<int, User>, records: seq<Record>, rec: Record, now: int)
    requires LimitApplies(users, rec.userId) && Day(rec.createdAt) == Day(now)
    ensures LimitApplies(Rewarded(users, rec.userId), rec.userId)
    ensures !MayCreate(Rewarded(users, rec.userId), records + [rec], rec.userId, now)
  {
    assert (records + [rec])[|records|] == rec;
  }

  const ErrDailyLimit := "오늘 이미 감정 기록을 작성했습니다. 하루에 한 번만 가능합니다."

  /** `_get_today_record`: a scan for a record of the user dated the day of `now`. */
  method HasTodayRecord(records: seq<Record>, userId: int, now: int) returns (found: bool)
    ensures found == WroteOn(records, userId, now)
  {
    found := false;
    var i := 0;
    while i < |records|
      invariant 0 <= i <= |records|
      invariant forall j :: 0 <= j < i ==> !(records[j].userId == userId && Day(records[j].createdAt) == Day(now))
    {
      if records[i].userId == userId && Day(records[i].createdAt) == Day(now) {
        return true;
      }
      i := i + 1;
    }
  }

  /** The two keyword fallbacks, in the order the source tries them. */
  method ChooseKeywords(ai: AiOutputs, content: string) returns (keywords: seq<string>)
    ensures keywords == RecordKeywords(ai, content)
  {
    keywords := ai.keywords;
    if keywords == [] {
      keywords := ExtractKeywordsLoop(content);
    }
    if keywords == [] {
      keywords := PrimaryKeyword(ai.analysis);
    }
  }

  /** `create_record`: refused when the daily limit applies and the user already wrote today;
      otherwise the record is appended under the next id, an existing author gets two seeds, and
      the seven-day aggregate takes the new summary and emotion under today's date. */
  method CreateRecord(users: Users, records: Records, weekly: WeeklyCaches, userId: int, content: string,
                      sleepScore: Option<int>, stressScore: Option<int>, shareWithCounselor: bool,
                      now: int, ai: AiOutputs) returns (r: Result<Record>)
    requires records.Valid()
    modifies users, records, weekly
    ensures records.Valid()
    ensures !MayCreate(old(users.rows), old(records.rows), userId, now) ==>
              && r == Failure(ErrDailyLimit)
              && users.rows == old(users.rows) && records.rows == old(records.rows)
              && records.nextId == old(records.nextId) && weekly.rows == old(weekly.rows)
    ensures MayCreate(old(users.rows), old(records.rows), userId, now) ==>
              && r.Success?
              && r.value == Record(old(records.nextId), userId, now, content, sleepScore, stressScore,
                                   RecordKeywords(ai, content), ai.summary, ai.analysis, shareWithCounselor)
              && records.rows == old(records.rows) + [r.value] && records.nextId == old(records.nextId) + 1
              && users.rows == Rewarded(old(users.rows), userId)
              && weekly.rows == old(weekly.rows)[(userId, 7) :=
                   Refresh(CacheRow(old(weekly.rows), userId, 7), WeeklyItem(Day(now), ai.summary, PrimaryOf(ai.analysis)), 7)]
  {
    if LimitApplies(users.rows, userId) {
      var wrote := HasTodayRecord(records.rows, userId, now);
      if wrote {
        return Failure(ErrDailyLimit);
      }
    }
    var keywords := ChooseKeywords(ai, content);
    var rec := Record(records.nextId, userId, now, content, sleepScore, stressScore, keywords, ai.summary,
                      ai.analysis, shareWithCounselor);
    records.rows := records.rows + [rec];
    records.nextId := records.nextId + 1;
    users.rows := Rewarded(users.rows, userId);
    UpdateWeeklyCache(weekly, userId, Day(now), ai.summary, ai.analysis, 7);
    r := Success(rec);
  }

  // ---------------------------------------------------------------------------------------------
  // `update_record`

  /** The analysis an edit stores: the keyword scorer's label and colour. */
  function AnalysisOf(a: TextAnalysis): EmotionAnalysis
  {
    EmotionAnalysis(Some(a.primaryEmotion),
                    Some(ColorInfo(Some([a.color.rgb.r, a.color.rgb.g, a.color.rgb.b]), Some(Num(a.color.intensity)))))
  }

  /** The edited record: new content brings new keywords, summary and analysis from the local
      generators; every other given field is overwritten; the rest is kept. */
  function Edited(rec: Record, content: Option<string>, sleepScore: Option<int>, stressScore: Option<int>,
                  shareWithCounselor: Option<bool>): (e: Record)
    ensures e.id == rec.id && e.userId == rec.userId && e.createdAt == rec.createdAt
    ensures content.None? ==> e.content == rec.content && e.keywords == rec.keywords
                              && e.summary == rec.summary && e.analysis == rec.analysis
    ensures content.Some? ==> e.content == content.value && e.summary in SummarySentences
                              && e.keywords == ExtractKeywords(content.value)
                              && e.summary == GenerateSummary(content.value)
                              && e.analysis == Some(AnalysisOf(AnalyzeEmotionFromText(content.value)))
    ensures e.sleepScore == (if sleepScore.Some? then sleepScore else rec.sleepScore)
    ensures e.stressScore == (if stressScore.Some? then stressScore else rec.stressScore)
    ensures e.shareWithCounselor == (if shareWithCounselor.Some? then shareWithCounselor.value
                                     else rec.shareWithCounselor)
  {
    var r1 := if content.Some? then
                rec.(content := content.value, keywords := ExtractKeywords(content.value),
                     summary := GenerateSummary(content.value),
                     analysis := Some(AnalysisOf(AnalyzeEmotionFromText(content.value))))
              else rec;
    var r2 := if sleepScore.Some? then r1.(sleepScore := sleepScore) else r1;
    var r3 := if stressScore.Some? then r2.(stressScore := stressScore) else r2;
    if shareWithCounselor.Some? then r3.(shareWithCounselor := shareWithCounselor.value) else r3
  }

  /** The position of the record with this id and owner, if any. */
  function FindRecord(rows: seq<Record>, recordId: int, userId: int): (p: Option<nat>)
    ensures p.Some? ==> p.value < |rows| && rows[p.value].id == recordId && rows[p.value].userId == userId
    ensures p.None? ==> forall i :: 0 <= i < |rows| ==> !(rows[i].id == recordId && rows[i].userId == userId)
  {
    if rows == [] then None
    else if rows[0].id == recordId && rows[0].userId == userId then Some(0)
    else match FindRecord(rows[1..], recordId, userId)
      case None => None
      case Some(k) => Some(k + 1)
  }

  /** `update_record`: no change for a missing or foreign record; otherwise the record is edited and
      the weekly cache is refreshed under today's date, whatever date the record has and even when
      the content did not change. */
  method UpdateRecord(records: Records, weekly: WeeklyCaches, recordId: int, userId: int, content: Option<string>,
                      sleepScore: Option<int>, stressScore: Option<int>, shareWithCounselor: Option<bool>,
                      now: int) returns (r: Option<Record>)
    requires records.Valid()
    modifies records, weekly
    ensures records.Valid() && records.nextId == old(records.nextId)
    ensures FindRecord(old(records.rows), recordId, userId).None? ==>
              r.None? && records.rows == old(records.rows) && weekly.rows == old(weekly.rows)
    ensures FindRecord(old(records.rows), recordId, userId).Some? ==>
              var i := FindRecord(old(records.rows), recordId, userId).value;
              var e := Edited(old(records.rows)[i], content, sleepScore, stressScore, shareWithCounselor);
              && r == Some(e)
              && records.rows == old(records.rows)[i := e]
              && weekly.rows == old(weekly.rows)[(userId, 7) :=
                   Refresh(CacheRow(old(weekly.rows), userId, 7), WeeklyItem(Day(now), e.summary, PrimaryOf(e.analysis)), 7)]
  {
    var p := FindRecord(records.rows, recordId, userId);
    if p.None? {
      return None;
    }
    var e := Edited(records.rows[p.value], content, sleepScore, stressScore, shareWithCounselor);
    records.rows := records.rows[p.value := e];
    UpdateWeeklyCache(weekly, userId, Day(now), e.summary, e.analysis, 7);
    r := Some(e);
  }

  /** An edit refreshes the cache under the day of the edit, not the day the record was written. */
  lemma EditUsesToday(cache: Option<WeeklyCache>, e: Record, now: int)
    ensures var c := Refresh(cache, WeeklyItem(Day(now), e.summary, PrimaryOf(e.analysis)), 7);
            c.items[|c.items| - 1].date == Day(now)
  {
    UpsertShape(if cache.Some? then Some(cache.value.items) else None, WeeklyItem(Day(now), e.summary, PrimaryOf(e.analysis)), 7);
  }

  // ---------------------------------------------------------------------------------------------
  // `get_emotion_statistics`

  /** The label a record counts under: its analysis's label, 기쁨 when absent. */
  function LabelOf(a: EmotionAnalysis): string
  {
    if a.primaryEmotion.Some? then a.primaryEmotion.value else "기쁨"
  }

  /** A count per label in first-seen order (a Python dict's order). */
  type Distribution = seq<(string, nat)>

  function CountOf(d: Distribution, e: string): nat
  {
    if d == [] then 0 else (if d[|d| - 1].0 == e then d[|d| - 1].1 else 0) + CountOf(d[..|d| - 1], e)
  }

  function Total(d: Distribution): nat
  {
    if d == [] then 0 else d[|d| - 1].1 + Total(d[..|d| - 1])
  }

  predicate LabelsDistinct(d: Distribution)
  {
    forall i, j :: 0 <= i < j < |d| ==> d[i].0 != d[j].0
  }

  /** `d[e] = d.get(e, 0) + 1`. */
  function Bump(d: Distribution, e: string): (b: Distribution)
    decreases |d|
  {
    if d == [] then [(e, 1)]
    else if d[0].0 == e then [(e, d[0].1 + 1)] + d[1..]
    else [d[0]] + Bump(d[1..], e)
  }

  lemma {:induction false} TotalCons(x: (string, nat), d: Distribution)
    ensures Total([x] + d) == x.1 + Total(d)
    decreases |d|
  {
    if d != [] {
      assert ([x] + d)[..|[x] + d| - 1] == [x] + d[..|d| - 1];
      TotalCons(x, d[..|d| - 1]);
    }
  }

  lemma {:induction false} CountOfCons(x: (string, nat), d: Distribution, e: string)
    ensures CountOf([x] + d, e) == (if x.0 == e then x.1 else 0) + CountOf(d, e)
    decreases |d|
  {
    if d != [] {
      assert ([x] + d)[..|[x] + d| - 1] == [x] + d[..|d| - 1];
      CountOfCons(x, d[..|d| - 1], e);
    }
  }

  /** A bump adds one to the total and to the bumped label's count only. */
  lemma {:induction false} BumpCounts(d: Distribution, e: string)
    ensures Total(Bump(d, e)) == Total(d) + 1
    ensures forall x :: CountOf(Bump(d, e), x) == CountOf(d, x) + (if x == e then 1 else 0)
    decreases |d|
  {
    if d == [] {
      assert Bump(d, e) == [] + [(e, 1)];
    } else if d[0].0 == e {
      assert d == [d[0]] + d[1..];
      TotalCons(d[0], d[1..]);
      TotalCons((e, d[0].1 + 1), d[1..]);
      forall x ensures CountOf(Bump(d, e), x) == CountOf(d, x) + (if x == e then 1 else 0) {
        CountOfCons(d[0], d[1..], x);
        CountOfCons((e, d[0].1 + 1), d[1..], x);
      }
    } else {
      assert d == [d[0]] + d[1..];
      BumpCounts(d[1..], e);
      TotalCons(d[0], d[1..]);
      TotalCons(d[0], Bump(d[1..], e));
      forall x ensures CountOf(Bump(d, e), x) == CountOf(d, x) + (if x == e then 1 else 0) {
        CountOfCons(d[0], d[1..], x);
        CountOfCons(d[0], Bump(d[1..], e), x);
      }
    }
  }

  /** The records that carry an analysis, and how many carry each label. */
  function Analysed(records: seq<Record>): nat
  {
    if records == [] then 0
    else Analysed(records[..|records| - 1]) + (if records[|records| - 1].analysis.Some? then 1 else 0)
  }

  function Labelled(records: seq<Record>, e: string): nat
  {
    if records == [] then 0
    else Labelled(records[..|records| - 1], e)
         + (if records[|records| - 1].analysis.Some? && LabelOf(records[|records| - 1].analysis.value) == e then 1 else 0)
  }

  /** The label distribution, bumped record by record. */
  function DistributionOf(records: seq<Record>): Distribution
  {
    if records == [] then []
    else
      var d := DistributionOf(records[..|records| - 1]);
      var last := records[|records| - 1];
      if last.analysis.Some? then Bump(d, LabelOf(last.analysis.value)) else d
  }

  /** The counts sum to the number of analysed records, and each label's count is the number of
      analysed records with that label. */
  lemma {:induction false} DistributionCounts(records: seq<Record>)
    ensures Total(DistributionOf(records)) == Analysed(records)
    ensures forall e :: CountOf(DistributionOf(records), e) == Labelled(records, e)
    decreases |records|
  {
    if records != [] {
      var init := records[..|records| - 1];
      DistributionCounts(init);
      var last := records[|records| - 1];
      if last.analysis.Some? {
        BumpCounts(DistributionOf(init), LabelOf(last.analysis.value));
      }
    }
  }

  /** The loop over the period's records. */
  method EmotionDistribution(records: seq<Record>) returns (d: Distribution)
    ensures d == DistributionOf(records)
  {
    d := [];
    for i := 0 to |records|
      invariant d == DistributionOf(records[..i])
    {
      assert records[..i + 1][..i] == records[..i];
      if records[i].analysis.Some? {
        d := Bump(d, LabelOf(records[i].analysis.value));
      }
    }
    assert records[..|records|] == records;
  }

  /** The records of the last `days` days, newest first (storage order stands for creation order). */
  function PeriodRecords(rows: seq<Record>, userId: int, days: int, now: int): (rs: seq<Record>)
    ensures forall r :: r in rs <==> r in rows && r.userId == userId && now - days * SecondsPerDay <= r.createdAt <= now
  {
    if rows == [] then []
    else
      var rest := PeriodRecords(rows[..|rows| - 1], userId, days, now);
      var last := rows[|rows| - 1];
      assert forall x :: x in rows <==> x in rows[..|rows| - 1] || x == last;
      if last.userId == userId && now - days * SecondsPerDay <= last.createdAt <= now then [last] + rest else rest
  }

  /** A bound on every row's date bounds every selected record's date. */
  lemma {:induction false} PeriodBounded(rows: seq<Record>, userId: int, days: int, now: int, t: int)
    requires forall i :: 0 <= i < |rows| ==> rows[i].createdAt <= t
    ensures var rs := PeriodRecords(rows, userId, days, now);
            forall i :: 0 <= i < |rs| ==> rs[i].createdAt <= t
  {
    if rows != [] {
      PeriodBounded(rows[..|rows| - 1], userId, days, now, t);
    }
  }

  predicate NewestFirst(rs: seq<Record>)
  {
    forall i, j :: 0 <= i < j < |rs| ==> rs[i].createdAt >= rs[j].createdAt
  }

  /** When the rows are stored in creation order, the period's records come newest first. */
  lemma {:induction false} PeriodNewestFirst(rows: seq<Record>, userId: int, days: int, now: int)
    requires forall i, j :: 0 <= i < j < |rows| ==> rows[i].createdAt <= rows[j].createdAt
    ensures NewestFirst(PeriodRecords(rows, userId, days, now))
  {
    if rows != [] {
      var init := rows[..|rows| - 1];
      var last := rows[|rows| - 1];
      assert forall i :: 0 <= i < |init| ==> init[i] == rows[i];
      PeriodNewestFirst(init, userId, days, now);
      PeriodBounded(init, userId, days, now, last.createdAt);
      var rest := PeriodRecords(init, userId, days, now);
      var rs := PeriodRecords(rows, userId, days, now);
      if last.userId == userId && now - days * SecondsPerDay <= last.createdAt <= now {
        assert rs == [last] + rest;
        forall i, j | 0 <= i < j < |rs| ensures rs[i].createdAt >= rs[j].createdAt {
          assert rs[j] == rest[j - 1];
          if i > 0 {
            assert rs[i] == rest[i - 1];
            assert rest[i - 1].createdAt >= rest[j - 1].createdAt;
          } else {
            assert rs[i] == last;
            assert rest[j - 1].createdAt <= last.createdAt;
          }
        }
      } else {
        assert rs == rest;
      }
    }
  }

  datatype Statistics = Statistics(period: int, recordCount: nat, averageColor: Representative,
                                   distribution: Distribution, message: string)

  /** What the representative colour reads from an analysed record: `{"color": analysis["color"]}`. */
  function ColorRecords(records: seq<Record>): Option<seq<ColorRecord>>
  {
    if records == [] then Some([])
    else
      match ColorRecords(records[..|records| - 1])
        case None => None
        case Some(cs) =>
          var a := records[|records| - 1].analysis;
          if a.None? then Some(cs)
          else if a.value.color.None? then None
          else Some(cs + [ColorRecord(a.value.color.value.rgb, a.value.color.value.intensity, None)])
  }

  function RepresentativeName(r: Representative): string
  {
    match r
      case Fallback(c) => c.name
      case Chosen(name, _, _, _, _, _, _) => name
  }

  /** `get_emotion_statistics` on the period's records: no records gives count 0 and the 기쁨/5
      colour; an analysis without a colour raises (the `KeyError` of `analysis["color"]`); otherwise
      the distribution and the representative colour of the analysed records. */
  function EmotionStatistics(records: seq<Record>, days: int): (s: Result<Statistics>)
    ensures records == [] ==> s.Success? && s.value.recordCount == 0 && s.value.distribution == []
                              && s.value.averageColor == Fallback(ColorWithIntensity("기쁨", 5))
    ensures s.Failure? <==> ColorRecords(records).None?
    ensures s.Success? && records != [] ==>
              && s.value.recordCount == |records| && s.value.distribution == DistributionOf(records)
              && s.value.averageColor == AverageEmotionColor(ColorRecords(records).value)
  {
    if records == [] then
      Success(Statistics(days, 0, Fallback(ColorWithIntensity("기쁨", 5)), [],
                         "지난 " + IntToString(days) + "일간의 기록이 없습니다."))
    else
      match ColorRecords(records)
        case None => Failure("color")
        case Some(cs) =>
          var avg := AverageEmotionColor(cs);
          Success(Statistics(days, |records|, avg, DistributionOf(records),
                             "지난 " + IntToString(days) + "일간의 평균 감정색은 " + RepresentativeName(avg) + "입니다."))
  }

  /** The statistics call: selects the period's records, then counts the labels in a loop. */
  method GetEmotionStatistics(records: Records, userId: int, days: int, now: int) returns (s: Result<Statistics>)
    ensures s == EmotionStatistics(PeriodRecords(records.rows, userId, days, now), days)
  {
    var rs := PeriodRecords(records.rows, userId, days, now);
    if rs == [] {
      return EmotionStatistics(rs, days);
    }
    var cs := ColorRecords(rs);
    if cs.None? {
      return Failure("color");
    }
    var d := EmotionDistribution(rs);
    var avg := GetAverageEmotionColor(cs.value);
    s := Success(Statistics(days, |rs|, avg, d,
                            "지난 " + IntToString(days) + "일간의 평균 감정색은 " + RepresentativeName(avg) + "입니다."));
  }
}
