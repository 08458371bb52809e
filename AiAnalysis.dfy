/** The classifier used when no language model answers: two keyword vocabularies decide a primary
    emotion and an intensity; a template sentence stands in for the summary and a per-category
    keyword pick for the keyword list. Also the clean-up pass over keywords a model returned and the
    conversion of a model's answer into a colour. The model calls themselves are outside. */
module AiAnalysis {
  import opened Common
  import opened EmotionColor

  // ---------------------------------------------------------------------------------------------
  // `analyze_emotion_fallback`

  /** Word stems that count toward a negative reading (a Python set: each counts once). */
  const NegativeKeywords: set<string> := {
    "힘들", "어렵", "스트레스", "피곤", "지치", "불안", "걱정", "우울", "슬픔",
    "화나", "짜증", "답답", "절망", "무기력", "의미없", "싫", "혐오", "두려움",
    "무섭", "놀람", "충격", "실망", "후회", "미안", "죄송", "부끄러", "창피",
    "죽고싶", "자살", "끝내", "그만", "싫어", "힘들어", "지쳐", "피곤해"
  }

  /** Word stems that count toward a positive reading. */
  const PositiveKeywords: set<string> := {
    "기쁘", "행복", "즐겁", "신나", "좋", "만족", "감사", "희망", "기대",
    "설렘", "신뢰", "안전", "편안", "평온", "차분", "여유", "성취", "성공",
    "자랑", "뿌듯", "감동", "감탄", "놀라", "신기", "재미", "웃음"
  }

  /** The sub-lists that refine a negative reading, tried in this order. */
  const SadnessCues: seq<string> := ["힘들", "지치", "피곤", "무기력", "절망", "죽고싶"]
  const AngerCues: seq<string> := ["화나", "짜증", "답답"]
  const FearCues: seq<string> := ["불안", "걱정", "두려움", "무섭"]
  const SurpriseCues: seq<string> := ["놀람", "충격", "신기"]

  /** The vocabulary entries that occur in the text. */
  function Hits(text: string, vocabulary: set<string>): (hs: set<string>)
    ensures hs <= vocabulary
    ensures forall k :: k in hs <==> k in vocabulary && Contains(text, k)
  {
    set k | k in vocabulary && Contains(text, k)
  }

  /** `sum(1 for keyword in vocabulary if keyword in text)`: how many distinct entries occur. */
  function Score(text: string, vocabulary: set<string>): (n: nat)
    ensures n == 0 <==> forall k :: k in vocabulary ==> !Contains(text, k)
  {
    assert forall k :: k in vocabulary && Contains(text, k) ==> k in Hits(text, vocabulary);
    |Hits(text, vocabulary)|
  }

  /** `any(k in text for k in cues)`. */
  predicate AnyIn(text: string, cues: seq<string>)
  {
    exists i :: 0 <= i < |cues| && Contains(text, cues[i])
  }

  /** The refined negative emotion: the first sub-list with a hit, 슬픔 when none has one. */
  function NegativeEmotion(text: string): (e: string)
    ensures e in ["슬픔", "분노", "두려움", "놀람"]
  {
    if AnyIn(text, SadnessCues) then "슬픔"
    else if AnyIn(text, AngerCues) then "분노"
    else if AnyIn(text, FearCues) then "두려움"
    else if AnyIn(text, SurpriseCues) then "놀람"
    else "슬픔"
  }

  /** The decision rule on the two scores of a lower-cased text. */
  function Decide(neg: nat, pos: nat, text: string): (d: (string, int))
  {
    if neg > pos then (NegativeEmotion(text), Clamp(neg * 2, 1, 10))
    else if pos > neg then ("기쁨", Clamp(pos * 2, 1, 10))
    else if neg == 0 && pos == 0 then ("신뢰", 5)
    else ("슬픔", 5)
  }

  /** Every case of the decision rule, in both directions. */
  lemma DecideCases(neg: nat, pos: nat, text: string)
    ensures var (e, i) := Decide(neg, pos, text);
            && (neg > pos <==> e == NegativeEmotion(text) && e != "기쁨" && e != "신뢰" && i == Clamp(2 * neg, 1, 10))
            && (pos > neg <==> e == "기쁨")
            && (neg == 0 && pos == 0 <==> e == "신뢰")
            && (neg == pos && neg > 0 ==> e == "슬픔" && i == 5)
            && (neg == pos ==> i == 5)
            && 1 <= i <= 10
            && e != "혐오" && e != "기대"
  {
  }

  /** An analysis result as the service hands it out; `confidence` in hundredths. */
  datatype Analysis = Analysis(primaryEmotion: string, intensity: int, confidence: int, reasoning: string,
                               color: Color, message: string, aiUsed: bool)

  /** `analyze_emotion_fallback`. */
  function AnalyzeFallback(content: string): (a: Analysis)
    ensures var text := Lower(content);
            (a.primaryEmotion, a.intensity) == Decide(Score(text, NegativeKeywords), Score(text, PositiveKeywords), text)
    ensures 1 <= a.intensity <= 10
    ensures a.primaryEmotion in ["슬픔", "분노", "두려움", "놀람", "기쁨", "신뢰"]
    ensures a.confidence == 60 && !a.aiUsed
    ensures a.color == ColorWithIntensity(a.primaryEmotion, a.intensity)
    ensures a.message == "오늘의 감정색은 " + a.color.name + "입니다~ (키워드 분석)"
  {
    var text := Lower(content);
    var neg := Score(text, NegativeKeywords);
    var pos := Score(text, PositiveKeywords);
    var (primary, intensity) := Decide(neg, pos, text);
    DecideCases(neg, pos, text);
    var color := ColorWithIntensity(primary, intensity);
    Analysis(primary, intensity, 60,
             "키워드 분석 결과: 부정(" + NatToString(neg) + "), 긍정(" + NatToString(pos) + ") - 폴백 분석 사용",
             color, "오늘의 감정색은 " + color.name + "입니다~ (키워드 분석)", false)
  }

  /** Case matters nowhere in the fallback: the text is lowered first. */
  lemma FallbackIgnoresCase(content: string)
    ensures AnalyzeFallback(Lower(content)) == AnalyzeFallback(content)
  {
    LowerIdempotent(content);
  }

  /** The first diary line the development seed script writes. */
  const SeedEntry: string := "오늘 하루 마음이 많이 무겁고 우울했어요."

  /** The characters the seed line is written with. */
  const SeedChars: set<char> := {'오', '늘', ' ', '하', '루', '마', '음', '이', '많', '무', '겁', '고', '우', '울', '했', '어', '요', '.'}

  lemma SeedCharsCover()
    ensures forall c :: c in SeedEntry ==> c in SeedChars
  {
    forall c | c in SeedEntry ensures c in SeedChars {
      var i :| 0 <= i < |SeedEntry| && SeedEntry[i] == c;
    }
  }

  /** A text written only with the characters `cs` holds no keyword that has a character outside
      `cs` (the `js[i]`-th character of the `i`-th keyword). */
  lemma NoneContained(text: string, cs: set<char>, ks: seq<string>, js: seq<nat>)
    requires forall c :: c in text ==> c in cs
    requires |js| == |ks| && forall i :: 0 <= i < |ks| ==> js[i] < |ks[i]| && ks[i][js[i]] !in cs
    ensures forall i :: 0 <= i < |ks| ==> !Contains(text, ks[i])
  {
    forall i | 0 <= i < |ks| ensures !Contains(text, ks[i]) {
      MissingCharNotContained(text, ks[i], js[i]);
    }
  }

  lemma SeedLowered()
    ensures Lower(SeedEntry) == SeedEntry
  {
    assert forall i :: 0 <= i < |SeedEntry| ==> !('A' <= SeedEntry[i] <= 'Z');
  }

  /** The negative stems other than 우울, in two halves, and the positive stems, in two halves. */
  const SeedNegativeMissA: seq<string> := ["힘들", "어렵", "스트레스", "피곤", "지치", "불안", "걱정", "슬픔", "화나", "짜증", "답답", "절망", "무기력", "의미없", "싫", "혐오", "두려움"]

  lemma SeedMissesNegativeA()
    ensures forall i :: 0 <= i < |SeedNegativeMissA| ==> !Contains(SeedEntry, SeedNegativeMissA[i])
  {
    SeedCharsCover();
    NoneContained(SeedEntry, SeedChars, SeedNegativeMissA, [0, 1, 0, 0, 0, 0, 0, 0, 0, 0, 0, 0, 1, 0, 0, 0, 0]);
  }

  
  const SeedNegativeMissB: seq<string> := ["무섭", "놀람", "충격", "실망", "후회", "미안", "죄송", "부끄러", "창피", "죽고싶", "자살", "끝내", "그만", "싫어", "힘들어", "지쳐", "피곤해"]

  lemma SeedMissesNegativeB()
    ensures forall i :: 0 <= i < |SeedNegativeMissB| ==> !Contains(SeedEntry, SeedNegativeMissB[i])
  {
    SeedCharsCover();
    NoneContained(SeedEntry, SeedChars, SeedNegativeMissB, [1, 0, 0, 0, 0, 0, 0, 0, 0, 0, 0, 0, 0, 0, 0, 0, 0]);
  }

  
  const SeedPositiveMissA: seq<string> := ["기쁘", "행복", "즐겁", "신나", "좋", "만족", "감사", "희망", "기대", "설렘", "신뢰", "안전", "편안"]

  lemma SeedMissesPositiveA()
    ensures forall i :: 0 <= i < |SeedPositiveMissA| ==> !Contains(SeedEntry, SeedPositiveMissA[i])
  {
    SeedCharsCover();
    NoneContained(SeedEntry, SeedChars, SeedPositiveMissA, [0, 0, 0, 0, 0, 0, 0, 0, 0, 0, 0, 0, 0]);
  }

  
  const SeedPositiveMissB: seq<string> := ["평온", "차분", "여유", "성취", "성공", "자랑", "뿌듯", "감동", "감탄", "놀라", "신기", "재미", "웃음"]

  lemma SeedMissesPositiveB()
    ensures forall i :: 0 <= i < |SeedPositiveMissB| ==> !Contains(SeedEntry, SeedPositiveMissB[i])
  {
    SeedCharsCover();
    NoneContained(SeedEntry, SeedChars, SeedPositiveMissB, [0, 0, 0, 0, 0, 0, 0, 0, 0, 0, 0, 0, 0]);
  }

  /** No negative stem but 우울 occurs in the seed line. */
  lemma SeedMissesNegative()
    ensures forall k :: k in NegativeKeywords && k != "우울" ==> !Contains(SeedEntry, k)
  {
    SeedMissesNegativeA();
    SeedMissesNegativeB();
    assert forall k :: k in NegativeKeywords && k != "우울" ==> k in SeedNegativeMissA || k in SeedNegativeMissB;
  }

  /** Of the negative stems the seed line holds only 우울. */
  lemma SeedNegativeHits()
    ensures Hits(SeedEntry, NegativeKeywords) == {"우울"}
  {
    SeedMissesNegative();
    assert SeedEntry[17..19] == "우울";
    ContainsAt(SeedEntry, "우울", 17);
  }

  /** The seed line holds no positive stem. */
  lemma SeedPositiveHits()
    ensures Hits(SeedEntry, PositiveKeywords) == {}
  {
    SeedMissesPositiveA();
    SeedMissesPositiveB();
    assert forall k :: k in PositiveKeywords ==> k in SeedPositiveMissA || k in SeedPositiveMissB;
  }

  /** The seed line holds no refining cue. */
  lemma SeedNoCues()
    ensures NegativeEmotion(SeedEntry) == "슬픔"
  {
    SeedMissesNegativeA();
    SeedMissesNegativeB();
    SeedMissesPositiveB();
    var cues := SadnessCues + AngerCues + FearCues + SurpriseCues;
    forall i | 0 <= i < |cues| ensures !Contains(SeedEntry, cues[i]) {
      assert cues[i] in SeedNegativeMissA || cues[i] in SeedNegativeMissB || cues[i] in SeedPositiveMissB;
    }
    assert !AnyIn(SeedEntry, SadnessCues) by {
      assert forall i :: 0 <= i < |SadnessCues| ==> SadnessCues[i] == cues[i];
    }
    assert !AnyIn(SeedEntry, AngerCues) by {
      assert forall i :: 0 <= i < |AngerCues| ==> AngerCues[i] == cues[6 + i];
    }
    assert !AnyIn(SeedEntry, FearCues) by {
      assert forall i :: 0 <= i < |FearCues| ==> FearCues[i] == cues[9 + i];
    }
    assert !AnyIn(SeedEntry, SurpriseCues) by {
      assert forall i :: 0 <= i < |SurpriseCues| ==> SurpriseCues[i] == cues[13 + i];
    }
  }

  /** The seed line hits only the negative stem 우울 and no refining cue, so it reads as 슬픔 at
      intensity 2. */
  lemma SeedEntryIsSadness()
    ensures AnalyzeFallback(SeedEntry).primaryEmotion == "슬픔"
    ensures AnalyzeFallback(SeedEntry).intensity == 2
  {
    SeedLowered();
    SeedNegativeHits();
    SeedPositiveHits();
    SeedNoCues();
    assert Score(SeedEntry, NegativeKeywords) == 1;
    assert Score(SeedEntry, PositiveKeywords) == 0;
  }

  // ---------------------------------------------------------------------------------------------
  // `generate_summary_fallback` (and the same table in the record service)

  /** The one-sentence summary of each of the eight emotions. */
  function SummaryTemplate(emotion: string): (s: Option<string>)
    ensures s.Some? <==> IsEmotion(emotion)
    ensures s.Some? ==> s.value in SummarySentences
  {
    if emotion == "기쁨" then Some("긍정적이고 기쁜 감정을 느낀 하루였습니다.")
    else if emotion == "신뢰" then Some("안정감과 신뢰를 느낀 하루였습니다.")
    else if emotion == "두려움" then Some("불안하고 두려운 감정이 있었던 하루였습니다.")
    else if emotion == "놀람" then Some("예상치 못한 일로 놀란 하루였습니다.")
    else if emotion == "슬픔" then Some("슬프고 우울한 감정이 있었던 하루였습니다.")
    else if emotion == "혐오" then Some("불쾌하고 싫은 감정이 있었던 하루였습니다.")
    else if emotion == "분노" then Some("화가 나고 분노한 감정이 있었던 하루였습니다.")
    else if emotion == "기대" then Some("희망과 기대를 느낀 하루였습니다.")
    else None
  }

  const SummarySentences: seq<string> := [
    "긍정적이고 기쁜 감정을 느낀 하루였습니다.", "안정감과 신뢰를 느낀 하루였습니다.",
    "불안하고 두려운 감정이 있었던 하루였습니다.", "예상치 못한 일로 놀란 하루였습니다.",
    "슬프고 우울한 감정이 있었던 하루였습니다.", "불쾌하고 싫은 감정이 있었던 하루였습니다.",
    "화가 나고 분노한 감정이 있었던 하루였습니다.", "희망과 기대를 느낀 하루였습니다."
  ]

  /** The template of an emotion, or the generic sentence built from its name. */
  function SummaryFor(emotion: string): (s: string)
    ensures IsEmotion(emotion) ==> s in SummarySentences
    ensures !IsEmotion(emotion) ==> s == emotion + "한 감정을 느낀 하루였습니다."
  {
    match SummaryTemplate(emotion)
      case Some(t) => t
      case None => emotion + "한 감정을 느낀 하루였습니다."
  }

  /** `generate_summary_fallback`: the fallback only ever names one of the eight emotions, so the
      generic sentence is never produced. */
  function SummaryFallback(content: string): (s: string)
    ensures s in SummarySentences
  {
    var e := AnalyzeFallback(content).primaryEmotion;
    assert IsEmotion(e);
    SummaryFor(e)
  }

  // ---------------------------------------------------------------------------------------------
  // `_extract_keywords_fallback`

  /** The keyword categories, in dictionary order. */
  const KeywordCategories: seq<seq<string>> := [
    ["기쁨", "행복", "즐거움", "신남", "좋음", "만족", "감사", "희망", "기대"],
    ["슬픔", "우울", "힘듦", "지침", "피곤", "무기력", "절망", "실망"],
    ["분노", "화남", "짜증", "답답", "열받음", "화가남"],
    ["두려움", "불안", "걱정", "무섭", "긴장", "스트레스"],
    ["놀람", "충격", "예상외", "신기", "놀라움"],
    ["신뢰", "안전", "편안", "평온", "차분", "여유"],
    ["혐오", "싫음", "불쾌", "역겨움"],
    ["기대", "설렘", "희망", "미래", "꿈"]
  ]

  /** The first keyword of a list that occurs in the text. */
  function FirstHit(text: string, ks: seq<string>): (h: Option<nat>)
    ensures h.Some? ==> h.value < |ks| && Contains(text, ks[h.value])
    ensures h.Some? ==> forall j :: 0 <= j < h.value ==> !Contains(text, ks[j])
    ensures h.None? <==> forall j :: 0 <= j < |ks| ==> !Contains(text, ks[j])
  {
    if ks == [] then None
    else if Contains(text, ks[0]) then Some(0)
    else match FirstHit(text, ks[1..])
      case None => None
      case Some(k) => Some(k + 1)
  }

  /** The indices of the categories with at least one keyword in the text, ascending. */
  function HitCategories(text: string, cats: seq<seq<string>>): (cs: seq<nat>)
    ensures forall i :: 0 <= i < |cs| ==> cs[i] < |cats| && FirstHit(text, cats[cs[i]]).Some?
    ensures forall i, j :: 0 <= i < j < |cs| ==> cs[i] < cs[j]
    ensures forall c :: 0 <= c < |cats| && FirstHit(text, cats[c]).Some? ==> c in cs
  {
    if cats == [] then []
    else
      var init := cats[..|cats| - 1];
      var rest := HitCategories(text, init);
      assert forall c :: 0 <= c < |cats| - 1 ==> init[c] == cats[c];
      if FirstHit(text, cats[|cats| - 1]).Some? then rest + [|cats| - 1] else rest
  }

  /** One keyword per category that has a hit, in category order: entry i is the first
      occurring keyword of the i-th category with a hit, so no category contributes twice. */
  function CategoryHits(text: string, cats: seq<seq<string>>): (hs: seq<string>)
    ensures var cs := HitCategories(text, cats);
            && |hs| == |cs| <= |cats|
            && forall i :: 0 <= i < |hs| ==> hs[i] == cats[cs[i]][FirstHit(text, cats[cs[i]]).value]
  {
    if cats == [] then []
    else
      var init := cats[..|cats| - 1];
      var rest := CategoryHits(text, init);
      var last := cats[|cats| - 1];
      assert forall c :: 0 <= c < |cats| - 1 ==> init[c] == cats[c];
      HitCountBound(text, cats);
      match FirstHit(text, last)
        case None => rest
        case Some(k) => rest + [last[k]]
  }

  /** One more category adds its first occurring keyword, or nothing when none occurs. */
  lemma CategoryHitsStep(text: string, cats: seq<seq<string>>, c: nat)
    requires c < |cats|
    ensures FirstHit(text, cats[c]).None? ==> CategoryHits(text, cats[..c + 1]) == CategoryHits(text, cats[..c])
    ensures FirstHit(text, cats[c]).Some? ==>
              CategoryHits(text, cats[..c + 1]) == CategoryHits(text, cats[..c]) + [cats[c][FirstHit(text, cats[c]).value]]
  {
    assert cats[..c + 1][..c] == cats[..c];
  }

  /** Every hit is a keyword of the category it came from. */
  lemma HitInCategory(text: string, cats: seq<seq<string>>, m: nat)
    requires m < |CategoryHits(text, cats)|
    ensures var c := HitCategories(text, cats)[m];
            c < |cats| && CategoryHits(text, cats)[m] in cats[c]
  {
    var c := HitCategories(text, cats)[m];
    var k := FirstHit(text, cats[c]).value;
    assert CategoryHits(text, cats)[m] == cats[c][k];
  }

  /** Each category index appears at most once among the hits. */
  lemma {:induction false} HitCountBound(text: string, cats: seq<seq<string>>)
    ensures |HitCategories(text, cats)| <= |cats|
  {
    if cats != [] { HitCountBound(text, cats[..|cats| - 1]); }
  }

  /** The keyword list of the fallback: the primary emotion in front unless a category already
      produced it, at most five entries. */
  function KeywordsFallback(content: string): (ks: seq<string>)
    ensures 1 <= |ks| <= 5
    ensures var found := CategoryHits(Lower(content), KeywordCategories);
            var primary := AnalyzeFallback(content).primaryEmotion;
            && (primary !in found ==> ks[0] == primary && ks == Prefix([primary] + found, 5))
            && (primary in found ==> ks == Prefix(found, 5))
  {
    var found := CategoryHits(Lower(content), KeywordCategories);
    var primary := AnalyzeFallback(content).primaryEmotion;
    var withPrimary := if primary in found then found else [primary] + found;
    Prefix(withPrimary, 5)
  }

  /** Every entry of `ks` is `lead` or a keyword of one of the categories. */
  predicate LeadOrCategoryWords(ks: seq<string>, lead: string, cats: seq<seq<string>>)
  {
    forall i :: 0 <= i < |ks| ==> ks[i] == lead || exists c :: 0 <= c < |cats| && ks[i] in cats[c]
  }

  /** Putting a lead in front of the hits and cutting to five adds no keyword but the lead. */
  lemma {:induction false} WithLeadFromCategories(text: string, cats: seq<seq<string>>, lead: string)
    ensures LeadOrCategoryWords(Prefix(if lead in CategoryHits(text, cats) then CategoryHits(text, cats)
                                       else [lead] + CategoryHits(text, cats), 5), lead, cats)
  {
    var found := CategoryHits(text, cats);
    var ks := Prefix(if lead in found then found else [lead] + found, 5);
    forall i | 0 <= i < |ks|
      ensures ks[i] == lead || exists c :: 0 <= c < |cats| && ks[i] in cats[c]
    {
      if lead !in found && i > 0 {
        assert ks[i] == found[i - 1];
        HitInCategory(text, cats, i - 1);
      } else if lead in found {
        assert ks[i] == found[i];
        HitInCategory(text, cats, i);
      }
    }
  }

  /** Every keyword of the fallback list is the primary emotion or a keyword of some category. */
  lemma KeywordsFallbackFromVocabulary(content: string)
    ensures LeadOrCategoryWords(KeywordsFallback(content), AnalyzeFallback(content).primaryEmotion, KeywordCategories)
  {
    var found := CategoryHits(Lower(content), KeywordCategories);
    var primary := AnalyzeFallback(content).primaryEmotion;
    assert KeywordsFallback(content) == Prefix(if primary in found then found else [primary] + found, 5);
    WithLeadFromCategories(Lower(content), KeywordCategories, primary);
  }

  /** The loop over the categories that stops at the first hit of each. */
  method CollectHits(text: string, cats: seq<seq<string>>) returns (found: seq<string>)
    ensures found == CategoryHits(text, cats)
  {
    found := [];
    for c := 0 to |cats|
      invariant found == CategoryHits(text, cats[..c])
    {
      var ks := cats[c];
      ghost var hit := FirstHit(text, ks);
      var j := 0;
      while j < |ks|
        invariant 0 <= j <= |ks|
        invariant forall i :: 0 <= i < j ==> !Contains(text, ks[i])
        invariant found == CategoryHits(text, cats[..c])
      {
        if Contains(text, ks[j]) {
          found := found + [ks[j]];
          break;
        }
        j := j + 1;
      }
      CategoryHitsStep(text, cats, c);
      assert hit.Some? ==> hit.value == j;
    }
    assert cats[..|cats|] == cats;
  }

  /** `_extract_keywords_fallback`: the category hits, then the insertion of the primary emotion at
      the front and the cut to five. */
  method ExtractKeywordsFallback(content: string) returns (keywords: seq<string>)
    ensures keywords == KeywordsFallback(content)
  {
    var found := CollectHits(Lower(content), KeywordCategories);
    var primary := AnalyzeFallback(content).primaryEmotion;
    if primary !in found {
      found := [primary] + found;
    }
    keywords := Prefix(found, 5);
  }

  // ---------------------------------------------------------------------------------------------
  // Keyword clean-up of a model's answer (the loop inside `extract_keywords_with_gpt`)

  /** One entry of the parsed `keywords` array: a string, or any other JSON value. */
  datatype KeywordValue = Text(s: string) | NotText

  /** The entry after `strip()`, when it is a non-empty string. */
  function Cleaned(v: KeywordValue): Option<string>
  {
    if v.Text? && Strip(v.s) != "" then Some(Strip(v.s)) else None
  }

  /** The entries after cleaning, position by position. */
  function CleanedAll(kws: seq<KeywordValue>): (cs: seq<Option<string>>)
    ensures |cs| == |kws|
    ensures forall i :: 0 <= i < |kws| ==> cs[i] == Cleaned(kws[i])
  {
    seq(|kws|, i requires 0 <= i < |kws| => Cleaned(kws[i]))
  }

  /** The present values of `cs`, each kept at its first occurrence. */
  function Unique(cs: seq<Option<string>>): seq<string>
    decreases |cs|
  {
    if cs == [] then []
    else
      var d := Unique(cs[..|cs| - 1]);
      match cs[|cs| - 1]
        case Some(k) => if k in d then d else d + [k]
        case None => d
  }

  /** The clean-up pass: stripped non-empty strings, each kept at its first occurrence. */
  function Dedup(kws: seq<KeywordValue>): seq<string>
  {
    Unique(CleanedAll(kws))
  }

  /** `Unique` keeps exactly the present values, once each. */
  lemma {:induction false} UniqueContents(cs: seq<Option<string>>)
    ensures var d := Unique(cs);
            && (forall i, j :: 0 <= i < j < |d| ==> d[i] != d[j])
            && (forall x :: x in d <==> Some(x) in cs)
    decreases |cs|
  {
    if cs != [] {
      var init := cs[..|cs| - 1];
      UniqueContents(init);
      assert cs == init + [cs[|cs| - 1]];
    }
  }

  /** The clean-up keeps exactly the cleaned entries, once each. */
  lemma DedupContents(kws: seq<KeywordValue>)
    ensures var d := Dedup(kws);
            && (forall i, j :: 0 <= i < j < |d| ==> d[i] != d[j])
            && (forall x :: x in d <==> exists i :: 0 <= i < |kws| && Cleaned(kws[i]) == Some(x))
  {
    var cs := CleanedAll(kws);
    UniqueContents(cs);
    forall x ensures Some(x) in cs <==> exists i :: 0 <= i < |kws| && Cleaned(kws[i]) == Some(x) {
      if Some(x) in cs {
        var i :| 0 <= i < |cs| && cs[i] == Some(x);
        assert Cleaned(kws[i]) == Some(x);
      }
    }
  }

  /** The position of the first occurrence of `Some(x)`. */
  function FirstSome(cs: seq<Option<string>>, x: string): (p: Option<nat>)
    ensures p.Some? ==> p.value < |cs| && cs[p.value] == Some(x)
    ensures p.None? ==> Some(x) !in cs
  {
    if cs == [] then None
    else if cs[0] == Some(x) then Some(0)
    else match FirstSome(cs[1..], x)
      case None => None
      case Some(k) => Some(k + 1)
  }

  /** No earlier position holds `Some(x)`. */
  lemma {:induction false} FirstSomeIsFirst(cs: seq<Option<string>>, x: string, j: nat)
    requires FirstSome(cs, x).Some? && j < FirstSome(cs, x).value
    ensures cs[j] != Some(x)
    decreases |cs|
  {
    if j > 0 {
      FirstSomeIsFirst(cs[1..], x, j - 1);
    }
  }

  /** The first occurrence of a value that occurs in a prefix is found in that prefix. */
  lemma {:induction false} PrefixFirstSome(cs: seq<Option<string>>, n: nat, x: string)
    requires n <= |cs| && Some(x) in cs[..n]
    ensures FirstSome(cs, x) == FirstSome(cs[..n], x)
    decreases n
  {
    if cs[0] != Some(x) {
      assert cs[..n][1..] == cs[1..][..n - 1];
      PrefixFirstSome(cs[1..], n - 1, x);
    }
  }

  /** The kept values come in the order of their first occurrences. */
  lemma {:induction false} UniqueOrder(cs: seq<Option<string>>)
    ensures var d := Unique(cs);
            forall i, j :: 0 <= i < j < |d| ==>
              FirstSome(cs, d[i]).Some? && FirstSome(cs, d[j]).Some?
              && FirstSome(cs, d[i]).value < FirstSome(cs, d[j]).value
    decreases |cs|
  {
    if cs != [] {
      var n := |cs| - 1;
      var init := cs[..n];
      UniqueOrder(init);
      UniqueContents(init);
      UniqueContents(cs);
      var d0 := Unique(init);
      forall x | x in d0
        ensures FirstSome(cs, x) == FirstSome(init, x)
      {
        PrefixFirstSome(cs, n, x);
      }
      if Unique(cs) != d0 {
        var k := cs[n].value;
        assert Some(k) !in init;
        assert cs[..n] == init;
        assert FirstSome(cs, k) == Some(n);
      }
    }
  }

  /** One more entry either extends the kept values by a new one or leaves them as they are. */
  lemma UniqueStep(cs: seq<Option<string>>, i: nat)
    requires i < |cs|
    ensures cs[i].None? ==> Unique(cs[..i + 1]) == Unique(cs[..i])
    ensures cs[i].Some? && cs[i].value in Unique(cs[..i]) ==> Unique(cs[..i + 1]) == Unique(cs[..i])
    ensures cs[i].Some? && cs[i].value !in Unique(cs[..i]) ==> Unique(cs[..i + 1]) == Unique(cs[..i]) + [cs[i].value]
  {
    assert cs[..i + 1][..i] == cs[..i];
  }

  /** The loop: a `seen` set beside the output list. */
  method DedupKeywords(kws: seq<KeywordValue>) returns (dedup: seq<string>)
    ensures dedup == Dedup(kws)
  {
    ghost var cs := CleanedAll(kws);
    dedup := [];
    var seen: set<string> := {};
    for i := 0 to |kws|
      invariant dedup == Unique(cs[..i])
      invariant forall x :: x in seen <==> x in dedup
    {
      UniqueStep(cs, i);
      assert cs[i] == Cleaned(kws[i]);
      var v := kws[i];
      if !v.Text? {
        continue;
      }
      var k := Strip(v.s);
      if k == "" || k in seen {
        continue;
      }
      seen := seen + {k};
      dedup := dedup + [k];
    }
    assert cs[..|kws|] == cs;
  }

  /** The keywords a model answer yields: the first five cleaned entries, or the fallback list when
      none survives. */
  function CleanKeywords(kws: seq<KeywordValue>, content: string): (ks: seq<string>)
    ensures 1 <= |ks| <= 5
    ensures Dedup(kws) != [] ==> ks == Prefix(Dedup(kws), 5)
    ensures Dedup(kws) == [] ==> ks == KeywordsFallback(content)
  {
    var d := Dedup(kws);
    if d != [] then Prefix(d, 5) else KeywordsFallback(content)
  }

  // ---------------------------------------------------------------------------------------------
  // `_convert_ai_result_to_color`

  /** The fields read from a model's answer, each possibly absent; `confidence` in hundredths. */
  datatype ModelAnswer = ModelAnswer(primaryEmotion: Option<string>, intensity: Option<int>, colorName: Option<string>,
                                     confidence: Option<int>, reasoning: Option<string>)

  function GetOr<T>(o: Option<T>, d: T): (r: T)
    ensures o.None? ==> r == d
    ensures o.Some? ==> r == o.value
  {
    if o.Some? then o.value else d
  }

  /** `_convert_ai_result_to_color`. */
  function ConvertModelAnswer(ans: ModelAnswer): (a: Analysis)
    ensures a.primaryEmotion == GetOr(ans.primaryEmotion, "기쁨")
    ensures a.intensity == GetOr(ans.intensity, 5)
    ensures a.confidence == GetOr(ans.confidence, 50)
    ensures a.reasoning == GetOr(ans.reasoning, "")
    ensures a.aiUsed
    ensures var base := ColorWithIntensity(a.primaryEmotion, a.intensity);
            && (GetOr(ans.colorName, "") != "" ==> a.color == base.(name := ans.colorName.value))
            && (GetOr(ans.colorName, "") == "" ==> a.color == base)
    ensures a.message == "오늘의 감정색은 " + a.color.name + "입니다~ (AI 분석)"
  {
    var primary := GetOr(ans.primaryEmotion, "기쁨");
    var intensity := GetOr(ans.intensity, 5);
    var name := GetOr(ans.colorName, "");
    var base := ColorWithIntensity(primary, intensity);
    var color := if name != "" then base.(name := name) else base;
    Analysis(primary, intensity, GetOr(ans.confidence, 50), GetOr(ans.reasoning, ""), color,
             "오늘의 감정색은 " + color.name + "입니다~ (AI 분석)", true)
  }

  /** Only the colour's name can differ from the table colour; its channels, hex and intensity are
      those of the emotion at the given intensity. */
  lemma ConvertKeepsChannels(ans: ModelAnswer)
    ensures var a := ConvertModelAnswer(ans);
            var base := ColorWithIntensity(GetOr(ans.primaryEmotion, "기쁨"), GetOr(ans.intensity, 5));
            a.color.rgb == base.rgb && a.color.hex == base.hex && a.color.intensity == base.intensity
  {
  }
}
