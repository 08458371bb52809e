/** The negative-emotion alert: a check over the seven-day aggregate, suppressed for seven days after
    the user acknowledges it, a developer-only forced alert, and the acknowledgement itself. The
    aggregate's `items` column is JSON, so the check first keeps only the entries it can read as
    objects. */
module Alerts {
  import opened Common
  import opened Models
  import RecordService

  /** Seven days in seconds, the suppression window. */
  const SuppressSeconds: int := 7 * 86400

  const AlertMessage := "최근 오래도록 힘든 감정이 이어졌어요. 잠깐 숨 고르며 마음을 돌보는 시간이 필요할지 몰라요."
  const FormUrl := "https://forms.gle/RM8vijEWkqgPo1de9"

  // ---------------------------------------------------------------------------------------------
  // The JSON the check reads

  /** What `item.get("primary_emotion")` gives: nothing, a string, another hashable value (a number,
      `true`, `null`), or an array or object, which cannot be looked up in a set. */
  datatype EmotionField = Missing | Text(s: string) | OtherScalar | Unhashable

  /** What `json.loads` makes of a string entry. */
  datatype ParseOutcome = ParsedObject(emotion: EmotionField) | ParsedOther | Unparsable

  /** One entry of the list: an object, a string, or anything else. */
  datatype RawItem = ObjectItem(emotion: EmotionField) | StringItem(parsed: ParseOutcome) | OtherItem

  /** The column's value: a list, or any other JSON value. */
  datatype CacheItems = ItemList(items: seq<RawItem>) | NonList

  /** The object an entry stands for, if any: the entry itself, or the object its string parses to. */
  function ObjectOf(it: RawItem): Option<EmotionField>
  {
    match it
      case ObjectItem(e) => Some(e)
      case StringItem(ParsedObject(e)) => Some(e)
      case _ => None
  }

  /** The defensive pass: the emotion field of every entry that is or parses to an object, in order. */
  function SafeItems(raw: seq<RawItem>): (fs: seq<EmotionField>)
    ensures |fs| <= |raw|
  {
    if raw == [] then []
    else
      var rest := SafeItems(raw[..|raw| - 1]);
      match ObjectOf(raw[|raw| - 1])
        case None => rest
        case Some(e) => rest + [e]
  }

  /** Nothing survives exactly when no entry is or parses to an object. */
  lemma {:induction false} SafeItemsEmpty(raw: seq<RawItem>)
    ensures SafeItems(raw) == [] <==> forall i :: 0 <= i < |raw| ==> ObjectOf(raw[i]).None?
    decreases |raw|
  {
    if raw != [] {
      SafeItemsEmpty(raw[..|raw| - 1]);
      assert forall i :: 0 <= i < |raw| - 1 ==> raw[..|raw| - 1][i] == raw[i];
    }
  }

  /** How many fields name a negative emotion. */
  function DaysNegative(fs: seq<EmotionField>): (n: nat)
    ensures n <= |fs|
  {
    if fs == [] then 0
    else DaysNegative(fs[..|fs| - 1]) + (if fs[|fs| - 1].Text? && fs[|fs| - 1].s in NegativeEmotions then 1 else 0)
  }

  /** Some field cannot be looked up in the negative set, so the count raises. */
  predicate HasUnhashable(fs: seq<EmotionField>)
  {
    fs != [] && (fs[|fs| - 1] == Unhashable || HasUnhashable(fs[..|fs| - 1]))
  }

  /** An unhashable field in a prefix is one in the whole list. */
  lemma {:induction false} HasUnhashablePrefix(fs: seq<EmotionField>, n: nat)
    requires n <= |fs| && HasUnhashable(fs[..n])
    ensures HasUnhashable(fs)
    decreases |fs|
  {
    if n < |fs| {
      assert fs[..|fs| - 1][..n] == fs[..n];
      HasUnhashablePrefix(fs[..|fs| - 1], n);
    } else {
      assert fs[..n] == fs;
    }
  }

  // ---------------------------------------------------------------------------------------------
  // The rule and the check

  /** `neg / n >= 0.6`, exactly: the quotient of two small counts equals 0.6 in floating point
      only when `5 * neg == 3 * n`, so the float test agrees with the rational one. */
  predicate RatioRule(neg: nat, n: nat)
  {
    5 * neg >= 3 * n
  }

  /** At least five negative days out of at least seven, or a ratio of at least 0.6. */
  predicate ShouldAlert(neg: nat, n: nat)
  {
    (n >= 7 && neg >= 5) || RatioRule(neg, n)
  }

  /** Up to eight items the count clause adds nothing: the rule is the ratio test. */
  lemma RuleForShortLists(neg: nat, n: nat)
    requires neg <= n <= 8
    ensures ShouldAlert(neg, n) <==> 5 * neg >= 3 * n
  {
    if n >= 7 && neg >= 5 {
      assert 5 * neg >= 25;
    }
  }

  /** From nine items on the count clause matters: five negative days out of nine alert although the
      ratio is below 0.6. */
  lemma CountClauseForLongLists()
    ensures ShouldAlert(5, 9) && !RatioRule(5, 9)
  {
  }

  datatype AlertPayload = AlertPayload(shouldAlert: bool, period: int, negativeRatio: Ratio, daysNegative: nat,
                                       message: string, formUrl: string, isTest: bool)

  /** The check's answers: suppressed, nothing to show, an evaluation, or the fallback answer an
      exception is turned into. */
  datatype CheckResult = Suppressed | NoAlert | Evaluated(payload: AlertPayload) | ErrorFallback

  function ShouldAlertOf(r: CheckResult): bool
  {
    r.Evaluated? && r.payload.shouldAlert
  }

  /** The user acknowledged less than seven days ago (at any earlier or later clock reading). */
  predicate SuppressedAt(state: Option<AlertState>, now: int)
  {
    state.Some? && state.value.lastMindCheckAt.Some? && now - state.value.lastMindCheckAt.value < SuppressSeconds
  }

  /** The verdict on the column's value once suppression is ruled out. */
  function Evaluate(cache: Option<CacheItems>): (r: CheckResult)
    ensures r.Evaluated? ==> r.payload.daysNegative <= r.payload.negativeRatio.total
                             && r.payload.negativeRatio.count == r.payload.daysNegative
                             && r.payload.negativeRatio.total >= 1
                             && r.payload.period == 7 && !r.payload.isTest
                             && r.payload.shouldAlert == ShouldAlert(r.payload.daysNegative, r.payload.negativeRatio.total)
    ensures r != Suppressed
  {
    if cache.None? || cache.value.NonList? || cache.value.items == [] then NoAlert
    else
      var fs := SafeItems(cache.value.items);
      if fs == [] then NoAlert
      else if HasUnhashable(fs) then ErrorFallback
      else
        var neg := DaysNegative(fs);
        Evaluated(AlertPayload(ShouldAlert(neg, |fs|), 7, Ratio(neg, |fs|), neg, AlertMessage, FormUrl, false))
  }

  /** `check_negative_alert`: a recent acknowledgement wins over whatever the cache holds. */
  function Check(state: Option<AlertState>, cache: Option<CacheItems>, now: int): (r: CheckResult)
    ensures SuppressedAt(state, now) <==> r == Suppressed
  {
    if SuppressedAt(state, now) then Suppressed else Evaluate(cache)
  }

  /** No cache, an empty list, a value that is not a list, or a list with no entry readable as an
      object: no alert. */
  lemma NothingReadableNoAlert(state: Option<AlertState>, cache: Option<CacheItems>, now: int)
    requires !SuppressedAt(state, now)
    requires cache.None? || cache.value.NonList? || forall i :: 0 <= i < |cache.value.items| ==> ObjectOf(cache.value.items[i]).None?
    ensures Check(state, cache, now) == NoAlert
  {
    if cache.Some? && cache.value.ItemList? {
      SafeItemsEmpty(cache.value.items);
    }
  }

  /** The check never alerts unless it evaluated readable entries. */
  lemma AlertOnlyFromEvaluation(state: Option<AlertState>, cache: Option<CacheItems>, now: int)
    ensures ShouldAlertOf(Check(state, cache, now)) ==>
              && !SuppressedAt(state, now) && cache.Some? && cache.value.ItemList?
              && SafeItems(cache.value.items) != [] && !HasUnhashable(SafeItems(cache.value.items))
  {
  }

  // ---------------------------------------------------------------------------------------------
  // The aggregate as the record service writes it

  /** The JSON objects the record service stores for its items. */
  function ToRaw(items: seq<WeeklyItem>): (raw: seq<RawItem>)
    ensures |raw| == |items|
  {
    if items == [] then [] else ToRaw(items[..|items| - 1]) + [ObjectItem(Text(items[|items| - 1].primaryEmotion))]
  }

  lemma {:induction false} ToRawSafe(items: seq<WeeklyItem>)
    ensures |SafeItems(ToRaw(items))| == |items|
    ensures !HasUnhashable(SafeItems(ToRaw(items)))
    ensures DaysNegative(SafeItems(ToRaw(items))) == RecordService.NegativeCount(items)
    decreases |items|
  {
    if items != [] {
      var init := items[..|items| - 1];
      ToRawSafe(init);
      assert ToRaw(items)[..|items| - 1] == ToRaw(init);
      var fs := SafeItems(ToRaw(items));
      assert fs == SafeItems(ToRaw(init)) + [Text(items[|items| - 1].primaryEmotion)];
      assert fs[..|fs| - 1] == SafeItems(ToRaw(init));
    }
  }

  /** The evaluation of a list whose readable entries all have hashable fields. */
  lemma EvaluateReadable(raw: seq<RawItem>)
    requires SafeItems(raw) != [] && !HasUnhashable(SafeItems(raw))
    ensures var fs := SafeItems(raw);
            Evaluate(Some(ItemList(raw)))
              == Evaluated(AlertPayload(ShouldAlert(DaysNegative(fs), |fs|), 7, Ratio(DaysNegative(fs), |fs|),
                                        DaysNegative(fs), AlertMessage, FormUrl, false))
  {
  }

  /** On a cache the record service wrote, the check counts the same negative days as the
      aggregate's own ratio. */
  lemma CheckAgreesWithAggregate(items: seq<WeeklyItem>, now: int)
    requires items != []
    ensures Check(None, Some(ItemList(ToRaw(items))), now)
              == Evaluated(AlertPayload(ShouldAlert(RecordService.NegativeCount(items), |items|), 7,
                                        Ratio(RecordService.NegativeCount(items), |items|),
                                        RecordService.NegativeCount(items), AlertMessage, FormUrl, false))
  {
    ToRawSafe(items);
    EvaluateReadable(ToRaw(items));
  }

  // ---------------------------------------------------------------------------------------------
  // The endpoints

  /** The defensive pass as a loop that skips what it cannot read. */
  method SafeItemsLoop(raw: seq<RawItem>) returns (safe: seq<EmotionField>)
    ensures safe == SafeItems(raw)
  {
    safe := [];
    for i := 0 to |raw|
      invariant safe == SafeItems(raw[..i])
    {
      assert raw[..i + 1][..i] == raw[..i];
      var it := raw[i];
      if it.ObjectItem? {
        safe := safe + [it.emotion];
        continue;
      }
      if it.StringItem? && it.parsed.ParsedObject? {
        safe := safe + [it.parsed.emotion];
      }
    }
    assert raw[..|raw|] == raw;
  }

  /** The count of negative days, raising (here: reporting failure) at an unhashable field. */
  method CountNegative(fs: seq<EmotionField>) returns (ok: bool, neg: nat)
    ensures ok <==> !HasUnhashable(fs)
    ensures ok ==> neg == DaysNegative(fs)
  {
    neg := 0;
    for i := 0 to |fs|
      invariant neg == DaysNegative(fs[..i])
      invariant !HasUnhashable(fs[..i])
    {
      assert fs[..i + 1][..i] == fs[..i];
      if fs[i] == Unhashable {
        assert HasUnhashable(fs[..i + 1]);
        HasUnhashablePrefix(fs, i + 1);
        return false, neg;
      }
      if fs[i].Text? && fs[i].s in NegativeEmotions {
        neg := neg + 1;
      }
    }
    assert fs[..|fs|] == fs;
    ok := true;
  }

  /** The verdict on the column, step by step. */
  method EvaluateColumn(cache: Option<CacheItems>) returns (r: CheckResult)
    ensures r == Evaluate(cache)
  {
    if cache.None? || cache.value.NonList? || cache.value.items == [] {
      return NoAlert;
    }
    var safe := SafeItemsLoop(cache.value.items);
    if safe == [] {
      return NoAlert;
    }
    var ok, neg := CountNegative(safe);
    if !ok {
      return ErrorFallback;
    }
    r := Evaluated(AlertPayload((|safe| >= 7 && neg >= 5) || 5 * neg >= 3 * |safe|, 7, Ratio(neg, |safe|), neg,
                                AlertMessage, FormUrl, false));
  }

  /** The user's seven-day aggregate as the check reads it. */
  function Column(weekly: map<(int, int), WeeklyCache>, userId: int): Option<CacheItems>
  {
    match RecordService.CacheRow(weekly, userId, 7)
      case None => None
      case Some(c) => Some(ItemList(ToRaw(c.items)))
  }

  /** The check over the tables: the alert state and the seven-day aggregate of the user. */
  method CheckNegativeAlert(states: AlertStates, weekly: WeeklyCaches, userId: int, now: int) returns (r: CheckResult)
    ensures r == Check(if userId in states.rows then Some(states.rows[userId]) else None, Column(weekly.rows, userId), now)
  {
    var state := if userId in states.rows then Some(states.rows[userId]) else None;
    if SuppressedAt(state, now) {
      return Suppressed;
    }
    r := EvaluateColumn(Column(weekly.rows, userId));
  }

  const ErrDeveloperOnly := "개발자 계정만 사용할 수 있습니다."

  /** `force_show_alert_for_testing`: 403 for anyone but a developer, otherwise a fixed alert with
      ratio 0.85 and six negative days. */
  function ForceShow(isDeveloper: bool): (r: Result<AlertPayload>)
    ensures !isDeveloper <==> r == Failure(ErrDeveloperOnly)
    ensures r.Success? ==> r.value.shouldAlert && r.value.isTest && r.value.negativeRatio == Ratio(85, 100)
                           && r.value.daysNegative == 6 && r.value.period == 7
  {
    if !isDeveloper then Failure(ErrDeveloperOnly)
    else Success(AlertPayload(true, 7, Ratio(85, 100), 6, AlertMessage, FormUrl, true))
  }

  /** `acknowledge_alert`: the user's row, created when missing, records `now`; no other row changes. */
  method Acknowledge(states: AlertStates, userId: int, now: int) returns (acknowledgedAt: int)
    modifies states
    ensures states.rows == old(states.rows)[userId := AlertState(Some(now))]
    ensures acknowledgedAt == now
  {
    if userId !in states.rows {
      states.rows := states.rows[userId := AlertState(Some(now))];
    } else {
      states.rows := states.rows[userId := states.rows[userId].(lastMindCheckAt := Some(now))];
    }
    acknowledgedAt := now;
  }

  /** After an acknowledgement at `t`, every check before `t` plus seven days is suppressed, whatever
      the cache holds; from then on the cache decides again. */
  lemma AcknowledgeSuppresses(t: int, later: int, cache: Option<CacheItems>)
    ensures later < t + SuppressSeconds ==> Check(Some(AlertState(Some(t))), cache, later) == Suppressed
    ensures later >= t + SuppressSeconds ==> Check(Some(AlertState(Some(t))), cache, later) == Evaluate(cache)
  {
  }
}
