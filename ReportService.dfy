/** The counsellor-sharing flow: a per-user consent row, share links created only with consent from
    the weekly aggregate (or from the recent records when the aggregate is empty), stored under the
    digest of their token, readable until they expire or are revoked, revocable by their owner, and
    listed while active. The token and the digest function are inputs; the digest is only assumed
    injective where a property needs it. */
module ReportService {
  import opened Common
  import opened Models
  import RecordService

  // ---------------------------------------------------------------------------------------------
  // Consent

  datatype ConsentView = ConsentView(consented: bool, message: string, actionRequired: string,
                                     consentedAt: Option<int>, revokedAt: Option<int>)

  /** `get_consent`: a missing row and a row with `consented` false both ask for consent. */
  function GetConsent(rows: map<int, Consent>, userId: int): (v: ConsentView)
    ensures v.consented <==> userId in rows && rows[userId].consented
    ensures v.actionRequired == (if v.consented then "none" else "consent")
    ensures v.consented ==> v.consentedAt == rows[userId].consentedAt
    ensures userId in rows && !v.consented ==> v.revokedAt == rows[userId].revokedAt
  {
    if userId !in rows then ConsentView(false, "동의하셔야 합니다", "consent", None, None)
    else if !rows[userId].consented then ConsentView(false, "동의하셔야 합니다", "consent", None, rows[userId].revokedAt)
    else ConsentView(true, "이미 동의하셨습니다", "none", rows[userId].consentedAt, None)
  }

  /** The row after `set_consent`: a missing row starts unconsented with no times; consenting stamps
      `consentedAt` and clears `revokedAt`; withdrawing stamps `revokedAt` and keeps `consentedAt`. */
  function ConsentAfter(row: Option<Consent>, consented: bool, now: int): (c: Consent)
    ensures c.consented == consented
    ensures consented ==> c.consentedAt == Some(now) && c.revokedAt.None?
    ensures !consented ==> c.revokedAt == Some(now) && c.consentedAt == (if row.Some? then row.value.consentedAt else None)
  {
    var base := if row.Some? then row.value else Consent(false, None, None);
    if consented then base.(consented := true, consentedAt := Some(now), revokedAt := None)
    else base.(consented := false, revokedAt := Some(now))
  }

  /** `set_consent`: the user's row, created when missing, takes the new answer; no other row changes. */
  method SetConsent(consents: Consents, userId: int, consented: bool, now: int) returns (c: Consent)
    modifies consents
    ensures c == ConsentAfter(if userId in old(consents.rows) then Some(old(consents.rows)[userId]) else None, consented, now)
    ensures consents.rows == old(consents.rows)[userId := c]
  {
    var row := if userId in consents.rows then consents.rows[userId] else Consent(false, None, None);
    row := row.(consented := consented);
    if consented {
      row := row.(consentedAt := Some(now), revokedAt := None);
    } else {
      row := row.(revokedAt := Some(now));
    }
    consents.rows := consents.rows[userId := row];
    c := row;
  }

  /** What the consent view reports after setting consent is the answer given, and every other
      user's view is unchanged. */
  lemma ConsentRoundTrip(rows: map<int, Consent>, userId: int, consented: bool, now: int, other: int)
    requires other != userId
    ensures var rows' := rows[userId := ConsentAfter(if userId in rows then Some(rows[userId]) else None, consented, now)];
            GetConsent(rows', userId).consented == consented && GetConsent(rows', other) == GetConsent(rows, other)
  {
  }

  // ---------------------------------------------------------------------------------------------
  // The snapshot a share freezes

  const ErrNoConsent := "사용자가 공유에 동의하지 않았습니다."
  const ErrNoRecords := "최근 7일 일기가 없습니다."
  const ErrSaveFailed := "공유 링크 저장 실패"
  const ErrInvalidLink := "유효하지 않은 공유 링크입니다."
  const ErrExpiredLink := "만료된 공유 링크입니다."

  /** The user's records of the look-back window `[now - periodDays days, now]`, oldest first
      (storage order stands for creation order). */
  function Window(rows: seq<Record>, userId: int, periodDays: int, now: int): (w: seq<Record>)
    ensures forall r :: r in w <==> r in rows && r.userId == userId && now - periodDays * SecondsPerDay <= r.createdAt <= now
  {
    if rows == [] then []
    else
      var rest := Window(rows[..|rows| - 1], userId, periodDays, now);
      var last := rows[|rows| - 1];
      assert forall x :: x in rows <==> x in rows[..|rows| - 1] || x == last;
      if last.userId == userId && now - periodDays * SecondsPerDay <= last.createdAt <= now then rest + [last] else rest
  }

  /** A record as a snapshot item: its date, its stripped summary and its primary emotion. */
  function ItemOf(r: Record): WeeklyItem
  {
    WeeklyItem(Day(r.createdAt), Strip(r.summary), RecordService.PrimaryOf(r.analysis))
  }

  function ItemsOf(records: seq<Record>): (items: seq<WeeklyItem>)
    ensures |items| == |records|
  {
    if records == [] then [] else ItemsOf(records[..|records| - 1]) + [ItemOf(records[|records| - 1])]
  }

  /** The recomputed snapshot: none without records; otherwise the items of the last `periodDays`
      records of the window, their negative ratio and the roll-up of their summaries, computed by
      the same formulas as the weekly aggregate. */
  function SnapshotFromRecords(window: seq<Record>, periodDays: int, now: int): (s: Result<Snapshot>)
    ensures window == [] <==> s == Failure(ErrNoRecords)
    ensures s.Success? ==>
              && s.value.items == ItemsOf(PyTail(window, periodDays))
              && s.value.negativeRatio == Ratio(RecordService.NegativeCount(s.value.items), |s.value.items|)
              && s.value.oneLineSummary == RecordService.RollUp(s.value.items)
              && s.value.period == periodDays && s.value.generatedAt == now
  {
    if window == [] then Failure(ErrNoRecords)
    else
      var items := ItemsOf(PyTail(window, periodDays));
      Success(Snapshot(periodDays, items, RecordService.RollUp(items),
                       Ratio(RecordService.NegativeCount(items), |items|), now))
  }

  /** With a positive period the recomputation keeps at most `periodDays` items, at least one, and a
      ratio in [0, 1] whose roll-up fits in 200 characters. */
  lemma RecomputedBounds(window: seq<Record>, periodDays: int, now: int)
    requires window != [] && periodDays >= 1
    ensures var s := SnapshotFromRecords(window, periodDays, now);
            && 1 <= |s.value.items| <= periodDays
            && RatioInUnitRange(s.value.negativeRatio)
            && |s.value.oneLineSummary| <= 200
  {
    RecordService.RollUpBounds(ItemsOf(PyTail(window, periodDays)));
  }

  /** The aggregate's own snapshot: its items verbatim, a missing summary as "" and a missing ratio
      as 0. */
  function SnapshotFromCache(cache: WeeklyCache, periodDays: int, now: int): Snapshot
  {
    Snapshot(periodDays, cache.items,
             if cache.oneLineSummary.Some? then cache.oneLineSummary.value else "",
             if cache.negativeRatio.Some? then cache.negativeRatio.value else Ratio(0, 0), now)
  }

  /** The snapshot source: an aggregate with items wins; otherwise the records decide. */
  function ShareSnapshot(cache: Option<WeeklyCache>, window: seq<Record>, periodDays: int, now: int): (s: Result<Snapshot>)
    ensures cache.Some? && cache.value.items != [] ==> s == Success(SnapshotFromCache(cache.value, periodDays, now))
    ensures !(cache.Some? && cache.value.items != []) ==> s == SnapshotFromRecords(window, periodDays, now)
  {
    if cache.Some? && cache.value.items != [] then Success(SnapshotFromCache(cache.value, periodDays, now))
    else SnapshotFromRecords(window, periodDays, now)
  }

  /** The loop over the recent records that builds their items. */
  method CollectItems(recent: seq<Record>) returns (items: seq<WeeklyItem>)
    ensures items == ItemsOf(recent)
  {
    items := [];
    for i := 0 to |recent|
      invariant items == ItemsOf(recent[..i])
    {
      assert recent[..i + 1][..i] == recent[..i];
      items := items + [ItemOf(recent[i])];
    }
    assert recent[..|recent|] == recent;
  }

  /** The recomputation: no records is an error; otherwise the items of the last `periodDays`
      records, then the negative count and the summaries gathered over them. */
  method RecomputeSnapshot(window: seq<Record>, periodDays: int, now: int) returns (s: Result<Snapshot>)
    ensures s == SnapshotFromRecords(window, periodDays, now)
  {
    if window == [] {
      return Failure(ErrNoRecords);
    }
    var items := CollectItems(PyTail(window, periodDays));
    var negCount, summaries := RecordService.CountAndCollect(items);
    s := Success(Snapshot(periodDays, items, Prefix(Join(" ", PyTail(summaries, 3)), 200), Ratio(negCount, |items|), now));
  }

  // ---------------------------------------------------------------------------------------------
  // Shares

  /** Some stored share carries the digest `d`. */
  predicate Stored(rows: seq<SharedReport>, d: string)
  {
    exists i :: 0 <= i < |rows| && rows[i].digest == d
  }

  /** The share `create_weekly_share` stores, or why none is: no consent, no snapshot source, or a
      digest the unique column already holds (the failed commit is rolled back). */
  function NewShare(consents: map<int, Consent>, cache: Option<WeeklyCache>, window: seq<Record>,
                    rows: seq<SharedReport>, userId: int, periodDays: int, expiresInDays: int,
                    now: int, d: string): (s: Result<SharedReport>)
    ensures !GetConsent(consents, userId).consented ==> s == Failure(ErrNoConsent)
    ensures GetConsent(consents, userId).consented && ShareSnapshot(cache, window, periodDays, now).Failure? ==>
              s == Failure(ShareSnapshot(cache, window, periodDays, now).error)
    ensures GetConsent(consents, userId).consented && ShareSnapshot(cache, window, periodDays, now).Success? ==>
              (s == Failure(ErrSaveFailed) <==> Stored(rows, d))
    ensures s.Success? ==>
              && GetConsent(consents, userId).consented && !Stored(rows, d)
              && s.value == SharedReport(userId, d, ShareSnapshot(cache, window, periodDays, now).value,
                                         now + expiresInDays * SecondsPerDay, false, now)
  {
    if !GetConsent(consents, userId).consented then Failure(ErrNoConsent)
    else match ShareSnapshot(cache, window, periodDays, now)
      case Failure(e) => Failure(e)
      case Success(snap) =>
        if Stored(rows, d) then Failure(ErrSaveFailed)
        else Success(SharedReport(userId, d, snap, now + expiresInDays * SecondsPerDay, false, now))
  }

  /** Whether a digest is already stored, by a scan. */
  method IsStored(rows: seq<SharedReport>, d: string) returns (found: bool)
    ensures found == Stored(rows, d)
  {
    found := false;
    for i := 0 to |rows|
      invariant !found
      invariant forall j :: 0 <= j < i ==> rows[j].digest != d
    {
      if rows[i].digest == d {
        return true;
      }
    }
  }

  /** `create_weekly_share`: the plaintext token and the expiry are returned, only the digest is
      stored; a refused share leaves the table as it was. */
  method CreateWeeklyShare(consents: Consents, weekly: WeeklyCaches, records: Records, shares: SharedReports,
                           userId: int, periodDays: int, expiresInDays: int, now: int,
                           token: string, digest: string -> string) returns (r: Result<(string, int)>)
    requires shares.Valid()
    modifies shares
    ensures shares.Valid()
    ensures var s := NewShare(consents.rows, RecordService.CacheRow(weekly.rows, userId, periodDays),
                              Window(records.rows, userId, periodDays, now), old(shares.rows),
                              userId, periodDays, expiresInDays, now, digest(token));
            && (s.Failure? ==> r == Failure(s.error) && shares.rows == old(shares.rows))
            && (s.Success? ==> r == Success((token, s.value.expiresAt)) && shares.rows == old(shares.rows) + [s.value])
  {
    if !GetConsent(consents.rows, userId).consented {
      return Failure(ErrNoConsent);
    }
    var cache := RecordService.CacheRow(weekly.rows, userId, periodDays);
    var snap: Result<Snapshot>;
    if cache.Some? && cache.value.items != [] {
      snap := Success(SnapshotFromCache(cache.value, periodDays, now));
    } else {
      snap := RecomputeSnapshot(Window(records.rows, userId, periodDays, now), periodDays, now);
    }
    if snap.Failure? {
      return Failure(snap.error);
    }
    var d := digest(token);
    var taken := IsStored(shares.rows, d);
    if taken {
      return Failure(ErrSaveFailed);
    }
    var row := SharedReport(userId, d, snap.value, now + expiresInDays * SecondsPerDay, false, now);
    shares.rows := shares.rows + [row];
    r := Success((token, row.expiresAt));
  }

  /** The first share with digest `d`. */
  function FindShare(rows: seq<SharedReport>, d: string): (p: Option<nat>)
    ensures p.Some? ==> p.value < |rows| && rows[p.value].digest == d
                        && forall j :: 0 <= j < p.value ==> rows[j].digest != d
    ensures p.None? <==> !Stored(rows, d)
  {
    if rows == [] then None
    else if rows[0].digest == d then Some(0)
    else match FindShare(rows[1..], d)
      case None =>
        assert forall j :: 1 <= j < |rows| ==> rows[j] == rows[1..][j - 1];
        None
      case Some(k) => Some(k + 1)
  }

  /** `get_shared_report`: an unknown or revoked link is invalid; a link is readable up to and
      including its expiry instant; the snapshot comes back as stored. */
  function GetSharedReport(rows: seq<SharedReport>, digest: string -> string, token: string, now: int): (r: Result<Snapshot>)
    ensures FindShare(rows, digest(token)).None? ==> r == Failure(ErrInvalidLink)
    ensures FindShare(rows, digest(token)).Some? ==>
              var s := rows[FindShare(rows, digest(token)).value];
              r == if s.revoked then Failure(ErrInvalidLink)
                   else if s.expiresAt < now then Failure(ErrExpiredLink)
                   else Success(s.snapshot)
  {
    match FindShare(rows, digest(token))
      case None => Failure(ErrInvalidLink)
      case Some(i) =>
        if rows[i].revoked then Failure(ErrInvalidLink)
        else if rows[i].expiresAt < now then Failure(ErrExpiredLink)
        else Success(rows[i].snapshot)
  }

  ghost predicate Injective(digest: string -> string)
  {
    forall a: string, b: string :: digest(a) == digest(b) ==> a == b
  }

  /** A freshly stored share is found by its own token: it reads back its snapshot up to its expiry
      and is expired after it. */
  lemma {:induction false} NewShareReadable(rows: seq<SharedReport>, row: SharedReport, digest: string -> string,
                                            token: string, now: int)
    requires row.digest == digest(token) && !Stored(rows, row.digest) && !row.revoked
    ensures FindShare(rows + [row], row.digest) == Some(|rows|)
    ensures now <= row.expiresAt ==> GetSharedReport(rows + [row], digest, token, now) == Success(row.snapshot)
    ensures now > row.expiresAt ==> GetSharedReport(rows + [row], digest, token, now) == Failure(ErrExpiredLink)
  {
    assert (rows + [row])[|rows|].digest == row.digest;
    assert forall j :: 0 <= j < |rows| ==> (rows + [row])[j] == rows[j];
  }

  /** With an injective digest, storing a share changes nothing for any other token. */
  lemma OtherTokensUnaffected(rows: seq<SharedReport>, row: SharedReport, digest: string -> string,
                              token: string, other: string, now: int)
    requires Injective(digest) && row.digest == digest(token) && other != token
    ensures FindShare(rows + [row], digest(other)) == FindShare(rows, digest(other))
    ensures GetSharedReport(rows + [row], digest, other, now) == GetSharedReport(rows, digest, other, now)
  {
    FindShareAppend(rows, row, digest(other));
  }

  lemma {:induction false} FindShareAppend(rows: seq<SharedReport>, row: SharedReport, d: string)
    requires row.digest != d
    ensures FindShare(rows + [row], d) == FindShare(rows, d)
    decreases |rows|
  {
    if rows != [] && rows[0].digest != d {
      assert (rows + [row])[1..] == rows[1..] + [row];
      FindShareAppend(rows[1..], row, d);
    }
  }

  // ---------------------------------------------------------------------------------------------
  // Revocation and listing

  /** The first share with digest `d` owned by `userId`. */
  function FindOwned(rows: seq<SharedReport>, d: string, userId: int): (p: Option<nat>)
    ensures p.Some? ==> p.value < |rows| && rows[p.value].digest == d && rows[p.value].userId == userId
    ensures p.None? ==> forall i :: 0 <= i < |rows| ==> !(rows[i].digest == d && rows[i].userId == userId)
  {
    if rows == [] then None
    else if rows[0].digest == d && rows[0].userId == userId then Some(0)
    else match FindOwned(rows[1..], d, userId)
      case None => None
      case Some(k) => Some(k + 1)
  }

  /** `revoke_shared_report`: only the owner's share with that digest is marked revoked, and the
      answer is true even when it already was. */
  method RevokeSharedReport(shares: SharedReports, userId: int, token: string, digest: string -> string) returns (done: bool)
    requires shares.Valid()
    modifies shares
    ensures shares.Valid()
    ensures done <==> FindOwned(old(shares.rows), digest(token), userId).Some?
    ensures !done ==> shares.rows == old(shares.rows)
    ensures done ==> var i := FindOwned(old(shares.rows), digest(token), userId).value;
                     shares.rows == old(shares.rows)[i := old(shares.rows)[i].(revoked := true)]
  {
    var p := FindOwned(shares.rows, digest(token), userId);
    if p.None? {
      return false;
    }
    var i := p.value;
    shares.rows := shares.rows[i := shares.rows[i].(revoked := true)];
    assert forall j :: 0 <= j < |shares.rows| ==> shares.rows[j].digest == old(shares.rows)[j].digest;
    done := true;
  }

  /** Once revoked, a share reads as invalid for its token from then on. */
  lemma RevokedIsInvalid(rows: seq<SharedReport>, i: nat, digest: string -> string, token: string, now: int)
    requires DigestsUnique(rows) && i < |rows| && rows[i].digest == digest(token)
    ensures GetSharedReport(rows[i := rows[i].(revoked := true)], digest, token, now) == Failure(ErrInvalidLink)
  {
    var rows' := rows[i := rows[i].(revoked := true)];
    assert rows'[i].digest == digest(token);
    assert forall j :: 0 <= j < |rows| && j != i ==> rows'[j] == rows[j];
  }

  predicate Active(s: SharedReport, userId: int, now: int)
  {
    s.userId == userId && !s.revoked && s.expiresAt >= now
  }

  /** The owner's non-revoked shares that have not expired, in storage order. */
  function ActiveShares(rows: seq<SharedReport>, userId: int, now: int): (a: seq<SharedReport>)
    ensures forall s :: s in a <==> s in rows && Active(s, userId, now)
  {
    if rows == [] then []
    else
      var rest := ActiveShares(rows[..|rows| - 1], userId, now);
      var last := rows[|rows| - 1];
      assert forall x :: x in rows <==> x in rows[..|rows| - 1] || x == last;
      if Active(last, userId, now) then rest + [last] else rest
  }

  /** `list_active_shares`: the creation and expiry times of the active shares, nothing else. */
  function ListActiveShares(rows: seq<SharedReport>, userId: int, now: int): (ts: seq<(int, int)>)
    ensures var a := ActiveShares(rows, userId, now);
            |ts| == |a| && forall i :: 0 <= i < |a| ==> ts[i] == (a[i].createdAt, a[i].expiresAt)
  {
    var a := ActiveShares(rows, userId, now);
    seq(|a|, i requires 0 <= i < |a| => (a[i].createdAt, a[i].expiresAt))
  }

  /** A share is listed as active exactly when its own token reads it: both say not revoked and
      not past expiry. */
  lemma ActiveIffReadable(rows: seq<SharedReport>, digest: string -> string, token: string, userId: int, now: int)
    requires DigestsUnique(rows) && FindShare(rows, digest(token)).Some?
    requires rows[FindShare(rows, digest(token)).value].userId == userId
    ensures var s := rows[FindShare(rows, digest(token)).value];
            s in ActiveShares(rows, userId, now) <==> GetSharedReport(rows, digest, token, now).Success?
  {
  }
}
