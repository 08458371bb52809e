/** The database rows the services read and write, one datatype per table row, and one class per
    table holding its rows keyed by the table's unique column. Times are whole seconds on one UTC
    clock; a calendar date is the day number `t / 86400`. */
module Models {
  import opened Common
  import opened EmotionColor

  const SecondsPerDay: nat := 86400

  /** The calendar date of an instant, as a day number. */
  function Day(t: int): int
  {
    t / SecondsPerDay
  }

  /** The eight labels the weekly aggregate, the alert check and a share's recomputation count as
      negative (the Plutchik labels 슬픔, 분노, 혐오, 두려움 and four colloquial ones). */
  const NegativeEmotions: set<string> := {"우울", "슬픔", "분노", "혐오", "두려움", "불안", "짜증", "화남"}

  /** A count over a total, kept exact; a zero total stands for the ratio 0.0. */
  datatype Ratio = Ratio(count: nat, total: nat)

  predicate RatioInUnitRange(q: Ratio)
  {
    q.count <= q.total
  }

  // ---------------------------------------------------------------------------------------------
  // users

  datatype User = User(isDeveloper: bool, seeds: int, attendanceStreak: int, lastAttendanceDay: Option<int>)

  class Users {
    var rows: map<int, User>

    constructor (rows: map<int, User>)
      ensures this.rows == rows
    {
      this.rows := rows;
    }
  }

  // ---------------------------------------------------------------------------------------------
  // records

  /** What the services read from a record's `emotion_analysis` JSON: the primary emotion and the
      colour, each possibly absent. */
  datatype ColorInfo = ColorInfo(rgb: Option<seq<int>>, intensity: Option<RawNumber>)

  datatype EmotionAnalysis = EmotionAnalysis(primaryEmotion: Option<string>, color: Option<ColorInfo>)

  datatype Record = Record(id: nat, userId: int, createdAt: int, content: string,
                           sleepScore: Option<int>, stressScore: Option<int>,
                           keywords: seq<string>, summary: string, analysis: Option<EmotionAnalysis>,
                           shareWithCounselor: bool)

  /** The records table in primary-key order, with the next key to hand out. */
  class Records {
    var rows: seq<Record>
    var nextId: nat

    ghost predicate Valid()
      reads this
    {
      forall i :: 0 <= i < |rows| ==> rows[i].id < nextId
    }

    constructor (rows: seq<Record>, nextId: nat)
      requires forall i :: 0 <= i < |rows| ==> rows[i].id < nextId
      ensures this.rows == rows && this.nextId == nextId && Valid()
    {
      this.rows := rows;
      this.nextId := nextId;
    }
  }

  // ---------------------------------------------------------------------------------------------
  // weekly summary cache, unique on (user, period)

  /** One day of the rolling aggregate: the date, the summary and the primary emotion ("" if none). */
  datatype WeeklyItem = WeeklyItem(date: int, summary: string, primaryEmotion: string)

  datatype WeeklyCache = WeeklyCache(items: seq<WeeklyItem>, oneLineSummary: Option<string>,
                                     negativeRatio: Option<Ratio>)

  class WeeklyCaches {
    var rows: map<(int, int), WeeklyCache>

    constructor (rows: map<(int, int), WeeklyCache>)
      ensures this.rows == rows
    {
      this.rows := rows;
    }
  }

  // ---------------------------------------------------------------------------------------------
  // consent, unique on user

  datatype Consent = Consent(consented: bool, consentedAt: Option<int>, revokedAt: Option<int>)

  class Consents {
    var rows: map<int, Consent>

    constructor (rows: map<int, Consent>)
      ensures this.rows == rows
    {
      this.rows := rows;
    }
  }

  // ---------------------------------------------------------------------------------------------
  // alert state, unique on user

  datatype AlertState = AlertState(lastMindCheckAt: Option<int>)

  class AlertStates {
    var rows: map<int, AlertState>

    constructor (rows: map<int, AlertState>)
      ensures this.rows == rows
    {
      this.rows := rows;
    }
  }

  // ---------------------------------------------------------------------------------------------
  // shared reports, unique on the token digest

  /** The frozen aggregate a share exposes. */
  datatype Snapshot = Snapshot(period: int, items: seq<WeeklyItem>, oneLineSummary: string,
                               negativeRatio: Ratio, generatedAt: int)

  datatype SharedReport = SharedReport(userId: int, digest: string, snapshot: Snapshot, expiresAt: int,
                                       revoked: bool, createdAt: int)

  /** No two rows carry the same digest. */
  ghost predicate DigestsUnique(rows: seq<SharedReport>)
  {
    forall i, j :: 0 <= i < j < |rows| ==> rows[i].digest != rows[j].digest
  }

  class SharedReports {
    var rows: seq<SharedReport>

    ghost predicate Valid()
      reads this
    {
      DigestsUnique(rows)
    }

    constructor (rows: seq<SharedReport>)
      requires DigestsUnique(rows)
      ensures this.rows == rows && Valid()
    {
      this.rows := rows;
    }
  }

  // ---------------------------------------------------------------------------------------------
  // garden

  datatype GardenItem = GardenItem(userId: int, itemType: string, itemName: string, itemImage: Option<string>,
                                   positionX: int, positionY: int, isEquipped: bool)

  datatype Template = Template(itemType: string, itemName: string, itemImage: Option<string>, price: int,
                               isAvailable: bool)

  /** The garden items table keyed by id, with the next id to hand out. */
  class GardenItems {
    var rows: map<int, GardenItem>
    var nextId: int

    ghost predicate Valid()
      reads this
    {
      forall id :: id in rows ==> id < nextId
    }

    constructor (rows: map<int, GardenItem>, nextId: int)
      requires forall id :: id in rows ==> id < nextId
      ensures this.rows == rows && this.nextId == nextId && Valid()
    {
      this.rows := rows;
      this.nextId := nextId;
    }
  }

  class Templates {
    var rows: map<int, Template>

    constructor (rows: map<int, Template>)
      ensures this.rows == rows
    {
      this.rows := rows;
    }
  }
}
