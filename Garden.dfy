/** The garden economy: daily attendance paying seeds, the shop, buying templates into the
    inventory, and placing an item in the garden, where a chosen variant can swap the item's
    image for one picked from the item's name. */
module Garden {
  import opened Common
  import opened Models

  const ErrNoUser := "사용자를 찾을 수 없습니다"
  const ErrNoItem := "아이템을 찾을 수 없습니다"
  const ErrUnavailable := "구매할 수 없는 아이템입니다"
  const ErrNotEnoughSeeds := "씨앗이 부족합니다"

  // ---------------------------------------------------------------------------------------------
  // Attendance

  datatype AttendanceResult = AttendanceResult(seedsEarned: int, currentSeeds: int, attendanceStreak: int)

  /** The streak after attending on `today`: one more than before when the last attendance was the
      day before, otherwise a fresh streak of one. */
  function StreakAfter(u: User, today: int): (s: int)
    ensures u.lastAttendanceDay == Some(today - 1) ==> s == u.attendanceStreak + 1
    ensures u.lastAttendanceDay != Some(today - 1) ==> s == 1
  {
    if u.lastAttendanceDay == Some(today - 1) then u.attendanceStreak + 1 else 1
  }

  /** One seed, plus one per full week of streak, at most two extra. Python's `//` by the positive
      divisor 7 rounds down, as Dafny's `/` does. */
  function Award(streak: int): (n: int)
    ensures streak >= 0 ==> 1 <= n <= 3
    ensures 0 <= streak < 7 ==> n == 1
    ensures 7 <= streak < 14 ==> n == 2
    ensures streak >= 14 ==> n == 3
  {
    1 + (if streak / 7 < 2 then streak / 7 else 2)
  }

  /** The user row after attending on day `today`, and what the call reports. */
  function Attend(u: User, today: int): (r: (User, AttendanceResult))
    ensures u.lastAttendanceDay == Some(today) ==> r == (u, AttendanceResult(0, u.seeds, u.attendanceStreak))
    ensures u.lastAttendanceDay != Some(today) ==>
              && r.1.seedsEarned == Award(StreakAfter(u, today))
              && r.0 == u.(seeds := u.seeds + r.1.seedsEarned, attendanceStreak := StreakAfter(u, today),
                           lastAttendanceDay := Some(today))
              && r.1.currentSeeds == r.0.seeds && r.1.attendanceStreak == r.0.attendanceStreak
  {
    if u.lastAttendanceDay == Some(today) then (u, AttendanceResult(0, u.seeds, u.attendanceStreak))
    else
      var streak := StreakAfter(u, today);
      var earned := Award(streak);
      var u' := u.(seeds := u.seeds + earned, attendanceStreak := streak, lastAttendanceDay := Some(today));
      (u', AttendanceResult(earned, u'.seeds, streak))
  }

  /** A second attendance on the same day pays nothing and changes nothing. */
  lemma AttendOncePerDay(u: User, today: int)
    ensures var u1 := Attend(u, today).0;
            Attend(u1, today) == (u1, AttendanceResult(0, u1.seeds, u1.attendanceStreak))
  {
  }

  /** Attending on consecutive days lengthens the streak by one; skipping a day restarts it. */
  lemma {:induction false} ConsecutiveDays(u: User, today: int)
    ensures var u1 := Attend(u, today).0;
            && Attend(u1, today + 1).0.attendanceStreak == u1.attendanceStreak + 1
            && Attend(u1, today + 2).0.attendanceStreak == 1
            && Attend(u1, today + 2).1.seedsEarned == 1
  {
    var u1 := Attend(u, today).0;
    assert u1.lastAttendanceDay == Some(today);
    assert StreakAfter(u1, today + 1) == u1.attendanceStreak + 1;
    assert StreakAfter(u1, today + 2) == 1;
  }

  /** With a non-negative stored streak, attendance keeps the streak non-negative, never lowers the
      balance, and pays 1 to 3 seeds on a new day. */
  lemma AttendKeepsStreak(u: User, today: int)
    requires u.attendanceStreak >= 0
    ensures var (u1, res) := Attend(u, today);
            && u1.attendanceStreak >= 0 && u1.seeds >= u.seeds
            && (u.lastAttendanceDay != Some(today) ==> 1 <= res.seedsEarned <= 3 && u1.attendanceStreak >= 1)
  {
  }

  method CheckAttendance(users: Users, userId: int, now: int) returns (r: Result<AttendanceResult>)
    modifies users
    ensures userId !in old(users.rows) ==> r == Failure(ErrNoUser) && users.rows == old(users.rows)
    ensures userId in old(users.rows) ==>
              var a := Attend(old(users.rows)[userId], Day(now));
              users.rows == old(users.rows)[userId := a.0] && r == Success(a.1)
  {
    if userId !in users.rows {
      return Failure(ErrNoUser);
    }
    var u := users.rows[userId];
    var today := Day(now);
    if u.lastAttendanceDay == Some(today) {
      assert users.rows[userId := u] == users.rows;
      return Success(AttendanceResult(0, u.seeds, u.attendanceStreak));
    }
    var streak := if u.lastAttendanceDay == Some(today - 1) then u.attendanceStreak + 1 else 1;
    var earned := 1 + (if streak / 7 < 2 then streak / 7 else 2);
    var u' := u.(seeds := u.seeds + earned, attendanceStreak := streak, lastAttendanceDay := Some(today));
    users.rows := users.rows[userId := u'];
    r := Success(AttendanceResult(earned, u'.seeds, streak));
  }

  // ---------------------------------------------------------------------------------------------
  // Garden view and shop

  /** The user's items that are placed in the garden. */
  function EquippedItems(rows: map<int, GardenItem>, userId: int): (r: map<int, GardenItem>)
    ensures forall id :: id in r <==> id in rows && rows[id].userId == userId && rows[id].isEquipped
    ensures forall id :: id in r ==> r[id] == rows[id]
  {
    map id | id in rows && rows[id].userId == userId && rows[id].isEquipped :: rows[id]
  }

  datatype GardenView = GardenView(seeds: int, attendanceStreak: int, lastAttendanceDay: Option<int>,
                                   items: map<int, GardenItem>)

  function GardenInfo(users: map<int, User>, rows: map<int, GardenItem>, userId: int): (r: Result<GardenView>)
    ensures userId !in users <==> r == Failure(ErrNoUser)
    ensures userId in users ==>
              && r.Success? && r.value.items == EquippedItems(rows, userId)
              && r.value.seeds == users[userId].seeds
              && r.value.attendanceStreak == users[userId].attendanceStreak
  {
    if userId !in users then Failure(ErrNoUser)
    else
      var u := users[userId];
      Success(GardenView(u.seeds, u.attendanceStreak, u.lastAttendanceDay, EquippedItems(rows, userId)))
  }

  /** The templates on sale. */
  function ShopItems(templates: map<int, Template>): (r: map<int, Template>)
    ensures forall id :: id in r <==> id in templates && templates[id].isAvailable
    ensures forall id :: id in r ==> r[id] == templates[id]
  {
    map id | id in templates && templates[id].isAvailable :: templates[id]
  }

  // ---------------------------------------------------------------------------------------------
  // Purchase

  /** The checks a purchase passes, in the order the service makes them. */
  function PurchaseCheck(users: map<int, User>, templates: map<int, Template>, userId: int, templateId: int,
                         quantity: int): (r: Result<Template>)
    ensures userId !in users ==> r == Failure(ErrNoUser)
    ensures userId in users && templateId !in templates ==> r == Failure(ErrNoItem)
    ensures userId in users && templateId in templates && !templates[templateId].isAvailable ==>
              r == Failure(ErrUnavailable)
    ensures userId in users && templateId in templates && templates[templateId].isAvailable ==>
              if users[userId].seeds < templates[templateId].price * quantity then r == Failure(ErrNotEnoughSeeds)
              else r == Success(templates[templateId])
  {
    if userId !in users then Failure(ErrNoUser)
    else if templateId !in templates then Failure(ErrNoItem)
    else
      var t := templates[templateId];
      if !t.isAvailable then Failure(ErrUnavailable)
      else if users[userId].seeds < t.price * quantity then Failure(ErrNotEnoughSeeds)
      else Success(t)
  }

  /** How many times `range(quantity)` iterates. */
  function Count(quantity: int): (n: nat)
    ensures quantity >= 0 ==> n == quantity
    ensures quantity < 0 ==> n == 0
  {
    if quantity > 0 then quantity else 0
  }

  /** A freshly bought copy of a template: not placed, at the origin. */
  function Bought(userId: int, t: Template): (it: GardenItem)
    ensures it.userId == userId && it.itemType == t.itemType && it.itemName == t.itemName
    ensures it.itemImage == t.itemImage
    ensures !it.isEquipped && it.positionX == 0 && it.positionY == 0
  {
    GardenItem(userId, t.itemType, t.itemName, t.itemImage, 0, 0, false)
  }

  /** `n` copies of `it` under the ids `start`, ..., `start + n - 1`. */
  function Batch(start: int, n: nat, it: GardenItem): (m: map<int, GardenItem>)
    ensures forall id :: id in m <==> start <= id < start + n
    ensures forall id :: id in m ==> m[id] == it
  {
    if n == 0 then map[] else Batch(start, n - 1, it)[start + n - 1 := it]
  }

  function Ids(start: int, n: nat): (ids: seq<int>)
    ensures |ids| == n
    ensures forall k :: 0 <= k < n ==> ids[k] == start + k
  {
    seq(n, k => start + k)
  }

  datatype Purchase = Purchase(remainingSeeds: int, purchasedIds: seq<int>)

  method PurchaseItem(users: Users, templates: Templates, items: GardenItems, userId: int, templateId: int,
                      quantity: int) returns (r: Result<Purchase>)
    requires items.Valid()
    modifies users, items
    ensures items.Valid()
    ensures var c := PurchaseCheck(old(users.rows), templates.rows, userId, templateId, quantity);
            c.Failure? ==> && r == Failure(c.error) && users.rows == old(users.rows)
                           && items.rows == old(items.rows) && items.nextId == old(items.nextId)
    ensures var c := PurchaseCheck(old(users.rows), templates.rows, userId, templateId, quantity);
            c.Success? ==>
              var n := Count(quantity);
              var u := old(users.rows)[userId].(seeds := old(users.rows)[userId].seeds - c.value.price * quantity);
              && users.rows == old(users.rows)[userId := u]
              && items.rows == old(items.rows) + Batch(old(items.nextId), n, Bought(userId, c.value))
              && items.nextId == old(items.nextId) + n
              && r == Success(Purchase(u.seeds, Ids(old(items.nextId), n)))
  {
    var c := PurchaseCheck(users.rows, templates.rows, userId, templateId, quantity);
    if c.Failure? {
      return Failure(c.error);
    }
    var t := c.value;
    var item := Bought(userId, t);
    var start := items.nextId;
    var u := users.rows[userId];
    var ids := [];
    var k := 0;
    while k < quantity
      invariant 0 <= k <= Count(quantity)
      invariant items.nextId == start + k
      invariant items.rows == old(items.rows) + Batch(start, k, item)
      invariant ids == Ids(start, k)
      invariant items.Valid()
      invariant users.rows == old(users.rows)
    {
      assert items.rows[items.nextId := item] == old(items.rows) + Batch(start, k + 1, item);
      assert ids + [items.nextId] == Ids(start, k + 1);
      items.rows := items.rows[items.nextId := item];
      ids := ids + [items.nextId];
      items.nextId := items.nextId + 1;
      k := k + 1;
    }
    var u' := u.(seeds := u.seeds - t.price * quantity);
    users.rows := users.rows[userId := u'];
    r := Success(Purchase(u'.seeds, ids));
  }

  /** A successful purchase leaves a non-negative balance exactly `price * quantity` lower, and its
      new ids were free before. */
  lemma PurchaseBalance(users: map<int, User>, templates: map<int, Template>, items: map<int, GardenItem>,
                        nextId: int, userId: int, templateId: int, quantity: int)
    requires forall id :: id in items ==> id < nextId
    requires PurchaseCheck(users, templates, userId, templateId, quantity).Success?
    ensures var t := templates[templateId];
            && users[userId].seeds - t.price * quantity >= 0
            && (users[userId].seeds >= 0 && t.price >= 0 && quantity >= 0 ==> users[userId].seeds - t.price * quantity <= users[userId].seeds)
            && (forall id :: id in Batch(nextId, Count(quantity), Bought(userId, t)) ==> id !in items)
  {
  }

  /** No check rejects a quantity below one: at a non-negative price and balance such a purchase
      always succeeds, adds nothing, and a negative quantity raises the balance. */
  lemma NonPositiveQuantity(users: map<int, User>, templates: map<int, Template>, userId: int,
                            templateId: int, quantity: int)
    requires userId in users && templateId in templates && templates[templateId].isAvailable
    requires users[userId].seeds >= 0 && templates[templateId].price >= 0 && quantity <= 0
    ensures PurchaseCheck(users, templates, userId, templateId, quantity).Success?
    ensures Count(quantity) == 0
    ensures templates[templateId].price > 0 && quantity < 0 ==>
              users[userId].seeds - templates[templateId].price * quantity > users[userId].seeds
  {
    var p := templates[templateId].price;
    MulSign(p, quantity);
  }

  lemma MulSign(p: int, q: int)
    requires p >= 0 && q <= 0
    ensures p * q <= 0
    ensures p > 0 && q < 0 ==> p * q < 0
  {
  }

  // ---------------------------------------------------------------------------------------------
  // Variant images: the first matching name branch, the first matching colour key.

  /** The position of the first key (first component) contained in `name`, from `i` on. */
  function FirstMatchFrom(name: string, keys: seq<(string, string)>, i: nat): (r: Option<nat>)
    requires i <= |keys|
    ensures r.Some? ==> i <= r.value < |keys| && Contains(name, keys[r.value].0)
    ensures r.Some? ==> forall j :: i <= j < r.value ==> !Contains(name, keys[j].0)
    ensures r.None? ==> forall j :: i <= j < |keys| ==> !Contains(name, keys[j].0)
    decreases |keys| - i
  {
    if i == |keys| then None
    else if Contains(name, keys[i].0) then Some(i)
    else FirstMatchFrom(name, keys, i + 1)
  }

  function FirstMatch(name: string, keys: seq<(string, string)>): Option<nat>
  {
    FirstMatchFrom(name, keys, 0)
  }

  /** The code of the first key contained in `name`, or `default`. */
  function Pick(name: string, keys: seq<(string, string)>, default: string): (code: string)
    ensures (forall j :: 0 <= j < |keys| ==> !Contains(name, keys[j].0)) ==> code == default
    ensures forall i :: (0 <= i < |keys| && Contains(name, keys[i].0) &&
                         (forall j :: 0 <= j < i ==> !Contains(name, keys[j].0))) ==> code == keys[i].1
  {
    match FirstMatch(name, keys)
      case None => default
      case Some(i) =>
        assert forall i' :: (0 <= i' < |keys| && Contains(name, keys[i'].0) &&
                             (forall j :: 0 <= j < i' ==> !Contains(name, keys[j].0))) ==> i' == i;
        keys[i].1
  }

  /** The colour search: walk the table and stop at the first key found in the name. */
  method FindCode(name: string, keys: seq<(string, string)>, default: string) returns (code: string)
    ensures code == Pick(name, keys, default)
  {
    code := default;
    var k := 0;
    while k < |keys|
      invariant 0 <= k <= |keys|
      invariant FirstMatchFrom(name, keys, k) == FirstMatch(name, keys)
      invariant code == default
    {
      if Contains(name, keys[k].0) {
        code := keys[k].1;
        break;
      }
      k := k + 1;
    }
  }

  /** No key contains an earlier one, so an earlier key can never shadow a more specific later one. */
  predicate NoShadowing(keys: seq<(string, string)>)
  {
    forall i, j :: 0 <= i < j < |keys| ==> !Contains(keys[j].0, keys[i].0)
  }

  /** Under `NoShadowing`, the chosen key is not part of any other key the name also contains: no
      more specific match was passed over. */
  lemma FirstMatchMostSpecific(name: string, keys: seq<(string, string)>)
    requires NoShadowing(keys) && FirstMatch(name, keys).Some?
    ensures var i := FirstMatch(name, keys).value;
            forall j :: 0 <= j < |keys| && j != i && Contains(name, keys[j].0) ==> !Contains(keys[j].0, keys[i].0)
  {
  }

  /** A table whose keys' first characters appear in no later key has no shadowing. */
  lemma {:induction false} FreshFirstCharsNoShadowing(keys: seq<(string, string)>)
    requires forall i :: 0 <= i < |keys| ==> keys[i].0 != ""
    requires forall i, j :: 0 <= i < j < |keys| ==> keys[i].0[0] !in keys[j].0
    ensures NoShadowing(keys)
  {
    forall i, j | 0 <= i < j < |keys| ensures !Contains(keys[j].0, keys[i].0) {
      MissingCharNotContained(keys[j].0, keys[i].0, 0);
    }
  }

  const LotusVariants: set<string> := {"light_green", "green", "moss_green", "dark_moss_green"}

  const FlowerColors: seq<(string, string)> :=
    [("노란", "yellow"), ("파란", "blue"), ("보라", "purple"), ("분홍", "pink"), ("흰", "white"), ("복숭아", "peach")]
  const FlowerSizes: set<string> := {"small_paddles", "big_paddles"}

  const BushColorsAsWritten: seq<(string, string)> :=
    [("연한 초록", "light_green"), ("초록", "green"), ("이끼 초록", "moss_green"), ("어두운 이끼", "dark_moss_green")]
  const BushColorsCorrected: seq<(string, string)> :=
    [("어두운 이끼", "dark_moss_green"), ("이끼 초록", "moss_green"), ("연한 초록", "light_green"), ("초록", "green")]
  const BushDirections: set<string> :=
    {"horizontal", "vertical", "left", "right", "top", "bottom", "top_left", "top_right", "bottom_left", "bottom_right"}

  const FenceColors: seq<(string, string)> := [("흰색", "white"), ("연한 나무", "light_wood")]
  const FenceLabels: map<string, string> :=
    map["horizontal" := "↔️ Horizontal",
      "vertical" := "↕️ Vertical",
      "left" := "⬅️ Left",
      "right" := "➡️ Right",
      "top" := "⬆️ Top",
      "bottom" := "⬇️ Bottom",
      "top_left" := "↖️Top Left",
      "top_right" := "↗️ Top Right",
      "bottom_left" := "↙️ Bottom Left",
      "bottom_right" := "↘️ Bottom Right"]

  const BridgeVariants: set<string> :=
    {"horizontal", "vertical", "left", "right", "top", "bottom", "left_short", "right_short", "top_short", "bottom_short"}

  const PondLabels: map<string, string> :=
    map["center" := "🔄 Center",
      "top_left" := "↖️ Top Left",
      "top_right" := "↗️ Top Right",
      "bottom_left" := "↙️ Bottom Left",
      "bottom_right" := "↘️ Bottom Right",
      "left" := "⬅️ Left",
      "right" := "➡️ Right",
      "top" := "⬆️ Top",
      "bottom" := "⬇️ Bottom"]

  const BudColors: seq<(string, string)> := [("노란", "Yellow"), ("보라", "Purple"), ("분홍", "Pink"), ("복숭아", "Peach")]
  const BudSizes: map<string, string> := map["bud" := "Bud", "big_bud" := "Big Bud", "flower" := "Flower"]

  const BorderColorsAsWritten: seq<(string, string)> :=
    [("초록", "green"), ("연한 초록", "light_green"), ("회색", "grey"), ("어두운 회색", "dark_grey")]
  const BorderColorsCorrected: seq<(string, string)> :=
    [("연한 초록", "light_green"), ("어두운 회색", "dark_grey"), ("초록", "green"), ("회색", "grey")]
  const BorderLabels: map<string, string> :=
    map["left" := "⬅️ Left",
      "right" := "➡️ Right",
      "top" := "⬆️ Top",
      "bottom" := "⬇️ Bottom",
      "top_left" := "↖️Top Left",
      "top_right" := "↗️ Top Right",
      "bottom_left" := "↙️ Bottom Left",
      "bottom_right" := "↘️ Bottom Right"]

  const VeggiesAsWritten: seq<(string, string)> :=
    [("토마토", "Tomato"), ("딸기", "Strawberry"), ("당근", "Carrot"), ("양파", "Onion"), ("마늘", "Garlic"),
     ("오이", "Cucumber"), ("체리 토마토", "Cherry Tomatoes"), ("무", "Radish")]
  const VeggiesCorrected: seq<(string, string)> :=
    [("체리 토마토", "Cherry Tomatoes"), ("토마토", "Tomato"), ("딸기", "Strawberry"), ("당근", "Carrot"),
     ("양파", "Onion"), ("마늘", "Garlic"), ("오이", "Cucumber"), ("무", "Radish")]

  /** The choices the mapping depends on: whether buds are recognised before flowers, and the key
      order of the three colour tables whose keys overlap. */
  datatype Mapping = Mapping(budBeforeFlower: bool, bushColors: seq<(string, string)>,
                             borderColors: seq<(string, string)>, veggies: seq<(string, string)>)

  /** The mapping as the service writes it. */
  const AsWritten := Mapping(false, BushColorsAsWritten, BorderColorsAsWritten, VeggiesAsWritten)
  /** Buds before flowers, and every more specific colour key before the keys it contains. */
  const Corrected := Mapping(true, BushColorsCorrected, BorderColorsCorrected, VeggiesCorrected)

  datatype Branch = Lotus | Flower | Bush | Fence | Bridge | Pond | LotusAgain | Bud | PondBorder | Veggie
                  | Masonry | Unhandled

  /** The first name test that holds, in the service's order. */
  function BranchOf(m: Mapping, name: string): Branch
  {
    if Contains(name, "연꽃") then Lotus
    else if m.budBeforeFlower && Contains(name, "꽃봉오리") then Bud
    else if Contains(name, "꽃") then Flower
    else if Contains(name, "부시") then Bush
    else if Contains(name, "울타리") then Fence
    else if Contains(name, "나무 다리") then Bridge
    else if Contains(name, "연못") && !Contains(name, "테두리") then Pond
    else if Contains(name, "연꽃") then LotusAgain
    else if Contains(name, "꽃봉오리") then Bud
    else if Contains(name, "연못 테두리") then PondBorder
    else if FirstMatch(name, VeggiesAsWritten).Some? then Veggie
    else if Contains(name, "돌담") || Contains(name, "벽돌") then Masonry
    else Unhandled
  }

  /** The second lotus test never fires, and as written neither does the bud test: a bud's name
      contains "꽃" and is taken by the flower branch. */
  lemma {:induction false} DeadBranches(m: Mapping, name: string)
    ensures BranchOf(m, name) != LotusAgain
    ensures BranchOf(AsWritten, name) != Bud
  {
    if Contains(name, "꽃봉오리") {
      ContainsInfix(name, "꽃봉오리", 0, 1);
      assert "꽃봉오리"[0..1] == "꽃";
    }
  }

  /** The colour table a branch searches (for vegetables, the kind), and its default. */
  function ColorKeys(m: Mapping, b: Branch): seq<(string, string)>
  {
    match b
      case Flower => FlowerColors
      case Bush => m.bushColors
      case Fence => FenceColors
      case Bud => BudColors
      case PondBorder => m.borderColors
      case Veggie => m.veggies
      case _ => []
  }

  function ColorDefault(b: Branch): string
  {
    match b
      case Flower => "yellow"
      case Bush => "light_green"
      case Fence => "light_wood"
      case Bud => "Yellow"
      case PondBorder => "green"
      case Veggie => "Tomato"
      case _ => ""
  }

  function BorderColorName(color: string): string
  {
    if color == "green" then "Green" else if color == "light_green" then "Light Green"
    else if color == "grey" then "Grey" else "Dark Grey"
  }

  function FenceColorName(color: string): string
  {
    if color == "white" then "White" else "Light Wood"
  }

  /** The variants a branch recognises; any other falls back to `DefaultVariant`. */
  function KnownVariants(b: Branch): set<string>
  {
    match b
      case Lotus => LotusVariants
      case LotusAgain => LotusVariants
      case Flower => FlowerSizes
      case Bush => BushDirections
      case Fence => FenceLabels.Keys
      case Bridge => BridgeVariants
      case Pond => PondLabels.Keys
      case Bud => BudSizes.Keys
      case PondBorder => BorderLabels.Keys
      case Veggie => {"single", "paddle"}
      case _ => {}
  }

  function DefaultVariant(b: Branch): (v: string)
    ensures b != Masonry && b != Unhandled ==> v in KnownVariants(b)
  {
    match b
      case Lotus => "light_green"
      case LotusAgain => "light_green"
      case Flower => "small_paddles"
      case Bush => "horizontal"
      case Fence => "horizontal"
      case Bridge => "horizontal"
      case Pond => "center"
      case Bud => "bud"
      case PondBorder => "left"
      case Veggie => "single"
      case _ => ""
  }

  /** The image path a branch builds from the chosen colour and the variant; `None` leaves the
      item's image alone. */
  function Image(b: Branch, color: string, v: string): (r: Option<string>)
    ensures r.None? <==> b == Masonry || b == Unhandled
  {
    match b
      case Lotus =>
        Some("assets/images/garden/lotus/" + (if v in LotusVariants then v else "light_green") + ".png")
      case LotusAgain =>
        Some("assets/images/garden/lotus/" + (if v in LotusVariants then v else "light_green") + ".png")
      case Flower =>
        Some("assets/images/garden/flowers/big_paddle/" + color + "_" + (if v in FlowerSizes then v else "small_paddles") + ".png")
      case Bush =>
        Some("assets/images/garden/bushes/bush/" + color + "/" + (if v in BushDirections then v else "horizontal") + "_regular.png")
      case Fence =>
        Some("assets/images/garden/fence/" + color + "/Direction=" + (if v in FenceLabels then FenceLabels[v] else "↔️ Horizontal")
             + ", Color=" + FenceColorName(color) + ".png")
      case Bridge =>
        Some("assets/images/garden/bridge/bridge_" + (if v in BridgeVariants then v else "horizontal") + ".png")
      case Pond =>
        Some("assets/images/garden/pond/pond/Direction=" + (if v in PondLabels then PondLabels[v] else "🔄 Center") + ".png")
      case Bud =>
        Some("assets/images/garden/bloom/color/Size=" + (if v in BudSizes then BudSizes[v] else "Bud") + ", Color=" + color + ".png")
      case PondBorder =>
        Some("assets/images/garden/pond/pond_borders/" + color + "/Border Option=🌳 Bush, Color=" + BorderColorName(color)
             + ", Direction=" + (if v in BorderLabels then BorderLabels[v] else "⬅️ Left") + ".png")
      case Veggie =>
        if v == "paddle" then Some("assets/images/garden/veggie/veggie_option/Type=" + color + "s.png")
        else Some("assets/images/garden/veggie/single/Type=" + color + ".png")
      case Masonry => None
      case Unhandled => None
  }

  /** An unrecognised variant gets the branch's default image. */
  lemma UnknownVariantFallsBack(b: Branch, color: string, v: string)
    requires v !in KnownVariants(b)
    ensures Image(b, color, v) == Image(b, color, DefaultVariant(b))
  {
  }

  /** `a + x + b == a + y + b` only for `x == y`. */
  lemma MiddleCancel(a: string, x: string, y: string, b: string)
    requires a + x + b == a + y + b
    ensures x == y
  {
    assert |x| == |y|;
    assert (a + x + b)[|a|..|a| + |x|] == x;
    assert (a + y + b)[|a|..|a| + |y|] == y;
  }

  predicate InjectiveMap(m: map<string, string>)
  {
    forall a, b :: a in m && b in m && a != b ==> m[a] != m[b]
  }

  /** Within a branch, two different recognised variants give two different images. */
  lemma KnownVariantsDistinct(b: Branch, color: string, v1: string, v2: string)
    requires v1 in KnownVariants(b) && v2 in KnownVariants(b) && v1 != v2
    ensures Image(b, color, v1) != Image(b, color, v2)
  {
    match b
      case Fence => FenceVariantsDistinct(color, v1, v2);
      case Pond => PondVariantsDistinct(v1, v2);
      case Bud => BudVariantsDistinct(color, v1, v2);
      case PondBorder => BorderVariantsDistinct(color, v1, v2);
      case Veggie => VeggieVariantsDistinct(color);
      case _ =>
        if Image(b, color, v1) == Image(b, color, v2) {
          match b
            case Lotus => MiddleCancel("assets/images/garden/lotus/", v1, v2, ".png");
            case LotusAgain => MiddleCancel("assets/images/garden/lotus/", v1, v2, ".png");
            case Flower => MiddleCancel("assets/images/garden/flowers/big_paddle/" + color + "_", v1, v2, ".png");
            case Bush => MiddleCancel("assets/images/garden/bushes/bush/" + color + "/", v1, v2, "_regular.png");
            case Bridge => MiddleCancel("assets/images/garden/bridge/bridge_", v1, v2, ".png");
        }
  }

  lemma FenceVariantsDistinct(color: string, v1: string, v2: string)
    requires v1 in FenceLabels && v2 in FenceLabels && v1 != v2
    ensures Image(Fence, color, v1) != Image(Fence, color, v2)
  {
    var head, tail := "assets/images/garden/fence/" + color + "/Direction=", ", Color=" + FenceColorName(color) + ".png";
    var l1, l2 := FenceLabels[v1], FenceLabels[v2];
    FenceLabelsInjective();
    assert l1 != l2;
    assert Image(Fence, color, v1).value == head + l1 + tail;
    assert Image(Fence, color, v2).value == head + l2 + tail;
    if head + l1 + tail == head + l2 + tail {
      MiddleCancel(head, l1, l2, tail);
    }
  }

  lemma PondVariantsDistinct(v1: string, v2: string)
    requires v1 in PondLabels && v2 in PondLabels && v1 != v2
    ensures Image(Pond, "", v1) != Image(Pond, "", v2)
    ensures forall color :: Image(Pond, color, v1) == Image(Pond, "", v1)
  {
    if Image(Pond, "", v1) == Image(Pond, "", v2) {
      PondLabelsInjective();
      MiddleCancel("assets/images/garden/pond/pond/Direction=", PondLabels[v1], PondLabels[v2], ".png");
    }
  }

  lemma BudVariantsDistinct(color: string, v1: string, v2: string)
    requires v1 in BudSizes && v2 in BudSizes && v1 != v2
    ensures Image(Bud, color, v1) != Image(Bud, color, v2)
  {
    var head, tail := "assets/images/garden/bloom/color/Size=", ", Color=" + color + ".png";
    var l1, l2 := BudSizes[v1], BudSizes[v2];
    BudSizesInjective();
    assert l1 != l2;
    assert Image(Bud, color, v1).value == head + l1 + tail;
    assert Image(Bud, color, v2).value == head + l2 + tail;
    if head + l1 + tail == head + l2 + tail {
      MiddleCancel(head, l1, l2, tail);
    }
  }

  lemma VeggieVariantsDistinct(color: string)
    ensures Image(Veggie, color, "single") != Image(Veggie, color, "paddle")
  {
    var single := "assets/images/garden/veggie/single/Type=" + color + ".png";
    var paddle := "assets/images/garden/veggie/veggie_option/Type=" + color + "s.png";
    assert single[28] == 's' && paddle[28] == 'v';
  }

  lemma BorderVariantsDistinct(color: string, v1: string, v2: string)
    requires v1 in BorderLabels && v2 in BorderLabels && v1 != v2
    ensures Image(PondBorder, color, v1) != Image(PondBorder, color, v2)
  {
    if Image(PondBorder, color, v1) == Image(PondBorder, color, v2) {
      BorderLabelsInjective();
      var head := "assets/images/garden/pond/pond_borders/" + color + "/Border Option=🌳 Bush, Color="
                  + BorderColorName(color) + ", Direction=";
      assert Image(PondBorder, color, v1).value == head + BorderLabels[v1] + ".png";
      assert Image(PondBorder, color, v2).value == head + BorderLabels[v2] + ".png";
      MiddleCancel(head, BorderLabels[v1], BorderLabels[v2], ".png");
    }
  }

  lemma FenceLabelsInjective()
    ensures InjectiveMap(FenceLabels)
  {
  }

  lemma PondLabelsInjective()
    ensures InjectiveMap(PondLabels)
  {
  }

  lemma BudSizesInjective()
    ensures InjectiveMap(BudSizes)
  {
  }

  lemma BorderLabelsInjective()
    ensures InjectiveMap(BorderLabels)
  {
  }

  /** The image a variant selects for an item name under a mapping. */
  function VariantImageWith(m: Mapping, name: string, v: string): (r: Option<string>)
    ensures r.None? <==> BranchOf(m, name) == Masonry || BranchOf(m, name) == Unhandled
  {
    var b := BranchOf(m, name);
    Image(b, Pick(name, ColorKeys(m, b), ColorDefault(b)), v)
  }

  function VariantImageAsWritten(name: string, v: string): Option<string>
  {
    VariantImageWith(AsWritten, name, v)
  }

  function VariantImage(name: string, v: string): Option<string>
  {
    VariantImageWith(Corrected, name, v)
  }

  /** The image for an item name and a variant, searching the colour table with `FindCode`. */
  method ChooseImage(name: string, v: string) returns (img: Option<string>)
    ensures img == VariantImage(name, v)
  {
    var b := BranchOf(Corrected, name);
    var color := FindCode(name, ColorKeys(Corrected, b), ColorDefault(b));
    img := Image(b, color, v);
  }

  // ---------------------------------------------------------------------------------------------
  // The shadowing cases, as written and corrected.

  /** The corrected colour tables never pass over a more specific key. */
  lemma CorrectedTablesNoShadowing()
    ensures NoShadowing(Corrected.bushColors)
    ensures NoShadowing(Corrected.borderColors)
    ensures NoShadowing(Corrected.veggies)
  {
    FreshFirstCharsNoShadowing(BushColorsCorrected);
    FreshFirstCharsNoShadowing(BorderColorsCorrected);
    FreshFirstCharsNoShadowing(VeggiesCorrected);
  }

  /** As written, the green bush key sits inside the moss-green one and comes first. */
  lemma BushTableShadows()
    ensures !NoShadowing(AsWritten.bushColors)
  {
    var k := AsWritten.bushColors;
    assert k[1].0 == "초록" && k[2].0 == "이끼 초록";
    ContainsAt("이끼 초록", "초록", 3);
  }

  /** As written, a moss-green bush is drawn green. */
  lemma MossBushAsWritten()
    ensures BranchOf(AsWritten, "이끼 초록 부시") == Bush
    ensures Pick("이끼 초록 부시", AsWritten.bushColors, "light_green") == "green"
  {
    var n := "이끼 초록 부시";
    var k := AsWritten.bushColors;
    assert '연' !in n && '꽃' !in n;
    MissingCharNotContained(n, "연꽃", 0);
    MissingCharNotContained(n, "꽃", 0);
    ContainsAt(n, "부시", 6);
    assert k[0].0 == "연한 초록" && k[1] == ("초록", "green");
    MissingCharNotContained(n, k[0].0, 0);
    ContainsAt(n, k[1].0, 3);
  }
  /** Corrected, it is drawn moss green. */
  lemma MossBushCorrected()
    ensures BranchOf(Corrected, "이끼 초록 부시") == Bush
    ensures Pick("이끼 초록 부시", Corrected.bushColors, "light_green") == "moss_green"
  {
    var n := "이끼 초록 부시";
    var k := Corrected.bushColors;
    assert '연' !in n && '꽃' !in n;
    MissingCharNotContained(n, "연꽃", 0);
    MissingCharNotContained(n, "꽃봉오리", 0);
    MissingCharNotContained(n, "꽃", 0);
    ContainsAt(n, "부시", 6);
    assert k[0].0 == "어두운 이끼" && k[1] == ("이끼 초록", "moss_green");
    assert '어' !in n;
    MissingCharNotContained(n, k[0].0, 0);
    ContainsAt(n, k[1].0, 0);
  }

  /** As written, the seeded dark-moss-green bush is drawn green: its name holds "초록", which is
      tested before "어두운 이끼". */
  lemma DarkMossBushAsWritten()
    ensures BranchOf(AsWritten, "어두운 이끼 초록 부시") == Bush
    ensures Pick("어두운 이끼 초록 부시", AsWritten.bushColors, "light_green") == "green"
  {
    var n := "어두운 이끼 초록 부시";
    var k := AsWritten.bushColors;
    assert '연' !in n && '꽃' !in n;
    MissingCharNotContained(n, "연꽃", 0);
    MissingCharNotContained(n, "꽃", 0);
    ContainsAt(n, "부시", 10);
    assert k[0].0 == "연한 초록" && k[1] == ("초록", "green");
    MissingCharNotContained(n, k[0].0, 0);
    assert n[7..9] == "초록";
    ContainsAt(n, k[1].0, 7);
  }
  /** Corrected, it is drawn dark moss green. */
  lemma DarkMossBushCorrected()
    ensures BranchOf(Corrected, "어두운 이끼 초록 부시") == Bush
    ensures Pick("어두운 이끼 초록 부시", Corrected.bushColors, "light_green") == "dark_moss_green"
  {
    var n := "어두운 이끼 초록 부시";
    var k := Corrected.bushColors;
    assert '연' !in n && '꽃' !in n;
    MissingCharNotContained(n, "연꽃", 0);
    MissingCharNotContained(n, "꽃봉오리", 0);
    MissingCharNotContained(n, "꽃", 0);
    ContainsAt(n, "부시", 10);
    assert k[0] == ("어두운 이끼", "dark_moss_green");
    ContainsAt(n, k[0].0, 0);
  }

  /** The branch tests a light-green pond border passes through. */
  lemma LightGreenBorderBranch(m: Mapping)
    ensures BranchOf(m, "연한 초록 연못 테두리") == PondBorder
  {
    var n := "연한 초록 연못 테두리";
    assert '꽃' !in n && '부' !in n && '울' !in n && '나' !in n;
    MissingCharNotContained(n, "연꽃", 1);
    MissingCharNotContained(n, "꽃봉오리", 0);
    MissingCharNotContained(n, "꽃", 0);
    MissingCharNotContained(n, "부시", 0);
    MissingCharNotContained(n, "울타리", 0);
    MissingCharNotContained(n, "나무 다리", 0);
    ContainsAt(n, "테두리", 9);
    ContainsAt(n, "연못 테두리", 6);
  }

  /** As written, the seeded light-green pond border is drawn green: "초록" is tested first. */
  lemma LightGreenBorderAsWritten()
    ensures BranchOf(AsWritten, "연한 초록 연못 테두리") == PondBorder
    ensures Pick("연한 초록 연못 테두리", AsWritten.borderColors, "green") == "green"
  {
    var n := "연한 초록 연못 테두리";
    var k := AsWritten.borderColors;
    LightGreenBorderBranch(AsWritten);
    assert k[0] == ("초록", "green");
    ContainsAt(n, k[0].0, 3);
  }

  /** Corrected, it is drawn light green. */
  lemma LightGreenBorderCorrected()
    ensures BranchOf(Corrected, "연한 초록 연못 테두리") == PondBorder
    ensures Pick("연한 초록 연못 테두리", Corrected.borderColors, "green") == "light_green"
  {
    var n := "연한 초록 연못 테두리";
    var k := Corrected.borderColors;
    LightGreenBorderBranch(Corrected);
    assert k[0] == ("연한 초록", "light_green");
    ContainsAt(n, k[0].0, 0);
  }

  /** The branch tests a dark-grey pond border passes through. */
  lemma DarkGreyBorderBranch(m: Mapping)
    ensures BranchOf(m, "어두운 회색 연못 테두리") == PondBorder
  {
    var n := "어두운 회색 연못 테두리";
    assert '꽃' !in n && '부' !in n && '울' !in n && '나' !in n;
    MissingCharNotContained(n, "연꽃", 1);
    MissingCharNotContained(n, "꽃봉오리", 0);
    MissingCharNotContained(n, "꽃", 0);
    MissingCharNotContained(n, "부시", 0);
    MissingCharNotContained(n, "울타리", 0);
    MissingCharNotContained(n, "나무 다리", 0);
    ContainsAt(n, "테두리", 10);
    ContainsAt(n, "연못 테두리", 7);
  }

  /** As written, a dark-grey pond border is drawn grey. */
  lemma DarkGreyBorderAsWritten()
    ensures BranchOf(AsWritten, "어두운 회색 연못 테두리") == PondBorder
    ensures Pick("어두운 회색 연못 테두리", AsWritten.borderColors, "green") == "grey"
  {
    var n := "어두운 회색 연못 테두리";
    var k := AsWritten.borderColors;
    DarkGreyBorderBranch(AsWritten);
    assert k[0].0 == "초록" && k[1].0 == "연한 초록" && k[2] == ("회색", "grey");
    assert '초' !in n && '한' !in n;
    MissingCharNotContained(n, k[0].0, 0);
    MissingCharNotContained(n, k[1].0, 1);
    ContainsAt(n, k[2].0, 4);
  }

  /** Corrected, it is drawn dark grey. */
  lemma DarkGreyBorderCorrected()
    ensures BranchOf(Corrected, "어두운 회색 연못 테두리") == PondBorder
    ensures Pick("어두운 회색 연못 테두리", Corrected.borderColors, "green") == "dark_grey"
  {
    var n := "어두운 회색 연못 테두리";
    var k := Corrected.borderColors;
    DarkGreyBorderBranch(Corrected);
    assert k[0].0 == "연한 초록" && k[1] == ("어두운 회색", "dark_grey");
    assert '한' !in n;
    MissingCharNotContained(n, k[0].0, 1);
    ContainsAt(n, k[1].0, 0);
  }

  /** The branch tests a cherry tomato passes through. */
  lemma CherryTomatoBranch(m: Mapping)
    ensures BranchOf(m, "체리 토마토") == Veggie
  {
    var n := "체리 토마토";
    assert '연' !in n && '꽃' !in n && '부' !in n && '울' !in n && '나' !in n;
    MissingCharNotContained(n, "연꽃", 0);
    MissingCharNotContained(n, "꽃봉오리", 0);
    MissingCharNotContained(n, "꽃", 0);
    MissingCharNotContained(n, "부시", 0);
    MissingCharNotContained(n, "울타리", 0);
    MissingCharNotContained(n, "나무 다리", 0);
    MissingCharNotContained(n, "연못", 0);
    MissingCharNotContained(n, "연못 테두리", 0);
    assert VeggiesAsWritten[0].0 == "토마토" && n[3..6] == "토마토";
    ContainsAt(n, VeggiesAsWritten[0].0, 3);
  }

  /** As written, a cherry tomato is drawn as a tomato. */
  lemma CherryTomatoAsWritten()
    ensures BranchOf(AsWritten, "체리 토마토") == Veggie
    ensures Pick("체리 토마토", AsWritten.veggies, "Tomato") == "Tomato"
  {
    CherryTomatoBranch(AsWritten);
    assert AsWritten.veggies[0] == ("토마토", "Tomato");
    ContainsAt("체리 토마토", AsWritten.veggies[0].0, 3);
  }

  /** Corrected, it is drawn as cherry tomatoes. */
  lemma CherryTomatoCorrected()
    ensures BranchOf(Corrected, "체리 토마토") == Veggie
    ensures Pick("체리 토마토", Corrected.veggies, "Tomato") == "Cherry Tomatoes"
  {
    CherryTomatoBranch(Corrected);
    assert Corrected.veggies[0] == ("체리 토마토", "Cherry Tomatoes");
    ContainsAt("체리 토마토", Corrected.veggies[0].0, 0);
  }

  /** As written, a bud is a flower, and its size variants fall back to the small flower. */
  lemma YellowBudAsWritten()
    ensures BranchOf(AsWritten, "노란 꽃봉오리") == Flower
    ensures Pick("노란 꽃봉오리", FlowerColors, "yellow") == "yellow"
    ensures "big_bud" !in KnownVariants(Flower)
  {
    var n := "노란 꽃봉오리";
    assert '연' !in n;
    MissingCharNotContained(n, "연꽃", 0);
    ContainsAt(n, "꽃", 3);
    assert FlowerColors[0] == ("노란", "yellow");
    ContainsAt(n, FlowerColors[0].0, 0);
  }

  /** Corrected, a bud takes the bud branch, where each size has its own image. */
  lemma YellowBudCorrected()
    ensures BranchOf(Corrected, "노란 꽃봉오리") == Bud
    ensures Pick("노란 꽃봉오리", BudColors, "Yellow") == "Yellow"
    ensures "big_bud" in KnownVariants(Bud)
  {
    var n := "노란 꽃봉오리";
    assert '연' !in n;
    MissingCharNotContained(n, "연꽃", 0);
    ContainsAt(n, "꽃봉오리", 3);
    assert BudColors[0] == ("노란", "Yellow");
    ContainsAt(n, BudColors[0].0, 0);
  }

  // ---------------------------------------------------------------------------------------------
  // Placing and removing

  /** Python's `if variant:`: a variant was given and is not empty. */
  predicate Truthy(variant: Option<string>)
  {
    variant.Some? && variant.value != ""
  }

  /** The item after placing it at `(x, y)`, with the image the variant selects, if any. */
  function Placed(it: GardenItem, x: int, y: int, variant: Option<string>): (e: GardenItem)
    ensures e == it.(isEquipped := true, positionX := x, positionY := y, itemImage := e.itemImage)
    ensures !Truthy(variant) ==> e.itemImage == it.itemImage
    ensures Truthy(variant) && VariantImage(it.itemName, variant.value).None? ==> e.itemImage == it.itemImage
    ensures Truthy(variant) && VariantImage(it.itemName, variant.value).Some? ==>
              e.itemImage == VariantImage(it.itemName, variant.value)
  {
    var image := if Truthy(variant) && VariantImage(it.itemName, variant.value).Some?
                 then VariantImage(it.itemName, variant.value) else it.itemImage;
    it.(isEquipped := true, positionX := x, positionY := y, itemImage := image)
  }

  /** The item after taking it out of the garden. */
  function Removed(it: GardenItem): (e: GardenItem)
    ensures e == it.(isEquipped := false, positionX := 0, positionY := 0)
  {
    it.(isEquipped := false, positionX := 0, positionY := 0)
  }

  predicate Owns(rows: map<int, GardenItem>, userId: int, itemId: int)
  {
    itemId in rows && rows[itemId].userId == userId
  }

  method EquipItem(items: GardenItems, userId: int, itemId: int, x: int, y: int, variant: Option<string>)
    returns (r: Result<GardenItem>)
    modifies items
    ensures items.nextId == old(items.nextId)
    ensures !Owns(old(items.rows), userId, itemId) ==> r == Failure(ErrNoItem) && items.rows == old(items.rows)
    ensures Owns(old(items.rows), userId, itemId) ==>
              var e := Placed(old(items.rows)[itemId], x, y, variant);
              items.rows == old(items.rows)[itemId := e] && r == Success(e)
  {
    if !(itemId in items.rows && items.rows[itemId].userId == userId) {
      return Failure(ErrNoItem);
    }
    var it := items.rows[itemId];
    var image := it.itemImage;
    if variant.Some? && variant.value != "" {
      var chosen := ChooseImage(it.itemName, variant.value);
      if chosen.Some? {
        image := chosen;
      }
    }
    var e := it.(isEquipped := true, positionX := x, positionY := y, itemImage := image);
    items.rows := items.rows[itemId := e];
    r := Success(e);
  }

  method UnequipItem(items: GardenItems, userId: int, itemId: int) returns (r: Result<GardenItem>)
    modifies items
    ensures items.nextId == old(items.nextId)
    ensures !Owns(old(items.rows), userId, itemId) ==> r == Failure(ErrNoItem) && items.rows == old(items.rows)
    ensures Owns(old(items.rows), userId, itemId) ==>
              var e := Removed(old(items.rows)[itemId]);
              items.rows == old(items.rows)[itemId := e] && r == Success(e)
  {
    if !(itemId in items.rows && items.rows[itemId].userId == userId) {
      return Failure(ErrNoItem);
    }
    var e := items.rows[itemId].(isEquipped := false, positionX := 0, positionY := 0);
    items.rows := items.rows[itemId := e];
    r := Success(e);
  }

  /** A placed item shows in its owner's garden at the new position; a removed one does not; no
      other item's membership changes. */
  lemma PlaceAndRemove(rows: map<int, GardenItem>, userId: int, itemId: int, x: int, y: int, variant: Option<string>)
    requires Owns(rows, userId, itemId)
    ensures var placed := rows[itemId := Placed(rows[itemId], x, y, variant)];
            && itemId in EquippedItems(placed, userId)
            && EquippedItems(placed, userId)[itemId].positionX == x
            && EquippedItems(placed, userId)[itemId].positionY == y
            && var removed := placed[itemId := Removed(placed[itemId])];
               && itemId !in EquippedItems(removed, userId)
               && (forall id :: id != itemId ==> (id in EquippedItems(removed, userId) <==> id in EquippedItems(rows, userId)))
  {
  }
}
