/** Plutchik's wheel of emotions as colours: the eight primary colours, the intensity scale that darkens
    and desaturates them, the sixteen-colour palette of primaries and adjacent blends, nearest-colour
    search, the representative colour of many records and the keyword scorer used when no classifier
    is available. Channels are integers; the decimal multipliers of the intensity scale are written as
    whole percentages so that every product is exact. */
module EmotionColor {
  import opened Common

  datatype Rgb = Rgb(r: int, g: int, b: int)

  /** One primary colour of the wheel. */
  datatype BaseColor = BaseColor(name: string, hex: string, rgb: Rgb, description: string)

  /** A colour as the service hands it out: a primary (or blend) adjusted to an intensity. */
  datatype Color = Color(name: string, hex: string, rgb: Rgb, description: string, intensity: int)

  /** Brightness and saturation multipliers, in percent. */
  datatype Modifier = Modifier(brightness: nat, saturation: nat)

  // ---------------------------------------------------------------------------------------------
  // Tables

  /** The wheel, clockwise; it is also the key order of the primary-colour table. */
  const WheelOrder: seq<string> := ["기쁨", "신뢰", "두려움", "놀람", "슬픔", "혐오", "분노", "기대"]

  /** The primary colour of each emotion, in wheel order. */
  const BaseColors: seq<BaseColor> := [
    BaseColor("옐로우", "#FFFF00", Rgb(255, 255, 0), "기쁨의 원색"),
    BaseColor("그린", "#00FF00", Rgb(0, 255, 0), "신뢰의 원색"),
    BaseColor("청록", "#00FFFF", Rgb(0, 255, 255), "두려움의 원색"),
    BaseColor("블루", "#0000FF", Rgb(0, 0, 255), "놀람의 원색"),
    BaseColor("네이비", "#000080", Rgb(0, 0, 128), "슬픔의 원색"),
    BaseColor("퍼플", "#800080", Rgb(128, 0, 128), "혐오의 원색"),
    BaseColor("레드", "#FF0000", Rgb(255, 0, 0), "분노의 원색"),
    BaseColor("오렌지", "#FFA500", Rgb(255, 165, 0), "기대의 원색")
  ]

  /** Intensities 1..10 in order: brightness 0.95 down to 0.5, saturation 0.8 up to 1.0. */
  const Modifiers: seq<Modifier> := [
    Modifier(95, 80), Modifier(90, 85), Modifier(85, 90), Modifier(80, 95), Modifier(75, 100),
    Modifier(70, 100), Modifier(65, 100), Modifier(60, 100), Modifier(55, 100), Modifier(50, 100)
  ]

  /** The secondary dyads: the label of the pair (WheelOrder[k], WheelOrder[k + 1 mod 8]). */
  const DyadLabels: seq<string> := ["사랑", "순종", "경외", "실망", "후회", "경멸", "공격성", "낙관"]

  /** `DYAD_LABELS.get((a, b))`: the label of an ordered pair of emotions, if it has one. */
  function DyadLookup(a: string, b: string): (r: Option<string>)
    ensures r.Some? ==> r.value in DyadLabels
  {
    if a == "기쁨" && b == "신뢰" then Some("사랑")
    else if a == "신뢰" && b == "두려움" then Some("순종")
    else if a == "두려움" && b == "놀람" then Some("경외")
    else if a == "놀람" && b == "슬픔" then Some("실망")
    else if a == "슬픔" && b == "혐오" then Some("후회")
    else if a == "혐오" && b == "분노" then Some("경멸")
    else if a == "분노" && b == "기대" then Some("공격성")
    else if a == "기대" && b == "기쁨" then Some("낙관")
    else None
  }

  predicate IsEmotion(e: string)
  {
    e in WheelOrder
  }

  /** The position of an emotion label in the table, if it is one of the eight. */
  function EmotionIndex(e: string): (k: Option<nat>)
    ensures k.Some? ==> k.value < 8 && WheelOrder[k.value] == e
    ensures k.None? <==> !IsEmotion(e)
  {
    if e == "기쁨" then Some(0)
    else if e == "신뢰" then Some(1)
    else if e == "두려움" then Some(2)
    else if e == "놀람" then Some(3)
    else if e == "슬픔" then Some(4)
    else if e == "혐오" then Some(5)
    else if e == "분노" then Some(6)
    else if e == "기대" then Some(7)
    else None
  }

  /** The primary colour an emotion label is drawn with; an unknown label is drawn as 기쁨. */
  function Resolve(e: string): (c: BaseColor)
    ensures InRange(c.rgb)
    ensures IsEmotion(e) ==> c == BaseColors[EmotionIndex(e).value]
    ensures !IsEmotion(e) ==> c == BaseColors[0]
  {
    BaseColorsInRange();
    match EmotionIndex(e)
      case Some(k) => BaseColors[k]
      case None => BaseColors[0]
  }

  lemma BaseColorsInRange()
    ensures forall k :: 0 <= k < 8 ==> InRange(BaseColors[k].rgb)
  {
  }

  /** The k-th primary, with its channels known to be in range. */
  function Primary(k: nat): (c: BaseColor)
    requires k < 8
    ensures c == BaseColors[k] && InRange(c.rgb)
  {
    BaseColorsInRange();
    BaseColors[k]
  }

  /** The eight labels of the wheel are different. */
  lemma WheelDistinct()
    ensures forall i, j :: 0 <= i < j < 8 ==> WheelOrder[i] != WheelOrder[j]
  {
  }

  /** Each label of the wheel is drawn with its own primary. */
  lemma ResolveAt(k: nat)
    requires k < 8
    ensures Resolve(WheelOrder[k]) == BaseColors[k]
  {
    WheelDistinct();
    var j := EmotionIndex(WheelOrder[k]).value;
    assert WheelOrder[j] == WheelOrder[k];
  }

  /** The multiplier row for an intensity; anything outside 1..10 uses the row of intensity 5. */
  function ModifierFor(intensity: int): (m: Modifier)
    ensures 1 <= intensity <= 10 ==> m == Modifiers[intensity - 1]
    ensures !(1 <= intensity <= 10) ==> m == Modifiers[4]
    ensures 50 <= m.brightness <= 95 && 80 <= m.saturation <= 100
    ensures m.saturation < 100 <==> 1 <= intensity <= 4
    ensures 1 <= intensity <= 10 ==> m.brightness == 100 - 5 * intensity
  {
    if 1 <= intensity <= 10 then Modifiers[intensity - 1] else Modifiers[4]
  }

  /** Along the scale brightness strictly falls, saturation never falls, and saturation is below
      100% exactly for intensities 1 to 4. */
  lemma ModifierScale(i: int)
    requires 1 <= i < 10
    ensures ModifierFor(i + 1).brightness < ModifierFor(i).brightness
    ensures ModifierFor(i).saturation <= ModifierFor(i + 1).saturation
    ensures ModifierFor(i).saturation < 100 <==> i <= 4
    ensures ModifierFor(10).saturation == 100
  {
  }

  // ---------------------------------------------------------------------------------------------
  // Channel arithmetic

  predicate InRange(c: Rgb)
  {
    0 <= c.r <= 255 && 0 <= c.g <= 255 && 0 <= c.b <= 255
  }

  function Max3(c: Rgb): (m: int)
    ensures m >= c.r && m >= c.g && m >= c.b
    ensures m == c.r || m == c.g || m == c.b
  {
    if c.r >= c.g && c.r >= c.b then c.r else if c.g >= c.b then c.g else c.b
  }

  function Min3(c: Rgb): (m: int)
    ensures m <= c.r && m <= c.g && m <= c.b
    ensures m == c.r || m == c.g || m == c.b
  {
    if c.r <= c.g && c.r <= c.b then c.r else if c.g <= c.b then c.g else c.b
  }

  /** `int(c * brightness)` for a non-negative channel. */
  function Brighten(c: Rgb, percent: nat): (d: Rgb)
    requires InRange(c) && percent <= 100
    ensures InRange(d)
    ensures d.r <= c.r && d.g <= c.g && d.b <= c.b
  {
    MulMono(c.r, percent, 100); MulMono(c.g, percent, 100); MulMono(c.b, percent, 100);
    MulMono(c.r, 0, percent); MulMono(c.g, 0, percent); MulMono(c.b, 0, percent);
    Rgb(c.r * percent / 100, c.g * percent / 100, c.b * percent / 100)
  }

  /** One channel pulled toward the maximum: `int(max - newDelta * (max - c) / delta)`, which for a
      non-negative quotient is `max - ceil(newDelta * (max - c) / delta)`. */
  function Pull(c: int, max: int, newDelta: nat, delta: nat): (d: int)
    requires 0 < delta && newDelta <= delta && c <= max && max - c <= delta
    ensures c <= d <= max
    ensures c == max ==> d == max
  {
    MulMono(max - c, newDelta, delta);
    CeilDivAtMost(newDelta * (max - c), delta, max - c);
    max - CeilDiv(newDelta * (max - c), delta)
  }

  /** The saturation step: below 100% the spread between the largest and the smallest channel shrinks
      to `int(delta * saturation)`, every channel moving toward the largest one. */
  function Saturate(c: Rgb, percent: nat): (d: Rgb)
    requires InRange(c)
    ensures InRange(d)
    ensures Max3(d) == Max3(c)
    ensures c.r <= d.r <= Max3(c) && c.g <= d.g <= Max3(c) && c.b <= d.b <= Max3(c)
    ensures percent >= 100 || Max3(c) == Min3(c) ==> d == c
  {
    var max := Max3(c);
    var delta := max - Min3(c);
    if percent < 100 && delta > 0 then
      var newDelta := delta * percent / 100;
      MulMono(delta, percent, 100);
      MulMono(delta, 0, percent);
      var d := Rgb(Pull(c.r, max, newDelta, delta), Pull(c.g, max, newDelta, delta),
                   Pull(c.b, max, newDelta, delta));
      assert max == c.r || max == c.g || max == c.b;
      d
    else c
  }

  /** `_mix_rgb` with weight 0.5: `int(a * 0.5 + b * 0.5)`, halves being exact in binary floating
      point, so each channel is the sum halved and truncated toward zero. */
  function Mix(a: Rgb, b: Rgb): (m: Rgb)
    ensures InRange(a) && InRange(b) ==> InRange(m)
    ensures InRange(a) && InRange(b) ==> m == Rgb((a.r + b.r) / 2, (a.g + b.g) / 2, (a.b + b.b) / 2)
  {
    Rgb(TruncDiv(a.r + b.r, 2), TruncDiv(a.g + b.g, 2), TruncDiv(a.b + b.b, 2))
  }

  // ---------------------------------------------------------------------------------------------
  // Hex rendering: `"#{:02x}{:02x}{:02x}"`.

  predicate IsHexDigit(ch: char)
  {
    '0' <= ch <= '9' || 'a' <= ch <= 'f'
  }

  /** The lower-case hex digit of a value below 16. */
  function HexChar(d: int): (ch: char)
    requires 0 <= d < 16
    ensures IsHexDigit(ch)
  {
    if d < 10 then ('0' as int + d) as char else ('a' as int + d - 10) as char
  }

  function Hex2(n: int): (s: string)
    requires 0 <= n <= 255
    ensures |s| == 2 && IsHexDigit(s[0]) && IsHexDigit(s[1])
  {
    [HexChar(n / 16), HexChar(n % 16)]
  }

  function HexOf(c: Rgb): (s: string)
    requires InRange(c)
    ensures |s| == 7 && s[0] == '#'
    ensures forall i :: 1 <= i < 7 ==> IsHexDigit(s[i])
  {
    "#" + Hex2(c.r) + Hex2(c.g) + Hex2(c.b)
  }

  /** Reading a lower-case hex digit back. */
  function HexValue(ch: char): (r: Option<nat>)
    ensures r.Some? <==> IsHexDigit(ch)
    ensures r.Some? ==> r.value < 16
  {
    if '0' <= ch <= '9' then Some(ch as int - '0' as int)
    else if 'a' <= ch <= 'f' then Some(ch as int - 'a' as int + 10)
    else None
  }

  /** Parsing a `#rrggbb` string of lower-case digits: the inverse of `HexOf`. */
  function ParseHex(s: string): Option<Rgb>
  {
    if |s| != 7 || s[0] != '#' then None
    else
      var ds := seq(6, i requires 0 <= i < 6 => HexValue(s[i + 1]));
      if exists i :: 0 <= i < 6 && ds[i].None? then None
      else Some(Rgb(16 * ds[0].value + ds[1].value, 16 * ds[2].value + ds[3].value,
                    16 * ds[4].value + ds[5].value))
  }

  /** `hex` determines `rgb`: parsing the rendered hex gives the channels back. */
  lemma HexRoundTrip(c: Rgb)
    requires InRange(c)
    ensures ParseHex(HexOf(c)) == Some(c)
  {
    var s := HexOf(c);
    assert s[1] == HexChar(c.r / 16) && s[2] == HexChar(c.r % 16);
    assert s[3] == HexChar(c.g / 16) && s[4] == HexChar(c.g % 16);
    assert s[5] == HexChar(c.b / 16) && s[6] == HexChar(c.b % 16);
  }

  // ---------------------------------------------------------------------------------------------
  // `_get_color_with_intensity`

  /** A primary at an intensity: darkened by the brightness factor, then, for saturation below 100%,
      desaturated toward its largest channel. */
  function Tint(base: BaseColor, intensity: int): (c: Color)
    requires InRange(base.rgb)
    ensures InRange(c.rgb) && c.hex == HexOf(c.rgb)
    ensures c.intensity == intensity && c.name == base.name && c.description == base.description
    ensures var bright := Brighten(base.rgb, ModifierFor(intensity).brightness);
      && (!(1 <= intensity <= 4) ==> c.rgb == bright)
      && Max3(c.rgb) == Max3(bright)
      && bright.r <= c.rgb.r && bright.g <= c.rgb.g && bright.b <= c.rgb.b
  {
    var m := ModifierFor(intensity);
    var rgb := Saturate(Brighten(base.rgb, m.brightness), m.saturation);
    Color(base.name, HexOf(rgb), rgb, base.description, intensity)
  }

  /** `_get_color_with_intensity`: the primary of the emotion (기쁨 for an unknown label) tinted to
      the intensity, whose value the result echoes. */
  function ColorWithIntensity(emotion: string, intensity: int): (c: Color)
    ensures InRange(c.rgb) && c.hex == HexOf(c.rgb)
    ensures c.intensity == intensity
    ensures c.name == Resolve(emotion).name && c.description == Resolve(emotion).description
  {
    Tint(Resolve(emotion), intensity)
  }

  /** An unknown label is coloured exactly like 기쁨. */
  lemma UnknownEmotionIsJoy(emotion: string, intensity: int)
    requires !IsEmotion(emotion)
    ensures ColorWithIntensity(emotion, intensity) == ColorWithIntensity("기쁨", intensity)
  {
  }

  /** An intensity outside 1..10 is coloured like intensity 5, yet the result echoes the input. */
  lemma OutOfScaleIsFive(emotion: string, intensity: int)
    requires !(1 <= intensity <= 10)
    ensures ColorWithIntensity(emotion, intensity) == ColorWithIntensity(emotion, 5).(intensity := intensity)
  {
  }

  /** No channel of `hi` is lighter than the same channel of `lo`. */
  predicate NoLighter(hi: Rgb, lo: Rgb)
  {
    hi.r <= lo.r && hi.g <= lo.g && hi.b <= lo.b
  }

  /** Every channel is either 0 or the largest one, which is positive: seven of the eight primaries. */
  predicate TwoLevel(c: Rgb)
  {
    Max3(c) > 0 && Min3(c) == 0
    && (c.r == 0 || c.r == Max3(c)) && (c.g == 0 || c.g == Max3(c)) && (c.b == 0 || c.b == Max3(c))
  }

  /** Darkening keeps a colour two-level, scaling its largest channel. */
  lemma BrightenTwoLevel(c: Rgb, p: nat)
    requires InRange(c) && TwoLevel(c) && p <= 100 && Max3(c) * p >= 100
    ensures TwoLevel(Brighten(c, p)) && Max3(Brighten(c, p)) == Max3(c) * p / 100
  {
  }

  /** On a two-level colour the saturation step keeps the largest channels and lifts the zero ones
      to `max - int(max * saturation)`. */
  lemma SaturateTwoLevel(c: Rgb, s: nat)
    requires InRange(c) && TwoLevel(c) && s < 100
    ensures var m := Max3(c); var low := m - m * s / 100;
      Saturate(c, s) == Rgb(if c.r == 0 then low else m, if c.g == 0 then low else m,
                            if c.b == 0 then low else m)
  {
    var m := Max3(c);
    var nd := m * s / 100;
    MulMono(m, s, 100);
    CeilDivExact(nd, m);
    assert nd * (m - 0) == nd * m;
  }

  /** The largest channel of a two-level primary at intensities 1 to 5, for the two largest channels
      the primaries use. */
  function TopScale(m: int): seq<int>
  {
    if m == 128 then [121, 115, 108, 102, 96] else [242, 229, 216, 204, 191]
  }

  /** Its zero channels at intensities 1 to 4, after the saturation step. */
  function LowScale(m: int): seq<int>
  {
    if m == 128 then [25, 18, 11, 6] else [49, 35, 22, 11]
  }

  /** The darkened largest channel and the lifted zero channel, worked out for 128 and 255. */
  lemma ScalesAt(m: int, i: int)
    requires (m == 128 || m == 255) && 1 <= i <= 5
    ensures var md := ModifierFor(i); var top := m * md.brightness / 100;
      && top == TopScale(m)[i - 1]
      && (i <= 4 ==> top - top * md.saturation / 100 == LowScale(m)[i - 1])
  {
    if m == 128 {
      if i == 1 { assert 128 * 95 / 100 == 121 && 121 - 121 * 80 / 100 == 25; }
      else if i == 2 { assert 128 * 90 / 100 == 115 && 115 - 115 * 85 / 100 == 18; }
      else if i == 3 { assert 128 * 85 / 100 == 108 && 108 - 108 * 90 / 100 == 11; }
      else if i == 4 { assert 128 * 80 / 100 == 102 && 102 - 102 * 95 / 100 == 6; }
      else { assert 128 * 75 / 100 == 96; }
    } else {
      if i == 1 { assert 255 * 95 / 100 == 242 && 242 - 242 * 80 / 100 == 49; }
      else if i == 2 { assert 255 * 90 / 100 == 229 && 229 - 229 * 85 / 100 == 35; }
      else if i == 3 { assert 255 * 85 / 100 == 216 && 216 - 216 * 90 / 100 == 22; }
      else if i == 4 { assert 255 * 80 / 100 == 204 && 204 - 204 * 95 / 100 == 11; }
      else { assert 255 * 75 / 100 == 191; }
    }
  }

  /** A two-level colour with its largest channels set to `top` and its zero channels to `low`. */
  function Levels(c: Rgb, top: int, low: int): Rgb
  {
    Rgb(if c.r == 0 then low else top, if c.g == 0 then low else top, if c.b == 0 then low else top)
  }

  /** Lowering both levels never lightens a channel. */
  lemma LevelsNoLighter(c: Rgb, top1: int, low1: int, top2: int, low2: int)
    requires top1 <= top2 && low1 <= low2
    ensures NoLighter(Levels(c, top1, low1), Levels(c, top2, low2))
  {
  }

  /** A two-level primary at an intensity below 5: largest channels darkened, zero ones lifted. */
  lemma TintTwoLevel(base: BaseColor, i: int)
    requires InRange(base.rgb) && TwoLevel(base.rgb) && Max3(base.rgb) >= 128 && 1 <= i <= 4
    ensures var md := ModifierFor(i); var top := Max3(base.rgb) * md.brightness / 100;
      Tint(base, i).rgb == Levels(base.rgb, top, top - top * md.saturation / 100)
  {
    var md := ModifierFor(i);
    MulMono(Max3(base.rgb), 50, md.brightness);
    BrightenTwoLevel(base.rgb, md.brightness);
    SaturateTwoLevel(Brighten(base.rgb, md.brightness), md.saturation);
  }

  /** The same, read off the tables. */
  lemma TintTwoLevelTable(base: BaseColor, i: int)
    requires InRange(base.rgb) && TwoLevel(base.rgb) && (Max3(base.rgb) == 128 || Max3(base.rgb) == 255)
    requires 1 <= i <= 4
    ensures Tint(base, i).rgb
         == Levels(base.rgb, TopScale(Max3(base.rgb))[i - 1], LowScale(Max3(base.rgb))[i - 1])
  {
    TintTwoLevel(base, i);
    ScalesAt(Max3(base.rgb), i);
  }

  /** A two-level primary at intensity 5: only darkened. */
  lemma TintTwoLevelAtFive(base: BaseColor)
    requires InRange(base.rgb) && TwoLevel(base.rgb) && (Max3(base.rgb) == 128 || Max3(base.rgb) == 255)
    ensures Tint(base, 5).rgb == Levels(base.rgb, TopScale(Max3(base.rgb))[4], 0)
  {
    MulMono(Max3(base.rgb), 50, 75);
    BrightenTwoLevel(base.rgb, 75);
    ScalesAt(Max3(base.rgb), 5);
  }

  /** Along 1..5 the tabled channels never rise, and the lifted channel stays above 0. */
  lemma ScalesFall(m: int, i: int)
    requires 1 <= i <= 4
    ensures TopScale(m)[i] <= TopScale(m)[i - 1]
    ensures i < 4 ==> LowScale(m)[i] <= LowScale(m)[i - 1]
    ensures 0 <= LowScale(m)[i - 1]
    ensures OrangeGreen[i] <= OrangeGreen[i - 1]
  {
  }

  /** One step below intensity 4 never lightens a two-level primary. */
  lemma TwoLevelStepLow(base: BaseColor, i: int)
    requires InRange(base.rgb) && TwoLevel(base.rgb) && (Max3(base.rgb) == 128 || Max3(base.rgb) == 255)
    requires 1 <= i <= 3
    ensures NoLighter(Tint(base, i + 1).rgb, Tint(base, i).rgb)
  {
    var m := Max3(base.rgb);
    TintTwoLevelTable(base, i);
    TintTwoLevelTable(base, i + 1);
    ScalesFall(m, i);
    LevelsNoLighter(base.rgb, TopScale(m)[i], LowScale(m)[i], TopScale(m)[i - 1], LowScale(m)[i - 1]);
  }

  /** The step from intensity 4 to 5, where the saturation step stops, never lightens a two-level
      primary. */
  lemma TwoLevelStepFour(base: BaseColor)
    requires InRange(base.rgb) && TwoLevel(base.rgb) && (Max3(base.rgb) == 128 || Max3(base.rgb) == 255)
    ensures NoLighter(Tint(base, 5).rgb, Tint(base, 4).rgb)
  {
    var m := Max3(base.rgb);
    TintTwoLevelTable(base, 4);
    TintTwoLevelAtFive(base);
    ScalesFall(m, 4);
    LevelsNoLighter(base.rgb, TopScale(m)[4], 0, TopScale(m)[3], LowScale(m)[3]);
  }

  /** A primary whose red channel is the largest and whose blue channel is 0, below intensity 5: red
      darkened to `top`, blue lifted to `top - nd`, green pulled from `g` toward red. */
  lemma TintRedTop(base: BaseColor, i: int, top: int, g: int, nd: nat)
    requires InRange(base.rgb) && 1 <= i <= 4 && base.rgb.b == 0
    requires top == base.rgb.r * ModifierFor(i).brightness / 100
    requires g == base.rgb.g * ModifierFor(i).brightness / 100
    requires nd == top * ModifierFor(i).saturation / 100
    requires 0 <= g <= top && 0 < top && nd <= top
    ensures Tint(base, i).rgb == Rgb(top, Pull(g, top, nd, top), top - nd)
  {
    var md := ModifierFor(i);
    var c := Brighten(base.rgb, md.brightness);
    assert Max3(c) == top && Min3(c) == 0;
    CeilDivExact(nd, top);
    assert nd * (top - 0) == nd * top;
    assert Saturate(c, md.saturation) == Rgb(Pull(top, top, nd, top), Pull(g, top, nd, top), Pull(0, top, nd, top));
  }

  /** 기대's darkened green channel, its green channel after the saturation step, and the shrunken
      channel spread at intensities 1 to 5. */
  const OrangeBright: seq<int> := [156, 148, 140, 132, 123]
  const OrangeGreen: seq<int> := [173, 160, 147, 135, 123]
  const OrangeSpread: seq<int> := [193, 194, 194, 193]

  lemma OrangeAt(i: int)
    requires 1 <= i <= 5
    ensures var md := ModifierFor(i); var top := 255 * md.brightness / 100;
      && 165 * md.brightness / 100 == OrangeBright[i - 1]
      && (i <= 4 ==> top * md.saturation / 100 == OrangeSpread[i - 1])
  {
    ScalesAt(255, i);
  }

  /** The pulled green channel of 기대, worked out from the tabled values. */
  lemma OrangeGreenAt(i: int)
    requires 1 <= i <= 4
    ensures Pull(OrangeBright[i - 1], TopScale(255)[i - 1], OrangeSpread[i - 1], TopScale(255)[i - 1])
         == OrangeGreen[i - 1]
  {
    if i == 1 { assert Pull(156, 242, 193, 242) == 173; }
    else if i == 2 { assert Pull(148, 229, 194, 229) == 160; }
    else if i == 3 { assert Pull(140, 216, 194, 216) == 147; }
    else { assert Pull(132, 204, 193, 204) == 135; }
  }

  /** 기대 at an intensity below 5, from the tables. */
  lemma OrangeTint(i: int)
    requires 1 <= i <= 4
    ensures Tint(Primary(7), i).rgb == Rgb(TopScale(255)[i - 1], OrangeGreen[i - 1], LowScale(255)[i - 1])
  {
    ScalesAt(255, i);
    OrangeAt(i);
    OrangeGreenAt(i);
    TintRedTop(Primary(7), i, TopScale(255)[i - 1], OrangeBright[i - 1], OrangeSpread[i - 1]);
  }

  /** 기대 at intensity 5: only darkened. */
  lemma OrangeAtFive()
    ensures Tint(Primary(7), 5).rgb == Rgb(TopScale(255)[4], OrangeBright[4], 0)
  {
    assert Brighten(Primary(7).rgb, 75) == Rgb(191, 123, 0);
  }

  /** One step below intensity 5 never lightens 기대. */
  lemma OrangeStep(i: int)
    requires 1 <= i <= 4
    ensures NoLighter(Tint(Primary(7), i + 1).rgb, Tint(Primary(7), i).rgb)
  {
    OrangeTint(i);
    ScalesFall(255, i);
    if i < 4 {
      OrangeTint(i + 1);
    } else {
      OrangeAtFive();
    }
  }

  /** Every primary but 기대 is two-level, with largest channel 128 or 255. */
  lemma PrimaryTwoLevel(k: nat)
    requires k < 7
    ensures TwoLevel(Primary(k).rgb) && (Max3(Primary(k).rgb) == 128 || Max3(Primary(k).rgb) == 255)
  {
  }

  /** Below intensity 5 one step up the scale never lightens a primary. */
  lemma PrimaryStep(k: nat, i: int)
    requires k < 8 && 1 <= i <= 4
    ensures NoLighter(Tint(Primary(k), i + 1).rgb, Tint(Primary(k), i).rgb)
  {
    if k == 7 {
      OrangeStep(i);
    } else {
      PrimaryTwoLevel(k);
      if i < 4 {
        TwoLevelStepLow(Primary(k), i);
      } else {
        TwoLevelStepFour(Primary(k));
      }
    }
  }

  /** Below intensity 5 one step up the scale never lightens a channel, saturation step included. */
  lemma DarkerStep(emotion: string, i: int)
    requires 1 <= i <= 4
    ensures NoLighter(ColorWithIntensity(emotion, i + 1).rgb, ColorWithIntensity(emotion, i).rgb)
  {
    var k := if IsEmotion(emotion) then EmotionIndex(emotion).value else 0;
    assert Resolve(emotion) == Primary(k);
    PrimaryStep(k, i);
  }

  /** A stronger feeling is never lighter: over the whole scale 1..10 no channel grows as the
      intensity rises. */
  lemma {:induction false} DarkerWithIntensity(emotion: string, i: int, j: int)
    requires 1 <= i <= j <= 10
    ensures NoLighter(ColorWithIntensity(emotion, j).rgb, ColorWithIntensity(emotion, i).rgb)
    decreases j - i
  {
    if i <= 4 && i < j {
      DarkerStep(emotion, i);
      DarkerWithIntensity(emotion, i + 1, j);
    } else if i > 4 {
      var c := Resolve(emotion).rgb;
      var p, q := ModifierFor(i).brightness, ModifierFor(j).brightness;
      assert q <= p;
      MulMono(c.r, q, p); MulMono(c.g, q, p); MulMono(c.b, q, p);
    }
  }

  // ---------------------------------------------------------------------------------------------
  // `_build_extended_palette`

  /** One key of the palette dictionary together with its colour. */
  datatype PaletteEntry = Entry(key: string, color: Color)

  function Keys(p: seq<PaletteEntry>): (ks: seq<string>)
    ensures |ks| == |p| && forall i :: 0 <= i < |p| ==> ks[i] == p[i].key
  {
    seq(|p|, i requires 0 <= i < |p| => p[i].key)
  }

  /** Dictionary assignment `p[key] = c` on an insertion-ordered dictionary. */
  function Put(p: seq<PaletteEntry>, key: string, c: Color): (q: seq<PaletteEntry>)
    ensures key !in Keys(p) ==> q == p + [Entry(key, c)]
    ensures key in Keys(p) ==> |q| == |p| && Keys(q) == Keys(p)
  {
    match IndexOf(Keys(p), key)
      case None => p + [Entry(key, c)]
      case Some(k) => var q := p[k := Entry(key, c)]; assert Keys(q) == Keys(p); q
  }

  /** Python's `a or b` on two optional strings. */
  function OrLabel(a: Option<string>, b: Option<string>): Option<string>
  {
    if a.Some? && a.value != "" then a else b
  }

  /** The palette's key order: the wheel, then the dyad labels. */
  function PaletteKey(j: nat): string
    requires j < 16
  {
    if j < 8 then WheelOrder[j] else DyadLabels[j - 8]
  }

  lemma PaletteKeysDistinct()
    ensures forall i, j :: 0 <= i < j < 16 ==> PaletteKey(i) != PaletteKey(j)
  {
  }

  /** The eight primaries keyed by the wheel, followed by the first `n` blends keyed by their dyad
      labels. */
  function PaletteOf(base: seq<Color>, blends: seq<Color>, n: nat): (p: seq<PaletteEntry>)
    requires |base| == 8 && n <= |blends| <= 8
    ensures |p| == 8 + n
    ensures forall j :: 0 <= j < 8 + n ==> p[j].key == PaletteKey(j)
    ensures forall j :: 0 <= j < 8 ==> p[j].color == base[j]
    ensures forall j :: 0 <= j < n ==> p[8 + j].color == blends[j]
    decreases n
  {
    if n == 0 then seq(8, k requires 0 <= k < 8 => Entry(WheelOrder[k], base[k]))
    else PaletteOf(base, blends, n - 1) + [Entry(DyadLabels[n - 1], blends[n - 1])]
  }

  /** The primaries at one intensity, in wheel order. */
  function PrimariesAt(intensity: int): (cs: seq<Color>)
    ensures |cs| == 8 && forall k :: 0 <= k < 8 ==> cs[k] == Tint(Primary(k), intensity)
    ensures forall k :: 0 <= k < 8 ==> InRange(cs[k].rgb)
  {
    seq(8, k requires 0 <= k < 8 => Tint(Primary(k), intensity))
  }

  /** The blend of the k-th dyad, mixed from the primaries already computed for the palette. */
  function DyadColor(k: nat, primaries: seq<Color>, intensity: int): (c: Color)
    requires k < 8 && |primaries| == 8 && forall j :: 0 <= j < 8 ==> InRange(primaries[j].rgb)
    ensures InRange(c.rgb)
  {
    var emo := WheelOrder[k];
    var nxt := WheelOrder[(k + 1) % 8];
    var rgb := Mix(primaries[k].rgb, primaries[(k + 1) % 8].rgb);
    Color(DyadLabels[k], HexOf(rgb), rgb, emo + "+" + nxt + " 조합 색", intensity)
  }

  function BlendsAt(intensity: int): (cs: seq<Color>)
    ensures |cs| == 8 && forall k :: 0 <= k < 8 ==> cs[k] == DyadColor(k, PrimariesAt(intensity), intensity)
  {
    var primaries := PrimariesAt(intensity);
    seq(8, k requires 0 <= k < 8 => DyadColor(k, primaries, intensity))
  }

  /** The palette at an intensity clamped to 1..10: eight primaries followed by eight blends. */
  function ExtendedPalette(intensity: int): (p: seq<PaletteEntry>)
    ensures |p| == 16
  {
    var i := Clamp(intensity, 1, 10);
    PaletteOf(PrimariesAt(i), BlendsAt(i), 8)
  }

  /** The dyad lookup of the palette loop finds the k-th label, by the forward pair. */
  lemma DyadLabelAt(k: nat)
    requires k < 8
    ensures OrLabel(DyadLookup(WheelOrder[k], WheelOrder[(k + 1) % 8]),
                    DyadLookup(WheelOrder[(k + 1) % 8], WheelOrder[k])) == Some(DyadLabels[k])
    ensures DyadLabels[k] != ""
  {
  }

  /** The sixteen keys of the palette are the wheel followed by the dyad labels, all different. */
  lemma PaletteKeys(intensity: int)
    ensures |ExtendedPalette(intensity)| == 16
    ensures forall j :: 0 <= j < 16 ==> ExtendedPalette(intensity)[j].key == PaletteKey(j)
  {
    var i := Clamp(intensity, 1, 10);
    var p := PaletteOf(PrimariesAt(i), BlendsAt(i), 8);
    assert ExtendedPalette(intensity) == p;
  }

  /** No key occurs twice in the palette. */
  lemma PaletteKeysUnique(intensity: int)
    ensures forall i, j :: 0 <= i < j < 16 ==> ExtendedPalette(intensity)[i].key != ExtendedPalette(intensity)[j].key
  {
    PaletteKeys(intensity);
    PaletteKeysDistinct();
  }

  /** The k-th wheel label is drawn with the k-th primary. */
  lemma WheelColor(k: nat, intensity: int)
    requires k < 8
    ensures ColorWithIntensity(WheelOrder[k], intensity) == Tint(Primary(k), intensity)
  {
    ResolveAt(k);
  }

  /** The first eight palette entries are the wheel's labels with their colours at the clamped
      intensity. */
  lemma PalettePrimary(intensity: int, k: nat)
    requires k < 8
    ensures ExtendedPalette(intensity)[k]
            == Entry(WheelOrder[k], ColorWithIntensity(WheelOrder[k], Clamp(intensity, 1, 10)))
  {
    var i := Clamp(intensity, 1, 10);
    var p := PaletteOf(PrimariesAt(i), BlendsAt(i), 8);
    assert ExtendedPalette(intensity) == p;
    WheelColor(k, i);
    assert p[k].key == PaletteKey(k);
  }

  /** Each blend carries its dyad label and the clamped intensity, and its colour is the channel-wise
      halved sum of the two neighbouring primaries on the wheel. */
  lemma PaletteBlend(intensity: int, k: nat)
    requires k < 8
    ensures var i := Clamp(intensity, 1, 10);
            var p := ExtendedPalette(intensity);
            && p[8 + k].key == DyadLabels[k] && p[8 + k].color.name == DyadLabels[k]
            && p[8 + k].color.intensity == i
            && p[8 + k].color.rgb == Mix(p[k].color.rgb, p[(k + 1) % 8].color.rgb)
  {
    var i := Clamp(intensity, 1, 10);
    var base, blends := PrimariesAt(i), BlendsAt(i);
    var p := PaletteOf(base, blends, 8);
    assert ExtendedPalette(intensity) == p;
    assert p[8 + k].key == PaletteKey(8 + k);
    assert p[8 + k].color == blends[k] == DyadColor(k, base, i);
    assert p[k].color == base[k] && p[(k + 1) % 8].color == base[(k + 1) % 8];
  }

  /** Every palette colour has its channels in range and its hex rendered from them. */
  lemma PaletteHex(intensity: int, j: nat)
    requires j < 16
    ensures var c := ExtendedPalette(intensity)[j].color;
            InRange(c.rgb) && c.hex == HexOf(c.rgb)
  {
    var i := Clamp(intensity, 1, 10);
    var base, blends := PrimariesAt(i), BlendsAt(i);
    var p := PaletteOf(base, blends, 8);
    assert ExtendedPalette(intensity) == p;
    if j < 8 {
      assert p[j].color == base[j];
    } else {
      assert p[j].color == blends[j - 8];
    }
  }

  /** One turn of the palette loop appends the k-th blend. */
  lemma DyadStep(base: seq<Color>, blends: seq<Color>, k: nat)
    requires |base| == 8 && |blends| == 8 && k < 8
    ensures Put(PaletteOf(base, blends, k), DyadLabels[k], blends[k]) == PaletteOf(base, blends, k + 1)
  {
    var p := PaletteOf(base, blends, k);
    PaletteKeysDistinct();
    assert DyadLabels[k] == PaletteKey(8 + k);
    forall j | 0 <= j < 8 + k
      ensures Keys(p)[j] != DyadLabels[k]
    {
      assert Keys(p)[j] == PaletteKey(j);
    }
    assert DyadLabels[k] !in Keys(p);
  }

  /** `_build_extended_palette`: the primaries, then one dictionary assignment per wheel neighbour
      pair that has a dyad label. */
  method BuildExtendedPalette(intensity: int) returns (palette: seq<PaletteEntry>)
    ensures palette == ExtendedPalette(intensity)
  {
    var i := Clamp(intensity, 1, 10);
    var base := seq(8, k requires 0 <= k < 8 => ColorWithIntensity(WheelOrder[k], i));
    forall k | 0 <= k < 8
      ensures base[k] == PrimariesAt(i)[k]
    {
      WheelColor(k, i);
    }
    assert base == PrimariesAt(i);
    ghost var blends := BlendsAt(i);
    palette := seq(8, k requires 0 <= k < 8 => Entry(WheelOrder[k], base[k]));
    var k := 0;
    while k < 8
      invariant 0 <= k <= 8
      invariant palette == PaletteOf(base, blends, k)
    {
      var emo := WheelOrder[k];
      var nxt := WheelOrder[(k + 1) % 8];
      var dyad := OrLabel(DyadLookup(emo, nxt), DyadLookup(nxt, emo));
      DyadLabelAt(k);
      if dyad.None? || dyad.value == "" {
        assert false;
      }
      var rgb := Mix(base[k].rgb, base[(k + 1) % 8].rgb);
      var color := Color(dyad.value, HexOf(rgb), rgb, emo + "+" + nxt + " 조합 색", i);
      assert color == blends[k];
      DyadStep(base, blends, k);
      palette := Put(palette, dyad.value, color);
      k := k + 1;
    }
  }

  // ---------------------------------------------------------------------------------------------
  // Nearest colour

  /** `sum((a - b) ** 2 for a, b in zip(x, y))` on two colours. */
  function Dist(x: Rgb, y: Rgb): nat
  {
    (x.r - y.r) * (x.r - y.r) + (x.g - y.g) * (x.g - y.g) + (x.b - y.b) * (x.b - y.b)
  }

  /** The first candidate at minimal distance, as a running minimum with a strict comparison. */
  function FirstMinIndex(target: Rgb, cands: seq<Rgb>): (k: nat)
    requires |cands| > 0
    ensures k < |cands|
    decreases |cands|
  {
    if |cands| == 1 then 0
    else
      var k := FirstMinIndex(target, cands[..|cands| - 1]);
      if Dist(target, cands[|cands| - 1]) < Dist(target, cands[k]) then |cands| - 1 else k
  }

  /** The running minimum is nearest of all, and strictly nearer than every earlier candidate. */
  lemma {:induction false} FirstMinIndexIsMin(target: Rgb, cands: seq<Rgb>)
    requires |cands| > 0
    ensures var k := FirstMinIndex(target, cands);
            && (forall j :: 0 <= j < |cands| ==> Dist(target, cands[k]) <= Dist(target, cands[j]))
            && (forall j :: 0 <= j < k ==> Dist(target, cands[k]) < Dist(target, cands[j]))
    decreases |cands|
  {
    if |cands| > 1 {
      var init := cands[..|cands| - 1];
      FirstMinIndexIsMin(target, init);
      assert forall j :: 0 <= j < |init| ==> init[j] == cands[j];
    }
  }

  function PaletteRgbs(p: seq<PaletteEntry>): (cs: seq<Rgb>)
    ensures |cs| == |p| && forall i :: 0 <= i < |p| ==> cs[i] == p[i].color.rgb
  {
    seq(|p|, i requires 0 <= i < |p| => p[i].color.rgb)
  }

  /** The position of the first palette entry at minimal squared distance. */
  function ClosestIndex(target: Rgb, p: seq<PaletteEntry>): (k: nat)
    requires p != []
    ensures k < |p|
    ensures forall j :: 0 <= j < |p| ==> Dist(target, p[k].color.rgb) <= Dist(target, p[j].color.rgb)
    ensures forall j :: 0 <= j < k ==> Dist(target, p[k].color.rgb) < Dist(target, p[j].color.rgb)
  {
    FirstMinIndexIsMin(target, PaletteRgbs(p));
    FirstMinIndex(target, PaletteRgbs(p))
  }

  /** The key `_find_closest_from_palette` answers: that of the first entry at minimal distance, with
      기쁨 standing in for an empty palette or an empty key. */
  function ClosestKey(target: Rgb, p: seq<PaletteEntry>): (name: string)
    ensures p == [] ==> name == "기쁨"
    ensures p != [] && p[ClosestIndex(target, p)].key != "" ==> name == p[ClosestIndex(target, p)].key
    ensures p != [] && p[ClosestIndex(target, p)].key == "" ==> name == "기쁨"
  {
    if p == [] then "기쁨"
    else
      var k := ClosestIndex(target, p);
      if p[k].key == "" then "기쁨" else p[k].key
  }

  /** Extending the candidates by one keeps the old minimum unless the new one is strictly nearer. */
  lemma FirstMinStep(target: Rgb, cands: seq<Rgb>, i: nat)
    requires 0 < i < |cands|
    ensures var k := FirstMinIndex(target, cands[..i]);
            FirstMinIndex(target, cands[..i + 1])
              == if Dist(target, cands[i]) < Dist(target, cands[k]) then i else k
  {
    assert cands[..i + 1][..i] == cands[..i];
  }

  /** `_find_closest_from_palette`: a running minimum under a strict comparison, so ties keep the
      earlier key. */
  method FindClosestFromPalette(target: Rgb, palette: seq<PaletteEntry>) returns (name: string)
    ensures name == ClosestKey(target, palette)
  {
    ghost var cands := PaletteRgbs(palette);
    var best: Option<nat> := None;  // the best entry so far; None while best_dist is infinite
    var bestDist := 0;
    for i := 0 to |palette|
      invariant best.None? <==> i == 0
      invariant best.Some? ==> best.value < i && best.value == FirstMinIndex(target, cands[..i])
      invariant best.Some? ==> bestDist == Dist(target, cands[best.value])
    {
      var d := Dist(target, palette[i].color.rgb);
      assert d == Dist(target, cands[i]);
      if best.None? {
        assert FirstMinIndex(target, cands[..1]) == 0;
        best := Some(i);
        bestDist := d;
      } else {
        FirstMinStep(target, cands, i);
        if d < bestDist {
          best := Some(i);
          bestDist := d;
        }
      }
    }
    if best.None? {
      name := "기쁨";
    } else {
      assert cands[..|palette|] == cands;
      assert best.value == ClosestIndex(target, palette);
      if palette[best.value].key == "" {
        name := "기쁨";
      } else {
        name := palette[best.value].key;
      }
    }
  }

  function BaseRgbs(): (cs: seq<Rgb>)
    ensures |cs| == 8 && forall i :: 0 <= i < 8 ==> cs[i] == BaseColors[i].rgb
  {
    seq(8, i requires 0 <= i < 8 => BaseColors[i].rgb)
  }

  /** `_find_closest_emotion`: the first emotion, in table order, whose primary is nearest. */
  method FindClosestEmotion(target: Rgb) returns (emotion: string)
    ensures emotion == WheelOrder[FirstMinIndex(target, BaseRgbs())]
    ensures emotion in WheelOrder
  {
    emotion := "기쁨";
    var best: Option<nat> := None;
    for i := 0 to 8
      invariant best.None? <==> i == 0
      invariant best.Some? ==> best.value == FirstMinIndex(target, BaseRgbs()[..i]) && emotion == WheelOrder[best.value]
    {
      var d := Dist(target, BaseColors[i].rgb);
      if best.None? || d < Dist(target, BaseColors[best.value].rgb) {
        best := Some(i);
        emotion := WheelOrder[i];
      }
      assert BaseRgbs()[..i + 1][..i] == BaseRgbs()[..i];
    }
    assert BaseRgbs()[..8] == BaseRgbs();
  }

  // ---------------------------------------------------------------------------------------------
  // `get_average_emotion_color`

  /** A stored value meant as a number: one `int()` accepts, or one it rejects. */
  datatype RawNumber = Num(n: int) | NotANumber

  /** What the representative colour reads from one record: `color.rgb`, `color.intensity` and the
      record's own `intensity`, each possibly absent. */
  datatype ColorRecord = ColorRecord(rgb: Option<seq<int>>, colorIntensity: Option<RawNumber>,
                                     intensity: Option<RawNumber>)

  /** Either the plain 기쁨 colour, or a palette colour chosen for a set of records. */
  datatype Representative =
    | Fallback(color: Color)
    | Chosen(name: string, hex: string, rgb: Rgb, description: string, period: nat,
             closestEmotion: string, averageIntensity: int)

  predicate HasRgb(rec: ColorRecord)
  {
    rec.rgb.Some? && |rec.rgb.value| == 3
  }

  /** The three-channel colours of the records that carry one, in record order. */
  function ValidRgbs(records: seq<ColorRecord>): (cs: seq<Rgb>)
    ensures |cs| <= |records|
    ensures (forall i :: 0 <= i < |records| ==> !HasRgb(records[i])) <==> cs == []
  {
    if records == [] then []
    else
      var rest := ValidRgbs(records[1..]);
      assert forall i :: 1 <= i < |records| ==> records[i] == records[1..][i - 1];
      if HasRgb(records[0]) then
        var v := records[0].rgb.value;
        [Rgb(v[0], v[1], v[2])] + rest
      else rest
  }

  /** `color.get("intensity", rec.get("intensity", 5))` passed through `int()`, 5 when that fails. */
  function RecordIntensity(rec: ColorRecord): int
  {
    var raw := if rec.colorIntensity.Some? then rec.colorIntensity.value
               else if rec.intensity.Some? then rec.intensity.value
               else Num(5);
    match raw
      case Num(n) => n
      case NotANumber => 5
  }

  function SumR(cs: seq<Rgb>): int
  {
    if cs == [] then 0 else SumR(cs[..|cs| - 1]) + cs[|cs| - 1].r
  }

  function SumG(cs: seq<Rgb>): int
  {
    if cs == [] then 0 else SumG(cs[..|cs| - 1]) + cs[|cs| - 1].g
  }

  function SumB(cs: seq<Rgb>): int
  {
    if cs == [] then 0 else SumB(cs[..|cs| - 1]) + cs[|cs| - 1].b
  }

  function Sum(xs: seq<int>): int
  {
    if xs == [] then 0 else Sum(xs[..|xs| - 1]) + xs[|xs| - 1]
  }

  /** `(int(total_r / count), ...)`: the mean of each channel, truncated toward zero. */
  function AverageRgb(cs: seq<Rgb>): Rgb
    requires cs != []
  {
    Rgb(TruncDiv(SumR(cs), |cs|), TruncDiv(SumG(cs), |cs|), TruncDiv(SumB(cs), |cs|))
  }

  function Intensities(records: seq<ColorRecord>): (xs: seq<int>)
    ensures |xs| == |records| && forall i :: 0 <= i < |records| ==> xs[i] == RecordIntensity(records[i])
  {
    seq(|records|, i requires 0 <= i < |records| => RecordIntensity(records[i]))
  }

  /** The average intensity over all records, rounded half to even, then clamped to 1..10. */
  function AverageIntensity(records: seq<ColorRecord>): (a: int)
    requires records != []
    ensures 1 <= a <= 10
  {
    Clamp(RoundHalfEven(Sum(Intensities(records)), |records|), 1, 10)
  }

  lemma PaletteKeysNonEmpty()
    ensures forall j :: 0 <= j < 16 ==> PaletteKey(j) != ""
  {
  }

  /** A sequence of entries keyed like the palette. */
  predicate PaletteShaped(p: seq<PaletteEntry>)
  {
    |p| == 16 && forall j :: 0 <= j < 16 ==> p[j].key == PaletteKey(j)
  }

  /** No palette key is empty, so the closest key is the key of the closest entry, and looking that
      key up finds the closest entry again. */
  lemma ClosestKeyLookup(target: Rgb, p: seq<PaletteEntry>)
    requires PaletteShaped(p)
    ensures var k := ClosestIndex(target, p);
            ClosestKey(target, p) == p[k].key && IndexOf(Keys(p), p[k].key) == Some(k)
  {
    var k := ClosestIndex(target, p);
    PaletteKeysNonEmpty();
    assert p[k].key == PaletteKey(k);
    var j := IndexOf(Keys(p), p[k].key);
    PaletteKeysDistinct();
    assert p[j.value].key == PaletteKey(j.value);
  }

  lemma ExtendedPaletteShaped(intensity: int)
    ensures PaletteShaped(ExtendedPalette(intensity))
  {
    PaletteKeys(intensity);
  }

  /** The representative colour of a set of records: 기쁨 at intensity 5 when no record has a colour,
      and otherwise the palette entry nearest to the mean colour, at the mean intensity. */
  function AverageEmotionColor(records: seq<ColorRecord>): (r: Representative)
    ensures ValidRgbs(records) == [] <==> r.Fallback?
    ensures r.Fallback? ==> r.color == ColorWithIntensity("기쁨", 5)
    ensures r.Chosen? ==> r.period == |ValidRgbs(records)| >= 1 && r.averageIntensity == AverageIntensity(records)
    ensures r.Chosen? ==>
              r.closestEmotion == ClosestKey(AverageRgb(ValidRgbs(records)), ExtendedPalette(r.averageIntensity))
  {
    var cs := ValidRgbs(records);
    if cs == [] then Fallback(ColorWithIntensity("기쁨", 5))
    else
      var ai := AverageIntensity(records);
      var palette := ExtendedPalette(ai);
      var k := ClosestIndex(AverageRgb(cs), palette);
      ExtendedPaletteShaped(ai);
      ClosestKeyLookup(AverageRgb(cs), palette);
      var chosen := palette[k].color;
      Chosen(chosen.name, chosen.hex, chosen.rgb, "지난 " + NatToString(|cs|) + "일간의 대표 감정색입니다.",
             |cs|, palette[k].key, ai)
  }

  /** The chosen colour is the palette entry of the chosen key, and no palette colour is nearer to
      the mean colour. */
  lemma AverageIsNearest(records: seq<ColorRecord>)
    requires AverageEmotionColor(records).Chosen?
    ensures var r := AverageEmotionColor(records);
            var p := ExtendedPalette(r.averageIntensity);
            && (exists k :: 0 <= k < 16 && p[k].key == r.closestEmotion && p[k].color.rgb == r.rgb
                                        && p[k].color.name == r.name && p[k].color.hex == r.hex)
            && (forall j :: 0 <= j < 16 ==> Dist(AverageRgb(ValidRgbs(records)), r.rgb) <= Dist(AverageRgb(ValidRgbs(records)), p[j].color.rgb))
  {
    var cs := ValidRgbs(records);
    var ai := AverageIntensity(records);
    var p := ExtendedPalette(ai);
    var k := ClosestIndex(AverageRgb(cs), p);
    var r := AverageEmotionColor(records);
    assert r.rgb == p[k].color.rgb && r.name == p[k].color.name && r.hex == p[k].color.hex;
    assert r.closestEmotion == p[k].key;
  }

  /** `get_average_emotion_color`: averages the valid colours, collects the intensities in a loop,
      builds the palette and picks the closest entry. */
  method GetAverageEmotionColor(records: seq<ColorRecord>) returns (r: Representative)
    ensures r == AverageEmotionColor(records)
  {
    if records == [] {
      return Fallback(ColorWithIntensity("기쁨", 5));
    }
    var cs := ValidRgbs(records);
    if cs == [] {
      return Fallback(ColorWithIntensity("기쁨", 5));
    }
    var avg := AverageRgb(cs);
    var intensities: seq<int> := [];
    for i := 0 to |records|
      invariant intensities == Intensities(records[..i])
    {
      intensities := intensities + [RecordIntensity(records[i])];
      assert Intensities(records[..i + 1]) == Intensities(records[..i]) + [RecordIntensity(records[i])];
    }
    assert records[..|records|] == records;
    var ai := Clamp(RoundHalfEven(Sum(intensities), |intensities|), 1, 10);
    var palette := BuildExtendedPalette(ai);
    var name := FindClosestFromPalette(avg, palette);
    ExtendedPaletteShaped(ai);
    ClosestKeyLookup(avg, palette);
    var k := IndexOf(Keys(palette), name);
    var chosen := palette[k.value].color;
    r := Chosen(chosen.name, chosen.hex, chosen.rgb, "지난 " + NatToString(|cs|) + "일간의 대표 감정색입니다.",
                |cs|, name, ai);
  }

  // ---------------------------------------------------------------------------------------------
  // Keyword scorer and text analysis

  /** The keyword list of each emotion, in the scorer's dictionary order (the wheel order). */
  const EmotionKeywords: seq<seq<string>> := [
    ["기쁘", "행복", "즐거", "웃", "신나", "좋", "만족", "감사"],
    ["믿", "안전", "안정", "확신", "신뢰", "의지"],
    ["무서", "겁", "불안", "걱정", "두려", "떨", "긴장"],
    ["놀라", "깜짝", "예상", "갑작", "충격", "놀람"],
    ["슬프", "우울", "속상", "서럽", "눈물", "비통", "허전"],
    ["싫", "역겨", "불쾌", "짜증", "화나", "분노", "열받"],
    ["화나", "열받", "짜증", "분노", "화", "열", "폭발"],
    ["기대", "희망", "꿈", "미래", "계획", "준비", "새로운"]
  ]

  /** How many entries of a keyword list occur in the text. */
  function MatchCount(content: string, ks: seq<string>): (n: nat)
    ensures n <= |ks|
  {
    if ks == [] then 0
    else MatchCount(content, ks[..|ks| - 1]) + (if Contains(content, ks[|ks| - 1]) then 1 else 0)
  }

  function MaxOf(xs: seq<nat>): (m: nat)
    ensures forall i :: 0 <= i < |xs| ==> xs[i] <= m
    ensures xs != [] ==> m in xs
    ensures xs == [] ==> m == 0
  {
    if xs == [] then 0
    else
      var m := MaxOf(xs[..|xs| - 1]);
      assert forall i :: 0 <= i < |xs| - 1 ==> xs[i] == xs[..|xs| - 1][i];
      if xs[|xs| - 1] > m then xs[|xs| - 1] else m
  }

  /** The scores in tenths of a point: 0.3 (three tenths) per keyword found, and 기쁨 given 0.1 (one
      tenth) when nothing matched at all. */
  function KeywordScores(content: string): (scores: seq<nat>)
    ensures |scores| == 8
    ensures forall e :: 1 <= e < 8 ==> scores[e] == 3 * MatchCount(content, EmotionKeywords[e])
    ensures MatchCount(content, EmotionKeywords[0]) > 0 ==> scores[0] == 3 * MatchCount(content, EmotionKeywords[0])
    ensures scores[0] == 1 <==> forall e :: 0 <= e < 8 ==> MatchCount(content, EmotionKeywords[e]) == 0
    ensures MaxOf(scores) > 0
  {
    var raw := seq(8, e requires 0 <= e < 8 => 3 * MatchCount(content, EmotionKeywords[e]));
    if MaxOf(raw) == 0 then
      assert forall e :: 0 <= e < 8 ==> raw[e] == 0;
      assert raw[0] == 3 * MatchCount(content, EmotionKeywords[0]);
      raw[0 := 1]
    else
      assert exists e :: 0 <= e < 8 && raw[e] > 0;
      raw
  }

  /** `_analyze_emotion_keywords`: nested loops over emotions and their keywords, adding to a score
      per hit, then the minimum-score guarantee. */
  method AnalyzeEmotionKeywords(content: string) returns (scores: seq<nat>)
    ensures scores == KeywordScores(content)
  {
    scores := [0, 0, 0, 0, 0, 0, 0, 0];
    for e := 0 to 8
      invariant |scores| == 8
      invariant forall f :: 0 <= f < e ==> scores[f] == 3 * MatchCount(content, EmotionKeywords[f])
      invariant forall f :: e <= f < 8 ==> scores[f] == 0
    {
      var keywords := EmotionKeywords[e];
      for j := 0 to |keywords|
        invariant |scores| == 8
        invariant scores[e] == 3 * MatchCount(content, keywords[..j])
        invariant forall f :: 0 <= f < e ==> scores[f] == 3 * MatchCount(content, EmotionKeywords[f])
        invariant forall f :: e < f < 8 ==> scores[f] == 0
      {
        if Contains(content, keywords[j]) {
          scores := scores[e := scores[e] + 3];
        }
        assert keywords[..j + 1][..j] == keywords[..j];
      }
      assert keywords[..|keywords|] == keywords;
    }
    if MaxOf(scores) == 0 {
      scores := scores[0 := 1];
    }
    assert scores == KeywordScores(content);
  }

  /** The first position holding the largest value: Python's `max` with a key. */
  function FirstMaxIndex(xs: seq<nat>): (k: nat)
    requires xs != []
    ensures k < |xs| && xs[k] == MaxOf(xs)
    ensures forall j :: 0 <= j < k ==> xs[j] < xs[k]
  {
    if |xs| == 1 then 0
    else
      var k := FirstMaxIndex(xs[..|xs| - 1]);
      assert forall i :: 0 <= i < |xs| - 1 ==> xs[i] == xs[..|xs| - 1][i];
      if xs[|xs| - 1] > xs[k] then |xs| - 1 else k
  }

  /** `min(10, max(1, int(score * 10)))` of a score held in tenths. Three hits sum to 0.8999… in
      binary floating point, so three hits give 8, not 9. */
  function ScoreIntensity(tenths: nat): (i: int)
    ensures 1 <= i <= 10
    ensures tenths == 9 ==> i == 8
    ensures tenths != 9 && 1 <= tenths <= 10 ==> i == tenths
  {
    if tenths == 9 then 8 else Clamp(tenths, 1, 10)
  }

  /** The outcome of the keyword analysis of a text. */
  datatype TextAnalysis = TextAnalysis(primaryEmotion: string, emotionScores: seq<nat>, intensity: int,
                                       color: Color, message: string)

  /** `analyze_emotion_from_text`: the first emotion with the best score, its intensity and colour. */
  function AnalyzeEmotionFromText(content: string): (a: TextAnalysis)
    ensures a.emotionScores == KeywordScores(content)
    ensures exists k ::
              (0 <= k < 8 && a.primaryEmotion == WheelOrder[k]
               && (forall j :: 0 <= j < 8 ==> a.emotionScores[j] <= a.emotionScores[k])
               && (forall j :: 0 <= j < k ==> a.emotionScores[j] < a.emotionScores[k])
               && a.intensity == ScoreIntensity(a.emotionScores[k]))
    ensures 1 <= a.intensity <= 10
    ensures a.color == ColorWithIntensity(a.primaryEmotion, a.intensity)
    ensures a.message == "오늘의 감정색은 " + a.color.name + "입니다~"
  {
    var scores := KeywordScores(content);
    var k := FirstMaxIndex(scores);
    var intensity := ScoreIntensity(scores[k]);
    var color := ColorWithIntensity(WheelOrder[k], intensity);
    TextAnalysis(WheelOrder[k], scores, intensity, color, "오늘의 감정색은 " + color.name + "입니다~")
  }

  /** A text with no keyword at all is 기쁨 at intensity 1. */
  lemma NoKeywordIsMildJoy(content: string)
    requires forall e :: 0 <= e < 8 ==> MatchCount(content, EmotionKeywords[e]) == 0
    ensures AnalyzeEmotionFromText(content).primaryEmotion == "기쁨"
    ensures AnalyzeEmotionFromText(content).intensity == 1
  {
    var a := AnalyzeEmotionFromText(content);
    var s := KeywordScores(content);
    assert s[0] == 1;
    assert forall e :: 1 <= e < 8 ==> s[e] == 0;
  }

  // ---------------------------------------------------------------------------------------------
  // `_generate_average_color_name`

  const ColorWords: seq<string> := ["노랑", "초록", "청록", "파랑", "남색", "보라", "빨강", "주황"]

  /** The shade words from darkest to brightest. */
  const ShadeWords: seq<string> := ["깊은", "어두운", "중간", "선명한", "밝은"]

  /** How bright the mean channel `(r + g + b) / 3` is on the five-step scale above 50, 100, 150 and
      200, compared without dividing. */
  function ShadeRank(c: Rgb): (k: nat)
    ensures k < 5
    ensures k == 4 <==> c.r + c.g + c.b > 600
    ensures k == 0 <==> c.r + c.g + c.b <= 150
  {
    var sum := c.r + c.g + c.b;
    if sum > 600 then 4 else if sum > 450 then 3 else if sum > 300 then 2 else if sum > 150 then 1 else 0
  }

  function ShadePrefix(c: Rgb): (p: string)
    ensures p in ShadeWords
  {
    ShadeWords[ShadeRank(c)]
  }

  /** "<shade> <colour word>", the colour word coming from the emotion and 회색 for an unknown one. */
  function AverageColorName(c: Rgb, emotion: string): (s: string)
    ensures IsEmotion(emotion) ==>
              exists k :: (0 <= k < 8 && WheelOrder[k] == emotion && s == ShadePrefix(c) + " " + ColorWords[k])
    ensures !IsEmotion(emotion) ==> s == ShadePrefix(c) + " 회색"
  {
    var word := match EmotionIndex(emotion)
      case Some(k) => ColorWords[k]
      case None => "회색";
    ShadePrefix(c) + " " + word
  }

  /** A brighter colour never takes a darker shade word than a dimmer one. */
  lemma ShadeMonotone(c: Rgb, d: Rgb)
    requires c.r + c.g + c.b <= d.r + d.g + d.b
    ensures ShadeRank(c) <= ShadeRank(d)
  {
  }
}
