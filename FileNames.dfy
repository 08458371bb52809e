/** The two library calls every asset renamer starts from: `os.path.splitext` on a POSIX path, and
    `re.search(r'Key=([^,]+)', name).group(1)`, the value written after `Key=` up to the next comma. */
module FileNames {
  import opened Common

  // ---------------------------------------------------------------------------------------------
  // `os.path.splitext`

  /** The position of the last `c` in `s`, or -1 (`str.rfind`). */
  function LastIndexOf(s: string, c: char): (r: int)
    ensures -1 <= r < |s|
    ensures r >= 0 ==> s[r] == c
    ensures forall j :: r < j < |s| ==> s[j] != c
  {
    if s == [] then -1
    else if s[|s| - 1] == c then |s| - 1
    else LastIndexOf(s[..|s| - 1], c)
  }

  /** Some character of `s[lo..hi]` is not a dot. */
  predicate HasNonDot(s: string, lo: int, hi: int)
    requires 0 <= lo && hi <= |s|
  {
    exists j :: lo <= j < hi && s[j] != '.'
  }

  /** The root and the extension: the extension starts at the last dot of the last path component,
      unless everything before that dot in the component is dots (a leading-dot name has none). */
  function Splitext(p: string): (r: (string, string))
    ensures r.0 + r.1 == p
    ensures r.1 == "" || (r.1[0] == '.' && '.' !in r.1[1..] && '/' !in r.1)
  {
    var sep := LastIndexOf(p, '/');
    var dot := LastIndexOf(p, '.');
    if dot > sep && HasNonDot(p, sep + 1, dot) then
      assert forall j :: 1 <= j < |p[dot..]| ==> p[dot..][j] == p[dot + j];
      (p[..dot], p[dot..])
    else (p, "")
  }

  /** Appending an extension to a stem that has a non-dot character and no dot after its last
      slash gives that extension back, and the stem as the root. */
  lemma SplitextAppend(stem: string, ext: string)
    requires ext != [] && ext[0] == '.' && '.' !in ext[1..] && '/' !in ext
    requires exists j :: 0 <= j < |stem| && stem[j] != '.' && stem[j] != '/' && '/' !in stem[j..]
    ensures Splitext(stem + ext) == (stem, ext)
  {
    var p := stem + ext;
    var j :| 0 <= j < |stem| && stem[j] != '.' && stem[j] != '/' && '/' !in stem[j..];
    var sep := LastIndexOf(p, '/');
    var dot := LastIndexOf(p, '.');
    assert p[|stem|] == '.';
    forall i | |stem| < i < |p| ensures p[i] != '.' && p[i] != '/' {
      assert p[i] == ext[i - |stem|];
      assert ext[1..][i - |stem| - 1] == ext[i - |stem|];
    }
    assert dot == |stem|;
    forall i | j <= i < |p| ensures p[i] != '/' {
      if i < |stem| {
        assert stem[j..][i - j] == stem[i];
      } else {
        assert p[i] == ext[i - |stem|];
      }
    }
    assert sep < j;
    assert p[j] == stem[j];
    assert HasNonDot(p, sep + 1, dot);
    assert p[..dot] == stem;
  }

  // ---------------------------------------------------------------------------------------------
  // `re.search(Key + '=([^,]+)', s)`

  /** The pattern matches at `i`: `k` is written there and a character other than a comma follows. */
  predicate MatchAt(s: string, k: string, i: nat)
  {
    i + |k| < |s| && s[i..i + |k|] == k && s[i + |k|] != ','
  }

  /** `[^,]*` taken greedily: the longest prefix without a comma. */
  function Run(s: string): (r: string)
    ensures |r| <= |s| && r == s[..|r|]
    ensures ',' !in r
    ensures |r| < |s| ==> s[|r|] == ','
  {
    if s == [] || s[0] == ',' then [] else [s[0]] + Run(s[1..])
  }

  /** The leftmost position from `i` on where the pattern matches. */
  function SearchFrom(s: string, k: string, i: nat): (r: Option<nat>)
    ensures r.Some? ==> i <= r.value && MatchAt(s, k, r.value)
    decreases |s| - i
  {
    if i + |k| >= |s| then None
    else if MatchAt(s, k, i) then Some(i)
    else SearchFrom(s, k, i + 1)
  }

  /** No position before the one found matches, and when none is found, none at all matches. */
  lemma {:induction false} SearchFromLeftmost(s: string, k: string, i: nat)
    ensures var r := SearchFrom(s, k, i);
            forall j :: i <= j && (r.None? || j < r.value) ==> !MatchAt(s, k, j)
    decreases |s| - i
  {
    if i + |k| < |s| && !MatchAt(s, k, i) {
      SearchFromLeftmost(s, k, i + 1);
    }
  }

  /** Where the leftmost match of `key=([^,]+)` starts. */
  function CapturePos(s: string, key: string): (p: Option<nat>)
    ensures p.Some? ==> MatchAt(s, key + "=", p.value)
  {
    SearchFrom(s, key + "=", 0)
  }

  /** The match is the leftmost one, and there is none exactly when every `key=` is at the end of
      `s` or followed by a comma. */
  lemma CaptureLeftmost(s: string, key: string)
    ensures CapturePos(s, key).None? <==> forall j: nat :: !MatchAt(s, key + "=", j)
    ensures CapturePos(s, key).Some? ==> forall j: nat :: j < CapturePos(s, key).value ==> !MatchAt(s, key + "=", j)
  {
    SearchFromLeftmost(s, key + "=", 0);
  }

  /** The captured group: the comma-free run after the leftmost match, which reaches the next comma
      or the end of `s`. */
  function Capture(s: string, key: string): (r: Option<string>)
    ensures r.Some? <==> CapturePos(s, key).Some?
    ensures r.Some? ==> r.value != "" && ',' !in r.value
    ensures r.Some? ==>
              var start := CapturePos(s, key).value + |key| + 1;
              && start + |r.value| <= |s| && s[start..start + |r.value|] == r.value
              && (start + |r.value| == |s| || s[start + |r.value|] == ',')
  {
    var k := key + "=";
    match CapturePos(s, key)
      case None => None
      case Some(i) =>
        var v := Run(s[i + |k|..]);
        assert v[0] == s[i + |k|];
        assert s[i + |k|..][..|v|] == s[i + |k|..i + |k| + |v|];
        Some(v)
  }

  /** The `.strip()` every renamer applies to a capture. */
  function StrippedCapture(s: string, key: string): Option<string>
  {
    match Capture(s, key)
      case None => None
      case Some(v) => Some(Strip(v))
  }

  // ---------------------------------------------------------------------------------------------
  // The direction table the garden renamer and the asset renamer both carry (19 entries).

  const DirectionNames: map<string, string> :=
    map["↔️ Horizontal" := "horizontal",
      "↕️ Vertical" := "vertical",
      "↖️Top Left" := "top_left",
      "↗️ Top Right" := "top_right",
      "↘️ Bottom Right" := "bottom_right",
      "↙️ Bottom Left" := "bottom_left",
      "⏩️ Connector Right" := "connector_right",
      "⏪️ Connector Left" := "connector_left",
      "⏫️ Connector top" := "connector_top",
      "⏬️ Connector Bottom" := "connector_bottom",
      "➕ Connector All" := "connector_all",
      "➡️ Right (Short)" := "right_short",
      "➡️ Right" := "right",
      "⬅️ Left (Short)" := "left_short",
      "⬅️ Left" := "left",
      "⬆️ Top (Short)" := "top_short",
      "⬆️ Top" := "top",
      "⬇️ Bottom (Short)" := "bottom_short",
      "⬇️ Bottom" := "bottom"]

  /** A direction through the table; an unlisted one is lower-cased with spaces turned into `_`. */
  function CleanDirection(d: string): string
  {
    if d in DirectionNames then DirectionNames[d] else Snake(d)
  }
}
