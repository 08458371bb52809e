/** The few Python built-ins the service code leans on, written over `string` (a sequence of Unicode
    scalar values, as Python's `str` is a sequence of code points): substring tests, `lower`, `strip`,
    `replace`, `join`, slicing, truncating division, `round` and decimal formatting. */
module Common {

  datatype Option<T> = None | Some(value: T)

  /** A service call that returns a value or raises with a message. */
  datatype Result<T> = Success(value: T) | Failure(error: string)

  // ---------------------------------------------------------------------------------------------
  // Substring test: Python's `k in s` on two strings.

  predicate Contains(s: string, k: string)
  {
    exists i {:trigger s[i..]} :: 0 <= i && i + |k| <= |s| && s[i..i + |k|] == k
  }

  /** A witness position makes `k in s` true. */
  lemma ContainsAt(s: string, k: string, i: nat)
    requires i + |k| <= |s| && s[i..i + |k|] == k
    ensures Contains(s, k)
  {
    assert s[i..][..|k|] == k;
  }

  /** A piece of a contained string is contained too. */
  lemma ContainsInfix(s: string, k: string, lo: nat, hi: nat)
    requires Contains(s, k) && lo <= hi <= |k|
    ensures Contains(s, k[lo..hi])
  {
    var i, j :| 0 <= i <= j <= |s| && j == i + |k| && s[i..j] == k;
    forall t | 0 <= t < hi - lo ensures s[i + lo..i + hi][t] == k[lo..hi][t] {
      assert s[i..j][lo + t] == s[i + lo + t];
    }
    assert s[i + lo..i + hi] == k[lo..hi];
    ContainsAt(s, k[lo..hi], i + lo);
  }

  /** If one character of `k` does not occur in `s` at all, `k in s` is false. */
  lemma MissingCharNotContained(s: string, k: string, j: nat)
    requires j < |k| && k[j] !in s
    ensures !Contains(s, k)
  {
  }

  /** Position of the first occurrence of `x` in `xs` (Python's `xs.index(x)`, or `x in xs` failing). */
  function IndexOf<T(==)>(xs: seq<T>, x: T): (r: Option<nat>)
    ensures r.Some? ==> r.value < |xs| && xs[r.value] == x && x !in xs[..r.value]
    ensures r.None? <==> x !in xs
  {
    if xs == [] then None
    else if xs[0] == x then Some(0)
    else match IndexOf(xs[1..], x)
      case None => None
      case Some(k) => assert xs[1..][..k] == xs[1..k + 1]; Some(k + 1)
  }

  predicate StartsWith(s: string, p: string)
  {
    |p| <= |s| && s[..|p|] == p
  }

  predicate EndsWith(s: string, p: string)
  {
    |p| <= |s| && s[|s| - |p|..] == p
  }

  // ---------------------------------------------------------------------------------------------
  // Case mapping. `str.lower()` is modelled on ASCII letters only; every keyword table of the core
  // is Hangul or lower-case ASCII, which Unicode lowering leaves alone.

  function LowerChar(c: char): (d: char)
    ensures 'A' <= c <= 'Z' ==> d as int == c as int + 32
    ensures !('A' <= c <= 'Z') ==> d == c
  {
    if 'A' <= c <= 'Z' then (c as int + 32) as char else c
  }

  function Lower(s: string): (r: string)
    ensures |r| == |s|
    ensures forall i :: 0 <= i < |s| ==> r[i] == LowerChar(s[i])
  {
    seq(|s|, i requires 0 <= i < |s| => LowerChar(s[i]))
  }

  /** Lowering twice is lowering once. */
  lemma LowerIdempotent(s: string)
    ensures Lower(Lower(s)) == Lower(s)
  {
  }

  // ---------------------------------------------------------------------------------------------
  // `str.strip()` with no argument removes the characters for which `str.isspace()` holds.

  predicate IsSpace(c: char)
  {
    || c == ' ' || ('\t' <= c <= '\r') || ('\U{1C}' <= c <= '\U{1F}')
    || c == '\U{85}' || c == '\U{A0}' || c == '\U{1680}' || ('\U{2000}' <= c <= '\U{200A}')
    || c == '\U{2028}' || c == '\U{2029}' || c == '\U{202F}' || c == '\U{205F}' || c == '\U{3000}'
  }

  function StripLeft(s: string): (r: string)
    ensures |r| <= |s| && r == s[|s| - |r|..]
    ensures forall i :: 0 <= i < |s| - |r| ==> IsSpace(s[i])
    ensures r != [] ==> !IsSpace(r[0])
  {
    if s != [] && IsSpace(s[0]) then StripLeft(s[1..]) else s
  }

  function StripRight(s: string): (r: string)
    ensures |r| <= |s| && r == s[..|r|]
    ensures forall i :: |r| <= i < |s| ==> IsSpace(s[i])
    ensures r != [] ==> !IsSpace(r[|r| - 1])
  {
    if s != [] && IsSpace(s[|s| - 1]) then StripRight(s[..|s| - 1]) else s
  }

  /** Python's `s.strip()`: the longest infix with no white space at either end. */
  function Strip(s: string): (r: string)
    ensures exists i, j ::
              (0 <= i <= j <= |s| && r == s[i..j]
               && (forall k :: 0 <= k < i ==> IsSpace(s[k]))
               && (forall k :: j <= k < |s| ==> IsSpace(s[k])))
    ensures r != [] ==> !IsSpace(r[0]) && !IsSpace(r[|r| - 1])
  {
    var l := StripLeft(s);
    var r := StripRight(l);
    assert r == s[|s| - |l|..|s| - |l| + |r|];
    r
  }

  // ---------------------------------------------------------------------------------------------
  // `s.replace(a, b)` for single characters.

  function ReplaceChar(s: string, a: char, b: char): (r: string)
    ensures |r| == |s|
    ensures forall i :: 0 <= i < |s| ==> r[i] == (if s[i] == a then b else s[i])
  {
    seq(|s|, i requires 0 <= i < |s| => if s[i] == a then b else s[i])
  }

  /** The `lower().replace(' ', '_')` idiom every asset renamer uses. */
  function Snake(s: string): (r: string)
    ensures |r| == |s|
    ensures forall i :: 0 <= i < |s| ==> r[i] != ' ' && (s[i] != ' ' ==> r[i] == LowerChar(s[i]))
  {
    ReplaceChar(Lower(s), ' ', '_')
  }

  // ---------------------------------------------------------------------------------------------
  // Joining and slicing.

  /** `sep.join(xs)`. */
  function Join(sep: string, xs: seq<string>): (r: string)
    ensures xs == [] ==> r == ""
    ensures |xs| == 1 ==> r == xs[0]
  {
    if xs == [] then "" else if |xs| == 1 then xs[0] else xs[0] + sep + Join(sep, xs[1..])
  }

  /** `s[:n]` for a non-negative `n`. */
  function Prefix<T>(s: seq<T>, n: nat): (r: seq<T>)
    ensures |r| == if |s| < n then |s| else n
    ensures r == s[..|r|]
  {
    if |s| <= n then s else s[..n]
  }

  /** `xs[-n:]` as Python evaluates it for any integer `n`: for `n > 0` the last `n` elements (all of
      them when there are fewer), for `n == 0` the whole list (because `-0 == 0`), and for `n < 0`
      everything after the first `-n` elements. */
  function PyTail<T>(xs: seq<T>, n: int): (r: seq<T>)
    ensures n > 0 ==> |r| == (if |xs| < n then |xs| else n) && r == xs[|xs| - |r|..]
    ensures n == 0 ==> r == xs
    ensures n < 0 ==> r == (if |xs| <= -n then [] else xs[-n..])
  {
    if n > 0 then (if |xs| <= n then xs else xs[|xs| - n..])
    else if n == 0 then xs
    else if |xs| <= -n then [] else xs[-n..]
  }

  // ---------------------------------------------------------------------------------------------
  // Arithmetic as Python computes it on integers.

  function Clamp(x: int, lo: int, hi: int): (r: int)
    requires lo <= hi
    ensures lo <= r <= hi
    ensures lo <= x <= hi ==> r == x
    ensures x < lo ==> r == lo
    ensures x > hi ==> r == hi
  {
    if x < lo then lo else if x > hi then hi else x
  }

  /** `int(a / b)`: division truncated toward zero (Dafny's `/` is Euclidean). */
  function TruncDiv(a: int, b: int): (q: int)
    requires b > 0
    ensures a >= 0 ==> q == a / b
    ensures q * b <= a < q * b + b || (a < 0 && q * b - b < a <= q * b)
  {
    if a >= 0 then a / b else -((-a) / b)
  }

  /** `round(a / b)` for `b > 0`: the nearest integer, halves going to the even neighbour. */
  function RoundHalfEven(a: int, b: int): (q: int)
    requires b > 0
    ensures 2 * (a - q * b) <= b && -b <= 2 * (a - q * b)
    ensures 2 * (a - q * b) == b ==> q % 2 == 0
    ensures -b == 2 * (a - q * b) ==> q % 2 == 0
  {
    var f := a / b;
    var r := a % b;
    assert a == f * b + r && 0 <= r < b;
    assert (f + 1) * b == f * b + b;
    if 2 * r < b then f
    else if 2 * r > b then f + 1
    else if f % 2 == 0 then f else f + 1
  }

  /** Multiplication by a non-negative factor is monotone. */
  lemma MulMono(a: nat, b: int, c: int)
    requires b <= c
    ensures a * b <= a * c
    decreases a
  {
    if a > 0 {
      MulMono(a - 1, b, c);
    }
  }

  /** `ceil(a / b)` for `a >= 0` and `b > 0`. */
  function CeilDiv(a: nat, b: nat): (q: nat)
    requires b > 0
    ensures q * b >= a
  {
    var q := (a + b - 1) / b;
    assert q * b + (a + b - 1) % b == a + b - 1;
    q
  }

  /** The ceiling is the least such multiple: any `y` with `a <= b * y` bounds it. */
  lemma CeilDivAtMost(a: nat, b: nat, y: nat)
    requires b > 0 && a <= b * y
    ensures CeilDiv(a, b) <= y
  {
    var q := CeilDiv(a, b);
    assert q * b <= a + b - 1;
    if q > y {
      MulMono(b, y + 1, q);
    }
  }

  /** An exact multiple needs no rounding up. */
  lemma CeilDivExact(n: nat, d: nat)
    requires d > 0
    ensures CeilDiv(n * d, d) == n
  {
    CeilDivAtMost(n * d, d, n);
    var q := CeilDiv(n * d, d);
    if q < n {
      MulMono(d, q, n - 1);
    }
  }

  // ---------------------------------------------------------------------------------------------
  // Decimal formatting (`str(n)` / f-string interpolation of an integer).

  function DigitChar(d: nat): (c: char)
    requires d < 10
    ensures '0' <= c <= '9' && c as int - '0' as int == d
  {
    ('0' as int + d) as char
  }

  function NatToString(n: nat): (s: string)
    ensures |s| >= 1
    ensures forall i :: 0 <= i < |s| ==> '0' <= s[i] <= '9'
    ensures DecimalValue(s) == n
    decreases n
  {
    if n < 10 then [DigitChar(n)] else NatToString(n / 10) + [DigitChar(n % 10)]
  }

  function IntToString(n: int): (s: string)
    ensures |s| >= 1
  {
    if n >= 0 then NatToString(n) else "-" + NatToString(-n)
  }

  /** The value of a string of decimal digits: the partner of `NatToString`. */
  function DecimalValue(s: string): nat
    requires forall i :: 0 <= i < |s| ==> '0' <= s[i] <= '9'
  {
    if s == [] then 0 else 10 * DecimalValue(s[..|s| - 1]) + (s[|s| - 1] as int - '0' as int)
  }

  /** Decimal rendering is injective, because reading the digits back gives the number. */
  lemma NatToStringInjective(m: nat, n: nat)
    requires NatToString(m) == NatToString(n)
    ensures m == n
  {
    assert DecimalValue(NatToString(m)) == m;
  }
}
