/**
 * The static `Utils` helpers: numeric clamping and interpolation, the hex colour
 * round trip, colour darkening and `rgba` strings, array shuffle / remove / last,
 * and the Korean time formatter.
 */
module Helpers {
  import opened Options

  // ---------------------------------------------------------------- numbers

  /** `Math.max(lo, Math.min(hi, v))`. */
  function Clamp(v: real, lo: real, hi: real): (r: real)
    ensures lo <= hi ==> lo <= r <= hi
    ensures lo <= v <= hi ==> r == v
    ensures v < lo ==> r == lo
    ensures lo <= hi < v ==> r == hi
  {
    var m := if hi < v then hi else v;
    if lo < m then m else lo
  }

  /** Linear interpolation: a factor in [0, 1] lands between the two ends. */
  function Lerp(start: real, end: real, factor: real): (r: real)
    ensures 0.0 <= factor <= 1.0 && start <= end ==> start <= r <= end
    ensures 0.0 <= factor <= 1.0 && end <= start ==> end <= r <= start
  {
    ScaledWithin(end - start, factor);
    start + (end - start) * factor
  }

  /** A share in [0, 1] of a difference lies between 0 and the difference. */
  lemma ScaledWithin(d: real, f: real)
    ensures 0.0 <= f <= 1.0 && d >= 0.0 ==> 0.0 <= d * f <= d
    ensures 0.0 <= f <= 1.0 && d <= 0.0 ==> d <= d * f <= 0.0
  {
    if 0.0 <= f <= 1.0 {
      assert d - d * f == d * (1.0 - f);
      if d >= 0.0 {
        assert d * f >= 0.0 && d * (1.0 - f) >= 0.0;
      } else {
        assert -(d * f) == (-d) * f && (-d) * f >= 0.0;
        assert -(d * (1.0 - f)) == (-d) * (1.0 - f) && (-d) * (1.0 - f) >= 0.0;
      }
    }
  }

  lemma LerpEnds(start: real, end: real)
    ensures Lerp(start, end, 0.0) == start
    ensures Lerp(start, end, 1.0) == end
    ensures Lerp(start, end, 0.5) == (start + end) / 2.0
  {
  }

  // ---------------------------------------------------------------- hex colours

  datatype Rgb = Rgb(r: int, g: int, b: int)

  predicate IsHexDigit(c: char)
  {
    '0' <= c <= '9' || 'a' <= c <= 'f' || 'A' <= c <= 'F'
  }

  function DigitValue(c: char): (d: nat)
    requires IsHexDigit(c)
    ensures d < 16
  {
    if '0' <= c <= '9' then c as int - '0' as int
    else if 'a' <= c <= 'f' then c as int - 'a' as int + 10
    else c as int - 'A' as int + 10
  }

  /** The lower-case digit `Number.prototype.toString(16)` writes for `d`. */
  function HexChar(d: nat): (c: char)
    requires d < 16
    ensures IsHexDigit(c) && !('A' <= c <= 'F')
  {
    if d < 10 then ('0' as int + d) as char else ('a' as int + d - 10) as char
  }

  lemma DigitValueOfHexChar(d: nat)
    requires d < 16
    ensures DigitValue(HexChar(d)) == d
  {
  }

  predicate AllHex(s: string)
  {
    forall i :: 0 <= i < |s| ==> IsHexDigit(s[i])
  }

  /** The strings the pattern `^#?([a-f\d]{2}){3}$` (case-insensitive) accepts. */
  predicate HexColorShape(s: string)
  {
    (|s| == 7 && s[0] == '#' && AllHex(s[1..])) || (|s| == 6 && AllHex(s))
  }

  function ByteOf(hi: char, lo: char): (v: nat)
    requires IsHexDigit(hi) && IsHexDigit(lo)
    ensures v < 256
  {
    16 * DigitValue(hi) + DigitValue(lo)
  }

  /** `hexToRgb`: three two-digit channels, or `null` when the pattern does not match. */
  function HexToRgb(s: string): (r: Option<Rgb>)
    ensures r.Some? <==> HexColorShape(s)
    ensures r.Some? ==> 0 <= r.value.r < 256 && 0 <= r.value.g < 256 && 0 <= r.value.b < 256
  {
    var body := if |s| == 7 && s[0] == '#' then s[1..] else s;
    if |body| == 6 && AllHex(body) then
      Some(Rgb(ByteOf(body[0], body[1]), ByteOf(body[2], body[3]), ByteOf(body[4], body[5])))
    else
      None
  }

  /** Base-16 digits of `n` as `n.toString(16)` writes them. */
  function HexDigits(n: nat): (s: string)
    ensures |s| >= 1
    ensures forall i :: 0 <= i < |s| ==> IsHexDigit(s[i]) && !('A' <= s[i] <= 'F')
    decreases n
  {
    if n < 16 then [HexChar(n)] else HexDigits(n / 16) + [HexChar(n % 16)]
  }

  lemma HexDigitsStep(n: nat, d: nat)
    requires n > 0 && d < 16
    ensures HexDigits(16 * n + d) == HexDigits(n) + [HexChar(d)]
  {
    assert (16 * n + d) / 16 == n;
    assert (16 * n + d) % 16 == d;
  }

  /** Appending one byte as two hex digits. */
  lemma ByteStep(n: nat, c: nat)
    requires n > 0 && c < 256
    ensures HexDigits(256 * n + c) == HexDigits(n) + [HexChar(c / 16), HexChar(c % 16)]
  {
    var m := 16 * n + c / 16;
    HexDigitsStep(n, c / 16);
    HexDigitsStep(m, c % 16);
    assert 16 * m + c % 16 == 256 * n + c;
  }

  /**
   * The number `(1 << 24) + (r << 16) + (g << 8) + b` that `rgbToHex` prints,
   * written as three byte appends; for channels in 0..255 it equals
   * `0x100_0000 + r * 0x1_0000 + g * 0x100 + b`.
   */
  function Packed(r: nat, g: nat, b: nat): (n: nat)
    requires r < 256 && g < 256 && b < 256
    ensures n == 0x100_0000 + r * 0x1_0000 + g * 0x100 + b
  {
    256 * (256 * (256 + r) + g) + b
  }

  /** `Packed(r, g, b)` has seven hex digits: a leading 1 and two per channel. */
  lemma SevenDigits(r: nat, g: nat, b: nat)
    requires r < 256 && g < 256 && b < 256
    ensures HexDigits(Packed(r, g, b))
         == ['1', HexChar(r / 16), HexChar(r % 16), HexChar(g / 16), HexChar(g % 16), HexChar(b / 16), HexChar(b % 16)]
  {
    ByteStep(1, r);
    assert HexDigits(1) == ['1'];
    ByteStep(256 + r, g);
    ByteStep(256 * (256 + r) + g, b);
  }

  /** `rgbToHex` for channels in 0..255: `'#'` and six lower-case hex digits. */
  function RgbToHex(r: nat, g: nat, b: nat): (s: string)
    requires r < 256 && g < 256 && b < 256
    ensures |s| == 7 && s[0] == '#' && HexColorShape(s)
    ensures forall i :: 1 <= i < 7 ==> !('A' <= s[i] <= 'F')
  {
    SevenDigits(r, g, b);
    "#" + HexDigits(Packed(r, g, b))[1..]
  }

  lemma {:induction false} HexRoundTrip(r: nat, g: nat, b: nat)
    requires r < 256 && g < 256 && b < 256
    ensures HexToRgb(RgbToHex(r, g, b)) == Some(Rgb(r, g, b))
  {
    SevenDigits(r, g, b);
    var s := RgbToHex(r, g, b);
    assert s[1..] == [HexChar(r / 16), HexChar(r % 16), HexChar(g / 16), HexChar(g % 16), HexChar(b / 16), HexChar(b % 16)];
    DigitValueOfHexChar(r / 16);
    DigitValueOfHexChar(r % 16);
    DigitValueOfHexChar(g / 16);
    DigitValueOfHexChar(g % 16);
    DigitValueOfHexChar(b / 16);
    DigitValueOfHexChar(b % 16);
  }

  predicate StartsWith(s: string, p: string)
  {
    |p| <= |s| && s[..|p|] == p
  }

  function Darken(c: int, amount: nat): (d: nat)
    requires 0 <= c < 256
    ensures d < 256 && d <= c
    ensures c >= amount ==> d == c - amount
    ensures c < amount ==> d == 0
  {
    if c - amount > 0 then c - amount else 0
  }

  const White := Rgb(255, 255, 255)

  /**
   * `darkenColor`: hsl strings pass through; anything else is parsed as hex
   * (white when it does not parse) and every channel is lowered by `amount`.
   */
  function DarkenColor(color: string, amount: nat): (s: string)
    ensures StartsWith(color, "hsl") ==> s == color
    ensures !StartsWith(color, "hsl") ==> |s| == 7 && HexColorShape(s)
  {
    if StartsWith(color, "hsl") then color
    else
      var rgb := match HexToRgb(color) case Some(c) => c case None => White;
      RgbToHex(Darken(rgb.r, amount), Darken(rgb.g, amount), Darken(rgb.b, amount))
  }

  lemma DarkenColorChannels(color: string, amount: nat)
    requires !StartsWith(color, "hsl")
    ensures var src := match HexToRgb(color) case Some(c) => c case None => White;
            HexToRgb(DarkenColor(color, amount))
              == Some(Rgb(Darken(src.r, amount), Darken(src.g, amount), Darken(src.b, amount)))
  {
    var src := match HexToRgb(color) case Some(c) => c case None => White;
    HexRoundTrip(Darken(src.r, amount), Darken(src.g, amount), Darken(src.b, amount));
  }

  // ---------------------------------------------------------------- rgba strings

  predicate OccursAt(s: string, p: string, j: int)
  {
    0 <= j && j + |p| <= |s| && s[j..j + |p|] == p
  }

  /** Index of the first occurrence of `p` in `s` at or after `from`, or -1. */
  function FindFrom(s: string, p: string, from: nat): (i: int)
    requires |p| > 0
    ensures i == -1 || (from <= i && OccursAt(s, p, i))
    ensures i != -1 ==> forall j :: from <= j < i ==> !OccursAt(s, p, j)
    ensures i == -1 ==> forall j :: from <= j ==> !OccursAt(s, p, j)
    decreases |s| - from
  {
    if from + |p| > |s| then -1
    else if s[from..from + |p|] == p then from
    else FindFrom(s, p, from + 1)
  }

  /** `String.prototype.replace` with a string pattern: only the first occurrence. */
  function ReplaceFirst(s: string, p: string, q: string): (r: string)
    requires |p| > 0
    ensures (forall j :: 0 <= j ==> !OccursAt(s, p, j)) ==> r == s
    ensures forall i :: 0 <= i && OccursAt(s, p, i) && (forall j :: 0 <= j < i ==> !OccursAt(s, p, j)) ==>
              r == s[..i] + q + s[i + |p|..]
  {
    var i := FindFrom(s, p, 0);
    if i == -1 then s else s[..i] + q + s[i + |p|..]
  }

  lemma ReplaceFirstAtStart(s: string, p: string, q: string)
    requires |p| > 0 && StartsWith(s, p)
    ensures ReplaceFirst(s, p, q) == q + s[|p|..]
  {
    assert s[0..|p|] == p;
    assert FindFrom(s, p, 0) == 0;
    assert [] + q + s[|p|..] == q + s[|p|..];
  }

  /** Replacing a ')' never touches a prefix that has no ')' in it. */
  lemma ReplaceKeepsPrefix(s: string, pre: string, q: string)
    requires StartsWith(s, pre) && forall k :: 0 <= k < |pre| ==> pre[k] != ')'
    ensures StartsWith(ReplaceFirst(s, ")", q), pre)
  {
    var i := FindFrom(s, ")", 0);
    if i != -1 {
      assert s[i..i + 1] == ")";
      assert forall k :: 0 <= k < |pre| ==> s[k] == pre[k];
      assert s[i] == ')';
      assert (s[..i] + q + s[i + 1..])[..|pre|] == s[..|pre|];
    }
  }

  function NatToString(n: nat): (s: string)
    ensures |s| >= 1 && forall i :: 0 <= i < |s| ==> '0' <= s[i] <= '9'
    decreases n
  {
    if n < 10 then [('0' as int + n) as char] else NatToString(n / 10) + [('0' as int + n % 10) as char]
  }

  /**
   * `rgba(color, alpha)`; `alpha` is the text JavaScript's template literal
   * produces for the number.
   */
  function Rgba(color: string, alpha: string): (s: string)
    ensures StartsWith(color, "hsl") ==> StartsWith(s, "hsla")
    ensures !StartsWith(color, "hsl") && StartsWith(color, "rgb") ==> StartsWith(s, "rgba")
    ensures !StartsWith(color, "hsl") && !StartsWith(color, "rgb") ==>
              var c := match HexToRgb(color) case Some(v) => v case None => White;
              s == "rgba(" + NatToString(c.r) + ", " + NatToString(c.g) + ", " + NatToString(c.b) + ", " + alpha + ")"
  {
    if StartsWith(color, "hsl") then WithAlpha(color, "hsl", "hsla", alpha)
    else if StartsWith(color, "rgb") then WithAlpha(color, "rgb", "rgba", alpha)
    else
      var c := match HexToRgb(color) case Some(v) => v case None => White;
      "rgba(" + NatToString(c.r) + ", " + NatToString(c.g) + ", " + NatToString(c.b) + ", " + alpha + ")"
  }

  /** The two `replace` calls `rgba` makes on an "hsl…" or "rgb…" colour. */
  function WithAlpha(color: string, pre: string, apre: string, alpha: string): (s: string)
    requires (pre, apre) in {("hsl", "hsla"), ("rgb", "rgba")} && StartsWith(color, pre)
    ensures StartsWith(s, apre)
  {
    var closing := ", " + alpha + ")";
    ReplaceKeepsPrefix(color, pre, closing);
    var t := ReplaceFirst(color, ")", closing);
    ReplaceFirstAtStart(t, pre, apre);
    ReplaceFirst(t, pre, apre)
  }

  /** `replace(")", q)` on `x + ")" + y` where `x` holds no ')'. */
  lemma ReplaceFirstClosing(x: string, y: string, q: string)
    requires forall k :: 0 <= k < |x| ==> x[k] != ')'
    ensures ReplaceFirst(x + ")" + y, ")", q) == x + q + y
  {
    var s := x + ")" + y;
    var n := |x|;
    assert OccursAt(s, ")", n) by { assert s[n..n + 1] == ")"; }
    forall j | 0 <= j < n
      ensures !OccursAt(s, ")", j)
    {
      assert s[j] == x[j];
      if j + 1 <= |s| {
        assert s[j..j + 1] == [s[j]];
      }
    }
    assert s[..n] == x && s[n + 1..] == y;
  }

  /** `replace(")", q)` on a text without any ')' leaves it as it is. */
  lemma ReplaceFirstUnclosed(x: string, q: string)
    requires forall k :: 0 <= k < |x| ==> x[k] != ')'
    ensures ReplaceFirst(x, ")", q) == x
  {
    forall j | 0 <= j
      ensures !OccursAt(x, ")", j)
    {
      if j + 1 <= |x| {
        assert x[j..j + 1] == [x[j]];
      }
    }
  }

  /** Neither "hsl" nor "rgb" holds a ')', so `pre + x` holds one only where `x` does. */
  lemma NoClosingAfter(pre: string, x: string)
    requires pre == "hsl" || pre == "rgb"
    requires forall k :: 0 <= k < |x| ==> x[k] != ')'
    ensures forall k :: 0 <= k < |pre + x| ==> (pre + x)[k] != ')'
  {
    forall k | 0 <= k < |pre + x|
      ensures (pre + x)[k] != ')'
    {
      if k >= 3 {
        assert (pre + x)[k] == x[k - 3];
      }
    }
  }

  /** On an "hsl…" or "rgb…" colour `rgba` is the two `replace` calls. */
  lemma RgbaReplaces(pre: string, apre: string, color: string, alpha: string)
    requires (pre, apre) in {("hsl", "hsla"), ("rgb", "rgba")} && StartsWith(color, pre)
    ensures Rgba(color, alpha) == WithAlpha(color, pre, apre, alpha)
  {
    if pre == "rgb" {
      assert !StartsWith(color, "hsl") by { assert color[0] == 'r'; }
    }
  }

  lemma Regrouped(a: string, b: string, c: string, d: string)
    ensures (a + b) + c + d == a + (b + c + d)
  {
  }

  /** `WithAlpha` once the first ')' has been replaced: the prefix gains its 'a', the rest is kept. */
  lemma WithAlphaText(color: string, pre: string, apre: string, alpha: string, rest: string)
    requires (pre, apre) in {("hsl", "hsla"), ("rgb", "rgba")} && StartsWith(color, pre)
    requires ReplaceFirst(color, ")", ", " + alpha + ")") == pre + rest
    ensures WithAlpha(color, pre, apre, alpha) == apre + rest
  {
    var t := pre + rest;
    assert StartsWith(t, pre) by { assert t[..3] == pre; }
    ReplaceFirstAtStart(t, pre, apre);
    assert t[3..] == rest;
  }

  /**
   * An "hsl…" or "rgb…" colour whose first ')' follows `x`: `rgba` turns that ')' into
   * ", alpha)" and appends an 'a' to the prefix, so "rgba(1,2,3,0.5)" becomes
   * "rgbaa(1,2,3,0.5, alpha)".
   */
  lemma RgbaClosed(pre: string, apre: string, x: string, y: string, alpha: string)
    requires (pre, apre) in {("hsl", "hsla"), ("rgb", "rgba")}
    requires forall k :: 0 <= k < |x| ==> x[k] != ')'
    ensures Rgba(pre + x + ")" + y, alpha) == apre + x + (", " + alpha + ")") + y
  {
    var closing := ", " + alpha + ")";
    var color := pre + x + ")" + y;
    NoClosingAfter(pre, x);
    ReplaceFirstClosing(pre + x, y, closing);
    Regrouped(pre, x, closing, y);
    assert StartsWith(color, pre) by { assert color[..3] == pre; }
    RgbaReplaces(pre, apre, color, alpha);
    WithAlphaText(color, pre, apre, alpha, x + closing + y);
    Regrouped(apre, x, closing, y);
  }

  /** An "hsl…" or "rgb…" colour without any ')': `rgba` only appends an 'a' to the prefix. */
  lemma RgbaUnclosed(pre: string, apre: string, x: string, alpha: string)
    requires (pre, apre) in {("hsl", "hsla"), ("rgb", "rgba")}
    requires forall k :: 0 <= k < |x| ==> x[k] != ')'
    ensures Rgba(pre + x, alpha) == apre + x
  {
    var color := pre + x;
    NoClosingAfter(pre, x);
    ReplaceFirstUnclosed(color, ", " + alpha + ")");
    assert StartsWith(color, pre) by { assert color[..3] == pre; }
    RgbaReplaces(pre, apre, color, alpha);
    ReplaceFirstAtStart(color, pre, apre);
    assert color[3..] == x;
  }

  // ---------------------------------------------------------------- arrays

  /** `Math.floor(Math.random() * (i + 1))` lies in 0..i. */
  lemma RandomIndexInRange(d: real, i: nat)
    requires 0.0 <= d < 1.0
    ensures 0 <= (d * (i + 1) as real).Floor <= i
  {
    var m := (i + 1) as real;
    var p := d * m;
    ProductNonNegative(d, m);
    ProductPositive(1.0 - d, m);
    assert m - p == (1.0 - d) * m;
    var f := p.Floor;
    assert f as real <= p < m;
  }

  lemma ProductNonNegative(a: real, b: real)
    requires a >= 0.0 && b >= 0.0
    ensures a * b >= 0.0
  {
  }

  lemma ProductPositive(a: real, b: real)
    requires a > 0.0 && b > 0.0
    ensures a * b > 0.0
  {
  }

  /**
   * `shuffle`: Fisher-Yates on a copy. `draws[k]` is the `Math.random()` value
   * of the k-th swap (the swap for index `|a| - 1 - k`).
   */
  method Shuffle<T>(a: seq<T>, draws: seq<real>) returns (r: seq<T>)
    requires |draws| + 1 >= |a|
    requires forall k :: 0 <= k < |draws| ==> 0.0 <= draws[k] < 1.0
    ensures |r| == |a|
    ensures multiset(r) == multiset(a)
  {
    if |a| == 0 { return []; }
    var shuffled := new T[|a|](k requires 0 <= k < |a| => a[k]);
    var i := |a| - 1;
    assert shuffled[..] == a;
    while i > 0
      invariant 0 <= i < |a|
      invariant shuffled.Length == |a|
      invariant multiset(shuffled[..]) == multiset(a)
    {
      var d := draws[|a| - 1 - i];
      RandomIndexInRange(d, i);
      var j := (d * (i + 1) as real).Floor;
      shuffled[i], shuffled[j] := shuffled[j], shuffled[i];
      i := i - 1;
    }
    r := shuffled[..];
  }

  /** `array.indexOf(item)`: the first index holding `x`, or -1. */
  function IndexOf<T(==)>(s: seq<T>, x: T): (i: int)
    ensures -1 <= i < |s|
    ensures i == -1 <==> x !in s
    ensures i >= 0 ==> s[i] == x && x !in s[..i]
  {
    if |s| == 0 then -1
    else if s[0] == x then 0
    else
      var k := IndexOf(s[1..], x);
      assert s[1..][..if k < 0 then 0 else k] == s[1..if k < 0 then 1 else k + 1];
      if k == -1 then -1 else k + 1
  }

  /** `remove(array, item)`: whether `item` was found, and the array after the splice. */
  function Remove<T(==)>(s: seq<T>, x: T): (r: (bool, seq<T>))
    ensures r.0 <==> x in s
    ensures !r.0 ==> r.1 == s
    ensures r.0 ==> |r.1| == |s| - 1 && multiset(r.1) + multiset{x} == multiset(s)
    ensures r.0 ==> exists i :: 0 <= i < |s| && s[i] == x && x !in s[..i] && r.1 == s[..i] + s[i + 1..]
  {
    var i := IndexOf(s, x);
    if i > -1 then
      assert s == s[..i] + [x] + s[i + 1..];
      (true, s[..i] + s[i + 1..])
    else
      (false, s)
  }

  /** A prefix one longer is the shorter prefix followed by the next element. */
  lemma TakeSnoc<T>(s: seq<T>, k: nat)
    requires k < |s|
    ensures s[..k + 1] == s[..k] + [s[k]]
  {
  }

  /** Writing back the value a key already has leaves a map as it was. */
  lemma UpdateSame<K, V>(m: map<K, V>, k: K)
    requires k in m
    ensures m[k := m[k]] == m
  { }

  /** `remove` is `indexOf` followed by a splice at that index. */
  lemma RemoveSplices<T>(s: seq<T>, x: T)
    ensures IndexOf(s, x) > -1 ==> Remove(s, x) == (true, s[..IndexOf(s, x)] + s[IndexOf(s, x) + 1..])
    ensures IndexOf(s, x) == -1 ==> Remove(s, x) == (false, s)
  {
  }

  /** Splicing out an element that was just pushed (and was not there before) gives back the list. */
  lemma {:induction false} RemoveLastAdded<T>(s: seq<T>, x: T)
    requires x !in s
    ensures Remove(s + [x], x) == (true, s)
  {
    IndexOfLastAdded(s, x);
    var i := IndexOf(s + [x], x);
    assert (s + [x])[..i] == s;
    assert (s + [x])[i + 1..] == [];
    assert (s + [x])[..i] + (s + [x])[i + 1..] == s;
  }

  lemma {:induction false} IndexOfLastAdded<T>(s: seq<T>, x: T)
    requires x !in s
    ensures IndexOf(s + [x], x) == |s|
    decreases |s|
  {
    if s != [] {
      assert (s + [x])[1..] == s[1..] + [x];
      IndexOfLastAdded(s[1..], x);
    }
  }

  /** `last(array)`: `undefined` for an empty array. */
  function Last<T>(s: seq<T>): (r: Option<T>)
    ensures r.None? <==> |s| == 0
    ensures r.Some? ==> r.value == s[|s| - 1]
  {
    if |s| == 0 then None else Some(s[|s| - 1])
  }

  // ---------------------------------------------------------------- time

  /** Which of the three `formatTime` shapes applies, with its numbers. */
  datatype Clock = HoursForm(hours: nat, minutes: nat) | MinutesForm(minutes: nat, secs: nat) | SecondsForm(secs: nat)

  function TimeParts(seconds: nat): (c: Clock)
    ensures c.HoursForm? <==> seconds >= 3600
    ensures c.MinutesForm? <==> 60 <= seconds < 3600
    ensures c.SecondsForm? <==> seconds < 60
    ensures c.HoursForm? ==> c.minutes < 60 && c.hours * 3600 + c.minutes * 60 <= seconds < c.hours * 3600 + c.minutes * 60 + 60
    ensures c.MinutesForm? ==> c.secs < 60 && seconds == c.minutes * 60 + c.secs
    ensures c.SecondsForm? ==> c.secs == seconds
  {
    var hours := seconds / 3600;
    var minutes := (seconds % 3600) / 60;
    var secs := seconds % 60;
    if hours > 0 then HoursForm(hours, minutes)
    else if minutes > 0 then MinutesForm(minutes, secs)
    else SecondsForm(secs)
  }

  /** `formatTime`: "H시간 M분", "M분 S초" or "S초". */
  function FormatTime(seconds: nat): (s: string)
    ensures |s| >= 2
    ensures s[|s| - 1] == (if seconds >= 3600 then '분' else '초')
    ensures seconds >= 3600 ==> s == NatToString(seconds / 3600) + "시간 " + NatToString(seconds % 3600 / 60) + "분"
    ensures 60 <= seconds < 3600 ==> s == NatToString(seconds / 60) + "분 " + NatToString(seconds % 60) + "초"
    ensures seconds < 60 ==> s == NatToString(seconds) + "초"
  {
    match TimeParts(seconds)
    case HoursForm(h, m) => NatToString(h) + "시간 " + NatToString(m) + "분"
    case MinutesForm(m, x) => NatToString(m) + "분 " + NatToString(x) + "초"
    case SecondsForm(x) => NatToString(x) + "초"
  }
}
