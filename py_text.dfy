/** The Python string built-ins that the analyzers rely on, stated over
    `seq<char>`: `str.lower`, the `in` operator on strings, `str.strip`,
    `len(str.split())`, the digit search done with `re.search(r'\d+%?', ...)`,
    `str.join`, `str(int)` and `round(x, k)`. */
module PyText {

  /** `str.lower()` on one character; only the ASCII letters are mapped. */
  function LowerChar(c: char): char {
    if 'A' <= c <= 'Z' then (c as int - 'A' as int + 'a' as int) as char else c
  }

  function Lower(s: string): string {
    seq(|s|, i requires 0 <= i < |s| => LowerChar(s[i]))
  }

  lemma LowerConcat(a: string, b: string)
    ensures Lower(a + b) == Lower(a) + Lower(b)
  {
  }

  /** `w in text` for two strings: `w` occurs in `text` as a contiguous slice. */
  predicate Contains(text: string, w: string) {
    exists i :: 0 <= i <= |text| - |w| && OccursAt(text, w, i)
  }

  predicate OccursAt(text: string, w: string, i: int) {
    0 <= i <= |text| - |w| && text[i..i + |w|] == w
  }

  /** `any(w in text for w in words)`. */
  predicate AnyIn(text: string, words: seq<string>) {
    exists i :: 0 <= i < |words| && Contains(text, words[i])
  }

  /** `any` over two word lists joined is `any` over either one. */
  lemma AnyInConcat(text: string, a: seq<string>, b: seq<string>)
    ensures AnyIn(text, a + b) <==> AnyIn(text, a) || AnyIn(text, b)
  {
    if AnyIn(text, a + b) {
      var i :| 0 <= i < |a + b| && Contains(text, (a + b)[i]);
      if i >= |a| {
        assert b[i - |a|] == (a + b)[i];
      }
    }
    if AnyIn(text, a) {
      var i :| 0 <= i < |a| && Contains(text, a[i]);
      assert (a + b)[i] == a[i];
    }
    if AnyIn(text, b) {
      var i :| 0 <= i < |b| && Contains(text, b[i]);
      assert (a + b)[|a| + i] == b[i];
    }
  }

  /** How many entries of `words` occur in `text` (each entry counted once). */
  function CountIn(text: string, words: seq<string>): (n: nat)
    ensures n <= |words|
  {
    if words == [] then 0
    else CountIn(text, words[..|words| - 1]) + (if Contains(text, words[|words| - 1]) then 1 else 0)
  }

  /** Some entry of `words` occurs in `text` exactly when the count is positive. */
  lemma {:induction false} CountInPositive(text: string, words: seq<string>)
    ensures CountIn(text, words) > 0 <==> AnyIn(text, words)
  {
    if words != [] {
      var init := words[..|words| - 1];
      CountInPositive(text, init);
      if AnyIn(text, init) {
        var i :| 0 <= i < |init| && Contains(text, init[i]);
        assert words[i] == init[i];
      }
      if AnyIn(text, words) && !Contains(text, words[|words| - 1]) {
        var i :| 0 <= i < |words| && Contains(text, words[i]);
        assert init[i] == words[i];
      }
    }
  }

  /** `str.isspace()` on one character: the characters Python treats as
      whitespace in `strip()` and `split()`. */
  predicate IsSpace(c: char) {
    var n := c as int;
    n == 0x20 || 0x09 <= n <= 0x0D || 0x1C <= n <= 0x1F || n == 0x85 || n == 0xA0 ||
    n == 0x1680 || 0x2000 <= n <= 0x200A || n == 0x2028 || n == 0x2029 ||
    n == 0x202F || n == 0x205F || n == 0x3000
  }

  /** `s.lstrip()`: drops exactly the maximal whitespace prefix. */
  function LStrip(s: string): (r: string)
    ensures |r| <= |s| && r == s[|s| - |r|..]
    ensures r == [] || !IsSpace(r[0])
    ensures forall j :: 0 <= j < |s| - |r| ==> IsSpace(s[j])
  {
    if s != [] && IsSpace(s[0]) then LStrip(s[1..]) else s
  }

  /** `s.rstrip()`: drops exactly the maximal whitespace suffix. */
  function RStrip(s: string): (r: string)
    ensures |r| <= |s| && r == s[..|r|]
    ensures r == [] || !IsSpace(r[|r| - 1])
    ensures forall j :: |r| <= j < |s| ==> IsSpace(s[j])
  {
    if s != [] && IsSpace(s[|s| - 1]) then RStrip(s[..|s| - 1]) else s
  }

  /** `s.strip()`. */
  function Strip(s: string): string {
    RStrip(LStrip(s))
  }

  /** A string made only of whitespace strips to the empty string. */
  lemma {:induction false} StripAllSpace(s: string)
    requires forall j :: 0 <= j < |s| ==> IsSpace(s[j])
    ensures Strip(s) == []
  {
    if s != [] {
      StripAllSpace(s[1..]);
    }
  }

  /** `len(s.split())`: the number of maximal runs of non-whitespace characters. */
  function WordCount(s: string): (n: nat)
    ensures n <= |s|
  {
    if s == [] then 0
    else
      WordCount(s[..|s| - 1]) +
      (if !IsSpace(s[|s| - 1]) && (|s| == 1 || IsSpace(s[|s| - 2])) then 1 else 0)
  }

  /** `bool(re.search(r'\d+%?', s))`: the pattern matches iff there is a digit. */
  predicate HasDigit(s: string) {
    exists i :: 0 <= i < |s| && '0' <= s[i] <= '9'
  }

  /** `sep.join(parts)`. */
  function Join(sep: string, parts: seq<string>): string {
    if parts == [] then ""
    else if |parts| == 1 then parts[0]
    else parts[0] + sep + Join(sep, parts[1..])
  }

  lemma JoinTwo(sep: string, a: string, b: string)
    ensures Join(sep, [a, b]) == a + sep + b
  {
    assert [a, b][1..] == [b];
  }

  lemma JoinThree(sep: string, a: string, b: string, c: string)
    ensures Join(sep, [a, b, c]) == a + sep + b + sep + c
  {
    assert [a, b, c][1..] == [b, c];
    JoinTwo(sep, b, c);
  }

  function DigitChar(d: nat): char
    requires d < 10
  {
    ('0' as int + d) as char
  }

  /** `str(n)` for a non-negative integer. */
  function NatToString(n: nat): string
    decreases n
  {
    if n < 10 then [DigitChar(n)] else NatToString(n / 10) + [DigitChar(n % 10)]
  }

  /** `str(i)` for an integer. */
  function IntToString(i: int): string {
    if i < 0 then "-" + NatToString(-i) else NatToString(i)
  }

  function Pow10(k: nat): (p: nat)
    ensures p >= 1
  {
    if k == 0 then 1 else 10 * Pow10(k - 1)
  }

  /** The integer nearest to `y`, halves going to the even neighbour. */
  function RoundHalfEven(y: real): int {
    var f := y.Floor;
    var frac := y - f as real;
    if frac > 0.5 then f + 1
    else if frac < 0.5 then f
    else if f % 2 == 0 then f else f + 1
  }

  /** `round(x, places)` computed exactly on reals: the nearest multiple of
      10^-places, ties to even. */
  function Round(x: real, places: nat): real {
    RoundScaled(x, Pow10(places) as real)
  }

  /** `x` rounded to the nearest multiple of `1 / scale`, ties to even. */
  function RoundScaled(x: real, scale: real): real
    requires scale > 0.0
  {
    RoundHalfEven(x * scale) as real / scale
  }

  lemma RoundHalfEvenMonotone(y1: real, y2: real)
    requires y1 <= y2
    ensures RoundHalfEven(y1) <= RoundHalfEven(y2)
  {
    var f1, f2 := y1.Floor, y2.Floor;
    assert f1 <= f2;
  }

  lemma RoundHalfEvenOfInt(m: int)
    ensures RoundHalfEven(m as real) == m
  {
    assert (m as real).Floor == m;
  }

  lemma DivideMonotone(a: real, b: real, s: real)
    requires a <= b && s > 0.0
    ensures a / s <= b / s
  {
    assert b / s - a / s == (b - a) / s;
  }

  lemma MultiplyMonotone(a: real, b: real, s: real)
    requires a <= b && s >= 0.0
    ensures a * s <= b * s
  {
    assert b * s - a * s == (b - a) * s;
  }

  /** Rounding is monotone. */
  lemma RoundMonotone(x1: real, x2: real, places: nat)
    requires x1 <= x2
    ensures Round(x1, places) <= Round(x2, places)
  {
    RoundScaledMonotone(x1, x2, Pow10(places) as real);
  }

  lemma RoundScaledMonotone(x1: real, x2: real, s: real)
    requires x1 <= x2 && s > 0.0
    ensures RoundScaled(x1, s) <= RoundScaled(x2, s)
  {
    MultiplyMonotone(x1, x2, s);
    RoundHalfEvenMonotone(x1 * s, x2 * s);
    DivideMonotone(RoundHalfEven(x1 * s) as real, RoundHalfEven(x2 * s) as real, s);
  }

  /** A whole number is left unchanged by rounding. */
  lemma RoundOfWhole(m: int, places: nat)
    ensures Round(m as real, places) == m as real
  {
    RoundScaledOfWhole(m, Pow10(places));
  }

  lemma RoundScaledOfWhole(m: int, k: nat)
    requires k >= 1
    ensures RoundScaled(m as real, k as real) == m as real
  {
    assert m as real * k as real == (m * k) as real;
    RoundHalfEvenOfInt(m * k);
  }

  /** Rounding keeps a value inside an interval with whole-number ends. */
  lemma RoundWithin(x: real, places: nat, lo: int, hi: int)
    requires lo as real <= x <= hi as real
    ensures lo as real <= Round(x, places) <= hi as real
  {
    RoundMonotone(lo as real, x, places);
    RoundMonotone(x, hi as real, places);
    RoundOfWhole(lo, places);
    RoundOfWhole(hi, places);
  }
}
