/** `formatDuration` (ui/player/PlayerComponents.kt) and the decimal rendering it
    relies on. Kotlin's `Long` division truncates toward zero, `String.format("%02d")`
    zero-pads non-negative values to two digits and prints a negative value as a
    minus sign followed by its digits (the sign already fills the width of two). */
module Formatting {
  import opened Arithmetic

  const MillisPerSecond: int := 1000
  const MillisPerMinute: int := 60000

  /** Division truncating toward zero, as on the JVM. */
  function Quot(a: int, b: int): (q: int)
    requires b > 0
    ensures a >= 0 ==> 0 <= q && q * b <= a < q * b + b
    ensures a < 0 ==> q <= 0 && q * b - b < a <= q * b
  {
    if a >= 0 then
      DivBounds(a, b);
      a / b
    else
      DivBounds(-a, b);
      -((-a) / b)
  }

  /** Whole minutes are whole seconds divided by sixty, for either sign. */
  lemma {:induction false} QuotNested(ms: int)
    ensures Quot(ms, MillisPerMinute) == Quot(Quot(ms, MillisPerSecond), 60)
  {
    var a := if ms >= 0 then ms else -ms;
    var s := a / 1000;
    var m := s / 60;
    assert a == 1000 * s + a % 1000;
    assert s == 60 * m + s % 60;
    assert a == 60000 * m + (1000 * (s % 60) + a % 1000);
    DivUnique(a, 60000, m, 1000 * (s % 60) + a % 1000);
  }

  /** TimeUnit.MILLISECONDS.toMinutes(ms) */
  function Minutes(ms: int): (m: int)
    ensures ms >= 0 ==> 0 <= m && m * MillisPerMinute <= ms < m * MillisPerMinute + MillisPerMinute
    ensures ms < 0 ==> m <= 0 && m * MillisPerMinute - MillisPerMinute < ms <= m * MillisPerMinute
  {
    Quot(ms, MillisPerMinute)
  }

  /** TimeUnit.MILLISECONDS.toSeconds(ms) */
  function WholeSeconds(ms: int): (s: int)
    ensures ms >= 0 ==> 0 <= s && s * MillisPerSecond <= ms < s * MillisPerSecond + MillisPerSecond
    ensures ms < 0 ==> s <= 0 && s * MillisPerSecond - MillisPerSecond < ms <= s * MillisPerSecond
  {
    Quot(ms, MillisPerSecond)
  }

  /** The seconds shown next to the minutes: whole seconds minus the seconds of the
      whole minutes. It is the remainder of the whole seconds by sixty, with the sign of ms. */
  function Seconds(ms: int): (s: int)
    ensures ms >= 0 ==> 0 <= s < 60 && s == WholeSeconds(ms) % 60
    ensures ms < 0 ==> -60 < s <= 0
    ensures Minutes(ms) * 60 + s == WholeSeconds(ms)
  {
    QuotNested(ms);
    WholeSeconds(ms) - 60 * Minutes(ms)
  }

  predicate IsDigit(c: char)
  {
    '0' <= c <= '9'
  }

  predicate AllDigits(s: string)
  {
    forall i :: 0 <= i < |s| ==> IsDigit(s[i])
  }

  function DigitChar(d: int): (c: char)
    requires 0 <= d < 10
    ensures IsDigit(c) && c as int - '0' as int == d
  {
    ('0' as int + d) as char
  }

  /** The decimal digits of n, most significant first, without leading zeros. */
  function Digits(n: nat): (s: string)
    ensures 1 <= |s| && AllDigits(s)
    ensures |s| == 1 <==> n < 10
    ensures n < 100 ==> |s| <= 2
    ensures |s| > 1 ==> s[0] != '0'
    decreases n
  {
    if n < 10 then [DigitChar(n)] else Digits(n / 10) + [DigitChar(n % 10)]
  }

  /** The number a string of decimal digits denotes (the reading direction of Digits). */
  function Value(s: string): nat
    requires AllDigits(s)
    decreases |s|
  {
    if s == [] then 0 else Value(s[..|s| - 1]) * 10 + (s[|s| - 1] as int - '0' as int)
  }

  /** Reading back the digits of n gives n. */
  lemma {:induction false} ValueOfDigits(n: nat)
    ensures Value(Digits(n)) == n
    decreases n
  {
    if n >= 10 {
      var s := Digits(n);
      assert s[..|s| - 1] == Digits(n / 10);
      ValueOfDigits(n / 10);
    }
  }

  /** A leading zero does not change the value. */
  lemma {:induction false} ValueLeadingZero(s: string)
    requires AllDigits(s)
    ensures AllDigits("0" + s) && Value("0" + s) == Value(s)
    decreases |s|
  {
    if s != [] {
      var t := "0" + s;
      assert t[..|t| - 1] == "0" + s[..|s| - 1];
      ValueLeadingZero(s[..|s| - 1]);
    }
  }

  /** String.format("%02d", n) */
  function Pad2(n: int): (s: string)
    ensures n >= 0 ==> 2 <= |s| && AllDigits(s) && Value(s) == n
    ensures 0 <= n < 100 ==> |s| == 2
    ensures n < 0 ==> 2 <= |s| && s[0] == '-' && AllDigits(s[1..]) && Value(s[1..]) == -n
  {
    if n < 0 then
      ValueOfDigits(-n);
      assert ("-" + Digits(-n))[1..] == Digits(-n);
      "-" + Digits(-n)
    else if n < 10 then
      ValueOfDigits(n);
      ValueLeadingZero(Digits(n));
      "0" + Digits(n)
    else
      ValueOfDigits(n);
      Digits(n)
  }

  /** formatDuration(ms): "mm:ss". Both parts take at least two characters, so the
      colon always has two on its left and at least two on its right. */
  function FormatDuration(ms: int): (r: string)
    ensures |r| >= 5 && ':' in r[2..|r| - 2]
  {
    var m := Pad2(Minutes(ms));
    var r := m + ":" + Pad2(Seconds(ms));
    assert r[2..|r| - 2][|m| - 2] == r[|m|] == ':';
    r
  }

  /** Below 100 minutes a non-negative duration renders as five characters, two digits
      of minutes, a colon and two digits of seconds, and the digits read back as the
      minutes and the seconds, which together are the whole seconds of ms. */
  lemma FormatDurationShape(ms: int)
    requires 0 <= ms < 100 * MillisPerMinute
    ensures var r := FormatDuration(ms);
      && |r| == 5 && r[2] == ':'
      && AllDigits(r[..2]) && AllDigits(r[3..])
      && Value(r[..2]) == Minutes(ms) && Value(r[3..]) == Seconds(ms)
      && 0 <= Value(r[3..]) < 60
      && Value(r[..2]) * 60 + Value(r[3..]) == ms / MillisPerSecond
  {
    var r := FormatDuration(ms);
    assert 0 <= Minutes(ms) < 100;
    assert r[..2] == Pad2(Minutes(ms));
    assert r[3..] == Pad2(Seconds(ms));
  }

  /** Every non-negative duration renders as the zero-padded minutes, a colon and the
      zero-padded seconds; the seconds part is always exactly two digits. */
  lemma FormatDurationNonNegative(ms: int)
    requires ms >= 0
    ensures var r := FormatDuration(ms);
      && |r| >= 5 && r[|r| - 3] == ':'
      && AllDigits(r[..|r| - 3]) && Value(r[..|r| - 3]) == Minutes(ms)
      && AllDigits(r[|r| - 2..]) && Value(r[|r| - 2..]) == Seconds(ms)
  {
    var r := FormatDuration(ms);
    var m := Pad2(Minutes(ms));
    assert r[..|r| - 3] == m;
    assert r[|r| - 2..] == Pad2(Seconds(ms));
  }

  /** Two durations with the same whole seconds render identically: the text depends
      on ms only through the truncated seconds. */
  lemma {:induction false} SameSecondSameText(a: int, b: int)
    requires WholeSeconds(a) == WholeSeconds(b)
    ensures FormatDuration(a) == FormatDuration(b)
  {
    QuotNested(a);
    QuotNested(b);
  }

  /** With truncating division a negative duration above -1000 ms (MediaPlayer reports
      -1 when the duration is unknown) renders as "00:00", not as a negative time. */
  lemma {:induction false} SmallNegativeIsZero(ms: int)
    requires -MillisPerSecond < ms <= 0
    ensures FormatDuration(ms) == "00:00"
  {
    DivUnique(-ms, MillisPerSecond, 0, -ms);
    assert WholeSeconds(ms) == 0 == WholeSeconds(0);
    SameSecondSameText(ms, 0);
  }

  /** Kotlin's rendering of an Int inside a string template. */
  function IntToString(i: int): (s: string)
    ensures i >= 0 ==> AllDigits(s) && Value(s) == i
    ensures i < 0 ==> |s| >= 2 && s[0] == '-' && AllDigits(s[1..]) && Value(s[1..]) == -i
  {
    if i < 0 then
      ValueOfDigits(-i);
      assert ("-" + Digits(-i))[1..] == Digits(-i);
      "-" + Digits(-i)
    else
      ValueOfDigits(i);
      Digits(i)
  }
}
