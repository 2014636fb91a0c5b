/** The video player's time formatter: a count of seconds becomes `MM:SS`,
    or `H:MM:SS` once there is at least one whole hour. The reverse direction
    of the converter hands its value back unchanged. */
module PrettyTime {

  import opened Wrappers

  /* ---------------------------------------------------------------------
     Decimal digits
     --------------------------------------------------------------------- */

  predicate IsDigit(c: char) {
    '0' <= c <= '9'
  }

  predicate AllDigits(s: string) {
    forall i :: 0 <= i < |s| ==> IsDigit(s[i])
  }

  function DigitChar(d: nat): (c: char)
    requires d < 10
    ensures IsDigit(c) && c as int - '0' as int == d
  {
    "0123456789"[d]
  }

  function DigitValue(c: char): (d: int) {
    c as int - '0' as int
  }

  /** Reads a string of decimal digits as a number, most significant first. */
  function DecimalValue(s: string): (n: int)
    decreases |s|
  {
    if |s| == 0 then 0 else DecimalValue(s[..|s| - 1]) * 10 + DigitValue(s[|s| - 1])
  }

  lemma DecimalValueSnoc(s: string, c: char)
    ensures DecimalValue(s + [c]) == DecimalValue(s) * 10 + DigitValue(c)
  {
  }

  /** JavaScript's rendering of a non-negative integer as a decimal string:
      no sign, no leading zero except for zero itself. */
  function DecimalDigits(n: nat): (s: string)
    ensures |s| >= 1 && AllDigits(s)
    ensures DecimalValue(s) == n
    ensures |s| > 1 ==> s[0] != '0'
    ensures (|s| == 1) == (n < 10)
    decreases n
  {
    if n < 10 then [DigitChar(n)]
    else
      var s := DecimalDigits(n / 10) + [DigitChar(n % 10)];
      DecimalValueSnoc(DecimalDigits(n / 10), DigitChar(n % 10));
      s
  }

  /** The minute and second fields: `"0" + n` below ten, `n` otherwise. */
  function Pad2(n: nat): (s: string)
    requires n < 60
    ensures |s| == 2 && AllDigits(s)
    ensures DecimalValue(s) == n
  {
    if n < 10 then
      DecimalValueSnoc("0", DigitChar(n));
      "0" + DecimalDigits(n)
    else DecimalDigits(n)
  }

  /* ---------------------------------------------------------------------
     The converter
     --------------------------------------------------------------------- */

  /** `convert`. The input is what `parseInt(time, 10)` yields: `None`
      stands for NaN. A negative count or NaN gives the empty string. */
  function Convert(time: Option<int>): (r: string)
    ensures r == "" <==> time.None? || time.value < 0
  {
    match time
    case None => ""
    case Some(t) =>
      if t < 0 then ""
      else
        var sec := t % 60;
        var min := (t / 60) % 60;
        var hour := t / 3600;
        (if hour > 0 then DecimalDigits(hour) + ":" else "") + Pad2(min) + ":" + Pad2(sec)
  }

  /** `revert`: the converter's reverse direction returns its argument. */
  function Revert<T>(value: T): (r: T)
    ensures r == value
  {
    value
  }

  /* ---------------------------------------------------------------------
     Reading a clock string back
     --------------------------------------------------------------------- */

  /** The `:`-separated fields of a string; there is always at least one. */
  function Split(s: string): (fields: seq<string>)
    ensures |fields| >= 1
    decreases |s|
  {
    if |s| == 0 then [""]
    else
      var rest := Split(s[1..]);
      if s[0] == ':' then [""] + rest
      else [[s[0]] + rest[0]] + rest[1..]
  }

  predicate IsNumeral(s: string) {
    |s| >= 1 && AllDigits(s)
  }

  /** Reads `H:MM:SS` or `MM:SS` (each field a non-empty digit string) as
      `hour * 3600 + min * 60 + sec`; anything else is `None`. */
  function ParseClock(s: string): (r: Option<int>)
  {
    var f := Split(s);
    if |f| == 2 && IsNumeral(f[0]) && IsNumeral(f[1]) then
      Some(DecimalValue(f[0]) * 60 + DecimalValue(f[1]))
    else if |f| == 3 && IsNumeral(f[0]) && IsNumeral(f[1]) && IsNumeral(f[2]) then
      Some(DecimalValue(f[0]) * 3600 + DecimalValue(f[1]) * 60 + DecimalValue(f[2]))
    else None
  }

  lemma {:induction false} SplitNoSeparator(a: string)
    requires ':' !in a
    ensures Split(a) == [a]
    decreases |a|
  {
    if |a| > 0 {
      SplitNoSeparator(a[1..]);
      assert [a[0]] + a[1..] == a;
    }
  }

  lemma {:induction false} SplitField(a: string, b: string)
    requires ':' !in a
    ensures Split(a + ":" + b) == [a] + Split(b)
    decreases |a|
  {
    if |a| == 0 {
      assert a + ":" + b == [':'] + b;
      assert (a + ":" + b)[1..] == b;
    } else {
      assert (a + ":" + b)[1..] == a[1..] + ":" + b;
      SplitField(a[1..], b);
      assert [a[0]] + a[1..] == a;
    }
  }

  lemma DigitsHaveNoSeparator(s: string)
    requires AllDigits(s)
    ensures ':' !in s
  {
  }

  /** How `t / 3600`, `(t / 60) % 60` and `t % 60` recompose `t`. */
  lemma ClockArithmetic(t: nat)
    ensures (t / 60) / 60 == t / 3600
    ensures t == (t / 3600) * 3600 + ((t / 60) % 60) * 60 + t % 60
  {
  }

  /** The fields of `convert(t)`: two zero-padded fields below one hour,
      otherwise an unpadded positive hour field in front of them. */
  lemma ConvertFields(t: nat)
    ensures var f := Split(Convert(Some(t)));
      && (t < 3600 ==> |f| == 2 && |Convert(Some(t))| == 5)
      && (t >= 3600 ==>
            |f| == 3 && IsNumeral(f[0]) && f[0][0] != '0' && DecimalValue(f[0]) == t / 3600)
      && |f[|f| - 2]| == 2 && AllDigits(f[|f| - 2]) && DecimalValue(f[|f| - 2]) == (t / 60) % 60
      && |f[|f| - 1]| == 2 && AllDigits(f[|f| - 1]) && DecimalValue(f[|f| - 1]) == t % 60
  {
    ClockArithmetic(t);
    var mm, ss := Pad2((t / 60) % 60), Pad2(t % 60);
    DigitsHaveNoSeparator(mm);
    DigitsHaveNoSeparator(ss);
    SplitNoSeparator(ss);
    SplitField(mm, ss);
    if t >= 3600 {
      var hh := DecimalDigits(t / 3600);
      DigitsHaveNoSeparator(hh);
      assert Convert(Some(t)) == hh + ":" + (mm + ":" + ss);
      SplitField(hh, mm + ":" + ss);
    } else {
      assert t / 3600 == 0;
      assert Convert(Some(t)) == mm + ":" + ss;
    }
  }

  /** Reading the fields of `convert(t)` back recovers `t`. */
  lemma ConvertRoundTrip(t: nat)
    ensures ParseClock(Convert(Some(t))) == Some(t)
  {
    ConvertFields(t);
    ClockArithmetic(t);
  }

  /** A consequence: distinct non-negative counts never print alike. */
  lemma ConvertInjective(s: nat, t: nat)
    requires s != t
    ensures Convert(Some(s)) != Convert(Some(t))
  {
    ConvertRoundTrip(s);
    ConvertRoundTrip(t);
  }

}
