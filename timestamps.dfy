/**
 * The creation time of a complaint and its rendering with the pattern
 * `%Y-%m-%d %H:%M:%S`, the listing endpoint's timestamp format.
 */
module Timestamps {
  import opened Wrappers
  import opened Text

  /** A naive UTC date and time with Python's `datetime` fields. */
  datatype DateTime = DateTime(year: int, month: int, day: int,
                               hour: int, minute: int, second: int, microsecond: int)

  predicate IsLeapYear(y: int)
  {
    y % 4 == 0 && (y % 100 != 0 || y % 400 == 0)
  }

  function DaysInMonth(y: int, m: int): int
  {
    if m == 2 then (if IsLeapYear(y) then 29 else 28)
    else if m == 4 || m == 6 || m == 9 || m == 11 then 30
    else 31
  }

  /**
   * The values `datetime` admits, restricted to four-digit years: below year
   * 1000 the width of `%Y` depends on the platform's C library.
   */
  predicate Valid(t: DateTime)
  {
    && 1000 <= t.year <= 9999
    && 1 <= t.month <= 12
    && 1 <= t.day <= DaysInMonth(t.year, t.month)
    && 0 <= t.hour < 24
    && 0 <= t.minute < 60
    && 0 <= t.second < 60
    && 0 <= t.microsecond < 1000000
  }

  function DigitChar(d: int): (c: char)
    requires 0 <= d < 10
    ensures IsDigit(c)
  {
    ('0' as int + d) as char
  }

  function DigitValue(c: char): (d: int)
    requires IsDigit(c)
    ensures 0 <= d < 10 && DigitChar(d) == c
  {
    c as int - '0' as int
  }

  /** `n` written with exactly two decimal digits, leading zero included. */
  function Pad2(n: int): (s: string)
    requires 0 <= n < 100
    ensures |s| == 2 && IsDigit(s[0]) && IsDigit(s[1])
  {
    [DigitChar(n / 10), DigitChar(n % 10)]
  }

  /** `n` written with exactly four decimal digits. */
  function Pad4(n: int): (s: string)
    requires 0 <= n < 10000
    ensures |s| == 4 && forall i | 0 <= i < 4 :: IsDigit(s[i])
  {
    Pad2(n / 100) + Pad2(n % 100)
  }

  /** The value of a two-digit decimal string. */
  function Value2(s: string): int
    requires |s| == 2 && IsDigit(s[0]) && IsDigit(s[1])
  {
    DigitValue(s[0]) * 10 + DigitValue(s[1])
  }

  predicate AllDigits(s: string)
  {
    forall i | 0 <= i < |s| :: IsDigit(s[i])
  }

  /** The value of a four-digit decimal string. */
  function Value4(s: string): int
    requires |s| == 4 && AllDigits(s)
  {
    Value2(s[..2]) * 100 + Value2(s[2..])
  }

  /** The positions of the separators in a rendered timestamp. */
  predicate IsSeparatorPosition(i: int)
  {
    i == 4 || i == 7 || i == 10 || i == 13 || i == 16
  }

  /**
   * `strftime("%Y-%m-%d %H:%M:%S")`: the fixed-width rendering
   * `YYYY-MM-DD HH:MM:SS`; the microseconds are not shown.
   */
  function Format(t: DateTime): (s: string)
    requires Valid(t)
    ensures |s| == 19
    ensures s[4] == '-' && s[7] == '-' && s[10] == ' ' && s[13] == ':' && s[16] == ':'
    ensures forall i | 0 <= i < 19 && !IsSeparatorPosition(i) :: IsDigit(s[i])
  {
    Pad4(t.year) + "-" + Pad2(t.month) + "-" + Pad2(t.day) + " "
      + Pad2(t.hour) + ":" + Pad2(t.minute) + ":" + Pad2(t.second)
  }

  /** Reads back a string of the shape Format produces; None for anything else. */
  function Parse(s: string): (r: Option<DateTime>)
    ensures r.Some? ==> Valid(r.value) && r.value.microsecond == 0
  {
    if |s| != 19 || s[4] != '-' || s[7] != '-' || s[10] != ' ' || s[13] != ':' || s[16] != ':'
       || !AllDigits(s[0..4]) || !AllDigits(s[5..7]) || !AllDigits(s[8..10])
       || !AllDigits(s[11..13]) || !AllDigits(s[14..16]) || !AllDigits(s[17..19])
    then None
    else
      var t := DateTime(Value4(s[0..4]), Value2(s[5..7]), Value2(s[8..10]),
                        Value2(s[11..13]), Value2(s[14..16]), Value2(s[17..19]), 0);
      if Valid(t) then Some(t) else None
  }

  lemma Value2Pad2(n: int)
    requires 0 <= n < 100
    ensures Value2(Pad2(n)) == n
  {
  }

  lemma Pad2Value2(s: string)
    requires |s| == 2 && IsDigit(s[0]) && IsDigit(s[1])
    ensures 0 <= Value2(s) < 100 && Pad2(Value2(s)) == s
  {
  }

  lemma Value4Pad4(n: int)
    requires 0 <= n < 10000
    ensures Value4(Pad4(n)) == n
  {
    var s := Pad4(n);
    assert s[..2] == Pad2(n / 100) && s[2..] == Pad2(n % 100);
    Value2Pad2(n / 100);
    Value2Pad2(n % 100);
  }

  lemma Pad4Value4(s: string)
    requires |s| == 4 && AllDigits(s)
    ensures 0 <= Value4(s) < 10000 && Pad4(Value4(s)) == s
  {
    Pad2Value2(s[..2]);
    Pad2Value2(s[2..]);
    var v := Value4(s);
    assert v / 100 == Value2(s[..2]) && v % 100 == Value2(s[2..]);
    assert Pad4(v) == s[..2] + s[2..];
  }

  /** The rendering loses nothing but the microseconds. */
  lemma {:induction false} ParseFormat(t: DateTime)
    requires Valid(t)
    ensures Parse(Format(t)) == Some(t.(microsecond := 0))
  {
    var s := Format(t);
    assert s[0..4] == Pad4(t.year);
    assert s[5..7] == Pad2(t.month) && s[8..10] == Pad2(t.day);
    assert s[11..13] == Pad2(t.hour) && s[14..16] == Pad2(t.minute) && s[17..19] == Pad2(t.second);
    assert AllDigits(s[0..4]) && AllDigits(s[5..7]) && AllDigits(s[8..10]);
    assert AllDigits(s[11..13]) && AllDigits(s[14..16]) && AllDigits(s[17..19]);
    Value4Pad4(t.year);
    Value2Pad2(t.month);
    Value2Pad2(t.day);
    Value2Pad2(t.hour);
    Value2Pad2(t.minute);
    Value2Pad2(t.second);
  }

  /** Every string Parse accepts is the rendering of what it reads. */
  lemma {:induction false} FormatParse(s: string)
    requires Parse(s).Some?
    ensures Format(Parse(s).value) == s
  {
    var t := Parse(s).value;
    Pad4Value4(s[0..4]);
    Pad2Value2(s[5..7]);
    Pad2Value2(s[8..10]);
    Pad2Value2(s[11..13]);
    Pad2Value2(s[14..16]);
    Pad2Value2(s[17..19]);
    assert s == s[0..4] + "-" + s[5..7] + "-" + s[8..10] + " "
              + s[11..13] + ":" + s[14..16] + ":" + s[17..19];
  }

  /** Distinct second-precision times are rendered distinctly. */
  lemma {:induction false} FormatInjective(t: DateTime, u: DateTime)
    requires Valid(t) && Valid(u)
    requires Format(t) == Format(u)
    ensures t.(microsecond := 0) == u.(microsecond := 0)
  {
    ParseFormat(t);
    ParseFormat(u);
  }
}
