/**
 * `Instant.parse` for the text the metric projection hands it: an
 * ISO-8601 / RFC 3339 section 5.6 `date-time` in UTC whose year has four
 * digits, `yyyy-MM-ddTHH:mm:ssZ`. The date and time are validated strictly
 * (month lengths and leap years included); `24:00:00` is the start of the
 * next day and a leap second `23:59:60` is read as `23:59:59`.
 */
module JavaTime {
  import opened Wrappers
  import opened Text

  /** `java.time.Instant`: seconds from 1970-01-01T00:00:00Z and the nanosecond of that second. */
  datatype Instant = Instant(epochSecond: int, nano: nat)

  predicate IsLeap(y: int) {
    y % 4 == 0 && (y % 100 != 0 || y % 400 == 0)
  }

  function DaysInMonth(y: int, m: int): (n: int)
    requires 1 <= m <= 12
    ensures 28 <= n <= 31
  {
    if m == 2 then (if IsLeap(y) then 29 else 28)
    else if m == 4 || m == 6 || m == 9 || m == 11 then 30
    else 31
  }

  /** Days of the year `y` before the first of month `m` (13 stands for the next January). */
  function DaysBeforeMonth(y: int, m: int): int
    requires 1 <= m <= 13
  {
    var common := [0, 31, 59, 90, 120, 151, 181, 212, 243, 273, 304, 334, 365];
    common[m - 1] + (if IsLeap(y) && m > 2 then 1 else 0)
  }

  /** Leap years among 1..n of the proleptic Gregorian calendar (counted, for n < 0, backwards). */
  function Leaps(n: int): int {
    n / 4 - n / 100 + n / 400
  }

  /** Days from 1970-01-01 to the first of January of `y`. */
  function DaysBeforeYear(y: int): int {
    365 * (y - 1970) + Leaps(y - 1) - Leaps(1969)
  }

  /** The epoch day of a valid calendar date. */
  function EpochDay(y: int, m: int, d: int): int
    requires 1 <= m <= 12
  {
    DaysBeforeYear(y) + DaysBeforeMonth(y, m) + d - 1
  }

  predicate ValidDate(y: int, m: int, d: int) {
    1 <= m <= 12 && 1 <= d <= DaysInMonth(y, m)
  }

  /** The calendar day after a valid date. */
  function NextDay(y: int, m: int, d: int): (r: (int, int, int))
    requires ValidDate(y, m, d)
    ensures ValidDate(r.0, r.1, r.2)
  {
    if d < DaysInMonth(y, m) then (y, m, d + 1)
    else if m < 12 then (y, m + 1, 1)
    else (y + 1, 1, 1)
  }

  lemma EpochDayOrigin()
    ensures EpochDay(1970, 1, 1) == 0
  {
  }

  lemma DivStep4(n: int)
    ensures n / 4 - (n - 1) / 4 == if n % 4 == 0 then 1 else 0
  {
    var q, r := (n - 1) / 4, (n - 1) % 4;
    assert n == 4 * q + r + 1;
    if r == 3 { assert n == 4 * (q + 1); } else { assert n / 4 == q && n % 4 == r + 1; }
  }

  lemma DivStep100(n: int)
    ensures n / 100 - (n - 1) / 100 == if n % 100 == 0 then 1 else 0
  {
    var q, r := (n - 1) / 100, (n - 1) % 100;
    assert n == 100 * q + r + 1;
    if r == 99 { assert n == 100 * (q + 1); } else { assert n / 100 == q && n % 100 == r + 1; }
  }

  lemma DivStep400(n: int)
    ensures n / 400 - (n - 1) / 400 == if n % 400 == 0 then 1 else 0
  {
    var q, r := (n - 1) / 400, (n - 1) % 400;
    assert n == 400 * q + r + 1;
    if r == 399 { assert n == 400 * (q + 1); } else { assert n / 400 == q && n % 400 == r + 1; }
  }

  /** A year adds 366 days when it is a leap year and 365 otherwise. */
  lemma {:induction false} YearLength(y: int)
    ensures DaysBeforeYear(y + 1) - DaysBeforeYear(y) == if IsLeap(y) then 366 else 365
  {
    DivStep4(y);
    DivStep100(y);
    DivStep400(y);
    assert y % 400 == 0 ==> y % 100 == 0 && y % 4 == 0;
    assert y % 100 == 0 ==> y % 4 == 0;
  }

  /** Consecutive calendar days have consecutive epoch days; with the origin this fixes the numbering. */
  lemma {:induction false} EpochDayNext(y: int, m: int, d: int)
    requires ValidDate(y, m, d)
    ensures EpochDay(NextDay(y, m, d).0, NextDay(y, m, d).1, NextDay(y, m, d).2) == EpochDay(y, m, d) + 1
  {
    if d == DaysInMonth(y, m) && m == 12 {
      YearLength(y);
    }
  }

  /** Whether position `i` of `s` holds a decimal digit. */
  predicate DigitAt(s: string, i: nat) {
    i < |s| && IsDigit(s[i])
  }

  /** The two-digit number at positions i, i+1. */
  function Value2(s: string, i: nat): (v: nat)
    requires DigitAt(s, i) && DigitAt(s, i + 1)
    ensures v < 100
  {
    DigitValue(s[i]) * 10 + DigitValue(s[i + 1])
  }

  /** The layout `yyyy-MM-ddTHH:mm:ssZ`, with `T` and `Z` in either case. */
  predicate WellFormed(s: string) {
    && |s| == 20
    && DigitAt(s, 0) && DigitAt(s, 1) && DigitAt(s, 2) && DigitAt(s, 3) && s[4] == '-'
    && DigitAt(s, 5) && DigitAt(s, 6) && s[7] == '-' && DigitAt(s, 8) && DigitAt(s, 9)
    && (s[10] == 'T' || s[10] == 't')
    && DigitAt(s, 11) && DigitAt(s, 12) && s[13] == ':' && DigitAt(s, 14) && DigitAt(s, 15)
    && s[16] == ':' && DigitAt(s, 17) && DigitAt(s, 18) && (s[19] == 'Z' || s[19] == 'z')
  }

  /**
   * `Instant.parse` of a 20-character `yyyy-MM-ddTHH:mm:ssZ` text; the
   * `T` and the `Z` may be in either case. Any other text is refused.
   */
  function ParseInstant(s: string): (r: Option<Instant>)
    ensures r.Some? ==> WellFormed(s) && r.value.nano == 0
  {
    if !WellFormed(s) then None
    else
      var y := Value2(s, 0) * 100 + Value2(s, 2);
      var mo, d := Value2(s, 5), Value2(s, 8);
      var h, mi, se := Value2(s, 11), Value2(s, 14), Value2(s, 17);
      if !ValidDate(y, mo, d) then None
      else if h == 24 && mi == 0 && se == 0 then Some(Instant((EpochDay(y, mo, d) + 1) * 86400, 0))
      else if h > 23 || mi > 59 then None
      else if h == 23 && mi == 59 && se == 60 then Some(Instant(EpochDay(y, mo, d) * 86400 + 86399, 0))
      else if se > 59 then None
      else Some(Instant(EpochDay(y, mo, d) * 86400 + h * 3600 + mi * 60 + se, 0))
  }

  /**
   * The minute-precision local time the forecast API reports, `yyyy-MM-ddTHH:mm`,
   * completed with `":00Z"` as the projection does.
   */
  function MinuteText(y: nat, mo: nat, d: nat, h: nat, mi: nat): (s: string)
    requires y < 10000 && mo < 100 && d < 100 && h < 100 && mi < 100
    ensures |s| == 16
  {
    [ DigitChar(y / 1000), DigitChar(y / 100 % 10), DigitChar(y / 10 % 10), DigitChar(y % 10), '-',
      DigitChar(mo / 10), DigitChar(mo % 10), '-', DigitChar(d / 10), DigitChar(d % 10), 'T',
      DigitChar(h / 10), DigitChar(h % 10), ':', DigitChar(mi / 10), DigitChar(mi % 10) ]
  }

  /** Two digits written for n < 100 read back as n. */
  lemma TwoDigits(n: nat)
    requires n < 100
    ensures DigitValue(DigitChar(n / 10)) * 10 + DigitValue(DigitChar(n % 10)) == n
  {
  }

  /** The year's four digits split into its century and the year within it. */
  lemma YearDigits(y: nat)
    requires y < 10000
    ensures y / 1000 * 10 + y / 100 % 10 == y / 100 && y / 10 % 10 * 10 + y % 10 == y % 100
    ensures y / 100 < 100 && y / 100 * 100 + y % 100 == y
  {
  }

  /** The completed text is well formed and each field reads back as the number written. */
  lemma MinuteTextFields(y: nat, mo: nat, d: nat, h: nat, mi: nat)
    requires y < 10000 && mo < 100 && d < 100 && h < 100 && mi < 100
    ensures var s := MinuteText(y, mo, d, h, mi) + ":00Z";
      && WellFormed(s) && Value2(s, 0) * 100 + Value2(s, 2) == y
      && Value2(s, 5) == mo && Value2(s, 8) == d && Value2(s, 11) == h && Value2(s, 14) == mi
      && Value2(s, 17) == 0
  {
    var t := MinuteText(y, mo, d, h, mi);
    var s := t + ":00Z";
    assert forall i :: 0 <= i < 16 ==> s[i] == t[i];
    assert s[16] == ':' && s[17] == '0' && s[18] == '0' && s[19] == 'Z';
    assert WellFormed(s);
    YearDigits(y);
    TwoDigits(mo);
    TwoDigits(d);
    TwoDigits(h);
    TwoDigits(mi);
  }

  /** A well-formed minute, completed with `":00Z"`, parses to the second it names, counted from the epoch in UTC. */
  lemma MinuteTextParses(y: nat, mo: nat, d: nat, h: nat, mi: nat)
    requires y < 10000 && ValidDate(y, mo, d) && h < 24 && mi < 60
    ensures ParseInstant(MinuteText(y, mo, d, h, mi) + ":00Z")
      == Some(Instant(EpochDay(y, mo, d) * 86400 + h * 3600 + mi * 60, 0))
  {
    MinuteTextFields(y, mo, d, h, mi);
  }

  /** The first hours of 2024 as the forecast API reports them. */
  lemma NewYear2024()
    ensures ParseInstant("2024-01-01T10:00" + ":00Z") == Some(Instant(1704103200, 0))
  {
    assert EpochDay(2024, 1, 1) == 19723 by {
      assert Leaps(2023) == 490 && Leaps(1969) == 477;
    }
    var t := MinuteText(2024, 1, 1, 10, 0);
    assert t[0] == '2' && t[1] == '0' && t[2] == '2' && t[3] == '4';
    assert t[5] == '0' && t[6] == '1' && t[8] == '0' && t[9] == '1';
    assert t[11] == '1' && t[12] == '0' && t[14] == '0' && t[15] == '0';
    assert t == "2024-01-01T10:00";
    MinuteTextParses(2024, 1, 1, 10, 0);
  }

  /** A time that already carries seconds gets a second `:00` and is refused, whatever its text. */
  lemma SecondsTwiceRefused(t: string)
    requires |t| == 19
    ensures ParseInstant(t + ":00Z") == None
  {
  }

  /** The 29th of February of a forecast-reported minute parses exactly in leap years. */
  lemma LeapDayChecked(y: nat, h: nat, mi: nat)
    requires y < 10000 && h < 24 && mi < 60
    ensures ParseInstant(MinuteText(y, 2, 29, h, mi) + ":00Z").Some? <==> IsLeap(y)
  {
    MinuteTextFields(y, 2, 29, h, mi);
    if IsLeap(y) {
      MinuteTextParses(y, 2, 29, h, mi);
    }
  }
}
