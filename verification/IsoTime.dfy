/**
  The text an approval's expiry is hashed as: `Date.prototype.toISOString`, by the
  calendar of ECMA-262. Different times have different texts.
*/
module IsoTime {
  import opened JsonText

  const DAY := 86_400_000
  const DAYS := 100_000_000

  /** Milliseconds since 1970: the time values a `Date` can hold. */
  type Instant = t: int | -DAYS * DAY <= t <= DAYS * DAY

  // ----- the calendar -----

  /** The number, counted from 1970, of the first day of a year. */
  function DayFromYear(y: int): int {
    365 * (y - 1970) + (y - 1) / 4 - (y - 1) / 100 + (y - 1) / 400 - 477
  }

  predicate Leap(y: int) {
    y % 4 == 0 && (y % 100 != 0 || y % 400 == 0)
  }

  function DaysInYear(y: int): int {
    if Leap(y) then 366 else 365
  }

  lemma YearLength(y: int)
    ensures DayFromYear(y + 1) == DayFromYear(y) + DaysInYear(y)
  {
    Quotient(y - 1, 4);
    Quotient(y - 1, 100);
    Quotient(y - 1, 400);
  }

  lemma Quotient(n: int, d: int)
    requires d == 4 || d == 100 || d == 400
    ensures (n + 1) / d == n / d + if (n + 1) % d == 0 then 1 else 0
  {
    if d == 4 {
    } else if d == 100 {
    } else {
    }
  }

  /** How far a year is from the year of a day. */
  function Off(day: int, y: int): nat {
    if day < DayFromYear(y) then DayFromYear(y) - day
    else if day >= DayFromYear(y + 1) then day - DayFromYear(y)
    else 0
  }

  /** The year a day lies in, looking from year `y`. */
  function YearFrom(day: int, y: int): (r: int)
    ensures DayFromYear(r) <= day < DayFromYear(r) + DaysInYear(r)
    decreases Off(day, y)
  {
    YearLength(y);
    YearLength(y - 1);
    YearLength(y + 1);
    if day < DayFromYear(y) then YearFrom(day, y - 1)
    else if day >= DayFromYear(y + 1) then YearFrom(day, y + 1)
    else y
  }

  const MONTH_STARTS: seq<int> := [0, 31, 59, 90, 120, 151, 181, 212, 243, 273, 304, 334, 365]

  /** The first day of a month within its year. */
  function MonthStart(m: nat, leap: bool): int
    requires m <= 12
  {
    MONTH_STARTS[m] + if leap && m >= 2 then 1 else 0
  }

  /** The month of a day within the year, which is not after month `m`. */
  function MonthFrom(day: int, leap: bool, m: nat): (r: nat)
    requires m < 12 && 0 <= day < MonthStart(m + 1, leap)
    ensures r < 12 && MonthStart(r, leap) <= day < MonthStart(r + 1, leap)
  {
    if m == 0 || day >= MonthStart(m, leap) then m else MonthFrom(day, leap, m - 1)
  }

  lemma MonthsAreShort(m: nat, leap: bool)
    requires m < 12
    ensures MonthStart(m + 1, leap) <= MonthStart(m, leap) + 31
  {}

  // ----- the text -----

  function PowerOfTen(w: nat): nat {
    if w == 0 then 1 else 10 * PowerOfTen(w - 1)
  }

  /** The last `w` decimal digits. */
  function Digits(n: nat, w: nat): (t: Text)
    ensures |t| == w
  {
    if w == 0 then [] else Digits(n / 10, w - 1) + [0x30 + n % 10]
  }

  lemma {:induction false} DigitsDiffer(m: nat, n: nat, w: nat)
    requires m < PowerOfTen(w) && n < PowerOfTen(w) && Digits(m, w) == Digits(n, w)
    ensures m == n
  {
    if w > 0 {
      var s, t := Digits(m, w), Digits(n, w);
      assert s[..w - 1] == Digits(m / 10, w - 1) && t[..w - 1] == Digits(n / 10, w - 1);
      assert s[w - 1] == 0x30 + m % 10 && t[w - 1] == 0x30 + n % 10;
      DigitsDiffer(m / 10, n / 10, w - 1);
    }
  }

  /** Years outside four digits are signed and have six. */
  function YearText(y: int): Text {
    if 0 <= y <= 9999 then Digits(y, 4)
    else if y > 0 then [0x2B] + Digits(y, 6)
    else [0x2D] + Digits(-y, 6)
  }

  /** What follows the year: month and day from zero, and the time of the day. */
  function DateText(month: nat, day: nat, time: nat): Text {
    Lit("-") + Digits(month + 1, 2) + Lit("-") + Digits(day + 1, 2) + Lit("T") + Digits(time / 1000 / 60 / 60, 2)
    + Lit(":") + Digits(time / 1000 / 60 % 60, 2) + Lit(":") + Digits(time / 1000 % 60, 2)
    + Lit(".") + Digits(time % 1000, 3) + Lit("Z")
  }

  /** Year, month and day of a day; months and days count from zero. */
  function DateOf(day: int): (r: (int, nat, nat))
    requires -DAYS <= day <= DAYS
    ensures -1_000_000 < r.0 < 1_000_000 && r.1 < 12 && r.2 < 31
    ensures day == DayFromYear(r.0) + MonthStart(r.1, Leap(r.0)) + r.2
  {
    var year := YearFrom(day, 1970 + day / 366);
    var within := day - DayFromYear(year);
    var month := MonthFrom(within, Leap(year), 11);
    MonthsAreShort(month, Leap(year));
    (year, month, within - MonthStart(month, Leap(year)))
  }

  /** `toISOString` */
  function IsoText(t: Instant): Text {
    var (year, month, day) := DateOf(t / DAY);
    YearText(year) + DateText(month, day, t % DAY)
  }

  // ----- different times have different texts -----

  lemma DateParts(month: nat, day: nat, time: nat)
    ensures var t := DateText(month, day, time);
            && |t| == 20
            && t[1..3] == Digits(month + 1, 2) && t[4..6] == Digits(day + 1, 2)
            && t[7..9] == Digits(time / 1000 / 60 / 60, 2) && t[10..12] == Digits(time / 1000 / 60 % 60, 2)
            && t[13..15] == Digits(time / 1000 % 60, 2) && t[16..19] == Digits(time % 1000, 3)
  {
    hide Digits;
  }

  lemma PowersOfTen()
    ensures PowerOfTen(2) == 100 && PowerOfTen(3) == 1000 && PowerOfTen(4) == 10_000 && PowerOfTen(6) == 1_000_000
  {}

  lemma DatesDiffer(m: nat, n: nat, d: nat, e: nat, s: nat, t: nat)
    requires m < 12 && n < 12 && d < 31 && e < 31 && s < DAY && t < DAY
    requires DateText(m, d, s) == DateText(n, e, t)
    ensures m == n && d == e && s == t
  {
    hide DateText, Digits, PowerOfTen;
    DateParts(m, d, s);
    DateParts(n, e, t);
    PowersOfTen();
    DigitsDiffer(m + 1, n + 1, 2);
    DigitsDiffer(d + 1, e + 1, 2);
    HoursAreShort(s);
    HoursAreShort(t);
    DigitsDiffer(s / 1000 / 60 / 60, t / 1000 / 60 / 60, 2);
    DigitsDiffer(s / 1000 / 60 % 60, t / 1000 / 60 % 60, 2);
    DigitsDiffer(s / 1000 % 60, t / 1000 % 60, 2);
    DigitsDiffer(s % 1000, t % 1000, 3);
  }

  lemma HoursAreShort(time: nat)
    requires time < DAY
    ensures time / 1000 / 60 / 60 < 24
  {}

  lemma YearsDiffer(y: int, z: int)
    requires -1_000_000 < y < 1_000_000 && -1_000_000 < z < 1_000_000 && YearText(y) == YearText(z)
    ensures y == z
  {
    hide Digits, PowerOfTen;
    PowersOfTen();
    if 0 <= y <= 9999 {
      DigitsDiffer(y, z, 4);
    } else {
      var a, b := if y > 0 then y else -y, if z > 0 then z else -z;
      assert YearText(y)[1..] == Digits(a, 6) && YearText(z)[1..] == Digits(b, 6);
      DigitsDiffer(a, b, 6);
    }
  }

  /** The text determines the time. */
  lemma IsoTextDetermines(s: Instant, t: Instant)
    requires IsoText(s) == IsoText(t)
    ensures s == t
  {
    hide DateText, YearText, MonthStart, Leap, DayFromYear;
    var (y, m, d) := DateOf(s / DAY);
    var (z, n, e) := DateOf(t / DAY);
    DateParts(m, d, s % DAY);
    DateParts(n, e, t % DAY);
    Aligned(YearText(y), DateText(m, d, s % DAY), YearText(z), DateText(n, e, t % DAY));
    DatesDiffer(m, n, d, e, s % DAY, t % DAY);
    YearsDiffer(y, z);
  }

  lemma Aligned(a: Text, b: Text, c: Text, d: Text)
    requires a + b == c + d && |b| == |d|
    ensures a == c && b == d
  {
    assert (a + b)[..|a|] == a && (a + b)[|a|..] == b;
    assert (c + d)[..|c|] == c && (c + d)[|c|..] == d;
  }

  /** Every date is that of its own day. */
  lemma DateOfIs(day: int, y: int, m: nat, d: nat)
    requires -DAYS <= day <= DAYS && m < 12 && MonthStart(m, Leap(y)) + d < MonthStart(m + 1, Leap(y))
    requires day == DayFromYear(y) + MonthStart(m, Leap(y)) + d
    ensures DateOf(day) == (y, m, d)
  {
    hide DayFromYear, Leap, MonthStart;
    var year := YearFrom(day, 1970 + day / 366);
    MonthsFit(m, Leap(y));
    if year != y { YearsAscend(if year < y then year else y, if year < y then y else year); }
    MonthsAscend(MonthFrom(day - DayFromYear(y), Leap(y), 11), m, Leap(y));
  }

  lemma MonthsFit(m: nat, leap: bool)
    requires m < 12
    ensures 0 <= MonthStart(m, leap) && MonthStart(m + 1, leap) <= MonthStart(12, leap) == if leap then 366 else 365
  {}

  lemma MonthsAscend(m: nat, n: nat, leap: bool)
    requires m < 12 && n < 12
    ensures m < n ==> MonthStart(m + 1, leap) <= MonthStart(n, leap)
    ensures n < m ==> MonthStart(n + 1, leap) <= MonthStart(m, leap)
  {}

  lemma {:induction false} YearsAscend(y: int, z: int)
    requires y < z
    ensures DayFromYear(y) + DaysInYear(y) <= DayFromYear(z)
    decreases z - y
  {
    hide DayFromYear;
    YearLength(y);
    if y + 1 < z { YearsAscend(y + 1, z); }
  }
}
