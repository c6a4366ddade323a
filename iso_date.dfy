/** `Date.prototype.toISOString`, which `JSON.stringify` calls on every `Date`
    it meets: the UTC calendar date and time of a time value, written
    `YYYY-MM-DDTHH:mm:ss.sssZ`, or `+YYYYYY-MM-DDTHH:mm:ss.sssZ` past year 9999
    (sections 21.4.1 and 21.4.4.36 of ECMA-262). */
module IsoDates {
  import opened Types
  import opened NumberFormat

  const MS_PER_DAY: nat := 86_400_000

  /** The largest time value a valid `Date` holds (section 21.4.1.1 of ECMA-262). */
  const MAX_TIME_VALUE: nat := 8_640_000_000_000_000

  /** A valid `Date` from the epoch on: milliseconds since 1970-01-01T00:00:00.000Z. */
  type TimeValue = t: int | 0 <= t <= MAX_TIME_VALUE

  // ----- the proleptic Gregorian calendar -----

  predicate IsLeapYear(y: int) {
    y % 4 == 0 && (y % 100 != 0 || y % 400 == 0)
  }

  function DaysInYear(y: int): (n: nat)
    ensures 365 <= n <= 366
  {
    if IsLeapYear(y) then 366 else 365
  }

  /** The days from 1 January of year `from` to 1 January of year `y`. */
  function DaysBetweenYears(from: int, y: int): (n: nat)
    requires from <= y
    ensures 365 * (y - from) <= n
    decreases y - from
  {
    if from == y then 0 else DaysInYear(from) + DaysBetweenYears(from + 1, y)
  }

  /** The year `days` days after 1 January of `y`, and the day of that year (from 0). */
  function YearOf(days: nat, y: int): (r: (int, nat))
    ensures y <= r.0 && r.1 < DaysInYear(r.0)
    ensures DaysBetweenYears(y, r.0) + r.1 == days
    decreases days
  {
    if days < DaysInYear(y) then (y, days) else YearOf(days - DaysInYear(y), y + 1)
  }

  function DaysInMonth(y: int, m: int): (n: nat)
    requires 1 <= m <= 12
    ensures 28 <= n <= 31
  {
    if m == 2 then (if IsLeapYear(y) then 29 else 28)
    else if m == 4 || m == 6 || m == 9 || m == 11 then 30
    else 31
  }

  /** The days of year `y` before the first of month `m`. */
  function DaysBeforeMonth(y: int, m: int): nat
    requires 1 <= m <= 12
  {
    if m == 1 then 0 else DaysBeforeMonth(y, m - 1) + DaysInMonth(y, m - 1)
  }

  /** The twelve months fill the year. */
  lemma MonthsFillYear(y: int)
    ensures DaysBeforeMonth(y, 12) + DaysInMonth(y, 12) == DaysInYear(y)
  {
    assert DaysBeforeMonth(y, 2) == 31;
    assert DaysBeforeMonth(y, 3) == DaysInMonth(y, 2) + 31;
    assert DaysBeforeMonth(y, 4) == DaysInMonth(y, 2) + 62;
    assert DaysBeforeMonth(y, 5) == DaysInMonth(y, 2) + 92;
    assert DaysBeforeMonth(y, 6) == DaysInMonth(y, 2) + 123;
    assert DaysBeforeMonth(y, 7) == DaysInMonth(y, 2) + 153;
    assert DaysBeforeMonth(y, 8) == DaysInMonth(y, 2) + 184;
    assert DaysBeforeMonth(y, 9) == DaysInMonth(y, 2) + 215;
    assert DaysBeforeMonth(y, 10) == DaysInMonth(y, 2) + 245;
    assert DaysBeforeMonth(y, 11) == DaysInMonth(y, 2) + 276;
    assert DaysBeforeMonth(y, 12) == DaysInMonth(y, 2) + 306;
  }

  /** The month, from `m` on, that day `d` of year `y` falls in. */
  function MonthFrom(y: int, d: nat, m: int): (month: int)
    requires 1 <= m <= 12
    requires DaysBeforeMonth(y, m) <= d < DaysInYear(y)
    ensures m <= month <= 12
    ensures DaysBeforeMonth(y, month) <= d < DaysBeforeMonth(y, month) + DaysInMonth(y, month)
    decreases 12 - m
  {
    if m == 12 then MonthsFillYear(y); 12
    else if d < DaysBeforeMonth(y, m + 1) then m
    else MonthFrom(y, d, m + 1)
  }

  // ----- a time value as a UTC date and time -----

  datatype DateTime = DateTime(year: int, month: int, day: int, hour: int, minute: int, second: int, millisecond: int)

  /** The UTC calendar date and time of a time value. */
  function ToDateTime(t: TimeValue): (c: DateTime)
    ensures 1970 <= c.year < 1_000_000
    ensures 1 <= c.month <= 12 && 1 <= c.day <= DaysInMonth(c.year, c.month)
    ensures 0 <= c.hour < 24 && 0 <= c.minute < 60 && 0 <= c.second < 60 && 0 <= c.millisecond < 1000
  {
    var days, msOfDay := t / MS_PER_DAY, t % MS_PER_DAY;
    var (year, dayOfYear) := YearOf(days, 1970);
    var month := MonthFrom(year, dayOfYear, 1);
    DateTime(year, month, dayOfYear - DaysBeforeMonth(year, month) + 1,
      msOfDay / 3_600_000, msOfDay / 60_000 % 60, msOfDay / 1000 % 60, msOfDay % 1000)
  }

  /** The time value of a UTC date and time: the inverse of `ToDateTime`. */
  function TimeOfDateTime(c: DateTime): int
    requires 1970 <= c.year && 1 <= c.month <= 12
  {
    (DaysBetweenYears(1970, c.year) + DaysBeforeMonth(c.year, c.month) + c.day - 1) * MS_PER_DAY
      + c.hour * 3_600_000 + c.minute * 60_000 + c.second * 1000 + c.millisecond
  }

  /** The milliseconds of a day split into hours, minutes, seconds and milliseconds. */
  lemma SplitDay(m: nat)
    ensures m == m / 3_600_000 * 3_600_000 + m / 60_000 % 60 * 60_000 + m / 1000 % 60 * 1000 + m % 1000
  {
    var s, mi := m / 1000, m / 60_000;
    assert m == s * 1000 + m % 1000;
    assert s / 60 == mi;
    assert s == mi * 60 + s % 60;
    assert mi / 60 == m / 3_600_000;
    assert mi == m / 3_600_000 * 60 + mi % 60;
  }

  lemma {:induction false} TimeOfToDateTime(t: TimeValue)
    ensures TimeOfDateTime(ToDateTime(t)) == t
  {
    var days, msOfDay := t / MS_PER_DAY, t % MS_PER_DAY;
    var (year, dayOfYear) := YearOf(days, 1970);
    var month := MonthFrom(year, dayOfYear, 1);
    var c := ToDateTime(t);
    assert c.year == year && c.month == month;
    assert DaysBetweenYears(1970, c.year) + DaysBeforeMonth(c.year, c.month) + c.day - 1 == days;
    SplitDay(msOfDay);
    assert t == days * MS_PER_DAY + msOfDay;
  }

  // ----- the string -----

  function Pow10(w: nat): (p: nat)
    ensures p >= 1
  {
    if w == 0 then 1 else 10 * Pow10(w - 1)
  }

  /** The last `width` decimal digits of `n`, with leading zeros. */
  function Padded(n: nat, width: nat): (s: string)
    ensures |s| == width
    ensures forall i :: 0 <= i < |s| ==> IsDigit(s[i])
  {
    if width == 0 then "" else Padded(n / 10, width - 1) + [DigitChar(n % 10)]
  }

  /** The number a string of decimal digits denotes. */
  function DigitsValue(s: string): nat {
    if s == [] then 0
    else DigitsValue(s[..|s| - 1]) * 10 + (if IsDigit(s[|s| - 1]) then s[|s| - 1] as int - '0' as int else 0)
  }

  /** A number with at most `width` digits is read back from its padded digits. */
  lemma {:induction false} PaddedValue(n: nat, width: nat)
    requires n < Pow10(width)
    ensures DigitsValue(Padded(n, width)) == n
  {
    if width > 0 {
      var s := Padded(n, width);
      assert s[..|s| - 1] == Padded(n / 10, width - 1);
      PaddedValue(n / 10, width - 1);
    }
  }

  /** The year: four digits up to 9999, otherwise a plus sign and six digits. */
  function YearString(y: nat): (s: string)
    ensures y <= 9999 ==> |s| == 4
    ensures y > 9999 ==> |s| == 7 && s[0] == '+'
  {
    if y <= 9999 then Padded(y, 4) else "+" + Padded(y, 6)
  }

  /** The year read back from its digits. */
  function ReadYear(p: string): nat {
    if |p| == 4 then DigitsValue(p) else if p == [] then 0 else DigitsValue(p[1..])
  }

  lemma YearStringRead(y: nat)
    requires y < 1_000_000
    ensures ReadYear(YearString(y)) == y
  {
    assert Pow10(4) == 10_000 && Pow10(6) == 1_000_000;
    if y <= 9999 {
      PaddedValue(y, 4);
    } else {
      assert YearString(y)[1..] == Padded(y, 6);
      PaddedValue(y, 6);
    }
  }

  /** `-MM-DD` */
  function DatePart(month: nat, day: nat): (s: string)
    ensures |s| == 6
  {
    "-" + Padded(month, 2) + "-" + Padded(day, 2)
  }

  function ReadDatePart(p: string): (nat, nat)
    requires |p| == 6
  {
    (DigitsValue(p[1..3]), DigitsValue(p[4..6]))
  }

  lemma DatePartRead(month: nat, day: nat)
    requires month < 100 && day < 100
    ensures ReadDatePart(DatePart(month, day)) == (month, day)
  {
    var p := DatePart(month, day);
    assert p[1..3] == Padded(month, 2);
    assert p[4..6] == Padded(day, 2);
    assert Pow10(2) == 100;
    PaddedValue(month, 2);
    PaddedValue(day, 2);
  }

  /** `THH:mm:ss.sssZ` */
  function TimePart(hour: nat, minute: nat, second: nat, millisecond: nat): (s: string)
    ensures |s| == 14 && s[0] == 'T' && s[9] == '.' && s[13] == 'Z'
  {
    "T" + Padded(hour, 2) + ":" + Padded(minute, 2) + ":" + Padded(second, 2) + "." + Padded(millisecond, 3) + "Z"
  }

  function ReadTimePart(p: string): (nat, nat, nat, nat)
    requires |p| == 14
  {
    (DigitsValue(p[1..3]), DigitsValue(p[4..6]), DigitsValue(p[7..9]), DigitsValue(p[10..13]))
  }

  lemma TimePartRead(hour: nat, minute: nat, second: nat, millisecond: nat)
    requires hour < 100 && minute < 100 && second < 100 && millisecond < 1000
    ensures ReadTimePart(TimePart(hour, minute, second, millisecond)) == (hour, minute, second, millisecond)
  {
    var p := TimePart(hour, minute, second, millisecond);
    assert p[1..3] == Padded(hour, 2);
    assert p[4..6] == Padded(minute, 2);
    assert p[7..9] == Padded(second, 2);
    assert p[10..13] == Padded(millisecond, 3);
    assert Pow10(2) == 100 && Pow10(3) == 1000;
    PaddedValue(hour, 2);
    PaddedValue(minute, 2);
    PaddedValue(second, 2);
    PaddedValue(millisecond, 3);
  }

  /** `toISOString` of a time value. */
  function IsoString(t: TimeValue): (s: string)
    ensures |s| == 24 || |s| == 27
    ensures s[|s| - 1] == 'Z' && s[|s| - 5] == '.' && s[|s| - 14] == 'T'
  {
    var c := ToDateTime(t);
    YearString(c.year) + DatePart(c.month, c.day) + TimePart(c.hour, c.minute, c.second, c.millisecond)
  }

  /** Reading the fields of such a string back: the time value it denotes. */
  function ReadIsoString(s: string): (r: Option<int>)
    ensures r.Some? ==> |s| == 24 || |s| == 27
  {
    if |s| != 24 && |s| != 27 then None
    else
      var o := |s| - 24;
      var year := ReadYear(s[..o + 4]);
      var (month, day) := ReadDatePart(s[o + 4..o + 10]);
      var (hour, minute, second, millisecond) := ReadTimePart(s[o + 10..]);
      if 1970 <= year && 1 <= month <= 12 then Some(TimeOfDateTime(DateTime(year, month, day, hour, minute, second, millisecond)))
      else None
  }

  /** The string `toISOString` writes gives back the time value it was written from. */
  lemma IsoStringRoundTrip(t: TimeValue)
    ensures ReadIsoString(IsoString(t)) == Some(t)
  {
    var c := ToDateTime(t);
    var y, d, h := YearString(c.year), DatePart(c.month, c.day), TimePart(c.hour, c.minute, c.second, c.millisecond);
    var s := IsoString(t);
    var o := |y| - 4;
    assert s == y + d + h;
    assert s[..o + 4] == y;
    assert s[o + 4..o + 10] == d;
    assert s[o + 10..] == h;
    YearStringRead(c.year);
    DatePartRead(c.month, c.day);
    TimePartRead(c.hour, c.minute, c.second, c.millisecond);
    TimeOfToDateTime(t);
  }

  /** Different times are written differently. */
  lemma IsoStringInjective(a: TimeValue, b: TimeValue)
    ensures IsoString(a) == IsoString(b) <==> a == b
  {
    IsoStringRoundTrip(a);
    IsoStringRoundTrip(b);
  }

  lemma EpochDateTime()
    ensures ToDateTime(0) == DateTime(1970, 1, 1, 0, 0, 0, 0)
  {
    assert YearOf(0, 1970) == (1970, 0);
    assert MonthFrom(1970, 0, 1) == 1;
  }

  lemma EpochParts()
    ensures YearString(1970) == "1970"
    ensures DatePart(1, 1) == "-01-01"
    ensures TimePart(0, 0, 0, 0) == "T00:00:00.000Z"
  {
    assert Padded(1970, 4) == "1970";
    assert Padded(1, 2) == "01";
    assert Padded(0, 2) == "00" && Padded(0, 3) == "000";
  }

  /** The epoch itself. */
  lemma EpochIsoString()
    ensures IsoString(0) == "1970-01-01T00:00:00.000Z"
  {
    EpochDateTime();
    EpochParts();
  }
}
