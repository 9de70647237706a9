/** Calendar dates, clock times and instants, and the three renderings the
    screens use: moment's "DD-MM-YYYY", `formatDate`'s "DD/MM/YYYY" and
    `formatTime`'s 12-hour clock.

    A date is a proleptic Gregorian triple. An instant is a whole number of
    milliseconds counted from 0001-01-01T00:00, the scale in which the
    screens compare `new Date(...)` values with the current time `now`. */
module Calendar {
  import opened Base
  import opened Text

  datatype Date = Date(year: int, month: int, day: int)

  predicate IsLeapYear(y: int) {
    y % 4 == 0 && (y % 100 != 0 || y % 400 == 0)
  }

  function YearLength(y: int): int {
    if IsLeapYear(y) then 366 else 365
  }

  function MonthLength(y: int, m: int): int
    requires 1 <= m <= 12
  {
    if m == 2 then (if IsLeapYear(y) then 29 else 28)
    else if m == 4 || m == 6 || m == 9 || m == 11 then 30
    else 31
  }

  predicate ValidDate(d: Date) {
    d.year >= 1 && 1 <= d.month <= 12 && 1 <= d.day <= MonthLength(d.year, d.month)
  }

  /** A date string that parsed: a real day of the calendar. */
  type CalDate = d: Date | ValidDate(d) witness Date(1970, 1, 1)

  function DaysBeforeYear(y: int): nat
    requires y >= 1
  {
    if y == 1 then 0 else DaysBeforeYear(y - 1) + YearLength(y - 1)
  }

  function DaysBeforeMonth(y: int, m: int): nat
    requires 1 <= m <= 12
  {
    [0, 31, 59, 90, 120, 151, 181, 212, 243, 273, 304, 334][m - 1]
    + (if m > 2 && IsLeapYear(y) then 1 else 0)
  }

  /** Days since 0001-01-01. */
  function Ordinal(d: CalDate): nat {
    DaysBeforeYear(d.year) + DaysBeforeMonth(d.year, d.month) + d.day - 1
  }

  /** moment's `add(1, "day")`: the following calendar day. */
  function NextDay(d: CalDate): (r: CalDate)
    ensures Ordinal(r) == Ordinal(d) + 1
  {
    if d.day < MonthLength(d.year, d.month) then Date(d.year, d.month, d.day + 1)
    else if d.month < 12 then
      NextMonthStarts(d.year, d.month);
      Date(d.year, d.month + 1, 1)
    else
      DecemberEndsYear(d.year);
      Date(d.year + 1, 1, 1)
  }

  /** The days before a month are those before the previous one plus its length. */
  lemma NextMonthStarts(y: int, m: int)
    requires 1 <= m < 12
    ensures DaysBeforeMonth(y, m + 1) == DaysBeforeMonth(y, m) + MonthLength(y, m)
  {
  }

  /** December ends the year: the days before it plus its 31 make the year. */
  lemma DecemberEndsYear(y: int)
    requires y >= 1
    ensures DaysBeforeYear(y + 1) == DaysBeforeYear(y) + DaysBeforeMonth(y, 12) + MonthLength(y, 12)
  {
  }

  /** The day `k` days after `d`. */
  function AddDays(d: CalDate, k: nat): (r: CalDate)
    ensures Ordinal(r) == Ordinal(d) + k
  {
    if k == 0 then d else NextDay(AddDays(d, k - 1))
  }

  /** Lexicographic order on (year, month, day). */
  predicate DateLess(a: Date, b: Date) {
    a.year < b.year || (a.year == b.year && (a.month < b.month || (a.month == b.month && a.day < b.day)))
  }

  lemma {:induction false} YearsAccumulate(a: int, b: int)
    requires 1 <= a < b
    ensures DaysBeforeYear(a) + YearLength(a) <= DaysBeforeYear(b)
    decreases b - a
  {
    if a + 1 < b {
      YearsAccumulate(a, b - 1);
    }
  }

  lemma MonthsFitInYear(y: int, m: int)
    requires 1 <= m <= 12
    ensures DaysBeforeMonth(y, m) + MonthLength(y, m) <= YearLength(y)
    ensures m < 12 ==> DaysBeforeMonth(y, m + 1) == DaysBeforeMonth(y, m) + MonthLength(y, m)
  {
  }

  lemma {:induction false} MonthsAccumulate(y: int, a: int, b: int)
    requires 1 <= a < b <= 12
    ensures DaysBeforeMonth(y, a) + MonthLength(y, a) <= DaysBeforeMonth(y, b)
    decreases b - a
  {
    MonthsFitInYear(y, b - 1);
    if a + 1 < b {
      MonthsAccumulate(y, a, b - 1);
    }
  }

  lemma OrdinalStrict(a: CalDate, b: CalDate)
    requires DateLess(a, b)
    ensures Ordinal(a) < Ordinal(b)
  {
    MonthsFitInYear(a.year, a.month);
    if a.year < b.year {
      YearsAccumulate(a.year, b.year);
    } else if a.month < b.month {
      MonthsAccumulate(a.year, a.month, b.month);
    }
  }

  /** Day numbers follow calendar order exactly: one day precedes another
      iff its number is smaller, and two days with the same number are equal. */
  lemma OrdinalOrder(a: CalDate, b: CalDate)
    ensures DateLess(a, b) <==> Ordinal(a) < Ordinal(b)
    ensures Ordinal(a) == Ordinal(b) <==> a == b
  {
    if DateLess(a, b) {
      OrdinalStrict(a, b);
    } else if a != b {
      assert DateLess(b, a);
      OrdinalStrict(b, a);
    }
  }

  const MsPerDay: int := 86400000

  /** `new Date("YYYY-MM-DD")`: midnight at the start of the day. */
  function DayStart(d: CalDate): int {
    Ordinal(d) * MsPerDay
  }

  /** The three numbers of an "HH:MM:SS" string. */
  datatype Clock = Clock(hours: nat, minutes: nat, seconds: nat)

  predicate ValidClock(c: Clock) {
    c.hours < 24 && c.minutes < 60 && c.seconds < 60
  }

  function ClockMs(c: Clock): nat {
    ((c.hours * 60 + c.minutes) * 60 + c.seconds) * 1000
  }

  /** `new Date(`${date}T${time}`).getTime()`, or None for an Invalid Date. */
  function DateTime(d: Option<CalDate>, c: Clock): (r: Option<int>)
    ensures r.Some? <==> d.Some? && ValidClock(c)
    ensures r.Some? ==> DayStart(d.value) <= r.value < DayStart(d.value) + MsPerDay
  {
    if d.Some? && ValidClock(c) then Some(DayStart(d.value) + ClockMs(c)) else None
  }

  /** `String(n).padStart(2, "0")`. */
  function Pad2(n: nat): string {
    PadStart(NatToString(n), 2, '0')
  }

  /** A number below 100 pads to exactly two digits that read back as it. */
  lemma Pad2Shape(n: nat)
    requires n < 100
    ensures |Pad2(n)| == 2 && AllDigits(Pad2(n)) && DigitsValue(Pad2(n)) == n
  {
    NatToStringLength(n, 2);
    ZeroPadRoundTrip(n, 2);
  }

  /** moment's `format("DD-MM-YYYY")`. */
  function FormatDash(d: CalDate): string {
    Pad2(d.day) + "-" + Pad2(d.month) + "-" + PadStart(NatToString(d.year), 4, '0')
  }

  /** Reads a "DD-MM-YYYY" string back into its three numbers. */
  function ParseDash(s: string): Option<Date> {
    if |s| >= 10 && s[2] == '-' && s[5] == '-'
       && AllDigits(s[..2]) && AllDigits(s[3..5]) && AllDigits(s[6..])
    then Some(Date(DigitsValue(s[6..]), DigitsValue(s[3..5]), DigitsValue(s[..2])))
    else None
  }

  /** Where the pieces of "AA?BB?rest" sit. */
  lemma ThreeParts(a: string, sep: string, b: string, c: string)
    requires |a| == 2 && |sep| == 1 && |b| == 2
    ensures var s := a + sep + b + sep + c;
      && |s| == 6 + |c| && s[..2] == a && s[2] == sep[0]
      && s[3..5] == b && s[5] == sep[0] && s[6..] == c
  {
    var s := a + sep + b + sep + c;
    assert s[..2] == a;
    assert s[3..5] == b;
    assert s[6..] == c;
  }

  /** The "DD-MM-YYYY" rendering loses nothing: it reads back as the same date. */
  lemma FormatDashRoundTrip(d: CalDate)
    ensures ParseDash(FormatDash(d)).Some? && ParseDash(FormatDash(d)).value == d
  {
    var dd, mm, y := Pad2(d.day), Pad2(d.month), PadStart(NatToString(d.year), 4, '0');
    Pad2Shape(d.day);
    Pad2Shape(d.month);
    ZeroPadRoundTrip(d.year, 4);
    var s := FormatDash(d);
    assert s == dd + "-" + mm + "-" + y;
    ThreeParts(dd, "-", mm, y);
    assert |s| >= 10 && s[2] == '-' && s[5] == '-';
    assert s[..2] == dd && s[3..5] == mm && s[6..] == y;
    assert ParseDash(s) == Some(Date(DigitsValue(y), DigitsValue(mm), DigitsValue(dd)));
  }

  /** Two different days never render to the same "DD-MM-YYYY" string. */
  lemma FormatDashInjective(a: CalDate, b: CalDate)
    requires FormatDash(a) == FormatDash(b)
    ensures a == b
  {
    FormatDashRoundTrip(a);
    FormatDashRoundTrip(b);
  }

  /** `formatDate`: "DD/MM/YYYY" with a 1-based month and an unpadded year,
      or "Invalid Date" when the input did not parse. */
  function FormatDate(d: Option<CalDate>): string {
    match d
    case None => "Invalid Date"
    case Some(v) => Pad2(v.day) + "/" + Pad2(v.month) + "/" + NatToString(v.year)
  }

  /** Reads a "DD/MM/YYYY" string back into its three numbers. */
  function ParseSlash(s: string): Option<Date> {
    if |s| >= 7 && s[2] == '/' && s[5] == '/'
       && AllDigits(s[..2]) && AllDigits(s[3..5]) && AllDigits(s[6..])
    then Some(Date(DigitsValue(s[6..]), DigitsValue(s[3..5]), DigitsValue(s[..2])))
    else None
  }

  /** `formatDate` of a parsed date reads back as that date, and never
      produces the sentinel; an unparsed date always produces the sentinel. */
  lemma FormatDateRoundTrip(d: Option<CalDate>)
    ensures d.None? ==> FormatDate(d) == "Invalid Date"
    ensures d.Some? ==> ParseSlash(FormatDate(d)).Some? && ParseSlash(FormatDate(d)).value == d.value
    ensures d.Some? ==> FormatDate(d) != "Invalid Date"
  {
    if d.Some? {
      var v := d.value;
      var dd, mm, y := Pad2(v.day), Pad2(v.month), NatToString(v.year);
      Pad2Shape(v.day);
      Pad2Shape(v.month);
      NatToStringRoundTrip(v.year);
      ThreeParts(dd, "/", mm, y);
      assert FormatDate(d) == dd + "/" + mm + "/" + y;
      assert FormatDate(d)[2] != "Invalid Date"[2];
    }
  }

  /** `hours % 12 || 12`: the hour on a 12-hour dial. */
  function DisplayHour(h: nat): (r: nat)
    ensures 1 <= r <= 12
    ensures r % 12 == h % 12
  {
    if h % 12 == 0 then 12 else h % 12
  }

  /** `formatTime`: "H:MM AM" / "H:MM PM"; seconds are not shown. */
  function FormatTime(c: Clock): string {
    NatToString(DisplayHour(c.hours)) + ":" + Pad2(c.minutes) + " "
    + (if c.hours >= 12 then "PM" else "AM")
  }

  /** What `formatTime` shows: the suffix is PM exactly from hour 12 on, the
      hour reads back as a number in 1..12 congruent to the hour modulo 12,
      the minutes read back from exactly two digits, and the seconds play no part. */
  lemma FormatTimeReadBack(c: Clock, otherSeconds: nat)
    requires c.minutes < 100
    ensures var r := FormatTime(c);
      && |r| >= 7
      && (r[|r| - 2..] == "PM" <==> c.hours >= 12)
      && r[|r| - 6] == ':' && r[|r| - 3] == ' '
      && AllDigits(r[|r| - 5..|r| - 3]) && DigitsValue(r[|r| - 5..|r| - 3]) == c.minutes
      && AllDigits(r[..|r| - 6])
      && 1 <= DigitsValue(r[..|r| - 6]) <= 12
      && DigitsValue(r[..|r| - 6]) % 12 == c.hours % 12
    ensures FormatTime(c.(seconds := otherSeconds)) == FormatTime(c)
  {
    var h, m := NatToString(DisplayHour(c.hours)), Pad2(c.minutes);
    var suffix := if c.hours >= 12 then "PM" else "AM";
    Pad2Shape(c.minutes);
    NatToStringRoundTrip(DisplayHour(c.hours));
    TimeParts(h, m, suffix);
    assert FormatTime(c) == h + ":" + m + " " + suffix;
    assert "AM"[0] != "PM"[0];
  }

  /** Where the pieces of "H:MM SS" sit, counted from the end. */
  lemma TimeParts(h: string, m: string, suffix: string)
    requires |m| == 2 && |suffix| == 2
    ensures var r := h + ":" + m + " " + suffix;
      && |r| == |h| + 6 && r[..|r| - 6] == h && r[|r| - 6] == ':'
      && r[|r| - 5..|r| - 3] == m && r[|r| - 3] == ' ' && r[|r| - 2..] == suffix
  {
    var r := h + ":" + m + " " + suffix;
    assert r[..|r| - 6] == h;
    assert r[|r| - 5..|r| - 3] == m;
    assert r[|r| - 2..] == suffix;
  }
}
