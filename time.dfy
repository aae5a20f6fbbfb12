/** Naive UTC datetimes as Python's `datetime` represents them: the proleptic
    Gregorian calendar from 0001-01-01 to 9999-12-31 with whole seconds. An instant is
    the number of seconds since 0001-01-01 00:00:00, so `timedelta` arithmetic is
    integer arithmetic and `datetime` fields are recovered by `ToDateTime`. Also the
    fixed-width text forms `"%Y-%m-%d %H:%M:%S"`, `"%Y-%m-%d %H:%M"` and `"%Y-%m-%d"`,
    written by `strftime`/`isoformat` and read by `strptime`. */
module Time {
  import opened Wrappers
  import Decimal

  const SecondsPerMinute: int := 60
  const SecondsPerHour: int := 3600
  const SecondsPerDay: int := 86400
  const MaxYear: int := 9999

  predicate IsLeap(y: int) { y % 4 == 0 && (y % 100 != 0 || y % 400 == 0) }

  function DaysInYear(y: int): nat { if IsLeap(y) then 366 else 365 }

  function DaysInMonth(y: int, m: int): nat
    requires 1 <= m <= 12
  {
    if m == 2 then (if IsLeap(y) then 29 else 28)
    else if m == 4 || m == 6 || m == 9 || m == 11 then 30
    else 31
  }

  /** Days in the months of year `y` before month `m` (`m == 13` gives the whole year). */
  function DaysBeforeMonth(y: int, m: int): (n: nat)
    requires 1 <= m <= 13
    ensures m == 13 ==> n == DaysInYear(y)
  {
    [0, 31, 59, 90, 120, 151, 181, 212, 243, 273, 304, 334, 365][m - 1]
      + (if m > 2 && IsLeap(y) then 1 else 0)
  }

  lemma DaysBeforeMonthStep(y: int, m: int)
    requires 1 <= m <= 12
    ensures DaysBeforeMonth(y, m) + DaysInMonth(y, m) == DaysBeforeMonth(y, m + 1)
  {
  }

  /** Days in the years before year `y`, counted from 0001-01-01. */
  function DaysBeforeYear(y: int): nat
    requires y >= 1
  {
    if y == 1 then 0 else DaysBeforeYear(y - 1) + DaysInYear(y - 1)
  }

  /** Days from 0001-01-01 up to (not including) 10000-01-01. */
  const MaxDay: nat := DaysBeforeYear(MaxYear + 1)

  /** Python's datetime.max, plus one second. */
  const MaxInstant: int := MaxDay * SecondsPerDay

  type Instant = int

  predicate ValidInstant(t: Instant) { 0 <= t < MaxInstant }

  datatype DateTime = DateTime(year: int, month: int, day: int, hour: int, minute: int, second: int)

  /** The field ranges Python's `datetime` constructor checks. */
  predicate ValidDateTime(c: DateTime)
  {
    && 1 <= c.year <= MaxYear
    && 1 <= c.month <= 12
    && 1 <= c.day <= DaysInMonth(c.year, c.month)
    && 0 <= c.hour < 24
    && 0 <= c.minute < 60
    && 0 <= c.second < 60
  }

  lemma {:induction false} DaysBeforeYearMonotone(a: int, b: int)
    requires 1 <= a <= b
    ensures DaysBeforeYear(a) + (b - a) * 365 <= DaysBeforeYear(b)
  {
    if a < b {
      DaysBeforeYearMonotone(a, b - 1);
    }
  }

  /** Days from 0001-01-01 to the date of `c`. */
  function DayNumber(c: DateTime): (n: nat)
    requires ValidDateTime(c)
    ensures n < MaxDay
  {
    DaysBeforeYearMonotone(c.year + 1, MaxYear + 1);
    DaysBeforeYear(c.year) + DaysBeforeMonth(c.year, c.month) + (c.day - 1)
  }

  function TimeOfDay(c: DateTime): int
  {
    c.hour * SecondsPerHour + c.minute * SecondsPerMinute + c.second
  }

  /** The instant a valid datetime denotes. */
  function ToInstant(c: DateTime): (t: Instant)
    requires ValidDateTime(c)
    ensures ValidInstant(t)
  {
    DayNumber(c) * SecondsPerDay + TimeOfDay(c)
  }

  /** The year containing day `d` counted from the start of year `y`, and the day's
      index within that year. */
  function LocateYear(d: nat, y: int): (r: (int, nat))
    requires y >= 1
    ensures r.0 >= y && r.1 < DaysInYear(r.0)
    ensures DaysBeforeYear(r.0) + r.1 == DaysBeforeYear(y) + d
    decreases d
  {
    if d < DaysInYear(y) then (y, d) else LocateYear(d - DaysInYear(y), y + 1)
  }

  /** The month containing day-of-year `d` (searching from month `m`), and the index of
      the day within it. */
  function LocateMonth(y: int, d: nat, m: int): (r: (int, nat))
    requires 1 <= m <= 12 && DaysBeforeMonth(y, m) <= d < DaysInYear(y)
    ensures m <= r.0 <= 12 && r.1 < DaysInMonth(y, r.0)
    ensures DaysBeforeMonth(y, r.0) + r.1 == d
    decreases 12 - m
  {
    DaysBeforeMonthStep(y, m);
    if d < DaysBeforeMonth(y, m + 1) then (m, d - DaysBeforeMonth(y, m))
    else LocateMonth(y, d, m + 1)
  }

  /** The datetime fields of an instant (`datetime` from its ordinal and seconds). */
  function ToDateTime(t: Instant): (c: DateTime)
    requires ValidInstant(t)
    ensures ValidDateTime(c) && ToInstant(c) == t
  {
    var day, secs := t / SecondsPerDay, t % SecondsPerDay;
    var (y, doy) := LocateYear(day, 1);
    if y > MaxYear then
      DaysBeforeYearMonotone(MaxYear + 1, y);
      assert false;
      DateTime(1, 1, 1, 0, 0, 0)
    else
      var (m, dom) := LocateMonth(y, doy, 1);
      DateTime(y, m, dom + 1, secs / SecondsPerHour, secs % SecondsPerHour / SecondsPerMinute, secs % SecondsPerMinute)
  }

  lemma {:induction false} LocateYearExact(d: nat, y0: int, y: int, r: nat)
    requires 1 <= y0 <= y && r < DaysInYear(y)
    requires d == DaysBeforeYear(y) - DaysBeforeYear(y0) + r
    ensures LocateYear(d, y0) == (y, r)
    decreases y - y0
  {
    if y0 < y {
      DaysBeforeYearMonotone(y0 + 1, y);
      LocateYearExact(d - DaysInYear(y0), y0 + 1, y, r);
    }
  }

  lemma {:induction false} LocateMonthExact(y: int, m0: int, m: int, r: nat)
    requires 1 <= m0 <= m <= 12 && r < DaysInMonth(y, m)
    ensures DaysBeforeMonth(y, m0) <= DaysBeforeMonth(y, m) + r < DaysInYear(y)
    ensures LocateMonth(y, DaysBeforeMonth(y, m) + r, m0) == (m, r)
    decreases m - m0
  {
    DaysBeforeMonthStep(y, m0);
    DaysBeforeMonthStep(y, m);
    if m0 < m {
      LocateMonthExact(y, m0 + 1, m, r);
    } else {
      assert DaysBeforeMonth(y, m + 1) <= DaysBeforeMonth(y, 13);
    }
  }

  /** Euclidean division of `q * d + r` by `d` gives back `q` and `r`. */
  lemma DivModExact(q: int, r: int, d: int)
    requires 0 <= r < d
    ensures (q * d + r) / d == q && (q * d + r) % d == r
  {
    var x := q * d + r;
    var q1, r1 := x / d, x % d;
    assert (q - q1) * d == r1 - r;
    if q > q1 {
      MulAtLeast(q - q1, d);
    } else if q < q1 {
      MulAtLeast(q1 - q, d);
    }
  }

  lemma MulAtLeast(k: int, d: int)
    requires 1 <= k && 0 < d
    ensures d <= k * d
  {
  }

  /** The seconds of the day give back the hour, minute and second. */
  lemma ClockFields(c: DateTime)
    requires ValidDateTime(c)
    ensures 0 <= TimeOfDay(c) < SecondsPerDay
    ensures TimeOfDay(c) / SecondsPerHour == c.hour && TimeOfDay(c) % SecondsPerHour == c.minute * SecondsPerMinute + c.second
    ensures (c.minute * SecondsPerMinute + c.second) / SecondsPerMinute == c.minute
    ensures TimeOfDay(c) % SecondsPerMinute == c.second
  {
    DivModExact(c.hour, c.minute * SecondsPerMinute + c.second, SecondsPerHour);
    DivModExact(c.minute, c.second, SecondsPerMinute);
    DivModExact(c.hour * 60 + c.minute, c.second, SecondsPerMinute);
  }

  /** Every valid datetime is recovered from its instant: `ToInstant` is a bijection
      between valid datetimes and valid instants. */
  lemma DateTimeRoundTrip(c: DateTime)
    requires ValidDateTime(c)
    ensures ToDateTime(ToInstant(c)) == c
  {
    var t := ToInstant(c);
    var tod := TimeOfDay(c);
    DivModExact(DayNumber(c), tod, SecondsPerDay);
    ClockFields(c);
    LocateMonthExact(c.year, 1, c.month, c.day - 1);
    LocateYearExact(DayNumber(c), 1, c.year, DaysBeforeMonth(c.year, c.month) + (c.day - 1));
    var day, secs := t / SecondsPerDay, t % SecondsPerDay;
    assert day == DayNumber(c) && secs == tod;
    assert LocateYear(day, 1) == (c.year, DaysBeforeMonth(c.year, c.month) + (c.day - 1));
    assert secs / SecondsPerHour == c.hour && secs % SecondsPerHour / SecondsPerMinute == c.minute;
  }

  lemma ToInstantInjective(a: DateTime, b: DateTime)
    requires ValidDateTime(a) && ValidDateTime(b) && ToInstant(a) == ToInstant(b)
    ensures a == b
  {
    DateTimeRoundTrip(a);
    DateTimeRoundTrip(b);
  }

  // ---- text forms ----

  /** `d.isoformat()` of a date, i.e. `"%Y-%m-%d"`. */
  function FormatDate(c: DateTime): (s: string)
    requires ValidDateTime(c)
    ensures |s| == 10
  {
    Decimal.Padded(c.year, 4) + "-" + Decimal.Padded(c.month, 2) + "-" + Decimal.Padded(c.day, 2)
  }

  /** `strftime("%H:%M:%S")`. */
  function FormatClock(c: DateTime): (s: string)
    requires ValidDateTime(c)
    ensures |s| == 8
  {
    Decimal.Padded(c.hour, 2) + ":" + Decimal.Padded(c.minute, 2) + ":" + Decimal.Padded(c.second, 2)
  }

  /** `strftime("%Y-%m-%d %H:%M:%S")`. */
  function FormatDateTime(c: DateTime): (s: string)
    requires ValidDateTime(c)
    ensures |s| == 19
  {
    FormatDate(c) + " " + FormatClock(c)
  }

  /** The number written in `s[i..i + w]`, when those characters are all digits. */
  function Field(s: string, i: nat, w: nat): Option<int>
    requires i + w <= |s|
  {
    if Decimal.AllDigits(s[i..i + w]) then Some(Decimal.DigitsValue(s[i..i + w])) else None
  }

  function Checked(c: DateTime): (r: Option<DateTime>)
    ensures r.Some? <==> ValidDateTime(c)
    ensures r.Some? ==> r.value == c
  {
    if ValidDateTime(c) then Some(c) else None
  }

  /** `datetime.strptime(s, "%Y-%m-%d")` with fixed-width fields. */
  function StrptimeDate(s: string): Option<DateTime>
  {
    if |s| != 10 || s[4] != '-' || s[7] != '-' then None
    else match (Field(s, 0, 4), Field(s, 5, 2), Field(s, 8, 2))
      case (Some(y), Some(m), Some(d)) => Checked(DateTime(y, m, d, 0, 0, 0))
      case _ => None
  }

  /** `datetime.strptime(s, "%Y-%m-%d %H:%M")` with fixed-width fields. */
  function StrptimeMinutes(s: string): Option<DateTime>
  {
    if |s| != 16 || s[10] != ' ' || s[13] != ':' then None
    else match (StrptimeDate(s[..10]), Field(s, 11, 2), Field(s, 14, 2))
      case (Some(d), Some(h), Some(mi)) => Checked(d.(hour := h, minute := mi))
      case _ => None
  }

  /** `datetime.strptime(s, "%Y-%m-%d %H:%M:%S")` with fixed-width fields. */
  function StrptimeSeconds(s: string): Option<DateTime>
  {
    if |s| != 19 || s[16] != ':' then None
    else match (StrptimeMinutes(s[..16]), Field(s, 17, 2))
      case (Some(d), Some(sec)) => Checked(d.(second := sec))
      case _ => None
  }

  lemma PaddedField(s: string, i: nat, n: nat, w: nat)
    requires n < Decimal.Pow10(w) && i + w <= |s| && s[i..i + w] == Decimal.Padded(n, w)
    ensures Field(s, i, w) == Some(n)
  {
    Decimal.PaddedRoundTrip(n, w);
  }

  lemma {:induction false} DateRoundTrip(c: DateTime)
    requires ValidDateTime(c)
    ensures StrptimeDate(FormatDate(c)) == Some(c.(hour := 0, minute := 0, second := 0))
  {
    var s := FormatDate(c);
    PaddedField(s, 0, c.year, 4);
    PaddedField(s, 5, c.month, 2);
    PaddedField(s, 8, c.day, 2);
  }

  /** strptime reads back what strftime wrote: the 19-character form determines the
      datetime to the second. */
  lemma {:induction false} DateTimeTextRoundTrip(c: DateTime)
    requires ValidDateTime(c)
    ensures StrptimeSeconds(FormatDateTime(c)) == Some(c)
  {
    var s := FormatDateTime(c);
    DateRoundTrip(c);
    assert s[..16][..10] == FormatDate(c);
    PaddedField(s[..16], 11, c.hour, 2);
    PaddedField(s[..16], 14, c.minute, 2);
    PaddedField(s, 17, c.second, 2);
  }

  /** strptime with the minute format reads back the first 16 characters of what
      strftime wrote, as that minute. */
  lemma {:induction false} MinutesRoundTrip(c: DateTime)
    requires ValidDateTime(c)
    ensures StrptimeMinutes(FormatDateTime(c)[..16]) == Some(c.(second := 0))
  {
    var s := FormatDateTime(c)[..16];
    DateRoundTrip(c);
    assert s[..10] == FormatDate(c);
    PaddedField(s, 11, c.hour, 2);
    PaddedField(s, 14, c.minute, 2);
  }

  /** Every format starts with the year's digits: text that starts with anything else
      matches none of them. */
  lemma {:induction false} LeadingNonDigit(s: string)
    requires s != [] && !Decimal.IsDigit(s[0])
    ensures StrptimeDate(s) == None && StrptimeMinutes(s) == None && StrptimeSeconds(s) == None
  {
    if |s| == 10 { assert s[0..4][0] == s[0]; }
    if |s| == 16 { assert s[..10][0..4][0] == s[0]; }
    if |s| == 19 {
      assert s[..16][..10][0..4][0] == s[0];
      assert StrptimeMinutes(s[..16]) == None;
    }
  }

  lemma {:induction false} StrptimeDateCanonical(s: string)
    requires StrptimeDate(s).Some?
    ensures FormatDate(StrptimeDate(s).value) == s
  {
    var c := StrptimeDate(s).value;
    var y, m, d := s[0..4], s[5..7], s[8..10];
    assert Field(s, 0, 4) == Some(c.year) && Field(s, 5, 2) == Some(c.month) && Field(s, 8, 2) == Some(c.day);
    Decimal.DigitsValuePadded(y);
    Decimal.DigitsValuePadded(m);
    Decimal.DigitsValuePadded(d);
    assert s == y + "-" + m + "-" + d;
  }

  lemma {:induction false} StrptimeMinutesCanonical(s: string)
    requires StrptimeMinutes(s).Some?
    ensures var c := StrptimeMinutes(s).value;
      c.second == 0 &&
      FormatDate(c) + " " + Decimal.Padded(c.hour, 2) + ":" + Decimal.Padded(c.minute, 2) == s
  {
    StrptimeDateCanonical(s[..10]);
    Decimal.DigitsValuePadded(s[11..13]);
    Decimal.DigitsValuePadded(s[14..16]);
    assert s == s[..10] + [s[10]] + s[11..13] + [s[13]] + s[14..16];
  }

  /** Conversely, every string strptime accepts is the formatted text of the datetime it
      yields: the accepted strings and the valid datetimes correspond one to one. */
  lemma {:induction false} StrptimeSecondsCanonical(s: string)
    requires StrptimeSeconds(s).Some?
    ensures FormatDateTime(StrptimeSeconds(s).value) == s
  {
    StrptimeMinutesCanonical(s[..16]);
    Decimal.DigitsValuePadded(s[17..19]);
    assert s == s[..16] + [s[16]] + s[17..19];
  }

  /** Instants are seconds: adding a timedelta of `n` minutes stays in range or is
      Python's OverflowError ("date value out of range"). */
  function AddSeconds(t: Instant, n: int): (r: Result<Instant>)
    ensures r.Ok? <==> ValidInstant(t + n)
    ensures r.Ok? ==> r.value == t + n
  {
    if ValidInstant(t + n) then Ok(t + n) else Err("date value out of range")
  }
}
