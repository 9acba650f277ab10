/**
 * Proleptic Gregorian dates as Python's datetime module counts them, instants as
 * integer seconds since 1970-01-01T00:00:00Z, and the one time zone of record,
 * Asia/Taipei, which is a fixed UTC+8 offset (no daylight saving since 1979).
 */
module Calendar {
  import opened Wrappers
  import opened Strings

  /** An instant: whole seconds since the Unix epoch. */
  type Timestamp = int

  const SecondsPerDay := 86400
  /** Asia/Taipei's offset from UTC, in seconds. */
  const TaipeiOffset := 28800
  /** datetime.MINYEAR and datetime.MAXYEAR. */
  const MinYear := 1
  const MaxYear := 9999

  predicate IsLeap(y: int) {
    y % 4 == 0 && (y % 100 != 0 || y % 400 == 0)
  }

  function DaysInYear(y: int): nat {
    if IsLeap(y) then 366 else 365
  }

  function DaysInMonth(y: int, m: int): nat
    requires 1 <= m <= 12
  {
    if m == 2 then (if IsLeap(y) then 29 else 28)
    else [31, 28, 31, 30, 31, 30, 31, 31, 30, 31, 30, 31][m - 1]
  }

  /** Days in the years MinYear .. y-1. */
  function DaysBeforeYear(y: int): nat
    requires MinYear <= y <= MaxYear + 1
    decreases y
  {
    if y == MinYear then 0 else DaysBeforeYear(y - 1) + DaysInYear(y - 1)
  }

  /** Days in the months 1 .. m-1 of year y. */
  function DaysBeforeMonth(y: int, m: int): nat
    requires 1 <= m <= 12
  {
    [0, 31, 59, 90, 120, 151, 181, 212, 243, 273, 304, 334][m - 1]
    + (if m > 2 && IsLeap(y) then 1 else 0)
  }

  lemma DaysBeforeNextMonth(y: int, m: int)
    requires 1 <= m < 12
    ensures DaysBeforeMonth(y, m + 1) == DaysBeforeMonth(y, m) + DaysInMonth(y, m)
  {
  }

  lemma DaysBeforeLastMonth(y: int)
    ensures DaysBeforeMonth(y, 12) + DaysInMonth(y, 12) == DaysInYear(y)
  {
  }

  datatype Date = Date(year: int, month: int, day: int)

  /** What datetime.date accepts. */
  predicate ValidDate(d: Date) {
    MinYear <= d.year <= MaxYear && 1 <= d.month <= 12 && 1 <= d.day <= DaysInMonth(d.year, d.month)
  }

  /** date.toordinal(): 0001-01-01 is day 1. */
  function Ordinal(d: Date): (n: int)
    requires ValidDate(d)
    ensures DaysBeforeYear(d.year) < n <= DaysBeforeYear(d.year) + DaysInYear(d.year)
  {
    DaysBeforeLastMonth(d.year);
    DaysBeforeYear(d.year) + DaysBeforeMonth(d.year, d.month) + d.day
  }

  /** The ordinal of 9999-12-31, the last day datetime can represent. */
  function MaxOrdinal(): nat {
    DaysBeforeYear(MaxYear + 1)
  }

  /** The year holding day `n`, searched upwards from year `y`. */
  function YearOf(n: int, y: int): (r: int)
    requires MinYear <= y <= MaxYear && DaysBeforeYear(y) < n <= MaxOrdinal()
    ensures y <= r <= MaxYear && DaysBeforeYear(r) < n <= DaysBeforeYear(r) + DaysInYear(r)
    decreases MaxYear - y
  {
    if n <= DaysBeforeYear(y) + DaysInYear(y) then y
    else YearOf(n, y + 1)
  }

  /** The month holding day-of-year `k` of year `y`, searched upwards from month `m`. */
  function MonthOf(y: int, k: int, m: int): (r: int)
    requires 1 <= m <= 12 && DaysBeforeMonth(y, m) < k <= DaysInYear(y)
    ensures m <= r <= 12 && DaysBeforeMonth(y, r) < k <= DaysBeforeMonth(y, r) + DaysInMonth(y, r)
    decreases 12 - m
  {
    if k <= DaysBeforeMonth(y, m) + DaysInMonth(y, m) then m
    else
      assert m < 12 by { DaysBeforeLastMonth(y); }
      DaysBeforeNextMonth(y, m);
      MonthOf(y, k, m + 1)
  }

  /** date.fromordinal(n): the inverse of Ordinal. */
  function FromOrdinal(n: int): (d: Date)
    requires 1 <= n <= MaxOrdinal()
    ensures ValidDate(d) && Ordinal(d) == n
  {
    var y := YearOf(n, MinYear);
    var k := n - DaysBeforeYear(y);
    var m := MonthOf(y, k, 1);
    Date(y, m, k - DaysBeforeMonth(y, m))
  }

  /** A naive (zone-less) datetime with whole seconds. */
  datatype LocalTime = LocalTime(date: Date, hour: int, minute: int, second: int)

  /** What the datetime constructor accepts. */
  predicate ValidLocal(t: LocalTime) {
    ValidDate(t.date) && 0 <= t.hour < 24 && 0 <= t.minute < 60 && 0 <= t.second < 60
  }

  /** Python's date(1970, 1, 1).toordinal(). */
  function EpochOrdinal(): int {
    Ordinal(Date(1970, 1, 1))
  }

  /** Seconds from 1970-01-01 00:00:00 to `t`, both read on the same wall clock. */
  function WallSeconds(t: LocalTime): int
    requires ValidLocal(t)
  {
    (Ordinal(t.date) - EpochOrdinal()) * SecondsPerDay + t.hour * 3600 + t.minute * 60 + t.second
  }

  /** tz.localize(t) for a zone `offset` seconds east of UTC: the instant `t` names there. */
  function Localize(t: LocalTime, offset: int): Timestamp
    requires ValidLocal(t)
  {
    WallSeconds(t) - offset
  }

  /** An instant whose wall-clock reading at `offset` is a datetime Python can represent. */
  predicate InRange(ts: Timestamp, offset: int) {
    var days := (ts + offset) / SecondsPerDay;
    1 <= days + EpochOrdinal() <= MaxOrdinal()
  }

  /** dt.astimezone(zone): the wall-clock reading of instant `ts` at `offset`. */
  function ToLocal(ts: Timestamp, offset: int): (t: LocalTime)
    requires InRange(ts, offset)
    ensures ValidLocal(t) && Localize(t, offset) == ts
  {
    var wall := ts + offset;
    var days := wall / SecondsPerDay;
    var secs := wall % SecondsPerDay;
    DaySeconds(secs);
    LocalTime(FromOrdinal(days + EpochOrdinal()), secs / 3600, secs % 3600 / 60, secs % 60)
  }

  /** The hour, minute and second of a time of day put back together. */
  lemma DaySeconds(secs: int)
    requires 0 <= secs < SecondsPerDay
    ensures 0 <= secs / 3600 < 24 && 0 <= secs % 3600 / 60 < 60 && 0 <= secs % 60 < 60
    ensures secs / 3600 * 3600 + secs % 3600 / 60 * 60 + secs % 60 == secs
  {
    var h, r := secs / 3600, secs % 3600;
    assert secs == h * 3600 + r && 0 <= r < 3600;
    var m, s := r / 60, r % 60;
    assert r == m * 60 + s && 0 <= s < 60;
    assert secs == (h * 60 + m) * 60 + s;
    assert secs % 60 == s;
  }

  /** Every wall-clock reading Python can represent names an instant ToLocal can read back. */
  lemma LocalizeInRange(t: LocalTime, offset: int)
    requires ValidLocal(t)
    ensures InRange(Localize(t, offset), offset)
  {
    var n := Ordinal(t.date) - EpochOrdinal();
    var secs := t.hour * 3600 + t.minute * 60 + t.second;
    assert Localize(t, offset) + offset == n * SecondsPerDay + secs;
    WholeDays(n, secs);
    OrdinalAtMostMax(t.date);
  }

  /** Every valid date is at most the last day datetime can represent. */
  lemma OrdinalAtMostMax(d: Date)
    requires ValidDate(d)
    ensures 1 <= Ordinal(d) <= MaxOrdinal()
  {
    DaysBeforeYearMonotone(d.year + 1, MaxYear + 1);
  }

  /** Whole days plus a time of day fall on the day they count. */
  lemma WholeDays(n: int, secs: int)
    requires 0 <= secs < SecondsPerDay
    ensures (n * SecondsPerDay + secs) / SecondsPerDay == n
  {
  }

  lemma {:induction false} DaysBeforeYearMonotone(a: int, b: int)
    requires MinYear <= a <= b <= MaxYear + 1
    ensures DaysBeforeYear(a) <= DaysBeforeYear(b)
    decreases b - a
  {
    if a < b {
      DaysBeforeYearMonotone(a, b - 1);
    }
  }

  /**
   * today(tz) for the zone at `offset`: the instant of local midnight starting the day
   * that holds `now`.
   */
  function Midnight(now: Timestamp, offset: int): (m: Timestamp)
    ensures m <= now < m + SecondsPerDay
    ensures (m + offset) % SecondsPerDay == 0
  {
    now - (now + offset) % SecondsPerDay
  }

  /** Midnight is 00:00:00 on the wall clock, on the same date as `now`. */
  lemma MidnightIsStartOfLocalDay(now: Timestamp, offset: int)
    requires InRange(now, offset)
    ensures InRange(Midnight(now, offset), offset)
    ensures ToLocal(Midnight(now, offset), offset) ==
      LocalTime(ToLocal(now, offset).date, 0, 0, 0)
  {
    var m := Midnight(now, offset);
    var q := (now + offset) / SecondsPerDay;
    assert m + offset == q * SecondsPerDay;
    assert (m + offset) / SecondsPerDay == q && (m + offset) % SecondsPerDay == 0;
    SameDayStart(m, now, offset);
  }

  /** An instant at a day boundary reads as 00:00:00 on the date of any instant of that day. */
  lemma SameDayStart(m: Timestamp, now: Timestamp, offset: int)
    requires InRange(now, offset)
    requires (m + offset) / SecondsPerDay == (now + offset) / SecondsPerDay && (m + offset) % SecondsPerDay == 0
    ensures InRange(m, offset) && ToLocal(m, offset) == LocalTime(ToLocal(now, offset).date, 0, 0, 0)
  {
  }
}
