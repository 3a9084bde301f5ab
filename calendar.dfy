/**
 * Points in time and the proleptic Gregorian calendar.  An instant is a
 * number of seconds from 1970-01-01 00:00 (naive local time, as Python's
 * `datetime.now()` and the parsed game dates are); a day number counts days
 * from the same origin.  Dafny's `/` by a positive divisor rounds down,
 * which is exactly how Python's `timedelta.days` and `//` round.
 */
module Calendar {

  type Instant = int

  const SecondsPerDay: int := 86400

  /** The calendar day an instant falls on (`dt.date()`). */
  function DayOf(t: Instant): int {
    t / SecondsPerDay
  }

  /** `(later - earlier).days`: whole days, rounded down. */
  function DaysBetween(later: Instant, earlier: Instant): int {
    (later - earlier) / SecondsPerDay
  }

  lemma DaysBetweenSign(later: Instant, earlier: Instant)
    ensures DaysBetween(later, earlier) >= 0 <==> later >= earlier
  {
  }

  datatype CivilDate = CivilDate(year: int, month: int, day: int)

  /** Day number of a Gregorian date (H. Hinnant's days_from_civil). */
  function DaysFromCivil(year: int, month: int, day: int): int {
    var y := if month <= 2 then year - 1 else year;
    var era := y / 400;
    var yoe := y - era * 400;
    var doy := (153 * (if month > 2 then month - 3 else month + 9) + 2) / 5 + day - 1;
    var doe := yoe * 365 + yoe / 4 - yoe / 100 + doy;
    era * 146097 + doe - 719468
  }

  /** Gregorian date of a day number (H. Hinnant's civil_from_days). */
  function CivilFromDays(z0: int): CivilDate {
    var z := z0 + 719468;
    var era := z / 146097;
    var doe := z - era * 146097;
    var yoe := (doe - doe / 1460 + doe / 36524 - doe / 146096) / 365;
    var doy := doe - (365 * yoe + yoe / 4 - yoe / 100);
    var mp := (5 * doy + 2) / 153;
    var d := doy - (153 * mp + 2) / 5 + 1;
    var m := if mp < 10 then mp + 3 else mp - 9;
    CivilDate(if m <= 2 then yoe + era * 400 + 1 else yoe + era * 400, m, d)
  }

  /** The calendar date of an instant: `.year`, `.month`, `.day`. */
  function CivilOf(t: Instant): CivilDate {
    CivilFromDays(DayOf(t))
  }

  /** Midnight at the start of a calendar date: `datetime(year, month, day)`. */
  function Midnight(year: int, month: int, day: int): Instant {
    DaysFromCivil(year, month, day) * SecondsPerDay
  }
}
