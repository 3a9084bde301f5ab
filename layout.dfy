/**
 * What the reply builders (commands.py) and the post generators
 * (scheduled_posts.py) share: the snapshot of the data they read, the
 * signature every reply ends with (config.py), date and number rendering
 * (`strftime`, `{:,}`), and the "vs"/"at" choice for the champion's next
 * game.
 */
module Layout {
  import opened Wrappers
  import opened Calendar
  import opened Text
  import opened Sorting
  import opened Records
  import opened Directory
  import opened Replay
  import opened Schedule

  /**
   * The data one reply or post reads: the games, the schedule and the
   * schools as the fetcher serves them, and the clock.  The source fetches
   * them afresh in every call; within one reply they are taken to agree.
   */
  datatype Snapshot = Snapshot(games: seq<Game>, rows: seq<ScheduleRow>, schools: seq<School>, now: Instant)

  /** `get_current_champion()` on the snapshot. */
  function ChampionOf(s: Snapshot): Champion {
    CurrentChampionOf(s.games, s.now)
  }

  /** `get_next_belt_game()` on the snapshot: it asks for the champion itself. */
  function NextOf(s: Snapshot): Option<NextGame> {
    NextBeltGameOf(ChampionOf(s).id, s.rows, s.schools, s.now)
  }

  /** `config.WEBSITE_URL` at its default (config.py:23). */
  const WebsiteUrl: string := "https://rutgersstartedthis.com"

  /** `config.BOT_SIGNATURE` (config.py:31-38). */
  const BotSignature: string :=
    "\n\n---\n"
    + "^(🏆 Rutgers started this | "
    + "[Tracker](" + WebsiteUrl + ") | "
    + "[Source](https://github.com/raypratt/cfb-beltbot) | "
    + "!beltbot help for commands)\n\n"
    + "^(Found a bug or incorrect data? [Report it here](https://github.com/raypratt/cfb-beltbot/issues))"

  lemma EndsWithConcat(body: string, tail: string)
    ensures EndsWith(body + tail, tail)
  {
    assert (body + tail)[|body + tail| - |tail|..] == tail;
  }

  // ---------------------------------------------------------------------
  // Dates
  // ---------------------------------------------------------------------

  const MonthNames: seq<string> := [
    "January", "February", "March", "April", "May", "June",
    "July", "August", "September", "October", "November", "December"]

  const DayNames: seq<string> := ["Monday", "Tuesday", "Wednesday", "Thursday", "Friday", "Saturday", "Sunday"]

  /** `%B` for a calendar month 1..12. */
  function MonthName(month: int): string {
    MonthNames[(month - 1) % 12]
  }

  /** The day of the week, Monday = 0 (1970-01-01 was a Thursday). */
  function Weekday(t: Instant): (w: int)
    ensures 0 <= w < 7
  {
    (DayOf(t) + 3) % 7
  }

  /** Consecutive days have consecutive weekdays, so a week later is the same weekday. */
  lemma WeekdayNext(t: Instant)
    ensures Weekday(t + SecondsPerDay) == (Weekday(t) + 1) % 7
    ensures Weekday(t + 7 * SecondsPerDay) == Weekday(t)
  {
    assert DayOf(t + SecondsPerDay) == DayOf(t) + 1;
    assert DayOf(t + 7 * SecondsPerDay) == DayOf(t) + 7;
  }

  /** `%d`: the day of the month on two digits. */
  function TwoDigits(d: int): string {
    if 0 <= d < 10 then "0" + Decimal(d) else Decimal(d)
  }

  /** `strftime('%B %d')`. */
  function MonthDay(t: Instant): string {
    var c := CivilOf(t);
    MonthName(c.month) + " " + TwoDigits(c.day)
  }

  /** `strftime('%B %d, %Y')`. */
  function LongDate(t: Instant): string {
    MonthDay(t) + ", " + Decimal(CivilOf(t).year)
  }

  /** `strftime('%A, %B %d')`. */
  function WeekdayMonthDay(t: Instant): string {
    DayNames[Weekday(t)] + ", " + MonthDay(t)
  }

  /** `strftime('%A, %B %d, %Y')`. */
  function FullDate(t: Instant): string {
    DayNames[Weekday(t)] + ", " + LongDate(t)
  }

  // ---------------------------------------------------------------------
  // Numbers
  // ---------------------------------------------------------------------

  /** A digit string with a comma before every group of three from the right. */
  function Grouped(digits: string): (s: string)
    ensures |digits| <= 3 ==> s == digits
    decreases |digits|
  {
    if |digits| <= 3 then digits
    else Grouped(digits[..|digits| - 3]) + "," + digits[|digits| - 3..]
  }

  /** `f"{n:,}"`. */
  function Thousands(n: int): string {
    if n < 0 then "-" + Grouped(NatDigits(-n)) else Grouped(NatDigits(n))
  }

  /** The text with its commas taken out. */
  function Uncomma(s: string): (r: string)
    ensures forall i :: 0 <= i < |r| ==> r[i] != ','
  {
    if s == [] then []
    else (if s[0] == ',' then [] else [s[0]]) + Uncomma(s[1..])
  }

  lemma {:induction false} UncommaConcat(a: string, b: string)
    ensures Uncomma(a + b) == Uncomma(a) + Uncomma(b)
  {
    if a == [] {
      assert a + b == b;
    } else {
      var head: string := if a[0] == ',' then [] else [a[0]];
      assert (a + b)[0] == a[0];
      assert (a + b)[1..] == a[1..] + b;
      UncommaConcat(a[1..], b);
      assert Uncomma(a + b) == head + Uncomma(a[1..] + b);
      assert Uncomma(a) == head + Uncomma(a[1..]);
    }
  }

  lemma {:induction false} UncommaPlain(s: string)
    requires forall i :: 0 <= i < |s| ==> s[i] != ','
    ensures Uncomma(s) == s
  {
    if s != [] {
      UncommaPlain(s[1..]);
    }
  }

  lemma {:induction false} UncommaGrouped(digits: string)
    requires AllDigits(digits)
    ensures Uncomma(Grouped(digits)) == digits
    decreases |digits|
  {
    if |digits| <= 3 {
      UncommaPlain(digits);
    } else {
      var head, tail := digits[..|digits| - 3], digits[|digits| - 3..];
      UncommaGrouped(head);
      UncommaConcat(Grouped(head) + ",", tail);
      UncommaConcat(Grouped(head), ",");
      UncommaPlain(tail);
      assert head + tail == digits;
    }
  }

  /** Taking the commas out of `{:,}` gives `str(n)` back, and small numbers carry none. */
  lemma ThousandsDigits(n: int)
    ensures Uncomma(Thousands(n)) == Decimal(n)
    ensures -1000 < n < 1000 ==> Thousands(n) == Decimal(n)
  {
    if n < 0 {
      UncommaGrouped(NatDigits(-n));
      UncommaConcat("-", Grouped(NatDigits(-n)));
      UncommaPlain("-");
    } else {
      UncommaGrouped(NatDigits(n));
    }
    if -1000 < n < 1000 {
      NatDigitsShort(if n < 0 then -n else n);
    }
  }

  lemma {:induction false} NatDigitsShort(n: nat)
    requires n < 1000
    ensures |NatDigits(n)| <= 3
  {
    if n >= 10 {
      NatDigitsShort(n / 10);
      if n / 10 >= 10 {
        assert n / 10 / 10 < 10;
      }
    }
  }

  // ---------------------------------------------------------------------
  // The champion's side of the next game
  // ---------------------------------------------------------------------

  /** `next_game['week']` in a reply: the number, or pandas' `nan` for an empty cell. */
  function WeekText(week: Option<int>): string {
    match week
    case Some(w) => Decimal(w)
    case None => "nan"
  }

  function VsAt(home: bool): string {
    if home then "vs" else "at"
  }

  /** A Python value as the reply builders compare them. */
  datatype PyValue = PyNone | PyInt(i: int) | PyStr(s: string)

  /** Python `==` between these values: a text never equals a number, nor `None` anything else. */
  predicate PyEq(a: PyValue, b: PyValue) {
    match (a, b)
    case (PyNone, PyNone) => true
    case (PyInt(x), PyInt(y)) => x == y
    case (PyStr(x), PyStr(y)) => x == y
    case _ => false
  }

  /** `next_game['home_id']`: the home id as text, or `None`. */
  function HomeValue(n: NextGame): PyValue {
    match n.homeId
    case None => PyNone
    case Some(s) => PyStr(s)
  }

  /**
   * As written (commands.py:57, 102; scheduled_posts.py:33, 72):
   * `next_game['home_id'] == champion_id`, the text id of the home side
   * against the champion's numeric id.
   */
  predicate IsHomeAsWritten(n: NextGame, champ: TeamId) {
    PyEq(HomeValue(n), PyInt(champ))
  }

  /** The as-written test never holds: every reply says "at". */
  lemma AsWrittenNeverHome(n: NextGame, champ: TeamId)
    ensures !IsHomeAsWritten(n, champ)
    ensures VsAt(IsHomeAsWritten(n, champ)) == "at"
  {
  }

  /** A home game of champion 5, with the schedule as it reads it. */
  const HomeGame := ScheduleRow(Some(5), Some(7), Some(3), false, 100, None)

  /**
   * For that game the champion is at home, yet the as-written test makes
   * the reply read "at"; the corrected test reads "vs".
   */
  lemma AsWrittenHomeGameReadsAt()
    ensures Involves(HomeGame, 5, 0)
    ensures NextBeltGameOf(Some(5), [HomeGame], [], 0) == Some(Describe(HomeGame, 5, []))
    ensures VsAt(IsHomeAsWritten(Describe(HomeGame, 5, []), 5)) == "at"
    ensures VsAt(IsHome(Describe(HomeGame, 5, []), 5)) == "vs"
  {
    assert Filter([HomeGame], InvolvesChamp(5, 0)) == [HomeGame];
    assert SortBy([HomeGame], StartKey) == Insert(HomeGame, SortBy([], StartKey), StartKey) == [HomeGame];
  }

  /** Corrected: the champion plays at home when the home id is the champion's own, as text. */
  predicate IsHome(n: NextGame, champ: TeamId) {
    n.homeId == Some(Decimal(champ))
  }

  /** The corrected test says "home" exactly when the schedule row has the champion as home side. */
  lemma IsHomeIff(row: ScheduleRow, champ: TeamId, schools: seq<School>)
    ensures IsHome(Describe(row, champ, schools), champ) <==> row.homeId == Some(champ)
  {
    if IsHome(Describe(row, champ, schools), champ) {
      DecimalInjective(row.homeId.value, champ);
    }
  }

  /** For the next game the reply describes, "vs" exactly when the champion is the home side. */
  lemma NextGameVsAt(champ: Option<TeamId>, rows: seq<ScheduleRow>, schools: seq<School>, now: Instant)
    requires NextBeltGameOf(champ, rows, schools, now).Some?
    ensures var n := NextBeltGameOf(champ, rows, schools, now).value;
      exists i :: 0 <= i < |rows| && Involves(rows[i], champ.value, now) && n == Describe(rows[i], champ.value, schools)
        && (VsAt(IsHome(n, champ.value)) == "vs" <==> rows[i].homeId == champ)
  {
    NextBeltGameEarliest(champ, rows, schools, now);
    var n := NextBeltGameOf(champ, rows, schools, now).value;
    var i :| 0 <= i < |rows| && Involves(rows[i], champ.value, now) && n == Describe(rows[i], champ.value, schools);
    IsHomeIff(rows[i], champ.value, schools);
  }
}
