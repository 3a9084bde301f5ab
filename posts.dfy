/**
 * `ScheduledPosts` (scheduled_posts.py): the season week and ordinal
 * helpers, and the three generators the bot posts on its own: the weekly
 * update, the game-day alert and the belt-change announcement.  As with
 * the replies, each generator first decides what the post says (or that
 * there is no post), then the post is rendered to its title and body.
 */
module Posts {
  import opened Wrappers
  import opened Calendar
  import opened Text
  import opened Sorting
  import opened Records
  import opened Directory
  import opened Replay
  import opened Schedule
  import opened Layout

  // ---------------------------------------------------------------------
  // _ordinal (scheduled_posts.py:166-172)
  // ---------------------------------------------------------------------

  /** The suffix `_ordinal` picks; Python's `%` by a positive number never goes negative, like Dafny's. */
  function Suffix(n: int): string {
    if 10 <= n % 100 <= 20 then "th"
    else if n % 10 == 1 then "st"
    else if n % 10 == 2 then "nd"
    else if n % 10 == 3 then "rd"
    else "th"
  }

  function Ordinal(n: int): (s: string)
    ensures |s| == |Decimal(n)| + 2
  {
    Decimal(n) + Suffix(n)
  }

  /** The usual English rule, stated on the last two decimal digits: the teens take "th". */
  function EnglishSuffix(n: nat): string {
    var last, tens := n % 10, n / 10 % 10;
    if tens == 1 then "th"
    else if last == 1 then "st"
    else if last == 2 then "nd"
    else if last == 3 then "rd"
    else "th"
  }

  /** `_ordinal`'s test `10 <= n % 100 <= 20` agrees with the English rule on every count. */
  lemma SuffixIsEnglish(n: nat)
    ensures Suffix(n) == EnglishSuffix(n)
  {
    var r := n % 100;
    assert n == 100 * (n / 100) + r;
    assert n / 10 == 10 * (n / 100) + r / 10;
    assert n / 10 % 10 == r / 10;
    assert n % 10 == r % 10;
  }

  /** The digits before the suffix read back as the number. */
  lemma OrdinalDigits(n: int)
    ensures ParseDecimal(Ordinal(n)[..|Ordinal(n)| - 2]) == Some(n)
    ensures Ordinal(n)[|Ordinal(n)| - 2..] in ["st", "nd", "rd", "th"]
  {
    var digits, suffix := Decimal(n), Suffix(n);
    assert suffix in ["st", "nd", "rd", "th"];
    assert Ordinal(n) == digits + suffix;
    assert Ordinal(n)[..|Ordinal(n)| - 2] == digits;
    assert Ordinal(n)[|Ordinal(n)| - 2..] == suffix;
    ParseDecimalOfDecimal(n);
  }

  lemma OrdinalExamples()
    ensures Ordinal(1) == "1st" && Ordinal(2) == "2nd" && Ordinal(3) == "3rd" && Ordinal(4) == "4th"
    ensures Ordinal(11) == "11th" && Ordinal(12) == "12th" && Ordinal(13) == "13th"
    ensures Ordinal(21) == "21st" && Ordinal(112) == "112th"
  {
    assert NatDigits(112) == NatDigits(11) + ['2'];
  }

  // ---------------------------------------------------------------------
  // _get_week_number (scheduled_posts.py:153-164)
  // ---------------------------------------------------------------------

  /** August 25 of this year, or of the year before when that is still ahead. */
  function SeasonStart(now: Instant): Instant {
    var y := CivilOf(now).year;
    if now < Midnight(y, 8, 25) then Midnight(y - 1, 8, 25) else Midnight(y, 8, 25)
  }

  function Clamp(weeks: int): int {
    if weeks < 0 then 0 else if weeks > 15 then 15 else weeks
  }

  /** Whole weeks since the season start, `//` rounding down, kept within 0..15. */
  function WeekNumber(now: Instant): (w: int)
    ensures 0 <= w <= 15
  {
    Clamp(DaysBetween(now, SeasonStart(now)) / 7)
  }

  /** Within one season the week number never goes back. */
  lemma WeekNumberMonotone(a: Instant, b: Instant)
    requires a <= b && SeasonStart(a) == SeasonStart(b)
    ensures WeekNumber(a) <= WeekNumber(b)
  {
    var start := SeasonStart(a);
    assert (a - start) / SecondsPerDay <= (b - start) / SecondsPerDay;
    assert DaysBetween(a, start) / 7 <= DaysBetween(b, start) / 7;
  }

  /** Seven days on, in the same season, the week number is one more, up to 15. */
  lemma WeekNumberAdvances(t: Instant)
    requires SeasonStart(t) <= t && SeasonStart(t + 7 * SecondsPerDay) == SeasonStart(t)
    ensures WeekNumber(t + 7 * SecondsPerDay) == Clamp(WeekNumber(t) + 1)
  {
    var start := SeasonStart(t);
    assert DaysBetween(t + 7 * SecondsPerDay, start) == DaysBetween(t, start) + 7;
    assert (DaysBetween(t, start) + 7) / 7 == DaysBetween(t, start) / 7 + 1;
  }

  // ---------------------------------------------------------------------
  // The posts
  // ---------------------------------------------------------------------

  datatype Post = Post(title: string, body: string)

  const TrackerUpdateTail: string := "📊 [Updated Tracker](" + WebsiteUrl + ")\n\n"

  /** `generate_weekly_update` (scheduled_posts.py:10-53): what the post shows. */
  datatype Weekly = Weekly(
    week: int,
    champion: string,
    since: Option<Instant>,
    daysHeld: int,
    defenses: nat,
    next: Option<NextGame>,
    home: bool,
    onTheLine: bool)

  function WeeklyUpdateOf(s: Snapshot): Option<Weekly> {
    var c := ChampionOf(s);
    if !Truthy(c.id) then None
    else
      var next := NextOf(s);
      Some(Weekly(
        WeekNumber(s.now),
        TeamName(s.schools, c.id.value),
        c.reignStart,
        if c.reignStart.Some? then DaysBetween(s.now, c.reignStart.value) else 0,
        c.defenses,
        next,
        next.Some? && IsHome(next.value, c.id.value),
        next.Some? && DaysBetween(next.value.date, s.now) <= 3))
  }

  const OnTheLineBanner: string := "**🔥 THE BELT IS ON THE LINE THIS WEEK!**\n\n"

  function RenderWeekly(u: Weekly): (p: Post)
    ensures u.onTheLine ==> IsSubstring(OnTheLineBanner, p.body)
  {
    var head :=
      "# 🏆 Current Champion: " + u.champion + "\n\n"
      + "**📅 Held Since:** " + (if u.since.Some? then LongDate(u.since.value) else "Unknown") + "\n\n"
      + "**⏱️ Days Held:** " + Decimal(u.daysHeld) + "\n\n"
      + "**🛡️ Defenses This Reign:** " + Decimal(u.defenses) + "\n\n"
      + (match u.next
         case Some(n) =>
           "## ⚔️ Next Belt Game\n\n"
           + "**Week " + WeekText(n.week) + ":** " + u.champion + " " + VsAt(u.home) + " " + n.opponentName + "\n\n"
           + "**📅 Date:** " + WeekdayMonthDay(n.date) + "\n\n"
           + "**🏟️ Location:** " + n.location + "\n\n"
         case None => "");
    var banner := if u.onTheLine then OnTheLineBanner else "";
    var tail :=
      "---\n\n"
      + "## 📖 What is the Linear Championship Belt?\n\n"
      + "The belt started with the first college football game ever played (Rutgers beat Princeton, 6-4, on November 6, 1869). "
      + "It passes from winner to winner, like a boxing championship belt. Only the team that beats the current holder can win it!\n\n"
      + "📊 [Full Tracker & History](" + WebsiteUrl + ")\n\n"
      + "🏆 Rutgers started this. We're just tracking it.";
    SubstringOfConcat(head, banner, tail);
    Post("📢 CFB Linear Championship Belt Update - Week " + Decimal(u.week), head + banner + tail)
  }

  /** `p in a + p + b`. */
  lemma {:induction false} SubstringOfConcat(a: string, p: string, b: string)
    ensures IsSubstring(p, a + p + b)
    decreases |a|
  {
    if a == [] {
      assert a + p + b == p + b;
      assert p <= p + b;
    } else {
      SubstringOfConcat(a[1..], p, b);
      assert (a + p + b)[1..] == a[1..] + p + b;
    }
  }

  /**
   * The weekly update is posted exactly when there is a champion; it
   * carries the "on the line" banner exactly when the champion's next game
   * is at most three days away.
   */
  lemma WeeklyGates(s: Snapshot)
    ensures WeeklyUpdateOf(s).None? <==> !Truthy(ChampionOf(s).id)
    ensures WeeklyUpdateOf(s).Some? ==>
      && (WeeklyUpdateOf(s).value.onTheLine <==> NextOf(s).Some? && DaysBetween(NextOf(s).value.date, s.now) <= 3)
      && WeeklyUpdateOf(s).value.next == NextOf(s)
      && 0 <= WeeklyUpdateOf(s).value.week <= 15
  {
  }

  /** `generate_game_day_alert` (scheduled_posts.py:55-88): what the post shows. */
  datatype Alert = Alert(champion: string, defenses: nat, game: NextGame, home: bool)

  function GameDayAlertOf(s: Snapshot): Option<Alert> {
    var c := ChampionOf(s);
    match NextOf(s)
    case None => None
    case Some(n) =>
      if DayOf(n.date) != DayOf(s.now) then None
      else Some(Alert(SchoolName(s.schools, IdText(c.id)), c.defenses, n, c.id.Some? && IsHome(n, c.id.value)))
  }

  function RenderAlert(a: Alert): Post {
    Post("⚔️ THE BELT IS ON THE LINE TODAY! ⚔️",
      "# 🏆 " + a.champion + " " + VsAt(a.home) + " " + a.game.opponentName + "\n\n"
      + "**Current Champion:** " + a.champion + " (" + Decimal(a.defenses) + " defenses this reign)\n\n"
      + "**Location:** " + a.game.location + "\n\n"
      + "**Week:** " + WeekText(a.game.week) + "\n\n"
      + "---\n\n"
      + "Will " + a.champion + " defend the belt, or will " + a.game.opponentName + " become the new champion?\n\n"
      + "📊 [Live Tracker](" + WebsiteUrl + ")\n\n"
      + "🏆 Rutgers started this in 1869. Who's got it next?")
  }

  /**
   * The alert is posted exactly when the champion's next game falls on
   * today's date; it is then a game of a champion, still ahead of now.
   */
  lemma AlertGates(s: Snapshot)
    ensures GameDayAlertOf(s).Some? <==> NextOf(s).Some? && DayOf(NextOf(s).value.date) == DayOf(s.now)
    ensures GameDayAlertOf(s).Some? ==>
      && Truthy(ChampionOf(s).id)
      && GameDayAlertOf(s).value.game == NextOf(s).value
      && GameDayAlertOf(s).value.game.date > s.now
      && GameDayAlertOf(s).value.champion == TeamName(s.schools, ChampionOf(s).id.value)
  {
    if NextOf(s).Some? {
      NextBeltGameEarliest(ChampionOf(s).id, s.rows, s.schools, s.now);
    }
  }

  /** `generate_belt_change_announcement` (scheduled_posts.py:90-125): what the post shows. */
  datatype BeltChange = BeltChange(
    newName: string,
    oldName: string,
    score: Option<string>,
    oldRecord: TeamHistory,
    newRecord: TeamHistory)

  /** `if score:` — a score is shown when one is given and it is not empty. */
  predicate ScoreShown(score: Option<string>) {
    score.Some? && score.value != ""
  }

  /** `None` is the `ValueError` the history lookup raises for a non-numeric id. */
  function BeltChangeOf(s: Snapshot, newId: string, oldId: string, score: Option<string>): Option<BeltChange> {
    match BeltHistoryFor(s.games, s.schools, oldId, s.now)
    case None => None
    case Some(oldRecord) =>
      match BeltHistoryFor(s.games, s.schools, newId, s.now)
      case None => None
      case Some(newRecord) =>
        Some(BeltChange(SchoolName(s.schools, Some(newId)), SchoolName(s.schools, Some(oldId)), score, oldRecord, newRecord))
  }

  function ScoreText(score: Option<string>): string {
    if ScoreShown(score) then " " + score.value else ""
  }

  /** The line naming how many times the new champion has held the belt. */
  function TimesLine(b: BeltChange): string {
    "This is " + b.newName + "'s **" + Ordinal(b.newRecord.totalReigns) + " time** holding the belt!\n\n"
  }

  function RenderBeltChange(b: BeltChange): (p: Post)
    ensures !ScoreShown(b.score) ==> p.title == "🚨 BELT CHANGE! 🚨 " + b.newName + " defeats " + b.oldName
    ensures ScoreShown(b.score) ==> EndsWith(p.title, " " + b.score.value)
    ensures IsSubstring(TimesLine(b), p.body)
  {
    var title := "🚨 BELT CHANGE! 🚨 " + b.newName + " defeats " + b.oldName;
    EndsWithConcat(title, ScoreText(b.score));
    var head :=
      "# 🏆 NEW CHAMPION: " + b.newName + "!\n\n"
      + (if ScoreShown(b.score) then "**Final Score:** " + b.newName + " defeats " + b.oldName + ScoreText(b.score) + "\n\n" else "")
      + "**Previous Champion:** " + b.oldName + "\n\n"
      + "**Reign Duration:** " + Decimal(b.oldRecord.bestReignDays) + " days\n\n"
      + "**Defenses:** " + Decimal(b.oldRecord.totalDefenses) + "\n\n"
      + "---\n\n";
    var tail :=
      (if b.newRecord.totalReigns > 1
       then "**All-Time:** " + Thousands(b.newRecord.totalDays) + " days held, " + Decimal(b.newRecord.totalDefenses) + " defenses\n\n"
       else "")
      + TrackerUpdateTail
      + "🏆 The belt lives on!";
    SubstringOfConcat(head, TimesLine(b), tail);
    Post(title + ScoreText(b.score), head + TimesLine(b) + tail)
  }

  /**
   * The announcement's ordinal counts the new champion's belt-change wins,
   * and the post exists unless a history lookup raises.
   */
  lemma BeltChangeFacts(s: Snapshot, newId: string, oldId: string, score: Option<string>)
    ensures BeltChangeOf(s, newId, oldId, score).None? <==>
      s.games != [] && (ParseDecimal(oldId).None? || ParseDecimal(newId).None?)
    ensures BeltChangeOf(s, newId, oldId, score).Some? && s.games != [] ==>
      BeltChangeOf(s, newId, oldId, score).value.newRecord.totalReigns
        == Count(s.games, BeltWinBy(ParseDecimal(newId).value))
    ensures BeltChangeOf(s, newId, oldId, score).Some? && s.games == [] ==>
      Ordinal(BeltChangeOf(s, newId, oldId, score).value.newRecord.totalReigns) == "0th"
  {
    if s.games != [] && ParseDecimal(newId).Some? {
      TeamHistoryFacts(s.games, s.schools, ParseDecimal(newId).value, s.now);
    }
  }
}
