/**
 * `CommandHandler` (commands.py): the router that turns a comment's text
 * into one of the bot's commands, and the replies each command builds from
 * the fetcher's answers.  A reply is first described by the branch it takes
 * and the values it shows (`Reply`), then rendered to the exact text the
 * source assembles.
 */
module Commands {
  import opened Wrappers
  import opened Calendar
  import opened Text
  import opened Sorting
  import opened Records
  import opened Directory
  import opened Replay
  import opened Schedule
  import opened Layout

  /** `config.COMMAND_TRIGGERS`. */
  const CommandTriggers: seq<string> := ["!beltbot", "!belt"]

  datatype Command = StatusCommand | HelpCommand | NextCommand | StatsCommand | HistoryCommand(team: Option<string>)

  // ---------------------------------------------------------------------
  // Routing (commands.py:11-36)
  // ---------------------------------------------------------------------

  /** `command_text.lower().strip().split()`. */
  function Parts(text: string): seq<string> {
    Words(Strip(Lower(text)))
  }

  /** The words after the first `k`, joined by single spaces, when there are any. */
  function TeamArgument(parts: seq<string>, k: nat): Option<string> {
    if |parts| > k then Some(JoinWith(parts[k..], " ")) else None
  }

  /** The dispatch on the split words. */
  function RouteParts(parts: seq<string>): Command {
    if parts == [] then StatusCommand
    else
      var triggered := parts[0] in CommandTriggers;
      var sub := if !triggered then parts[0] else if |parts| > 1 then parts[1] else "";
      if sub == "help" then HelpCommand
      else if sub == "next" then NextCommand
      else if sub == "stats" then StatsCommand
      else if sub == "history" then HistoryCommand(TeamArgument(parts, if triggered then 2 else 1))
      else StatusCommand
  }

  function Route(text: string): Command {
    RouteParts(Parts(text))
  }

  /** Lower-casing keeps white space where it is and nowhere else. */
  lemma LowerSpaces(s: string)
    ensures forall i :: 0 <= i < |s| ==> (IsSpace(Lower(s)[i]) <==> IsSpace(s[i]))
  {
  }

  /** A comment with no words, and only such a comment, splits into nothing; it gets the status reply. */
  lemma RouteBlank(text: string)
    ensures Parts(text) == [] <==> forall i :: 0 <= i < |text| ==> IsSpace(text[i])
    ensures (forall i :: 0 <= i < |text| ==> IsSpace(text[i])) ==> Route(text) == StatusCommand
  {
    var low := Lower(text);
    LowerSpaces(text);
    StripBlank(low);
    WordsEmpty(Strip(low));
  }

  /** A leading trigger word is skipped: `!beltbot stats` routes as `stats` does. */
  lemma TriggerSkipped(t: string, ws: seq<string>)
    requires t in CommandTriggers
    requires ws != [] && ws[0] !in CommandTriggers
    ensures RouteParts([t] + ws) == RouteParts(ws)
  {
    var parts := [t] + ws;
    assert parts[1] == ws[0];
    assert parts[2..] == ws[1..];
  }

  /** A trigger alone, or followed by a word that is no command, gets the status reply. */
  lemma UnknownIsStatus(parts: seq<string>)
    requires parts != []
    requires var sub := if parts[0] !in CommandTriggers then parts[0] else if |parts| > 1 then parts[1] else "";
      sub != "help" && sub != "next" && sub != "stats" && sub != "history"
    ensures RouteParts(parts) == StatusCommand
  {
  }

  /**
   * `history` carries the words that follow it: none gives no team name,
   * otherwise the name splits back into exactly those words.
   */
  lemma {:induction false} HistoryArgument(parts: seq<string>, k: nat)
    requires forall i :: 0 <= i < |parts| ==> IsWord(parts[i])
    requires k == 1 || k == 2
    requires |parts| >= k && parts[k - 1] == "history"
    requires k == 2 <==> parts[0] in CommandTriggers
    ensures RouteParts(parts).HistoryCommand?
    ensures RouteParts(parts).team.None? <==> |parts| == k
    ensures RouteParts(parts).team.Some? ==> Words(RouteParts(parts).team.value) == parts[k..]
    ensures RouteParts(parts).team.Some? ==> RouteParts(parts).team.value != ""
  {
    if |parts| > k {
      var rest := parts[k..];
      assert forall i :: 0 <= i < |rest| ==> IsWord(rest[i]) by {
        forall i | 0 <= i < |rest| ensures IsWord(rest[i]) {
          assert rest[i] == parts[k + i];
        }
      }
      WordsOfJoin(rest);
    }
  }

  // ---------------------------------------------------------------------
  // Replies
  // ---------------------------------------------------------------------

  /** The countdown line of the next-game reply (commands.py:114-120). */
  datatype Countdown = Today | Tomorrow | DaysAway(days: int) | NoCountdown

  function CountdownOf(days: int): Countdown {
    if days == 0 then Today
    else if days == 1 then Tomorrow
    else if days > 1 then DaysAway(days)
    else NoCountdown
  }

  /** The branch a handler takes and the values its text shows. */
  datatype Reply =
    | NoBeltData
    | StatusReply(champion: string, since: Option<Instant>, daysHeld: int, defenses: nat, next: Option<NextGame>, home: bool)
    | HelpReply
    | NoGameReply(champion: string)
    | NextGameReply(champion: string, defenses: nat, game: NextGame, home: bool, countdown: Countdown)
    | NoStatsReply
    | StatsReply(champion: string, defenses: nat, stats: Stats)
    | NeedTeamReply
    | NoMatchReply(query: string)
    | NeverHeldReply(team: string)
    | HistoryReply(team: string, history: TeamHistory)

  /** `get_current_status` (commands.py:38-68). */
  function CurrentStatus(s: Snapshot): Reply {
    var c := ChampionOf(s);
    if !Truthy(c.id) then NoBeltData
    else
      var next := NextOf(s);
      StatusReply(TeamName(s.schools, c.id.value), c.reignStart,
                  if c.reignStart.Some? then DaysBetween(s.now, c.reignStart.value) else 0,
                  c.defenses, next, next.Some? && IsHome(next.value, c.id.value))
  }

  /** `get_next_game` (commands.py:88-122). */
  function NextGameInfo(s: Snapshot): Reply {
    var c := ChampionOf(s);
    if !Truthy(c.id) then NoBeltData
    else
      var name := TeamName(s.schools, c.id.value);
      match NextOf(s)
      case None => NoGameReply(name)
      case Some(n) =>
        NextGameReply(name, c.defenses, n, IsHome(n, c.id.value), CountdownOf(DaysBetween(n.date, s.now)))
  }

  /** `get_stats` (commands.py:124-147). */
  function StatsInfo(s: Snapshot): Reply {
    var c := ChampionOf(s);
    match OverallStatsOf(s.games, s.now)
    case None => NoStatsReply
    case Some(st) =>
      StatsReply(if Truthy(c.id) then TeamName(s.schools, c.id.value) else "Unknown", c.defenses, st)
  }

  /**
   * `get_team_history` (commands.py:149-188).  `None` is the `ValueError`
   * the fetcher raises for a school whose id is not a number.
   */
  function TeamHistoryInfo(s: Snapshot, team: Option<string>): Option<Reply> {
    if team.None? || team.value == "" then Some(NeedTeamReply)
    else
      match FindTeam(s.schools, team.value)
      case None => Some(NoMatchReply(team.value))
      case Some(school) =>
        match BeltHistoryFor(s.games, s.schools, school.id, s.now)
        case None => None
        case Some(h) => Some(if h.totalReigns == 0 then NeverHeldReply(school.name) else HistoryReply(school.name, h))
  }

  function Respond(cmd: Command, s: Snapshot): Option<Reply> {
    match cmd
    case StatusCommand => Some(CurrentStatus(s))
    case HelpCommand => Some(HelpReply)
    case NextCommand => Some(NextGameInfo(s))
    case StatsCommand => Some(StatsInfo(s))
    case HistoryCommand(team) => TeamHistoryInfo(s, team)
  }

  // ---------------------------------------------------------------------
  // Reply texts
  // ---------------------------------------------------------------------

  function TrackerLink(caption: string): string {
    "[" + caption + "](" + WebsiteUrl + ")"
  }

  function CountdownText(c: Countdown): string {
    match c
    case Today => "🔥 **THE BELT IS ON THE LINE TODAY!**\n\n"
    case Tomorrow => "⏰ Tomorrow!\n\n"
    case DaysAway(d) => "⏰ " + Decimal(d) + " days away\n\n"
    case NoCountdown => ""
  }

  /** `**Label:** value` lines of the history reply that appear only for a truthy value. */
  function OptionalLine(caption: string, value: Option<string>): string {
    if value.Some? && value.value != "" then "**" + caption + ":** " + value.value + "\n\n" else ""
  }

  const HelpText: string :=
    "🏆 **CFB Belt Bot Commands**\n\n"
    + "**Available Commands:**\n\n"
    + "• `!beltbot` - Current belt status\n\n"
    + "• `!beltbot next` - Next belt game\n\n"
    + "• `!beltbot stats` - Overall belt statistics\n\n"
    + "• `!beltbot history [team]` - Team's belt history\n\n"
    + "• `!beltbot help` - This help message\n\n"
    + "---\n\n"
    + "**Need Help?**\n\n"
    + "• Full Tracker: " + WebsiteUrl + "\n\n"
    + "• Report bugs or data issues: [GitHub Issues](https://github.com/raypratt/cfb-beltbot/issues)\n\n"
    + "• Source code: [GitHub](https://github.com/raypratt/cfb-beltbot)"

  function StatusText(champion: string, since: Option<Instant>, daysHeld: int, defenses: nat, next: Option<NextGame>, home: bool): string {
    "🏆 **CFB Linear Championship Belt Status**\n\n"
    + "**Current Champion:** " + champion + "\n\n"
    + "**Held Since:** " + (if since.Some? then LongDate(since.value) else "Unknown")
    + " (" + Decimal(daysHeld) + " days)\n\n"
    + "**Defenses This Reign:** " + Decimal(defenses) + "\n\n"
    + (match next
       case Some(n) =>
         "**Next Game:** Week " + WeekText(n.week) + " - "
         + MonthDay(n.date) + " " + VsAt(home) + " " + n.opponentName + "\n\n"
       case None => "**Next Game:** Schedule TBD\n\n")
    + TrackerLink("View full tracker")
  }

  function NextGameText(champion: string, defenses: nat, n: NextGame, home: bool, countdown: Countdown): string {
    "🏆 **Next Belt Game**\n\n"
    + "**" + champion + "** (" + Decimal(defenses) + " defenses) " + VsAt(home) + " **" + n.opponentName + "**\n\n"
    + "📅 " + FullDate(n.date) + "\n\n"
    + "🏟️ " + n.location + "\n\n"
    + "Week " + WeekText(n.week) + "\n\n"
    + CountdownText(countdown)
    + TrackerLink("Live tracker")
  }

  function StatsText(champion: string, defenses: nat, st: Stats): string {
    "📊 **CFB Linear Championship Belt Statistics**\n\n"
    + "**Current Champion:** " + champion + " (" + Decimal(defenses) + " defenses)\n\n"
    + "**Belt Established:** November 6, 1869 (Rutgers beat Princeton 6-4)\n\n"
    + "**Days Since Start:** " + Thousands(st.daysSinceStart) + "\n\n"
    + "**Total Belt Games:** " + Thousands(st.totalGames) + "\n\n"
    + "**Belt Changes:** " + Thousands(st.totalChanges) + "\n\n"
    + "**Defenses:** " + Thousands(st.totalGames - st.totalChanges) + "\n\n"
    + TrackerLink("Full statistics")
  }

  function HistoryText(team: string, h: TeamHistory): string {
    "📊 **" + team + " Belt History**\n\n"
    + "**Total Reigns:** " + Decimal(h.totalReigns) + "\n\n"
    + "**Total Days Held:** " + Thousands(h.totalDays) + "\n\n"
    + "**Total Defenses:** " + Decimal(h.totalDefenses) + "\n\n"
    + "**Longest Reign:** " + Thousands(h.bestReignDays) + " days\n\n"
    + (if h.lastHeld.Some? then "**Last Held:** " + LongDate(h.lastHeld.value) + "\n\n" else "")
    + OptionalLine("Last Won From", h.lastWonFrom)
    + OptionalLine("Last Lost To", h.lastLostTo)
    + TrackerLink("Full history")
  }

  /** The text of a reply before the signature. */
  function Body(r: Reply): string {
    match r
    case NoBeltData => "Unable to fetch belt data right now. Try again later!"
    case StatusReply(champion, since, daysHeld, defenses, next, home) =>
      StatusText(champion, since, daysHeld, defenses, next, home)
    case HelpReply => HelpText
    case NoGameReply(champion) =>
      "🏆 **Next Belt Game**\n\n" + champion + " holds the belt, but no upcoming games are scheduled yet."
    case NextGameReply(champion, defenses, n, home, countdown) =>
      NextGameText(champion, defenses, n, home, countdown)
    case NoStatsReply => "Unable to fetch belt statistics right now. Try again later!"
    case StatsReply(champion, defenses, st) => StatsText(champion, defenses, st)
    case NeedTeamReply => "Please specify a team! Example: `!beltbot history Michigan`"
    case NoMatchReply(query) => "Couldn't find a team matching '" + query + "'. Try a different spelling!"
    case NeverHeldReply(team) =>
      "📊 **" + team + " Belt History**\n\n" + team + " has never held the belt... yet! 🏆"
    case HistoryReply(team, h) => HistoryText(team, h)
  }

  /** Every reply, on every branch, ends with the bot's signature. */
  function Render(r: Reply): (text: string)
    ensures EndsWith(text, BotSignature)
  {
    EndsWithConcat(Body(r), BotSignature);
    Body(r) + BotSignature
  }

  /** `handle_command`: the reply text, or `None` where the source raises. */
  function HandleCommand(text: string, s: Snapshot): (reply: Option<string>)
    ensures reply.Some? ==> EndsWith(reply.value, BotSignature)
  {
    match Respond(Route(text), s)
    case None => None
    case Some(r) => Some(Render(r))
  }

  // ---------------------------------------------------------------------
  // What the replies promise
  // ---------------------------------------------------------------------

  /** Only a history request naming a school with a non-numeric id fails to get a reply. */
  lemma RespondFails(cmd: Command, s: Snapshot)
    ensures Respond(cmd, s).None? <==>
      && cmd.HistoryCommand? && cmd.team.Some? && cmd.team.value != ""
      && FindTeam(s.schools, cmd.team.value).Some?
      && s.games != [] && ParseDecimal(FindTeam(s.schools, cmd.team.value).value.id).None?
  {
    if cmd.HistoryCommand? && cmd.team.Some? && cmd.team.value != "" && FindTeam(s.schools, cmd.team.value).Some? {
      var school := FindTeam(s.schools, cmd.team.value).value;
      assert TeamHistoryInfo(s, cmd.team).None? <==> BeltHistoryFor(s.games, s.schools, school.id, s.now).None?;
    }
  }

  /**
   * The status reply: no champion (no belt-change game, or a champion id of
   * 0) gives the no-data reply; otherwise it reports the winner of
   * the latest belt change, the days since that game and the next game.
   */
  lemma StatusFacts(s: Snapshot)
    ensures CurrentStatus(s) == NoBeltData <==> !Truthy(ChampionOf(s).id)
    ensures (forall i :: 0 <= i < |s.games| ==> !s.games[i].beltChange) ==> CurrentStatus(s) == NoBeltData
    ensures CurrentStatus(s).StatusReply? ==>
      && CurrentStatus(s).since == ChampionOf(s).reignStart
      && CurrentStatus(s).since.Some?
      && CurrentStatus(s).daysHeld == DaysBetween(s.now, CurrentStatus(s).since.value)
      && CurrentStatus(s).next == NextOf(s)
  {
  }

  /** The next-game reply always carries a countdown line: the game is after now. */
  lemma NextGameCountdown(s: Snapshot)
    requires NextGameInfo(s).NextGameReply?
    ensures NextGameInfo(s).countdown != NoCountdown
    ensures NextGameInfo(s).countdown == Today <==> DaysBetween(NextGameInfo(s).game.date, s.now) == 0
    ensures NextGameInfo(s).game.date > s.now
  {
    NextBeltGameEarliest(ChampionOf(s).id, s.rows, s.schools, s.now);
    DaysBetweenSign(NextGameInfo(s).game.date, s.now);
  }

  /**
   * The defenses the stats reply shows, `total_games - total_changes`, are
   * the defenses `get_overall_stats` counted.
   */
  lemma StatsDefenses(s: Snapshot)
    ensures StatsInfo(s) == NoStatsReply <==> s.games == []
    ensures StatsInfo(s).StatsReply? ==>
      StatsInfo(s).stats.totalGames - StatsInfo(s).stats.totalChanges == StatsInfo(s).stats.totalDefenses
  {
    OverallStatsFacts(s.games, s.now);
  }

  /**
   * The gates of the history reply (commands.py:151-164): no name asks for
   * one; a name no school matches is reported as such; a school that never
   * won a belt-change game has never held the belt; otherwise the reply
   * carries the school's record.
   */
  lemma HistoryGates(s: Snapshot, team: Option<string>)
    ensures team.None? || team == Some("") ==> TeamHistoryInfo(s, team) == Some(NeedTeamReply)
    ensures team.Some? && team.value != "" && FindTeam(s.schools, team.value).None? ==>
      TeamHistoryInfo(s, team) == Some(NoMatchReply(team.value))
    ensures team.Some? && team.value != "" && FindTeam(s.schools, team.value).Some? ==>
      var e := FindTeam(s.schools, team.value).value;
      && e in s.schools
      && (TeamHistoryInfo(s, team) == Some(NeverHeldReply(e.name)) <==>
            s.games == [] || (ParseDecimal(e.id).Some? && Count(s.games, BeltWinBy(ParseDecimal(e.id).value)) == 0))
      && (TeamHistoryInfo(s, team).Some? && TeamHistoryInfo(s, team).value.HistoryReply? ==>
            && ParseDecimal(e.id).Some?
            && TeamHistoryInfo(s, team).value == HistoryReply(e.name, TeamHistoryOf(s.games, s.schools, ParseDecimal(e.id).value, s.now))
            && TeamHistoryInfo(s, team).value.history.totalReigns == Count(s.games, BeltWinBy(ParseDecimal(e.id).value)) > 0)
  {
    if team.Some? && team.value != "" && FindTeam(s.schools, team.value).Some? {
      var school := FindTeam(s.schools, team.value).value;
      if s.games != [] && ParseDecimal(school.id).Some? {
        TeamHistoryFacts(s.games, s.schools, ParseDecimal(school.id).value, s.now);
      }
    }
  }
}
