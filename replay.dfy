/**
 * The replays of `BeltDataFetcher` (data_fetcher.py): each walks the games
 * table in date order and derives one fact about the belt.  Every replay is
 * a specification function (a left fold over the date-sorted games) and a
 * method with the source's loop, proved equal to it; the lemmas state what
 * the replays promise.
 */
module Replay {
  import opened Wrappers
  import opened Calendar
  import opened Sorting
  import opened Records
  import opened Directory
  import opened Text

  /** `games.sort_values('date')` (stable: same-date games keep table order). */
  function ByDate(games: seq<Game>): seq<Game> {
    SortBy(games, DateKey)
  }

  lemma ByDateFacts(games: seq<Game>)
    ensures SortedBy(ByDate(games), DateKey)
    ensures |ByDate(games)| == |games|
    ensures forall g :: g in ByDate(games) <==> g in games
  {
    SortByFacts(games, DateKey);
    SortByMembers(games, DateKey);
  }

  function Max(a: int, b: int): int {
    if a >= b then a else b
  }

  predicate IsBelt(g: Game) {
    g.beltChange
  }

  predicate IsPlain(g: Game) {
    !g.beltChange
  }

  // ---------------------------------------------------------------------
  // get_current_champion
  // ---------------------------------------------------------------------

  /** `(champion_id, reign_start, defenses)`. */
  datatype Champion = Champion(id: Option<TeamId>, reignStart: Option<Instant>, defenses: nat)

  const NoChampion := Champion(None, None, 0)

  /**
   * Index of the latest-dated belt-change game (the first such in table
   * order among equal dates), or `|games|` when there is none.
   */
  function LatestBeltIndex(games: seq<Game>): (k: nat)
    ensures k <= |games|
    ensures k == |games| <==> forall i :: 0 <= i < |games| ==> !games[i].beltChange
    ensures k < |games| ==> games[k].beltChange
    ensures k < |games| ==> forall i :: 0 <= i < |games| && games[i].beltChange ==> games[i].date <= games[k].date
    ensures k < |games| ==> forall i :: 0 <= i < k && games[i].beltChange ==> games[i].date < games[k].date
  {
    if games == [] then 0
    else
      var j := LatestBeltIndex(games[1..]);
      assert forall i :: 0 < i < |games| ==> games[i] == games[1..][i - 1];
      if !games[0].beltChange then j + 1
      else if j + 1 < |games| && games[j + 1].date > games[0].date then j + 1
      else 0
  }

  /** The games dated from the start of the reign up to now, in date order. */
  function Window(sorted: seq<Game>, start: Instant, now: Instant): seq<Game> {
    Filter(sorted, (g: Game) => start <= g.date <= now)
  }

  /**
   * The defense count of data_fetcher.py:172-179: wins by the champion dated
   * after the reign start, up to the first game the champion loses.
   */
  function DefensesIn(w: seq<Game>, champ: TeamId, start: Instant): nat {
    if w == [] then 0
    else if w[0].winnerId == champ then (if w[0].date > start then 1 else 0) + DefensesIn(w[1..], champ, start)
    else if w[0].loserId == champ then 0
    else DefensesIn(w[1..], champ, start)
  }

  function WinAfter(champ: TeamId, start: Instant): Game -> bool {
    (g: Game) => g.winnerId == champ && g.date > start
  }

  function CurrentChampionOf(games: seq<Game>, now: Instant): Champion {
    var k := LatestBeltIndex(games);
    if k == |games| then NoChampion
    else
      var g := games[k];
      Champion(Some(g.winnerId), Some(g.date), DefensesIn(Window(ByDate(games), g.date, now), g.winnerId, g.date))
  }

  /** Defenses never exceed the champion's wins after the start in the window. */
  lemma {:induction false} DefensesAtMostWins(w: seq<Game>, champ: TeamId, start: Instant)
    ensures DefensesIn(w, champ, start) <= Count(w, WinAfter(champ, start))
  {
    if w != [] {
      DefensesAtMostWins(w[1..], champ, start);
    }
  }

  /** With no loss by the champion in the window, every win after the start is a defense. */
  lemma {:induction false} DefensesWithoutLoss(w: seq<Game>, champ: TeamId, start: Instant)
    requires forall i :: 0 <= i < |w| && w[i].loserId == champ ==> w[i].winnerId == champ
    ensures DefensesIn(w, champ, start) == Count(w, WinAfter(champ, start))
  {
    if w != [] {
      DefensesWithoutLoss(w[1..], champ, start);
    }
  }

  /** Nothing from the champion's first unflagged loss on is counted. */
  lemma {:induction false} DefensesStopAtLoss(w: seq<Game>, champ: TeamId, start: Instant, j: nat)
    requires j < |w| && w[j].loserId == champ && w[j].winnerId != champ
    ensures DefensesIn(w, champ, start) == DefensesIn(w[..j], champ, start)
  {
    if j > 0 {
      assert w[1..][..j - 1] == w[..j][1..];
      DefensesStopAtLoss(w[1..], champ, start, j - 1);
    }
  }

  /** data_fetcher.py:145-181, over the fetched games table. */
  method CurrentChampion(games: seq<Game>, now: Instant) returns (c: Champion)
    ensures c == CurrentChampionOf(games, now)
    ensures c.id.None? <==> forall i :: 0 <= i < |games| ==> !games[i].beltChange
    ensures c.id.None? ==> c == NoChampion
    ensures c.id.Some? ==>
      exists i ::
        && 0 <= i < |games| && games[i].beltChange
        && c.id == Some(games[i].winnerId) && c.reignStart == Some(games[i].date)
        && forall j :: 0 <= j < |games| && games[j].beltChange ==> games[j].date <= games[i].date
    ensures c.id.Some? ==>
      c.defenses <= Count(Window(ByDate(games), c.reignStart.value, now), WinAfter(c.id.value, c.reignStart.value))
  {
    if |games| == 0 {
      return NoChampion;
    }
    var k := LatestBeltIndex(games);
    if k == |games| {
      return NoChampion;
    }
    var champion := games[k].winnerId;
    var reignStart := games[k].date;
    var window := Window(ByDate(games), reignStart, now);
    var defenses: nat := 0;
    var i := 0;
    while i < |window|
      invariant 0 <= i <= |window|
      invariant defenses + DefensesIn(window[i..], champion, reignStart) == DefensesIn(window, champion, reignStart)
    {
      var game := window[i];
      assert window[i..][1..] == window[i + 1..];
      if game.winnerId == champion {
        if game.date > reignStart {
          defenses := defenses + 1;
        }
      } else if game.loserId == champion {
        break;
      }
      i := i + 1;
    }
    c := Champion(Some(champion), Some(reignStart), defenses);
    DefensesAtMostWins(window, champion, reignStart);
  }

  // ---------------------------------------------------------------------
  // get_team_belt_history
  // ---------------------------------------------------------------------

  /** The dict `get_team_belt_history` returns. */
  datatype TeamHistory = TeamHistory(
    totalReigns: nat,
    totalDays: int,
    totalDefenses: nat,
    bestReignDays: int,
    lastHeld: Option<Instant>,
    lastWonFrom: Option<string>,
    lastLostTo: Option<string>)

  const NoHistory := TeamHistory(0, 0, 0, 0, None, None, None)

  /** The loop's locals: the accumulated answer and the tracked champion. */
  datatype Tracker = Tracker(h: TeamHistory, current: Option<TeamId>, reignStart: Option<Instant>)

  /** While the team is the tracked champion its reign start is known. */
  ghost predicate TrackerOk(tr: Tracker, team: TeamId) {
    tr.current == Some(team) ==> tr.reignStart.Some?
  }

  function BeltWinBy(team: TeamId): Game -> bool {
    (g: Game) => g.beltChange && g.winnerId == team
  }

  function PlainWinBy(team: TeamId): Game -> bool {
    (g: Game) => !g.beltChange && g.winnerId == team
  }

  /** One iteration of data_fetcher.py:258-289. */
  function HistoryStep(tr: Tracker, g: Game, team: TeamId, schools: seq<School>): (r: Tracker)
    requires TrackerOk(tr, team)
    ensures TrackerOk(r, team)
  {
    if g.beltChange then
      if g.winnerId == team then
        Tracker(tr.h.(totalReigns := tr.h.totalReigns + 1, lastWonFrom := Some(TeamName(schools, g.loserId))),
                Some(team), Some(g.date))
      else if g.loserId == team && tr.current == Some(team) then
        var days := DaysBetween(g.date, tr.reignStart.value);
        Tracker(tr.h.(totalDays := tr.h.totalDays + days,
                      bestReignDays := Max(tr.h.bestReignDays, days),
                      lastHeld := Some(g.date),
                      lastLostTo := Some(TeamName(schools, g.winnerId))),
                Some(g.winnerId), None)
      else
        tr.(current := Some(g.winnerId))
    else if tr.current == Some(team) && g.winnerId == team then
      tr.(h := tr.h.(totalDefenses := tr.h.totalDefenses + 1))
    else
      tr
  }

  const StartTracker := Tracker(NoHistory, None, None)

  function HistoryFold(gs: seq<Game>, team: TeamId, schools: seq<School>): (r: Tracker)
    ensures TrackerOk(r, team)
  {
    if gs == [] then StartTracker
    else HistoryStep(HistoryFold(gs[..|gs| - 1], team, schools), gs[|gs| - 1], team, schools)
  }

  /** data_fetcher.py:292-296: an open reign of the team runs until now. */
  function HistoryClose(tr: Tracker, team: TeamId, now: Instant): TeamHistory
    requires TrackerOk(tr, team)
  {
    if tr.current == Some(team) && tr.reignStart.Some? then
      var days := DaysBetween(now, tr.reignStart.value);
      tr.h.(totalDays := tr.h.totalDays + days, bestReignDays := Max(tr.h.bestReignDays, days), lastHeld := Some(now))
    else tr.h
  }

  function TeamHistoryOf(games: seq<Game>, schools: seq<School>, team: TeamId, now: Instant): TeamHistory {
    if games == [] then NoHistory
    else HistoryClose(HistoryFold(ByDate(games), team, schools), team, now)
  }

  /**
   * `get_team_belt_history(team_id)` with the id as the schools sheet gives
   * it: no games give the empty record before the id is read; otherwise an
   * id `int()` rejects raises (None).
   */
  function BeltHistoryFor(games: seq<Game>, schools: seq<School>, teamId: string, now: Instant): (r: Option<TeamHistory>)
    ensures games == [] ==> r == Some(NoHistory)
    ensures games != [] ==> (r.None? <==> ParseDecimal(teamId).None?)
    ensures r.Some? && games != [] ==> r.value == TeamHistoryOf(games, schools, ParseDecimal(teamId).value, now)
  {
    if games == [] then Some(NoHistory)
    else match ParseDecimal(teamId)
      case None => None
      case Some(team) => Some(TeamHistoryOf(games, schools, team, now))
  }

  lemma LastOfPrefix(gs: seq<Game>)
    requires gs != []
    ensures gs[..|gs| - 1] + [gs[|gs| - 1]] == gs
  {
  }

  /** Every belt-change win by the team opens a new reign, and nothing else does. */
  lemma {:induction false} FoldReigns(gs: seq<Game>, team: TeamId, schools: seq<School>)
    ensures HistoryFold(gs, team, schools).h.totalReigns == Count(gs, BeltWinBy(team))
    ensures HistoryFold(gs, team, schools).h.totalDefenses <= Count(gs, PlainWinBy(team))
  {
    if gs != [] {
      var n := |gs| - 1;
      FoldReigns(gs[..n], team, schools);
      LastOfPrefix(gs);
      FilterConcat(gs[..n], [gs[n]], BeltWinBy(team));
      FilterConcat(gs[..n], [gs[n]], PlainWinBy(team));
    }
  }

  /**
   * Over date-sorted games every closed reign has a non-negative length,
   * so the longest reign is within the total; the tracked reign start is
   * never after the last game replayed.
   */
  lemma {:induction false} FoldDays(gs: seq<Game>, team: TeamId, schools: seq<School>)
    requires SortedBy(gs, DateKey)
    ensures var tr := HistoryFold(gs, team, schools);
      && 0 <= tr.h.bestReignDays <= tr.h.totalDays
      && (tr.current == Some(team) ==> gs != [] && tr.reignStart.value <= gs[|gs| - 1].date)
  {
    if gs != [] {
      var n := |gs| - 1;
      assert SortedBy(gs[..n], DateKey) by {
        forall i, j | 0 <= i < j < n ensures DateKey(gs[..n][i]) <= DateKey(gs[..n][j]) {
          assert gs[..n][i] == gs[i] && gs[..n][j] == gs[j];
        }
      }
      FoldDays(gs[..n], team, schools);
      var before := HistoryFold(gs[..n], team, schools);
      if before.current == Some(team) {
        assert DateKey(gs[n - 1]) <= DateKey(gs[n]);
        DaysBetweenSign(gs[n].date, before.reignStart.value);
      }
    }
  }

  /**
   * What `get_team_belt_history` promises: one reign per belt-change win,
   * defenses only among plain wins, and, when no game is dated after now,
   * a best reign within the total.
   */
  lemma TeamHistoryFacts(games: seq<Game>, schools: seq<School>, team: TeamId, now: Instant)
    ensures var h := TeamHistoryOf(games, schools, team, now);
      && h.totalReigns == Count(games, BeltWinBy(team))
      && h.totalDefenses <= Count(games, PlainWinBy(team))
  {
    if games != [] {
      var sorted := ByDate(games);
      FoldReigns(sorted, team, schools);
      SortByCount(games, DateKey, BeltWinBy(team));
      SortByCount(games, DateKey, PlainWinBy(team));
    }
  }

  lemma TeamHistoryDays(games: seq<Game>, schools: seq<School>, team: TeamId, now: Instant)
    requires forall i :: 0 <= i < |games| ==> games[i].date <= now
    ensures 0 <= TeamHistoryOf(games, schools, team, now).bestReignDays <= TeamHistoryOf(games, schools, team, now).totalDays
  {
    if games != [] {
      var sorted := ByDate(games);
      ByDateFacts(games);
      FoldDays(sorted, team, schools);
      var tr := HistoryFold(sorted, team, schools);
      if tr.current == Some(team) {
        var last := sorted[|sorted| - 1];
        assert last in games;
        DaysBetweenSign(now, tr.reignStart.value);
      }
    }
  }

  /** data_fetcher.py:227-306, over the fetched games table and schools dict. */
  method TeamBeltHistory(games: seq<Game>, schools: seq<School>, teamId: string, now: Instant) returns (r: Option<TeamHistory>)
    ensures r == BeltHistoryFor(games, schools, teamId, now)
  {
    if |games| == 0 {
      return Some(NoHistory);
    }
    var parsed := ParseDecimal(teamId);
    if parsed.None? {
      return None;
    }
    var h := ReplayHistory(games, schools, parsed.value, now);
    r := Some(h);
  }

  /** The loop of data_fetcher.py:258-296 for a numeric team id. */
  method ReplayHistory(games: seq<Game>, schools: seq<School>, team: TeamId, now: Instant) returns (h: TeamHistory)
    requires games != []
    ensures h == TeamHistoryOf(games, schools, team, now)
  {
    var sorted := ByDate(games);
    var totalReigns, totalDays, totalDefenses, bestReignDays := 0, 0, 0, 0;
    var lastHeld: Option<Instant>, lastWonFrom: Option<string>, lastLostTo: Option<string> := None, None, None;
    var currentChampion: Option<TeamId>, currentReignStart: Option<Instant> := None, None;
    var i := 0;
    while i < |sorted|
      invariant 0 <= i <= |sorted|
      invariant Tracker(TeamHistory(totalReigns, totalDays, totalDefenses, bestReignDays, lastHeld, lastWonFrom, lastLostTo),
                        currentChampion, currentReignStart)
             == HistoryFold(sorted[..i], team, schools)
    {
      var game := sorted[i];
      assert sorted[..i + 1][..i] == sorted[..i];
      if game.beltChange {
        if game.winnerId == team {
          totalReigns := totalReigns + 1;
          currentChampion := Some(team);
          currentReignStart := Some(game.date);
          lastWonFrom := Some(TeamName(schools, game.loserId));
        } else if game.loserId == team && currentChampion == Some(team) {
          var reignDays := DaysBetween(game.date, currentReignStart.value);
          totalDays := totalDays + reignDays;
          bestReignDays := Max(bestReignDays, reignDays);
          lastHeld := Some(game.date);
          lastLostTo := Some(TeamName(schools, game.winnerId));
          currentChampion := Some(game.winnerId);
          currentReignStart := None;
        } else {
          currentChampion := Some(game.winnerId);
        }
      } else if currentChampion == Some(team) {
        if game.winnerId == team {
          totalDefenses := totalDefenses + 1;
        }
      }
      i := i + 1;
    }
    assert sorted[..i] == sorted;
    if currentChampion == Some(team) && currentReignStart.Some? {
      var reignDays := DaysBetween(now, currentReignStart.value);
      totalDays := totalDays + reignDays;
      bestReignDays := Max(bestReignDays, reignDays);
      lastHeld := Some(now);
    }
    h := TeamHistory(totalReigns, totalDays, totalDefenses, bestReignDays, lastHeld, lastWonFrom, lastLostTo);
  }

  // ---------------------------------------------------------------------
  // get_overall_stats
  // ---------------------------------------------------------------------

  /** The dict `get_overall_stats` returns (an empty dict is `None`). */
  datatype Stats = Stats(
    totalGames: nat,
    totalChanges: nat,
    totalDefenses: nat,
    startDate: Option<Instant>,
    daysSinceStart: int)

  datatype StatsTracker = StatsTracker(current: Option<TeamId>, totalGames: nat, totalDefenses: nat, startDate: Option<Instant>)

  /** One iteration of data_fetcher.py:326-344; a loss by the holder is ignored. */
  function StatsStep(st: StatsTracker, g: Game): StatsTracker {
    if g.beltChange then
      StatsTracker(Some(g.winnerId), st.totalGames + 1, st.totalDefenses,
                   if st.startDate.None? then Some(g.date) else st.startDate)
    else if st.current.Some? && g.winnerId == st.current.value then
      st.(totalGames := st.totalGames + 1, totalDefenses := st.totalDefenses + 1)
    else
      st
  }

  function StatsFold(gs: seq<Game>): StatsTracker {
    if gs == [] then StatsTracker(None, 0, 0, None)
    else StatsStep(StatsFold(gs[..|gs| - 1]), gs[|gs| - 1])
  }

  function OverallStatsOf(games: seq<Game>, now: Instant): Option<Stats> {
    if games == [] then None
    else
      var st := StatsFold(ByDate(games));
      Some(Stats(st.totalGames, Count(games, IsBelt), st.totalDefenses, st.startDate,
                 if st.startDate.Some? then DaysBetween(now, st.startDate.value) else 0))
  }

  /** Every counted belt game is a change or a defense of the holder. */
  lemma {:induction false} StatsFoldCounts(gs: seq<Game>)
    ensures StatsFold(gs).totalGames == Count(gs, IsBelt) + StatsFold(gs).totalDefenses
    ensures StatsFold(gs).totalDefenses <= Count(gs, IsPlain)
  {
    if gs != [] {
      var n := |gs| - 1;
      StatsFoldCounts(gs[..n]);
      LastOfPrefix(gs);
      FilterConcat(gs[..n], [gs[n]], IsBelt);
      FilterConcat(gs[..n], [gs[n]], IsPlain);
    }
  }

  /** The start is set by, and only by, the first belt change replayed. */
  lemma {:induction false} StatsFoldStart(gs: seq<Game>)
    ensures StatsFold(gs).startDate.None? <==> forall i :: 0 <= i < |gs| ==> !gs[i].beltChange
    ensures StatsFold(gs).startDate.Some? ==>
      exists i :: 0 <= i < |gs| && gs[i].beltChange && gs[i].date == StatsFold(gs).startDate.value
  {
    if gs != [] {
      var n := |gs| - 1;
      StatsFoldStart(gs[..n]);
      var before := StatsFold(gs[..n]);
      if before.startDate.Some? {
        var k :| 0 <= k < n && gs[..n][k].beltChange && gs[..n][k].date == before.startDate.value;
        assert gs[k] == gs[..n][k];
      } else {
        forall i | 0 <= i < n ensures !gs[i].beltChange {
          assert gs[..n][i] == gs[i];
        }
      }
    }
  }

  /** Over date-sorted games the start is the earliest belt-change date. */
  lemma {:induction false} StatsFoldEarliest(gs: seq<Game>)
    requires SortedBy(gs, DateKey)
    ensures StatsFold(gs).startDate.Some? ==>
      forall i :: 0 <= i < |gs| && gs[i].beltChange ==> StatsFold(gs).startDate.value <= gs[i].date
  {
    if gs != [] {
      var n := |gs| - 1;
      SortedPrefix(gs, n, DateKey);
      StatsFoldEarliest(gs[..n]);
      StatsFoldStart(gs[..n]);
      var before := StatsFold(gs[..n]);
      var st := StatsFold(gs);
      if before.startDate.Some? {
        var k :| 0 <= k < n && gs[..n][k].beltChange && gs[..n][k].date == before.startDate.value;
        assert gs[k] == gs[..n][k];
        assert DateKey(gs[k]) <= DateKey(gs[n]);
        forall i | 0 <= i < n && gs[i].beltChange ensures st.startDate.value <= gs[i].date {
          assert gs[..n][i] == gs[i];
        }
      } else if st.startDate.Some? {
        forall i | 0 <= i < n ensures !gs[i].beltChange {
          assert gs[..n][i] == gs[i];
        }
      }
    }
  }

  /** What `get_overall_stats` promises about its counts and its start date. */
  lemma OverallStatsFacts(games: seq<Game>, now: Instant)
    ensures OverallStatsOf(games, now).None? <==> games == []
    ensures OverallStatsOf(games, now).Some? ==> StatsAgree(games, OverallStatsOf(games, now).value)
  {
    if games != [] {
      var sorted := ByDate(games);
      StatsFoldCounts(sorted);
      SortByCount(games, DateKey, IsBelt);
      SortByCount(games, DateKey, IsPlain);
      StatsStartAgree(games, now);
    }
  }

  lemma StatsStartAgree(games: seq<Game>, now: Instant)
    requires games != []
    ensures var r := OverallStatsOf(games, now).value;
      && (r.startDate.None? <==> forall i :: 0 <= i < |games| ==> !games[i].beltChange)
      && (r.startDate.Some? ==> forall i :: 0 <= i < |games| && games[i].beltChange ==> r.startDate.value <= games[i].date)
  {
    var sorted := ByDate(games);
    ByDateFacts(games);
    StatsFoldStart(sorted);
    StatsFoldEarliest(sorted);
    var st := StatsFold(sorted);
    if st.startDate.Some? {
      var k :| 0 <= k < |sorted| && sorted[k].beltChange && sorted[k].date == st.startDate.value;
      assert sorted[k] in games;
      forall i | 0 <= i < |games| && games[i].beltChange ensures st.startDate.value <= games[i].date {
        assert games[i] in sorted;
      }
    } else {
      forall i | 0 <= i < |games| ensures !games[i].beltChange {
        assert games[i] in sorted;
      }
    }
  }

  /** The relations `get_overall_stats`' figures keep with the games table. */
  ghost predicate StatsAgree(games: seq<Game>, r: Stats) {
    && r.totalGames == r.totalChanges + r.totalDefenses
    && r.totalChanges == Count(games, IsBelt)
    && r.totalDefenses <= Count(games, IsPlain)
    && (r.startDate.None? <==> forall i :: 0 <= i < |games| ==> !games[i].beltChange)
    && (r.startDate.Some? ==> forall i :: 0 <= i < |games| && games[i].beltChange ==> r.startDate.value <= games[i].date)
  }

  /** data_fetcher.py:308-352, over the fetched games table. */
  method OverallStats(games: seq<Game>, now: Instant) returns (r: Option<Stats>)
    ensures r == OverallStatsOf(games, now)
  {
    if |games| == 0 {
      return None;
    }
    var totalBeltChanges := Count(games, IsBelt);
    var sorted := ByDate(games);
    var currentChampion: Option<TeamId> := None;
    var totalBeltGames: nat, totalDefenses: nat := 0, 0;
    var startDate: Option<Instant> := None;
    var i := 0;
    while i < |sorted|
      invariant 0 <= i <= |sorted|
      invariant StatsTracker(currentChampion, totalBeltGames, totalDefenses, startDate) == StatsFold(sorted[..i])
    {
      var game := sorted[i];
      assert sorted[..i + 1][..i] == sorted[..i];
      if game.beltChange {
        totalBeltGames := totalBeltGames + 1;
        currentChampion := Some(game.winnerId);
        if startDate.None? {
          startDate := Some(game.date);
        }
      } else if currentChampion.Some? {
        if game.winnerId == currentChampion.value {
          totalBeltGames := totalBeltGames + 1;
          totalDefenses := totalDefenses + 1;
        }
      }
      i := i + 1;
    }
    assert sorted[..i] == sorted;
    r := Some(Stats(totalBeltGames, totalBeltChanges, totalDefenses, startDate,
                    if startDate.Some? then DaysBetween(now, startDate.value) else 0));
  }

  // ---------------------------------------------------------------------
  // get_games_on_this_day
  // ---------------------------------------------------------------------

  /** One dict of `get_games_on_this_day`'s list. */
  datatype Anniversary = Anniversary(
    date: Instant,
    year: int,
    winnerId: TeamId,
    winnerName: string,
    loserId: TeamId,
    loserName: string,
    winnerScore: Option<int>,
    loserScore: Option<int>)

  predicate OnDay(g: Game, month: int, day: int) {
    CivilOf(g.date).month == month && CivilOf(g.date).day == day
  }

  function ToAnniversary(g: Game, schools: seq<School>): Anniversary {
    Anniversary(g.date, CivilOf(g.date).year, g.winnerId, TeamName(schools, g.winnerId),
                g.loserId, TeamName(schools, g.loserId), g.winnerScore, g.loserScore)
  }

  /** The matches of `beltGames[..]`, in table order (data_fetcher.py:363-375). */
  function Anniversaries(beltGames: seq<Game>, schools: seq<School>, month: int, day: int): seq<Anniversary> {
    if beltGames == [] then []
    else
      var last := beltGames[|beltGames| - 1];
      Anniversaries(beltGames[..|beltGames| - 1], schools, month, day)
        + (if OnDay(last, month, day) then [ToAnniversary(last, schools)] else [])
  }

  function YearDesc(a: Anniversary): int {
    -a.year
  }

  function GamesOnThisDayOf(games: seq<Game>, schools: seq<School>, month: int, day: int): seq<Anniversary> {
    if games == [] then []
    else SortBy(Anniversaries(Filter(games, IsBelt), schools, month, day), YearDesc)
  }

  /** A list entry comes from exactly the games of the list that fall on the day. */
  lemma {:induction false} AnniversaryMembers(gs: seq<Game>, schools: seq<School>, month: int, day: int)
    ensures forall a :: a in Anniversaries(gs, schools, month, day) ==>
      exists g :: g in gs && OnDay(g, month, day) && a == ToAnniversary(g, schools)
    ensures forall g :: g in gs && OnDay(g, month, day) ==> ToAnniversary(g, schools) in Anniversaries(gs, schools, month, day)
  {
    if gs != [] {
      var n := |gs| - 1;
      AnniversaryMembers(gs[..n], schools, month, day);
      LastOfPrefix(gs);
      forall g | g in gs && OnDay(g, month, day) ensures ToAnniversary(g, schools) in Anniversaries(gs, schools, month, day) {
        if g != gs[n] {
          assert g in gs[..n];
        }
      }
    }
  }

  function OnDayOf(month: int, day: int): Game -> bool {
    (g: Game) => OnDay(g, month, day)
  }

  /** The list has one entry for each game of the list that falls on the day, in table order. */
  lemma {:induction false} AnniversariesOfMatches(gs: seq<Game>, schools: seq<School>, month: int, day: int)
    ensures |Anniversaries(gs, schools, month, day)| == Count(gs, OnDayOf(month, day))
    ensures forall i :: 0 <= i < |Anniversaries(gs, schools, month, day)| ==>
      Anniversaries(gs, schools, month, day)[i] == ToAnniversary(Filter(gs, OnDayOf(month, day))[i], schools)
  {
    if gs != [] {
      var n := |gs| - 1;
      var p := OnDayOf(month, day);
      var before, f := Anniversaries(gs[..n], schools, month, day), Filter(gs[..n], p);
      AnniversariesOfMatches(gs[..n], schools, month, day);
      assert Filter(gs, p) == f + (if p(gs[n]) then [gs[n]] else []) by {
        FilterSnoc(gs, n, p);
        assert gs[..n + 1] == gs;
      }
      assert Anniversaries(gs, schools, month, day)
          == before + (if p(gs[n]) then [ToAnniversary(gs[n], schools)] else []);
    }
  }

  /** Newest year first, with one entry for each belt-change game on the day. */
  lemma GamesOnThisDayCount(games: seq<Game>, schools: seq<School>, month: int, day: int)
    ensures var r := GamesOnThisDayOf(games, schools, month, day);
      && (forall i, j :: 0 <= i < j < |r| ==> r[i].year >= r[j].year)
      && multiset(r) == multiset(Anniversaries(Filter(games, IsBelt), schools, month, day))
      && |r| == Count(Filter(games, IsBelt), OnDayOf(month, day))
  {
    var matching := Anniversaries(Filter(games, IsBelt), schools, month, day);
    AnniversariesOfMatches(Filter(games, IsBelt), schools, month, day);
    if games != [] {
      SortByFacts(matching, YearDesc);
    }
  }

  /** An entry comes from a belt-change game on the day, and every such game has one. */
  lemma GamesOnThisDayMembers(games: seq<Game>, schools: seq<School>, month: int, day: int)
    ensures var r := GamesOnThisDayOf(games, schools, month, day);
      && (forall a :: a in r ==>
            exists g :: g in games && g.beltChange && OnDay(g, month, day) && a == ToAnniversary(g, schools))
      && (forall g :: g in games && g.beltChange && OnDay(g, month, day) ==> ToAnniversary(g, schools) in r)
  {
    var beltGames := Filter(games, IsBelt);
    var r := GamesOnThisDayOf(games, schools, month, day);
    AnniversaryMembers(beltGames, schools, month, day);
    if games != [] {
      SortByMembers(Anniversaries(beltGames, schools, month, day), YearDesc);
      forall g | g in games && g.beltChange && OnDay(g, month, day) ensures ToAnniversary(g, schools) in r {
        var k :| 0 <= k < |games| && games[k] == g;
        FilterMember(games, k, IsBelt);
      }
    }
  }

  /** The loop of data_fetcher.py:363-375: the belt-change games on the day, in table order. */
  method MatchesOnDay(beltGames: seq<Game>, schools: seq<School>, month: int, day: int) returns (matching: seq<Anniversary>)
    ensures matching == Anniversaries(beltGames, schools, month, day)
  {
    matching := [];
    var i := 0;
    while i < |beltGames|
      invariant 0 <= i <= |beltGames|
      invariant matching == Anniversaries(beltGames[..i], schools, month, day)
    {
      var game := beltGames[i];
      assert beltGames[..i + 1][..i] == beltGames[..i];
      if CivilOf(game.date).month == month && CivilOf(game.date).day == day {
        matching := matching + [ToAnniversary(game, schools)];
      }
      i := i + 1;
    }
    assert beltGames[..i] == beltGames;
  }

  /** data_fetcher.py:354-377, over the fetched games table and schools dict. */
  method GamesOnThisDay(games: seq<Game>, schools: seq<School>, month: int, day: int) returns (r: seq<Anniversary>)
    ensures r == GamesOnThisDayOf(games, schools, month, day)
    ensures forall i, j :: 0 <= i < j < |r| ==> r[i].year >= r[j].year
    ensures forall a :: a in r ==>
      exists g :: g in games && g.beltChange && OnDay(g, month, day) && a == ToAnniversary(g, schools)
    ensures forall g :: g in games && g.beltChange && OnDay(g, month, day) ==> ToAnniversary(g, schools) in r
    ensures multiset(r) == multiset(Anniversaries(Filter(games, IsBelt), schools, month, day))
    ensures |r| == Count(Filter(games, IsBelt), OnDayOf(month, day))
  {
    if |games| == 0 {
      r := [];
    } else {
      var beltGames := Filter(games, IsBelt);
      var matching := MatchesOnDay(beltGames, schools, month, day);
      r := SortBy(matching, YearDesc);
    }
    GamesOnThisDayCount(games, schools, month, day);
    GamesOnThisDayMembers(games, schools, month, day);
  }
}
