/**
 * `BeltDataFetcher` (data_fetcher.py) as an object: the schools dict and
 * the two tables it caches, the time of the last games download, and the
 * operations that read through that cache before running a replay, the
 * schedule lookup or the chase.
 *
 * Each request to a data source is a parameter: `Some` with what it
 * returned, or `None` when the request (or parsing its answer) failed.
 * One operation is given one answer per source; every request it makes
 * to that source gets that answer.
 */
module Fetcher {
  import opened Wrappers
  import opened Calendar
  import opened Text
  import opened Records
  import opened Directory
  import opened Replay
  import opened Schedule
  import opened Chase
  import opened Reigns

  /** `cache_duration`: fifteen minutes, in seconds. */
  const CacheDuration: int := 15 * 60

  /** The four cache fields, as one value. */
  datatype CacheState = CacheState(
    schools: seq<School>,
    games: Option<seq<Game>>,
    schedule: Option<seq<ScheduleRow>>,
    stamp: Option<Instant>)

  const EmptyCache := CacheState([], None, None, None)

  /** `cache_timestamp and now - cache_timestamp < cache_duration`. */
  predicate Fresh(stamp: Option<Instant>, now: Instant) {
    stamp.Some? && now - stamp.value < CacheDuration
  }

  // ---------------------------------------------------------------------
  // fetch_games (data_fetcher.py:109-124)
  // ---------------------------------------------------------------------

  /** The cached games table is served without a request. */
  predicate GamesFromCache(st: CacheState, force: bool, now: Instant) {
    !force && st.games.Some? && Fresh(st.stamp, now)
  }

  function GamesServed(st: CacheState, force: bool, now: Instant, download: Option<seq<Game>>): seq<Game> {
    if GamesFromCache(st, force, now) then st.games.value
    else download.GetOr([])
  }

  function GamesAfter(st: CacheState, force: bool, now: Instant, download: Option<seq<Game>>): CacheState {
    if GamesFromCache(st, force, now) || download.None? then st
    else st.(games := download, stamp := Some(now))
  }

  /**
   * A successful download is served again, with no new request, by every
   * call in the next fifteen minutes that does not force a refresh.
   */
  lemma GamesCacheHit(st: CacheState, force: bool, t: Instant, games: seq<Game>, later: Instant, again: Option<seq<Game>>)
    requires !GamesFromCache(st, force, t)
    requires t <= later < t + CacheDuration
    ensures var st1 := GamesAfter(st, force, t, Some(games));
      && GamesServed(st1, false, later, again) == games
      && GamesAfter(st1, false, later, again) == st1
  {
  }

  /** A failed download leaves every cache field as it was and serves an empty table. */
  lemma GamesFailure(st: CacheState, force: bool, now: Instant)
    requires !GamesFromCache(st, force, now)
    ensures GamesServed(st, force, now, None) == []
    ensures GamesAfter(st, force, now, None) == st
  {
  }

  /** Forcing a refresh always asks the data source, whatever the cache holds. */
  lemma GamesForced(st: CacheState, now: Instant, download: Option<seq<Game>>)
    ensures GamesServed(st, true, now, download) == download.GetOr([])
    ensures download.Some? ==> GamesAfter(st, true, now, download).stamp == Some(now)
  {
  }

  // ---------------------------------------------------------------------
  // fetch_schedule (data_fetcher.py:126-139)
  // ---------------------------------------------------------------------

  /** The schedule shares the games' time stamp. */
  predicate ScheduleFromCache(st: CacheState, force: bool, now: Instant) {
    !force && st.schedule.Some? && Fresh(st.stamp, now)
  }

  function ScheduleServed(st: CacheState, force: bool, now: Instant, download: Option<seq<ScheduleRow>>): seq<ScheduleRow> {
    if ScheduleFromCache(st, force, now) then st.schedule.value
    else download.GetOr([])
  }

  function ScheduleAfter(st: CacheState, force: bool, now: Instant, download: Option<seq<ScheduleRow>>): CacheState {
    if ScheduleFromCache(st, force, now) || download.None? then st
    else st.(schedule := download)
  }

  /**
   * `fetch_schedule` never stamps the cache: the stamp is the games'
   * one, and with no games download yet the schedule is never served from
   * the cache.
   */
  lemma ScheduleKeepsStamp(st: CacheState, force: bool, now: Instant, download: Option<seq<ScheduleRow>>)
    ensures ScheduleAfter(st, force, now, download).stamp == st.stamp
    ensures ScheduleAfter(st, force, now, download).games == st.games
    ensures st.stamp.None? ==> ScheduleServed(st, force, now, download) == download.GetOr([])
  {
  }

  // ---------------------------------------------------------------------
  // fetch_schools (data_fetcher.py:46-65)
  // ---------------------------------------------------------------------

  /** The dict a successful request fills: each data line stored in turn. */
  function SchoolsLoaded(text: string): seq<School> {
    Loaded([], DataLines(text), |DataLines(text)|)
  }

  /** A non-empty dict is served as it is; an empty one is filled from the request. */
  function SchoolsServed(st: CacheState, response: Option<string>): seq<School> {
    if st.schools != [] then st.schools
    else match response
      case None => []
      case Some(text) => SchoolsLoaded(text)
  }

  function SchoolsAfter(st: CacheState, response: Option<string>): CacheState {
    st.(schools := SchoolsServed(st, response))
  }

  /**
   * Once the dict holds an entry it is never requested again, and a
   * loaded dict maps each id to the name on the last line that gives it.
   */
  lemma SchoolsFacts(st: CacheState, response: Option<string>, again: Option<string>, id: string)
    ensures st.schools != [] ==> SchoolsAfter(st, response) == st
    ensures SchoolsAfter(st, response).schools != [] ==>
      SchoolsServed(SchoolsAfter(st, response), again) == SchoolsServed(st, response)
    ensures st.schools == [] && response.Some? ==>
      Lookup(SchoolsServed(st, response), id)
        == LastNameFor(DataLines(response.value), |DataLines(response.value)|, id, None)
  {
    if st.schools == [] && response.Some? {
      var lines := DataLines(response.value);
      LoadedLookup([], lines, |lines|, id);
    }
  }

  /** The loop of data_fetcher.py:56-61: each data line with two fields stored in turn. */
  method StoreLines(schools: seq<School>, lines: seq<string>) returns (table: seq<School>)
    ensures table == Loaded(schools, lines, |lines|)
  {
    table := schools;
    var i := 0;
    while i < |lines|
      invariant 0 <= i <= |lines|
      invariant table == Loaded(schools, lines, i)
    {
      table := Store(table, RowEntry(lines[i]));
      i := i + 1;
    }
  }

  // ---------------------------------------------------------------------
  // The object
  // ---------------------------------------------------------------------

  class BeltDataFetcher {
    var schoolsCache: seq<School>
    var gamesCache: Option<seq<Game>>
    var scheduleCache: Option<seq<ScheduleRow>>
    var cacheTimestamp: Option<Instant>

    function State(): CacheState
      reads this
    {
      CacheState(schoolsCache, gamesCache, scheduleCache, cacheTimestamp)
    }

    /** data_fetcher.py:10-44 (the alias table is `Directory.TeamAliases`). */
    constructor ()
      ensures State() == EmptyCache
    {
      schoolsCache := [];
      gamesCache := None;
      scheduleCache := None;
      cacheTimestamp := None;
    }

    method FetchSchools(response: Option<string>) returns (schools: seq<School>)
      modifies this
      ensures schools == SchoolsServed(old(State()), response)
      ensures State() == SchoolsAfter(old(State()), response)
    {
      if schoolsCache != [] {
        return schoolsCache;
      }
      if response.None? {
        return [];
      }
      schoolsCache := StoreLines(schoolsCache, DataLines(response.value));
      schools := schoolsCache;
    }

    method FetchGames(force: bool, now: Instant, download: Option<seq<Game>>) returns (games: seq<Game>)
      modifies this
      ensures games == GamesServed(old(State()), force, now, download)
      ensures State() == GamesAfter(old(State()), force, now, download)
    {
      if !force && gamesCache.Some? {
        if cacheTimestamp.Some? && now - cacheTimestamp.value < CacheDuration {
          return gamesCache.value;
        }
      }
      if download.None? {
        return [];
      }
      gamesCache := download;
      cacheTimestamp := Some(now);
      games := download.value;
    }

    method FetchSchedule(force: bool, now: Instant, download: Option<seq<ScheduleRow>>) returns (rows: seq<ScheduleRow>)
      modifies this
      ensures rows == ScheduleServed(old(State()), force, now, download)
      ensures State() == ScheduleAfter(old(State()), force, now, download)
    {
      if !force && scheduleCache.Some? {
        if cacheTimestamp.Some? && now - cacheTimestamp.value < CacheDuration {
          return scheduleCache.value;
        }
      }
      if download.None? {
        return [];
      }
      scheduleCache := download;
      rows := download.value;
    }

    /** data_fetcher.py:67-74, for an id already in text form. */
    method GetSchoolName(id: Option<string>, response: Option<string>) returns (name: string)
      modifies this
      ensures name == SchoolName(SchoolsServed(old(State()), response), id)
      ensures State() == SchoolsAfter(old(State()), response)
    {
      var schools := FetchSchools(response);
      name := SchoolName(schools, id);
    }

    /** data_fetcher.py:76-107: no request at all for an empty name. */
    method FindTeamByName(text: string, response: Option<string>) returns (r: Option<School>)
      modifies this
      ensures text == "" ==> r.None? && State() == old(State())
      ensures text != "" ==> r == FindTeam(SchoolsServed(old(State()), response), text)
      ensures text != "" ==> State() == SchoolsAfter(old(State()), response)
      ensures r.Some? ==> r.value in SchoolsServed(old(State()), response)
    {
      if text == "" {
        return None;
      }
      var schools := FetchSchools(response);
      r := FindTeam(schools, text);
    }

    /** data_fetcher.py:140-181. */
    method GetCurrentChampion(now: Instant, games: Option<seq<Game>>) returns (c: Champion)
      modifies this
      ensures c == CurrentChampionOf(GamesServed(old(State()), false, now, games), now)
      ensures State() == GamesAfter(old(State()), false, now, games)
    {
      var table := FetchGames(false, now, games);
      c := CurrentChampion(table, now);
    }

    /**
     * data_fetcher.py:183-225.  The schedule is requested only when there
     * is a champion.
     */
    method GetNextBeltGame(now: Instant, games: Option<seq<Game>>, schedule: Option<seq<ScheduleRow>>, schools: Option<string>)
      returns (r: Option<NextGame>)
      modifies this
      ensures var st1 := GamesAfter(old(State()), false, now, games);
        var champ := CurrentChampionOf(GamesServed(old(State()), false, now, games), now).id;
        r == NextBeltGameOf(champ, ScheduleServed(st1, false, now, schedule),
                            SchoolsServed(ScheduleAfter(st1, false, now, schedule), schools), now)
        && (Truthy(champ) ==> State() == SchoolsAfter(ScheduleAfter(st1, false, now, schedule), schools))
        && (!Truthy(champ) ==> State() == st1)
    {
      var c := GetCurrentChampion(now, games);
      if !Truthy(c.id) {
        return None;
      }
      var rows := FetchSchedule(false, now, schedule);
      var table := FetchSchools(schools);
      r := NextBeltGameOf(c.id, rows, table, now);
    }

    /** data_fetcher.py:227-306; `None` is the `ValueError` of a non-numeric id. */
    method GetTeamBeltHistory(teamId: string, now: Instant, games: Option<seq<Game>>, schools: Option<string>)
      returns (r: Option<TeamHistory>)
      modifies this
      ensures r == BeltHistoryFor(GamesServed(old(State()), false, now, games),
                                  SchoolsServed(GamesAfter(old(State()), false, now, games), schools), teamId, now)
      ensures State() == SchoolsAfter(GamesAfter(old(State()), false, now, games), schools)
    {
      var table := FetchGames(false, now, games);
      var names := FetchSchools(schools);
      r := TeamBeltHistory(table, names, teamId, now);
    }

    /** data_fetcher.py:308-352. */
    method GetOverallStats(now: Instant, games: Option<seq<Game>>) returns (r: Option<Stats>)
      modifies this
      ensures r == OverallStatsOf(GamesServed(old(State()), false, now, games), now)
      ensures State() == GamesAfter(old(State()), false, now, games)
    {
      var table := FetchGames(false, now, games);
      r := OverallStats(table, now);
    }

    /** data_fetcher.py:354-377. */
    method GetGamesOnThisDay(month: int, day: int, now: Instant, games: Option<seq<Game>>, schools: Option<string>)
      returns (r: seq<Anniversary>)
      modifies this
      ensures r == GamesOnThisDayOf(GamesServed(old(State()), false, now, games),
                                    SchoolsServed(GamesAfter(old(State()), false, now, games), schools), month, day)
      ensures State() == SchoolsAfter(GamesAfter(old(State()), false, now, games), schools)
    {
      var table := FetchGames(false, now, games);
      var names := FetchSchools(schools);
      r := GamesOnThisDay(table, names, month, day);
    }

    /**
     * data_fetcher.py:379-494, with the search keyed on the depth as well
     * (see `Chase.ChaseFindsShortest`).
     */
    method ComputeBeltChaseTeams(now: Instant, games: Option<seq<Game>>, schedule: Option<seq<ScheduleRow>>, schools: Option<string>)
      returns (r: seq<PathEntry>)
      modifies this
      ensures var st1 := GamesAfter(old(State()), false, now, games);
        var champ := CurrentChampionOf(GamesServed(old(State()), false, now, games), now).id;
        r == ChaseOf(ScheduleServed(st1, false, now, schedule),
                     SchoolsServed(ScheduleAfter(st1, false, now, schedule), schools), champ, now, true)
        && (Truthy(champ) ==> State() == SchoolsAfter(ScheduleAfter(st1, false, now, schedule), schools))
        && (!Truthy(champ) ==> State() == st1)
    {
      var c := GetCurrentChampion(now, games);
      if !Truthy(c.id) {
        return [];
      }
      var rows := FetchSchedule(false, now, schedule);
      var names := FetchSchools(schools);
      r := BeltChase(rows, names, c.id, now, true);
    }

    /** data_fetcher.py:496-542. */
    method GetLongestReigns(limit: int, now: Instant, games: Option<seq<Game>>, schools: Option<string>)
      returns (r: seq<Reign>)
      modifies this
      ensures r == LongestReignsOf(GamesServed(old(State()), false, now, games),
                                   SchoolsServed(GamesAfter(old(State()), false, now, games), schools), now, limit)
      ensures State() == SchoolsAfter(GamesAfter(old(State()), false, now, games), schools)
    {
      var table := FetchGames(false, now, games);
      var names := FetchSchools(schools);
      r := LongestReigns(table, names, now, limit);
    }
  }
}
