/**
 * `compute_belt_chase_teams` (data_fetcher.py:379-494): a breadth-first
 * search over the outcomes of the remaining games, listing every team that
 * can still take the belt this season with the fewest belt changes and the
 * earliest week it could do so.
 *
 * The search state is a `Frame`; the search deduplicates frames on a key.
 * The source keys on `(holder, week)` only (`byDepth == false`); the
 * corrected search keys on the whole frame (`byDepth == true`).  Both are
 * the same `Step`, and `Run` is the whole search.
 */
module Chase {
  import opened Wrappers
  import opened Calendar
  import opened Sorting
  import opened Records
  import opened Directory

  /** One upcoming game as the search sees it (`game_info`). */
  datatype GameInfo = GameInfo(week: int, homeId: TeamId, awayId: TeamId)

  function WeekKey(g: GameInfo): int {
    g.week
  }

  /** `holder` has the belt after week `week`, which has changed hands `depth` times. */
  datatype Frame = Frame(holder: TeamId, week: int, depth: nat)

  /** One value of `belt_paths`. */
  datatype PathEntry = PathEntry(teamId: TeamId, name: string, gamesAway: nat, earliestWeek: int)

  /** `team_games`: each team's upcoming games. */
  type TeamGames = map<TeamId, seq<GameInfo>>

  // ---------------------------------------------------------------------
  // Building `team_games` (data_fetcher.py:392-426)
  // ---------------------------------------------------------------------

  /** The filter of data_fetcher.py:394-399. */
  predicate Upcoming(r: ScheduleRow, now: Instant) {
    !r.completed && r.startDate > now && r.homeId.Some? && r.awayId.Some?
  }

  /** A missing week sorts last, as week 999. */
  function InfoOf(r: ScheduleRow): GameInfo
    requires r.homeId.Some? && r.awayId.Some?
  {
    GameInfo(r.week.GetOr(999), r.homeId.value, r.awayId.value)
  }

  /** The upcoming games, in table order. */
  function Infos(rows: seq<ScheduleRow>, now: Instant): seq<GameInfo> {
    if rows == [] then []
    else
      var last := rows[|rows| - 1];
      Infos(rows[..|rows| - 1], now) + (if Upcoming(last, now) then [InfoOf(last)] else [])
  }

  /** No game is kept exactly when no row is an upcoming game with both teams known. */
  lemma {:induction false} InfosEmpty(rows: seq<ScheduleRow>, now: Instant)
    ensures Infos(rows, now) == [] <==> forall i :: 0 <= i < |rows| ==> !Upcoming(rows[i], now)
  {
    if rows != [] {
      var init := rows[..|rows| - 1];
      InfosEmpty(init, now);
      assert forall i :: 0 <= i < |init| ==> init[i] == rows[i];
    }
  }

  /** `team_games[t].append(g)` on a `defaultdict(list)`. */
  function Append(m: TeamGames, t: TeamId, g: GameInfo): TeamGames {
    m[t := (if t in m then m[t] else []) + [g]]
  }

  /** The lists of data_fetcher.py:410-422 before sorting: each game under both teams. */
  function Grouped(infos: seq<GameInfo>): TeamGames {
    if infos == [] then map[]
    else
      var g := infos[|infos| - 1];
      Append(Append(Grouped(infos[..|infos| - 1]), g.homeId, g), g.awayId, g)
  }

  /** data_fetcher.py:425-426: every team's list sorted by week. */
  function TeamGamesOf(infos: seq<GameInfo>): TeamGames {
    var m := Grouped(infos);
    map t | t in m :: SortBy(m[t], WeekKey)
  }

  /** Each game is listed under its home team and under its away team. */
  ghost predicate WellFormed(tg: TeamGames) {
    forall t, g :: t in tg && g in tg[t] ==>
      && g.homeId in tg && g in tg[g.homeId]
      && g.awayId in tg && g in tg[g.awayId]
  }

  /** A team's list holds exactly the upcoming games it plays in. */
  lemma {:induction false} GroupedMembers(infos: seq<GameInfo>)
    ensures forall t, g :: t in Grouped(infos) && g in Grouped(infos)[t] ==>
      g in infos && (g.homeId == t || g.awayId == t)
    ensures forall g :: g in infos ==>
      && g.homeId in Grouped(infos) && g in Grouped(infos)[g.homeId]
      && g.awayId in Grouped(infos) && g in Grouped(infos)[g.awayId]
  {
    if infos != [] {
      var n := |infos| - 1;
      GroupedMembers(infos[..n]);
      assert infos == infos[..n] + [infos[n]];
    }
  }

  lemma TeamGamesFacts(infos: seq<GameInfo>)
    ensures WellFormed(TeamGamesOf(infos))
    ensures forall t :: t in TeamGamesOf(infos) ==> SortedBy(TeamGamesOf(infos)[t], WeekKey)
    ensures forall t, g :: t in TeamGamesOf(infos) && g in TeamGamesOf(infos)[t] <==>
      g in infos && (g.homeId == t || g.awayId == t)
  {
    var m := Grouped(infos);
    var tg := TeamGamesOf(infos);
    GroupedMembers(infos);
    forall t | t in m ensures forall g :: g in tg[t] <==> g in m[t] {
      SortByMembers(m[t], WeekKey);
    }
    forall t | t in tg ensures SortedBy(tg[t], WeekKey) {
      SortByFacts(m[t], WeekKey);
    }
  }

  // ---------------------------------------------------------------------
  // The moves of the search
  // ---------------------------------------------------------------------

  /** The first game of `games` after week `week` (data_fetcher.py:450-455), or `|games|`. */
  function FirstAfter(games: seq<GameInfo>, week: int): (k: nat)
    ensures k <= |games|
    ensures forall i :: 0 <= i < k ==> games[i].week <= week
    ensures k < |games| ==> games[k].week > week
  {
    if games == [] || games[0].week > week then 0
    else 1 + FirstAfter(games[1..], week)
  }

  function GamesFor(tg: TeamGames, t: TeamId): seq<GameInfo> {
    if t in tg then tg[t] else []
  }

  function Opponent(g: GameInfo, holder: TeamId): TeamId {
    if g.homeId == holder then g.awayId else g.homeId
  }

  /**
   * The holder's next game decides the two successors: the opponent wins
   * (one more change) or the holder keeps the belt.  No next game, no move.
   */
  function Moves(tg: TeamGames, f: Frame): (r: seq<Frame>)
    ensures r == [] || |r| == 2
  {
    var games := GamesFor(tg, f.holder);
    var k := FirstAfter(games, f.week);
    if k == |games| then []
    else
      var g := games[k];
      [Frame(Opponent(g, f.holder), g.week, f.depth + 1), Frame(f.holder, g.week, f.depth)]
  }

  function Start(champ: TeamId): Frame {
    Frame(champ, 0, 0)
  }

  /** The frames the search can meet: finite, so the search ends. */
  ghost function Space(tg: TeamGames, champ: TeamId): set<Frame> {
    {Start(champ)} + set t, g, d: nat | t in tg && g in tg[t] && d <= g.week :: Frame(t, g.week, d)
  }

  /** The dedup key of a frame. */
  function Key(f: Frame, byDepth: bool): Frame {
    if byDepth then f else Frame(f.holder, f.week, 0)
  }

  lemma SpaceDepth(tg: TeamGames, champ: TeamId, f: Frame)
    requires f in Space(tg, champ)
    ensures 0 <= f.depth <= f.week
  {
    if f != Start(champ) {
      var t, g, d: nat :| t in tg && g in tg[t] && d <= g.week && f == Frame(t, g.week, d);
    }
  }

  lemma KeyInSpace(tg: TeamGames, champ: TeamId, f: Frame, byDepth: bool)
    requires f in Space(tg, champ)
    ensures Key(f, byDepth) in Space(tg, champ)
  {
    if !byDepth && f != Start(champ) {
      var t, g, d: nat :| t in tg && g in tg[t] && d <= g.week && f == Frame(t, g.week, d);
      SpaceDepth(tg, champ, f);
      assert Key(f, byDepth) == Frame(t, g.week, 0);
    }
  }

  lemma MovesInSpace(tg: TeamGames, champ: TeamId, f: Frame)
    requires WellFormed(tg) && f in Space(tg, champ)
    ensures forall m :: m in Moves(tg, f) ==> m in Space(tg, champ)
  {
    var games := GamesFor(tg, f.holder);
    var k := FirstAfter(games, f.week);
    if k < |games| {
      SpaceDepth(tg, champ, f);
      var g := games[k];
      assert f.holder in tg && g in tg[f.holder];
      var o := Opponent(g, f.holder);
      assert o in tg && g in tg[o];
      assert Frame(o, g.week, f.depth + 1) in Space(tg, champ);
      assert Frame(f.holder, g.week, f.depth) in Space(tg, champ);
    }
  }

  // ---------------------------------------------------------------------
  // The search
  // ---------------------------------------------------------------------

  /** `queue`, `visited` and `belt_paths` (keys in insertion order in `order`). */
  datatype Search = Search(queue: seq<Frame>, visited: set<Frame>, paths: map<TeamId, PathEntry>, order: seq<TeamId>)

  function Initial(champ: TeamId): Search {
    Search([Start(champ)], {}, map[], [])
  }

  /** `belt_paths` and its insertion order agree. */
  ghost predicate Tidy(s: Search) {
    && (forall i :: 0 <= i < |s.order| ==> s.order[i] in s.paths)
    && (forall t :: t in s.paths ==> t in s.order)
    && (forall i, j :: 0 <= i < j < |s.order| ==> s.order[i] != s.order[j])
    && (forall t :: t in s.paths ==> s.paths[t].teamId == t)
  }

  /** Every queued frame and visited key lies in the finite space. */
  ghost predicate Bounded(tg: TeamGames, champ: TeamId, s: Search) {
    && (forall q :: q in s.queue ==> q in Space(tg, champ))
    && (forall v :: v in s.visited ==> v in Space(tg, champ))
    && Tidy(s)
  }

  /**
   * data_fetcher.py:467-480: a team met for the first time is entered with
   * its name; otherwise the fewer changes and the earlier week are kept,
   * each on its own.
   */
  function Upsert(s: Search, t: TeamId, name: string, depth: nat, week: int): (r: Search)
    ensures r.queue == s.queue && r.visited == s.visited
    ensures t in r.paths
    ensures r.paths[t].gamesAway <= depth && r.paths[t].earliestWeek <= week
    ensures t in s.paths ==> r.paths[t].gamesAway <= s.paths[t].gamesAway && r.paths[t].earliestWeek <= s.paths[t].earliestWeek
    ensures forall u :: u != t ==> (u in r.paths <==> u in s.paths) && (u in s.paths ==> r.paths[u] == s.paths[u])
    ensures r.paths[t].gamesAway == depth || (t in s.paths && r.paths[t].gamesAway == s.paths[t].gamesAway)
    ensures r.paths[t].earliestWeek == week || (t in s.paths && r.paths[t].earliestWeek == s.paths[t].earliestWeek)
  {
    if t !in s.paths then
      s.(paths := s.paths[t := PathEntry(t, name, depth, week)], order := s.order + [t])
    else
      var e := s.paths[t];
      var e1 := if depth < e.gamesAway then e.(gamesAway := depth) else e;
      var e2 := if week < e1.earliestWeek then e1.(earliestWeek := week) else e1;
      s.(paths := s.paths[t := e2])
  }

  lemma UpsertTidy(s: Search, t: TeamId, name: string, depth: nat, week: int)
    requires Tidy(s)
    ensures Tidy(Upsert(s, t, name, depth, week))
  {
    var r := Upsert(s, t, name, depth, week);
    if t !in s.paths {
      forall i, j | 0 <= i < j < |r.order| ensures r.order[i] != r.order[j] {
        if j == |s.order| {
          assert r.order[j] == t;
          assert r.order[i] == s.order[i];
        } else {
          assert r.order[i] == s.order[i] && r.order[j] == s.order[j];
        }
      }
      forall i | 0 <= i < |r.order| ensures r.order[i] in r.paths {
        if i < |s.order| {
          assert r.order[i] == s.order[i];
        }
      }
    }
  }

  /** One iteration of the `while queue` loop (data_fetcher.py:437-492). */
  function Step(tg: TeamGames, schools: seq<School>, s: Search, byDepth: bool): Search
    requires s.queue != []
  {
    var f := s.queue[0];
    var key := Key(f, byDepth);
    if key in s.visited then s.(queue := s.queue[1..])
    else
      var moves := Moves(tg, f);
      if moves == [] then s.(queue := s.queue[1..], visited := s.visited + {key})
      else
        var win := moves[0];
        var r := Upsert(s, win.holder, TeamName(schools, win.holder), win.depth, win.week);
        r.(queue := s.queue[1..] + moves, visited := s.visited + {key})
  }

  lemma StepBounded(tg: TeamGames, schools: seq<School>, champ: TeamId, s: Search, byDepth: bool)
    requires WellFormed(tg) && Bounded(tg, champ, s) && s.queue != []
    ensures Bounded(tg, champ, Step(tg, schools, s, byDepth))
    ensures Key(s.queue[0], byDepth) in Space(tg, champ)
  {
    var f := s.queue[0];
    KeyInSpace(tg, champ, f, byDepth);
    MovesInSpace(tg, champ, f);
    var moves := Moves(tg, f);
    if Key(f, byDepth) !in s.visited && moves != [] {
      UpsertTidy(s, moves[0].holder, TeamName(schools, moves[0].holder), moves[0].depth, moves[0].week);
    }
    var r := Step(tg, schools, s, byDepth);
    forall q | q in r.queue ensures q in Space(tg, champ) {
      if q in s.queue[1..] {
        assert q in s.queue;
      }
    }
  }

  /** A step visits a new frame of the finite space, or else shortens the queue. */
  lemma StepShrinks(tg: TeamGames, schools: seq<School>, champ: TeamId, s: Search, byDepth: bool)
    requires WellFormed(tg) && Bounded(tg, champ, s) && s.queue != []
    ensures var r := Step(tg, schools, s, byDepth);
      || Space(tg, champ) - r.visited < Space(tg, champ) - s.visited
      || (Space(tg, champ) - r.visited == Space(tg, champ) - s.visited && |r.queue| < |s.queue|)
  {
    var key := Key(s.queue[0], byDepth);
    StepBounded(tg, schools, champ, s, byDepth);
    StepVisitsOnce(tg, schools, s, byDepth);
    if key !in s.visited {
      var r := Step(tg, schools, s, byDepth);
      assert key in Space(tg, champ) - s.visited;
      assert key !in Space(tg, champ) - r.visited;
    }
  }

  /**
   * A frame whose key was visited is dropped without effect; any other is
   * expanded and its key recorded, so each key is expanded at most once.
   */
  lemma StepVisitsOnce(tg: TeamGames, schools: seq<School>, s: Search, byDepth: bool)
    requires s.queue != []
    ensures var r := Step(tg, schools, s, byDepth);
      && s.visited <= r.visited
      && r.visited == s.visited + {Key(s.queue[0], byDepth)}
      && (Key(s.queue[0], byDepth) in s.visited ==> r == s.(queue := s.queue[1..]))
  {
  }

  /** The whole search, from `s` until the queue is empty. */
  ghost function Run(tg: TeamGames, schools: seq<School>, champ: TeamId, s: Search, byDepth: bool): (r: Search)
    requires WellFormed(tg) && Bounded(tg, champ, s)
    ensures Bounded(tg, champ, r) && r.queue == []
    decreases Space(tg, champ) - s.visited, |s.queue|
  {
    if s.queue == [] then s
    else
      StepBounded(tg, schools, champ, s, byDepth);
      Run(tg, schools, champ, Step(tg, schools, s, byDepth), byDepth)
  }

  /** `list(belt_paths.values())`. */
  function Entries(s: Search): (r: seq<PathEntry>)
    requires Tidy(s)
    ensures |r| == |s.order|
    ensures forall i :: 0 <= i < |r| ==> r[i] == s.paths[s.order[i]]
  {
    seq(|s.order|, i requires 0 <= i < |s.order| && Tidy(s) => s.paths[s.order[i]])
  }

  // ---------------------------------------------------------------------
  // What the corrected search finds
  // ---------------------------------------------------------------------

  /** A run of outcomes: from the champion at week 0, each frame a move of the one before. */
  ghost predicate IsPath(tg: TeamGames, champ: TeamId, p: seq<Frame>) {
    && |p| >= 1 && p[0] == Start(champ)
    && forall i :: 0 <= i < |p| - 1 ==> p[i + 1] in Moves(tg, p[i])
  }

  ghost predicate Reachable(tg: TeamGames, champ: TeamId, f: Frame) {
    exists p :: IsPath(tg, champ, p) && p[|p| - 1] == f
  }

  /**
   * Some outcome of the remaining games hands `m.holder` the belt in week
   * `m.week`, as the belt's `m.depth`-th change.
   */
  ghost predicate Takes(tg: TeamGames, champ: TeamId, m: Frame) {
    exists f :: Reachable(tg, champ, f) && Moves(tg, f) != [] && Moves(tg, f)[0] == m
  }

  lemma ReachStart(tg: TeamGames, champ: TeamId)
    ensures Reachable(tg, champ, Start(champ))
  {
    assert IsPath(tg, champ, [Start(champ)]);
  }

  lemma ReachMove(tg: TeamGames, champ: TeamId, f: Frame, m: Frame)
    requires Reachable(tg, champ, f) && m in Moves(tg, f)
    ensures Reachable(tg, champ, m)
  {
    var p :| IsPath(tg, champ, p) && p[|p| - 1] == f;
    var q := p + [m];
    forall i | 0 <= i < |q| - 1 ensures q[i + 1] in Moves(tg, q[i]) {
      if i < |p| - 1 {
        assert q[i + 1] == p[i + 1] && q[i] == p[i];
      } else {
        assert q[i] == f;
      }
    }
    assert IsPath(tg, champ, q) && q[|q| - 1] == m;
  }

  /** Every frame queued or visited, and every entry's figures, come from real outcomes. */
  ghost predicate Sound(tg: TeamGames, champ: TeamId, s: Search) {
    && (forall q :: q in s.queue ==> Reachable(tg, champ, q))
    && (forall v :: v in s.visited ==> Reachable(tg, champ, v))
    && (forall t :: t in s.paths ==> Realized(tg, champ, t, s.paths[t]))
  }

  /** The entry's change count and its week are each reached by some outcome. */
  ghost predicate Realized(tg: TeamGames, champ: TeamId, t: TeamId, e: PathEntry) {
    && (exists w :: Takes(tg, champ, Frame(t, w, e.gamesAway)))
    && (exists d: nat :: Takes(tg, champ, Frame(t, e.earliestWeek, d)))
  }

  /** The entry for `m.holder` is at least as good as the move `m`. */
  ghost predicate Covered(s: Search, m: Frame) {
    m.holder in s.paths && s.paths[m.holder].gamesAway <= m.depth && s.paths[m.holder].earliestWeek <= m.week
  }

  /** Nothing the visited frames lead to is lost, and their takeovers are recorded. */
  ghost predicate Closed(tg: TeamGames, champ: TeamId, s: Search) {
    && (Start(champ) in s.visited || Start(champ) in s.queue)
    && (forall v, m :: v in s.visited && m in Moves(tg, v) ==> m in s.visited || m in s.queue)
    && (forall v :: v in s.visited && Moves(tg, v) != [] ==> Covered(s, Moves(tg, v)[0]))
  }

  lemma StepSound(tg: TeamGames, schools: seq<School>, champ: TeamId, s: Search)
    requires s.queue != [] && Sound(tg, champ, s)
    ensures Sound(tg, champ, Step(tg, schools, s, true))
  {
    var f := s.queue[0];
    var r := Step(tg, schools, s, true);
    assert Reachable(tg, champ, f);
    if f !in s.visited {
      var moves := Moves(tg, f);
      forall m | m in moves ensures Reachable(tg, champ, m) {
        ReachMove(tg, champ, f, m);
      }
      forall q | q in r.queue ensures Reachable(tg, champ, q) {
        if q in s.queue[1..] {
          assert q in s.queue;
        }
      }
      if moves != [] {
        var win := moves[0];
        assert Takes(tg, champ, win);
        forall t | t in r.paths ensures Realized(tg, champ, t, r.paths[t]) {
          if t == win.holder {
            var e := r.paths[t];
            if e.gamesAway == win.depth {
              assert Takes(tg, champ, Frame(t, win.week, e.gamesAway));
            }
            if e.earliestWeek == win.week {
              assert Takes(tg, champ, Frame(t, e.earliestWeek, win.depth));
            }
          }
        }
      }
    } else {
      forall q | q in r.queue ensures Reachable(tg, champ, q) {
        assert q in s.queue;
      }
    }
  }

  lemma StepClosed(tg: TeamGames, schools: seq<School>, champ: TeamId, s: Search)
    requires s.queue != [] && Closed(tg, champ, s)
    ensures Closed(tg, champ, Step(tg, schools, s, true))
  {
    var f := s.queue[0];
    assert s.queue == [f] + s.queue[1..];
    StepClosedMoves(tg, schools, champ, s);
    StepClosedCovered(tg, schools, champ, s);
  }

  /** A step loses none of the frames the visited ones lead to. */
  lemma StepClosedMoves(tg: TeamGames, schools: seq<School>, champ: TeamId, s: Search)
    requires s.queue != [] && Closed(tg, champ, s)
    ensures var r := Step(tg, schools, s, true);
      forall v, m :: v in r.visited && m in Moves(tg, v) ==> m in r.visited || m in r.queue
  {
    var f := s.queue[0];
    var r := Step(tg, schools, s, true);
    assert s.queue == [f] + s.queue[1..];
    forall v, m | v in r.visited && m in Moves(tg, v) ensures m in r.visited || m in r.queue {
      if v != f || f in s.visited {
        assert m in s.visited || m in s.queue;
      }
    }
  }

  /** A step keeps every visited frame's takeover recorded. */
  lemma StepClosedCovered(tg: TeamGames, schools: seq<School>, champ: TeamId, s: Search)
    requires s.queue != [] && Closed(tg, champ, s)
    ensures var r := Step(tg, schools, s, true);
      forall v :: v in r.visited && Moves(tg, v) != [] ==> Covered(r, Moves(tg, v)[0])
  {
    var f := s.queue[0];
    var r := Step(tg, schools, s, true);
    forall v | v in r.visited && Moves(tg, v) != [] ensures Covered(r, Moves(tg, v)[0]) {
      if v != f || f in s.visited {
        assert Covered(s, Moves(tg, v)[0]);
      }
    }
  }

  /** The invariants hold throughout the corrected search. */
  lemma {:induction false} RunKeeps(tg: TeamGames, schools: seq<School>, champ: TeamId, s: Search)
    requires WellFormed(tg) && Bounded(tg, champ, s)
    requires Sound(tg, champ, s) && Closed(tg, champ, s)
    ensures Sound(tg, champ, Run(tg, schools, champ, s, true))
    ensures Closed(tg, champ, Run(tg, schools, champ, s, true))
    decreases Space(tg, champ) - s.visited, |s.queue|
  {
    if s.queue != [] {
      StepBounded(tg, schools, champ, s, true);
      StepSound(tg, schools, champ, s);
      StepClosed(tg, schools, champ, s);
      RunKeeps(tg, schools, champ, Step(tg, schools, s, true));
    }
  }

  /** A visited frame's successors are visited once the queue is empty. */
  lemma ClosedStep(tg: TeamGames, champ: TeamId, s: Search, v: Frame, m: Frame)
    requires Closed(tg, champ, s) && s.queue == [] && v in s.visited && m in Moves(tg, v)
    ensures m in s.visited
  {
  }

  lemma PathPrefix(tg: TeamGames, champ: TeamId, p: seq<Frame>)
    requires IsPath(tg, champ, p) && |p| > 1
    ensures IsPath(tg, champ, p[..|p| - 1])
  {
    var p' := p[..|p| - 1];
    forall i | 0 <= i < |p'| - 1 ensures p'[i + 1] in Moves(tg, p'[i]) {
      assert p'[i + 1] == p[i + 1] && p'[i] == p[i];
    }
  }

  /** Once the queue is empty, every reachable frame has been visited. */
  lemma {:induction false} PathVisited(tg: TeamGames, champ: TeamId, s: Search, p: seq<Frame>)
    requires Closed(tg, champ, s) && s.queue == [] && IsPath(tg, champ, p)
    ensures p[|p| - 1] in s.visited
  {
    if |p| > 1 {
      var p' := p[..|p| - 1];
      PathPrefix(tg, champ, p);
      PathVisited(tg, champ, s, p');
      assert p'[|p'| - 1] == p[|p| - 2];
      assert p[|p| - 1] in Moves(tg, p[|p| - 2]);
      ClosedStep(tg, champ, s, p[|p| - 2], p[|p| - 1]);
    }
  }

  /**
   * The corrected search lists every team that can still take the belt,
   * each with the fewest changes and the earliest week any outcome allows,
   * and nothing no outcome allows.
   */
  lemma SearchFindsShortest(tg: TeamGames, schools: seq<School>, champ: TeamId)
    requires WellFormed(tg)
    ensures forall m :: Takes(tg, champ, m) ==> Covered(Run(tg, schools, champ, Initial(champ), true), m)
    ensures forall t :: t in Run(tg, schools, champ, Initial(champ), true).paths ==>
      Realized(tg, champ, t, Run(tg, schools, champ, Initial(champ), true).paths[t])
  {
    var s0 := Initial(champ);
    ReachStart(tg, champ);
    RunKeeps(tg, schools, champ, s0);
    var s := Run(tg, schools, champ, s0, true);
    forall m | Takes(tg, champ, m) ensures Covered(s, m) {
      var f :| Reachable(tg, champ, f) && Moves(tg, f) != [] && Moves(tg, f)[0] == m;
      var p :| IsPath(tg, champ, p) && p[|p| - 1] == f;
      PathVisited(tg, champ, s, p);
    }
  }

  // ---------------------------------------------------------------------
  // compute_belt_chase_teams
  // ---------------------------------------------------------------------

  /** The upcoming games' outcomes the search explores. */
  function Outcomes(rows: seq<ScheduleRow>, now: Instant): TeamGames {
    TeamGamesOf(Infos(rows, now))
  }

  /** data_fetcher.py:379-494 with the dedup key chosen by `byDepth`. */
  ghost function ChaseOf(rows: seq<ScheduleRow>, schools: seq<School>, champ: Option<TeamId>, now: Instant, byDepth: bool): seq<PathEntry> {
    if !Truthy(champ) || rows == [] then []
    else
      var infos := Infos(rows, now);
      if infos == [] then []
      else
        TeamGamesFacts(infos);
        Entries(Run(TeamGamesOf(infos), schools, champ.value, Initial(champ.value), byDepth))
  }

  /** No champion, no schedule or no upcoming game with both teams known: nobody is listed. */
  lemma ChaseEmpty(rows: seq<ScheduleRow>, schools: seq<School>, champ: Option<TeamId>, now: Instant, byDepth: bool)
    requires !Truthy(champ) || forall i :: 0 <= i < |rows| ==> !Upcoming(rows[i], now)
    ensures ChaseOf(rows, schools, champ, now, byDepth) == []
  {
    if Truthy(champ) && rows != [] {
      InfosEmpty(rows, now);
    }
  }

  lemma NoTakesWithoutGames(tg: TeamGames, champ: TeamId, m: Frame)
    requires tg == map[]
    ensures !Takes(tg, champ, m)
  {
  }

  /** What a finished search's entries say, given what its state says. */
  ghost predicate Answers(tg: TeamGames, champ: TeamId, r: seq<PathEntry>) {
    && (forall i, j :: 0 <= i < j < |r| ==> r[i].teamId != r[j].teamId)
    && (forall i :: 0 <= i < |r| ==> Realized(tg, champ, r[i].teamId, r[i]))
    && CoversTakes(tg, champ, r)
  }

  /** Every team some outcome hands the belt is listed, no worse than that outcome. */
  ghost predicate CoversTakes(tg: TeamGames, champ: TeamId, r: seq<PathEntry>) {
    forall m :: Takes(tg, champ, m) ==>
      exists i :: 0 <= i < |r| && r[i].teamId == m.holder && r[i].gamesAway <= m.depth && r[i].earliestWeek <= m.week
  }

  lemma EntriesAnswer(tg: TeamGames, champ: TeamId, s: Search)
    requires Tidy(s)
    requires forall m :: Takes(tg, champ, m) ==> Covered(s, m)
    requires forall t :: t in s.paths ==> Realized(tg, champ, t, s.paths[t])
    ensures Answers(tg, champ, Entries(s))
  {
    EntriesRealized(tg, champ, s);
    EntriesCover(tg, champ, s);
  }

  lemma EntriesRealized(tg: TeamGames, champ: TeamId, s: Search)
    requires Tidy(s)
    requires forall t :: t in s.paths ==> Realized(tg, champ, t, s.paths[t])
    ensures forall i :: 0 <= i < |Entries(s)| ==> Realized(tg, champ, Entries(s)[i].teamId, Entries(s)[i])
  {
    var r := Entries(s);
    forall i | 0 <= i < |r| ensures Realized(tg, champ, r[i].teamId, r[i]) {
      var t := s.order[i];
      assert t in s.paths;
      assert r[i] == s.paths[t] && r[i].teamId == t;
    }
  }

  lemma EntriesCover(tg: TeamGames, champ: TeamId, s: Search)
    requires Tidy(s)
    requires forall m :: Takes(tg, champ, m) ==> Covered(s, m)
    ensures CoversTakes(tg, champ, Entries(s))
  {
    var r := Entries(s);
    forall m | Takes(tg, champ, m)
      ensures exists i :: 0 <= i < |r| && r[i].teamId == m.holder && r[i].gamesAway <= m.depth && r[i].earliestWeek <= m.week
    {
      assert Covered(s, m);
      var i :| 0 <= i < |s.order| && s.order[i] == m.holder;
      assert r[i] == s.paths[m.holder];
    }
  }

  /**
   * With the corrected key, the listed teams are exactly the teams some
   * outcome hands the belt, once each, each with the fewest changes and
   * the earliest week over all such outcomes.
   */
  lemma ChaseFindsShortest(rows: seq<ScheduleRow>, schools: seq<School>, champ: Option<TeamId>, now: Instant)
    requires Truthy(champ)
    ensures Answers(Outcomes(rows, now), champ.value, ChaseOf(rows, schools, champ, now, true))
  {
    var infos := Infos(rows, now);
    var tg := Outcomes(rows, now);
    if rows == [] || infos == [] {
      assert tg == map[];
      forall m | Takes(tg, champ.value, m) ensures false {
        NoTakesWithoutGames(tg, champ.value, m);
      }
    } else {
      TeamGamesFacts(infos);
      SearchFindsShortest(tg, schools, champ.value);
      EntriesAnswer(tg, champ.value, Run(tg, schools, champ.value, Initial(champ.value), true));
    }
  }

  /** data_fetcher.py:379-494, over the fetched schedule and schools dict. */
  method BeltChase(rows: seq<ScheduleRow>, schools: seq<School>, champ: Option<TeamId>, now: Instant, byDepth: bool)
    returns (r: seq<PathEntry>)
    ensures r == ChaseOf(rows, schools, champ, now, byDepth)
  {
    if champ.None? || champ.value == 0 {
      return [];
    }
    if |rows| == 0 {
      return [];
    }
    var upcoming := Infos(rows, now);
    if |upcoming| == 0 {
      return [];
    }
    var c := champ.value;

    var grouped: TeamGames := map[];
    var i := 0;
    while i < |upcoming|
      invariant 0 <= i <= |upcoming|
      invariant grouped == Grouped(upcoming[..i])
    {
      var info := upcoming[i];
      assert upcoming[..i + 1][..i] == upcoming[..i];
      grouped := Append(grouped, info.homeId, info);
      grouped := Append(grouped, info.awayId, info);
      i := i + 1;
    }
    assert upcoming[..i] == upcoming;
    var teamGames := map t | t in grouped :: SortBy(grouped[t], WeekKey);
    TeamGamesFacts(upcoming);

    var found := Explore(teamGames, schools, c, byDepth);
    r := Entries(found);
  }

  /** The `for game in holder_games` loop of data_fetcher.py:450-455. */
  method NextGameIndex(holderGames: seq<GameInfo>, week: int) returns (k: nat)
    ensures k == FirstAfter(holderGames, week)
  {
    k := 0;
    while k < |holderGames| && holderGames[k].week <= week
      invariant 0 <= k <= |holderGames|
      invariant forall j :: 0 <= j < k ==> holderGames[j].week <= week
    {
      k := k + 1;
    }
  }

  /**
   * data_fetcher.py:447-492 for a frame not visited before: the holder's
   * next game, the opponent's entry in `belt_paths`, and the two outcomes
   * to queue (none when the holder has no game left).
   */
  method Expand(teamGames: TeamGames, schools: seq<School>, state: Frame, paths: map<TeamId, PathEntry>, order: seq<TeamId>, ghost s: Search)
    returns (paths': map<TeamId, PathEntry>, order': seq<TeamId>, moves: seq<Frame>)
    requires s.paths == paths && s.order == order
    ensures moves == Moves(teamGames, state)
    ensures moves == [] ==> paths' == paths && order' == order
    ensures moves != [] ==>
      var u := Upsert(s, moves[0].holder, TeamName(schools, moves[0].holder), moves[0].depth, moves[0].week);
      paths' == u.paths && order' == u.order
  {
    var holderGames := if state.holder in teamGames then teamGames[state.holder] else [];
    var k := NextGameIndex(holderGames, state.week);
    if k == |holderGames| {
      return paths, order, [];
    }
    var game := holderGames[k];
    var opponent := if game.homeId == state.holder then game.awayId else game.homeId;
    paths', order' := paths, order;
    if opponent !in paths' {
      paths' := paths'[opponent := PathEntry(opponent, TeamName(schools, opponent), state.depth + 1, game.week)];
      order' := order' + [opponent];
    } else {
      if state.depth + 1 < paths'[opponent].gamesAway {
        paths' := paths'[opponent := paths'[opponent].(gamesAway := state.depth + 1)];
      }
      if game.week < paths'[opponent].earliestWeek {
        paths' := paths'[opponent := paths'[opponent].(earliestWeek := game.week)];
      }
    }
    moves := [Frame(opponent, game.week, state.depth + 1)];
    moves := moves + [Frame(state.holder, game.week, state.depth)];
  }

  /** One iteration of the `while queue` loop (data_fetcher.py:438-492). */
  method Visit(teamGames: TeamGames, schools: seq<School>, queue: seq<Frame>, visited: set<Frame>,
               paths: map<TeamId, PathEntry>, order: seq<TeamId>, byDepth: bool)
    returns (queue': seq<Frame>, visited': set<Frame>, paths': map<TeamId, PathEntry>, order': seq<TeamId>)
    requires queue != []
    ensures Search(queue', visited', paths', order')
         == Step(teamGames, schools, Search(queue, visited, paths, order), byDepth)
  {
    ghost var s := Search(queue, visited, paths, order);
    var state := queue[0];
    queue' := queue[1..];
    var key := Key(state, byDepth);
    if key in visited {
      return queue', visited, paths, order;
    }
    visited' := visited + {key};
    var moves;
    paths', order', moves := Expand(teamGames, schools, state, paths, order, s);
    queue' := queue' + moves;
  }

  /** The `while queue` loop of data_fetcher.py:437-492. */
  method Explore(teamGames: TeamGames, schools: seq<School>, c: TeamId, byDepth: bool) returns (found: Search)
    requires WellFormed(teamGames)
    ensures Tidy(found)
    ensures found == Run(teamGames, schools, c, Initial(c), byDepth)
  {
    var queue := [Start(c)];
    var visited: set<Frame> := {};
    var paths: map<TeamId, PathEntry> := map[];
    var order: seq<TeamId> := [];
    while |queue| > 0
      invariant Bounded(teamGames, c, Search(queue, visited, paths, order))
      invariant Run(teamGames, schools, c, Search(queue, visited, paths, order), byDepth)
             == Run(teamGames, schools, c, Initial(c), byDepth)
      decreases Space(teamGames, c) - visited, |queue|
    {
      ghost var s := Search(queue, visited, paths, order);
      StepBounded(teamGames, schools, c, s, byDepth);
      RunStep(teamGames, schools, c, s, byDepth);
      StepShrinks(teamGames, schools, c, s, byDepth);
      queue, visited, paths, order := Visit(teamGames, schools, queue, visited, paths, order, byDepth);
    }
    found := Search(queue, visited, paths, order);
  }

  // ---------------------------------------------------------------------
  // The as-written key loses the shortest path
  // ---------------------------------------------------------------------

  /** Team 1 holds the belt and plays team 2 in weeks 1 and 2, then team 3 in week 3. */
  function ExampleRows(): seq<ScheduleRow> {
    [ScheduleRow(Some(1), Some(2), Some(1), false, 10, None),
     ScheduleRow(Some(1), Some(2), Some(2), false, 20, None),
     ScheduleRow(Some(1), Some(3), Some(3), false, 30, None)]
  }

  function ExampleGames(): TeamGames {
    var g1, g2, g3 := GameInfo(1, 1, 2), GameInfo(2, 1, 2), GameInfo(3, 1, 3);
    map[1 := [g1, g2, g3], 2 := [g1, g2], 3 := [g3]]
  }

  lemma ExampleWellFormed()
    ensures WellFormed(ExampleGames())
  {
    ExampleOutcomes();
    TeamGamesFacts(Infos(ExampleRows(), 0));
  }

  lemma ExampleOutcomes()
    ensures Outcomes(ExampleRows(), 0) == ExampleGames()
  {
    ExampleInfos();
    ExampleTeamGames();
  }

  lemma ExampleTeamGames()
    ensures TeamGamesOf([GameInfo(1, 1, 2), GameInfo(2, 1, 2), GameInfo(3, 1, 3)]) == ExampleGames()
  {
    var g1, g2, g3 := GameInfo(1, 1, 2), GameInfo(2, 1, 2), GameInfo(3, 1, 3);
    ExampleGrouped();
    ExampleSorted();
    var tg := TeamGamesOf([g1, g2, g3]);
    assert tg.Keys == ExampleGames().Keys;
    assert tg[1] == [g1, g2, g3] && tg[2] == [g1, g2] && tg[3] == [g3];
  }

  lemma ExampleSorted()
    ensures SortBy([GameInfo(3, 1, 3)], WeekKey) == [GameInfo(3, 1, 3)]
    ensures SortBy([GameInfo(1, 1, 2), GameInfo(2, 1, 2)], WeekKey) == [GameInfo(1, 1, 2), GameInfo(2, 1, 2)]
    ensures SortBy([GameInfo(1, 1, 2), GameInfo(2, 1, 2), GameInfo(3, 1, 3)], WeekKey)
         == [GameInfo(1, 1, 2), GameInfo(2, 1, 2), GameInfo(3, 1, 3)]
  {
    var g1, g2, g3 := GameInfo(1, 1, 2), GameInfo(2, 1, 2), GameInfo(3, 1, 3);
    assert SortBy([g3], WeekKey) == [g3];
    assert SortBy([g2, g3], WeekKey) == [g2, g3];
    assert SortBy([g1, g2, g3], WeekKey) == [g1, g2, g3];
    assert SortBy([g2], WeekKey) == [g2];
    assert SortBy([g1, g2], WeekKey) == [g1, g2];
  }

  lemma ExampleInfos()
    ensures Infos(ExampleRows(), 0) == [GameInfo(1, 1, 2), GameInfo(2, 1, 2), GameInfo(3, 1, 3)]
  {
    var rows := ExampleRows();
    assert rows[..2][..1] == rows[..1];
    assert rows[..3][..2] == rows[..2];
    assert rows[..1][..0] == [];
    assert Infos(rows[..1], 0) == [GameInfo(1, 1, 2)];
    assert Infos(rows[..2], 0) == [GameInfo(1, 1, 2), GameInfo(2, 1, 2)];
    assert rows[..3] == rows;
  }

  lemma ExampleGrouped()
    ensures Grouped([GameInfo(1, 1, 2), GameInfo(2, 1, 2), GameInfo(3, 1, 3)])
         == map[1 := [GameInfo(1, 1, 2), GameInfo(2, 1, 2), GameInfo(3, 1, 3)], 2 := [GameInfo(1, 1, 2), GameInfo(2, 1, 2)], 3 := [GameInfo(3, 1, 3)]]
  {
    var g1, g2, g3 := GameInfo(1, 1, 2), GameInfo(2, 1, 2), GameInfo(3, 1, 3);
    assert [g1, g2, g3][..2] == [g1, g2] && [g1, g2][..1] == [g1] && [g1][..0] == [];
    assert [] + [g1] == [g1] && [g1] + [g2] == [g1, g2] && [g1, g2] + [g3] == [g1, g2, g3] && [] + [g3] == [g3];
    var m1 := map[1 := [g1], 2 := [g1]];
    var m2 := map[1 := [g1, g2], 2 := [g1, g2]];
    var m3 := map[1 := [g1, g2, g3], 2 := [g1, g2], 3 := [g3]];
    assert Grouped([g1]) == m1 by {
      assert Append(map[], 1, g1) == map[1 := [g1]];
    }
    assert Grouped([g1, g2]) == m2 by {
      assert Append(m1, 1, g2) == m1[1 := [g1, g2]];
    }
    assert Grouped([g1, g2, g3]) == m3 by {
      assert Append(m2, 1, g3) == m2[1 := [g1, g2, g3]];
      assert 3 !in m2[1 := [g1, g2, g3]];
    }
  }

  lemma RunStep(tg: TeamGames, schools: seq<School>, champ: TeamId, s: Search, byDepth: bool)
    requires WellFormed(tg) && Bounded(tg, champ, s) && s.queue != []
    ensures Bounded(tg, champ, Step(tg, schools, s, byDepth))
    ensures Run(tg, schools, champ, s, byDepth) == Run(tg, schools, champ, Step(tg, schools, s, byDepth), byDepth)
  {
    StepBounded(tg, schools, champ, s, byDepth);
  }

  /** The states of the source's search on the example, one per iteration. */
  function Trace(schools: seq<School>, i: nat): Search
    requires i <= 9
  {
    var e2 := PathEntry(2, TeamName(schools, 2), 1, 1);
    var e1 := PathEntry(1, TeamName(schools, 1), 2, 2);
    var e3 := PathEntry(3, TeamName(schools, 3), 3, 3);
    var p2 := map[2 := e2, 1 := e1];
    var p3 := map[2 := e2, 1 := e1, 3 := e3];
    var v3 := {Frame(1, 0, 0), Frame(2, 1, 0), Frame(1, 1, 0)};
    var v5 := v3 + {Frame(1, 2, 0), Frame(2, 2, 0)};
    if i == 0 then Initial(1)
    else if i == 1 then Search([Frame(2, 1, 1), Frame(1, 1, 0)], {Frame(1, 0, 0)}, map[2 := e2], [2])
    else if i == 2 then Search([Frame(1, 1, 0), Frame(1, 2, 2), Frame(2, 2, 1)], {Frame(1, 0, 0), Frame(2, 1, 0)}, p2, [2, 1])
    else if i == 3 then Search([Frame(1, 2, 2), Frame(2, 2, 1), Frame(2, 2, 1), Frame(1, 2, 0)], v3, p2, [2, 1])
    else if i == 4 then Search([Frame(2, 2, 1), Frame(2, 2, 1), Frame(1, 2, 0), Frame(3, 3, 3), Frame(1, 3, 2)], v3 + {Frame(1, 2, 0)}, p3, [2, 1, 3])
    else if i == 5 then Search([Frame(2, 2, 1), Frame(1, 2, 0), Frame(3, 3, 3), Frame(1, 3, 2)], v5, p3, [2, 1, 3])
    else if i == 6 then Search([Frame(1, 2, 0), Frame(3, 3, 3), Frame(1, 3, 2)], v5, p3, [2, 1, 3])
    else if i == 7 then Search([Frame(3, 3, 3), Frame(1, 3, 2)], v5, p3, [2, 1, 3])
    else if i == 8 then Search([Frame(1, 3, 2)], v5 + {Frame(3, 3, 0)}, p3, [2, 1, 3])
    else Search([], v5 + {Frame(3, 3, 0)} + {Frame(1, 3, 0)}, p3, [2, 1, 3])
  }

  lemma TraceStep0(schools: seq<School>)
    ensures Trace(schools, 0).queue != []
    ensures Step(ExampleGames(), schools, Trace(schools, 0), false) == Trace(schools, 1)
  {
    assert Moves(ExampleGames(), Frame(1, 0, 0)) == [Frame(2, 1, 1), Frame(1, 1, 0)];
  }

  lemma TraceStep1(schools: seq<School>)
    ensures Trace(schools, 1).queue != []
    ensures Step(ExampleGames(), schools, Trace(schools, 1), false) == Trace(schools, 2)
  {
    assert Moves(ExampleGames(), Frame(2, 1, 1)) == [Frame(1, 2, 2), Frame(2, 2, 1)];
  }

  lemma TraceStep2(schools: seq<School>)
    ensures Trace(schools, 2).queue != []
    ensures Step(ExampleGames(), schools, Trace(schools, 2), false) == Trace(schools, 3)
  {
    assert Moves(ExampleGames(), Frame(1, 1, 0)) == [Frame(2, 2, 1), Frame(1, 2, 0)];
  }

  lemma TraceStep3(schools: seq<School>)
    ensures Trace(schools, 3).queue != []
    ensures Step(ExampleGames(), schools, Trace(schools, 3), false) == Trace(schools, 4)
  {
    assert Moves(ExampleGames(), Frame(1, 2, 2)) == [Frame(3, 3, 3), Frame(1, 3, 2)];
  }

  lemma TraceStep4(schools: seq<School>)
    ensures Trace(schools, 4).queue != []
    ensures Step(ExampleGames(), schools, Trace(schools, 4), false) == Trace(schools, 5)
  {
    assert Moves(ExampleGames(), Frame(2, 2, 1)) == [];
  }

  lemma TraceStep5(schools: seq<School>)
    ensures Trace(schools, 5).queue != []
    ensures Step(ExampleGames(), schools, Trace(schools, 5), false) == Trace(schools, 6)
  {
  }

  lemma TraceStep6(schools: seq<School>)
    ensures Trace(schools, 6).queue != []
    ensures Step(ExampleGames(), schools, Trace(schools, 6), false) == Trace(schools, 7)
  {
  }

  lemma TraceStep7(schools: seq<School>)
    ensures Trace(schools, 7).queue != []
    ensures Step(ExampleGames(), schools, Trace(schools, 7), false) == Trace(schools, 8)
  {
    ThreeHasNoGameAfterWeek3(3);
    assert Key(Frame(3, 3, 3), false) == Frame(3, 3, 0);
    assert Frame(3, 3, 0) !in Trace(schools, 7).visited;
  }

  lemma TraceStep8(schools: seq<School>)
    ensures Trace(schools, 8).queue != []
    ensures Step(ExampleGames(), schools, Trace(schools, 8), false) == Trace(schools, 9)
  {
    var t8 := Trace(schools, 8);
    assert t8.queue == [Frame(1, 3, 2)];
    NoGamesAfterWeek3(2);
    assert Key(Frame(1, 3, 2), false) == Frame(1, 3, 0) && Frame(1, 3, 0) !in t8.visited;
    assert Step(ExampleGames(), schools, t8, false) == t8.(queue := [], visited := t8.visited + {Frame(1, 3, 0)});
  }

  lemma ThreeHasNoGameAfterWeek3(d: nat)
    ensures Moves(ExampleGames(), Frame(3, 3, d)) == []
  {
    var games := GamesFor(ExampleGames(), 3);
    assert games == [GameInfo(3, 1, 3)];
    var k := FirstAfter(games, 3);
    if k < |games| {
      assert false;
    }
  }

  lemma NoGamesAfterWeek3(d: nat)
    ensures Moves(ExampleGames(), Frame(1, 3, d)) == []
  {
    var games := GamesFor(ExampleGames(), 1);
    assert games == [GameInfo(1, 1, 2), GameInfo(2, 1, 2), GameInfo(3, 1, 3)];
    var k := FirstAfter(games, 3);
    if k < |games| {
      assert false;
    }
  }

  lemma RunTrace0(schools: seq<School>)
    requires WellFormed(ExampleGames()) && Bounded(ExampleGames(), 1, Trace(schools, 0))
    ensures Bounded(ExampleGames(), 1, Trace(schools, 1))
    ensures Run(ExampleGames(), schools, 1, Trace(schools, 0), false) == Run(ExampleGames(), schools, 1, Trace(schools, 1), false)
  {
    TraceStep0(schools);
    RunStep(ExampleGames(), schools, 1, Trace(schools, 0), false);
  }

  lemma RunTrace1(schools: seq<School>)
    requires WellFormed(ExampleGames()) && Bounded(ExampleGames(), 1, Trace(schools, 1))
    ensures Bounded(ExampleGames(), 1, Trace(schools, 2))
    ensures Run(ExampleGames(), schools, 1, Trace(schools, 1), false) == Run(ExampleGames(), schools, 1, Trace(schools, 2), false)
  {
    TraceStep1(schools);
    RunStep(ExampleGames(), schools, 1, Trace(schools, 1), false);
  }

  lemma RunTrace2(schools: seq<School>)
    requires WellFormed(ExampleGames()) && Bounded(ExampleGames(), 1, Trace(schools, 2))
    ensures Bounded(ExampleGames(), 1, Trace(schools, 3))
    ensures Run(ExampleGames(), schools, 1, Trace(schools, 2), false) == Run(ExampleGames(), schools, 1, Trace(schools, 3), false)
  {
    TraceStep2(schools);
    RunStep(ExampleGames(), schools, 1, Trace(schools, 2), false);
  }

  lemma RunTrace3(schools: seq<School>)
    requires WellFormed(ExampleGames()) && Bounded(ExampleGames(), 1, Trace(schools, 3))
    ensures Bounded(ExampleGames(), 1, Trace(schools, 4))
    ensures Run(ExampleGames(), schools, 1, Trace(schools, 3), false) == Run(ExampleGames(), schools, 1, Trace(schools, 4), false)
  {
    TraceStep3(schools);
    RunStep(ExampleGames(), schools, 1, Trace(schools, 3), false);
  }

  lemma RunTrace4(schools: seq<School>)
    requires WellFormed(ExampleGames()) && Bounded(ExampleGames(), 1, Trace(schools, 4))
    ensures Bounded(ExampleGames(), 1, Trace(schools, 5))
    ensures Run(ExampleGames(), schools, 1, Trace(schools, 4), false) == Run(ExampleGames(), schools, 1, Trace(schools, 5), false)
  {
    TraceStep4(schools);
    RunStep(ExampleGames(), schools, 1, Trace(schools, 4), false);
  }

  lemma RunTrace5(schools: seq<School>)
    requires WellFormed(ExampleGames()) && Bounded(ExampleGames(), 1, Trace(schools, 5))
    ensures Bounded(ExampleGames(), 1, Trace(schools, 6))
    ensures Run(ExampleGames(), schools, 1, Trace(schools, 5), false) == Run(ExampleGames(), schools, 1, Trace(schools, 6), false)
  {
    TraceStep5(schools);
    RunStep(ExampleGames(), schools, 1, Trace(schools, 5), false);
  }

  lemma RunTrace6(schools: seq<School>)
    requires WellFormed(ExampleGames()) && Bounded(ExampleGames(), 1, Trace(schools, 6))
    ensures Bounded(ExampleGames(), 1, Trace(schools, 7))
    ensures Run(ExampleGames(), schools, 1, Trace(schools, 6), false) == Run(ExampleGames(), schools, 1, Trace(schools, 7), false)
  {
    TraceStep6(schools);
    RunStep(ExampleGames(), schools, 1, Trace(schools, 6), false);
  }

  lemma RunTrace7(schools: seq<School>)
    requires WellFormed(ExampleGames()) && Bounded(ExampleGames(), 1, Trace(schools, 7))
    ensures Bounded(ExampleGames(), 1, Trace(schools, 8))
    ensures Run(ExampleGames(), schools, 1, Trace(schools, 7), false) == Run(ExampleGames(), schools, 1, Trace(schools, 8), false)
  {
    TraceStep7(schools);
    RunStep(ExampleGames(), schools, 1, Trace(schools, 7), false);
  }

  lemma RunTrace8(schools: seq<School>)
    requires WellFormed(ExampleGames()) && Bounded(ExampleGames(), 1, Trace(schools, 8))
    ensures Bounded(ExampleGames(), 1, Trace(schools, 9))
    ensures Run(ExampleGames(), schools, 1, Trace(schools, 8), false) == Run(ExampleGames(), schools, 1, Trace(schools, 9), false)
  {
    TraceStep8(schools);
    RunStep(ExampleGames(), schools, 1, Trace(schools, 8), false);
  }

  lemma AsWrittenRun(schools: seq<School>)
    ensures WellFormed(ExampleGames())
    ensures Run(ExampleGames(), schools, 1, Initial(1), false) == Trace(schools, 9)
  {
    ExampleWellFormed();
    assert Start(1) in Space(ExampleGames(), 1);
    assert Bounded(ExampleGames(), 1, Trace(schools, 0));
    RunTrace0(schools);
    RunTrace1(schools);
    RunTrace2(schools);
    RunTrace3(schools);
    RunTrace4(schools);
    RunTrace5(schools);
    RunTrace6(schools);
    RunTrace7(schools);
    RunTrace8(schools);
  }

  /**
   * The source's search lists team 3 as three changes away, although team
   * 1 can keep the belt through weeks 1 and 2 and lose it to team 3 in
   * week 3: one change.  Keying `visited` on holder and week drops the
   * cheaper frame that reaches holder 1 after week 2.
   */
  lemma AsWrittenMissesShortest(schools: seq<School>)
    ensures ChaseOf(ExampleRows(), schools, Some(1), 0, false)
         == [PathEntry(2, TeamName(schools, 2), 1, 1), PathEntry(1, TeamName(schools, 1), 2, 2), PathEntry(3, TeamName(schools, 3), 3, 3)]
    ensures Takes(Outcomes(ExampleRows(), 0), 1, Frame(3, 3, 1))
  {
    AsWrittenChase(schools);
    TraceEntries(schools);
    ExampleTakesInOne();
  }

  lemma AsWrittenChase(schools: seq<School>)
    ensures Tidy(Trace(schools, 9))
    ensures ChaseOf(ExampleRows(), schools, Some(1), 0, false) == Entries(Trace(schools, 9))
  {
    ExampleInfos();
    ExampleOutcomes();
    AsWrittenRun(schools);
    assert Infos(ExampleRows(), 0) != [];
  }

  lemma TraceEntries(schools: seq<School>)
    requires Tidy(Trace(schools, 9))
    ensures Entries(Trace(schools, 9))
         == [PathEntry(2, TeamName(schools, 2), 1, 1), PathEntry(1, TeamName(schools, 1), 2, 2), PathEntry(3, TeamName(schools, 3), 3, 3)]
  {
    var s9 := Trace(schools, 9);
    assert s9.order == [2, 1, 3];
    assert Entries(s9) == [s9.paths[2], s9.paths[1], s9.paths[3]];
  }

  lemma ExampleTakesInOne()
    ensures Takes(Outcomes(ExampleRows(), 0), 1, Frame(3, 3, 1))
  {
    ExampleOutcomes();
    ExampleTakes();
  }

  lemma ExampleTakes()
    ensures Takes(ExampleGames(), 1, Frame(3, 3, 1))
  {
    var tg := ExampleGames();
    ReachStart(tg, 1);
    ExampleMoves0();
    ReachMove(tg, 1, Frame(1, 0, 0), Frame(1, 1, 0));
    ExampleMoves1();
    ReachMove(tg, 1, Frame(1, 1, 0), Frame(1, 2, 0));
    ExampleMoves2();
  }

  lemma ExampleMoves0()
    ensures Moves(ExampleGames(), Frame(1, 0, 0)) == [Frame(2, 1, 1), Frame(1, 1, 0)]
  {
  }

  lemma ExampleMoves1()
    ensures Moves(ExampleGames(), Frame(1, 1, 0)) == [Frame(2, 2, 1), Frame(1, 2, 0)]
  {
  }

  lemma ExampleMoves2()
    ensures Moves(ExampleGames(), Frame(1, 2, 0)) == [Frame(3, 3, 1), Frame(1, 3, 0)]
  {
  }

  lemma TakesDepth(tg: TeamGames, champ: TeamId, m: Frame)
    requires Takes(tg, champ, m)
    ensures m.depth >= 1
  {
  }

  /** Some entry of `r` lists team `t` at `n` changes. */
  ghost predicate Lists(r: seq<PathEntry>, t: TeamId, n: nat) {
    exists i :: 0 <= i < |r| && r[i].teamId == t && r[i].gamesAway == n
  }

  lemma RealizedDepth(tg: TeamGames, champ: TeamId, t: TeamId, e: PathEntry)
    requires Realized(tg, champ, t, e)
    ensures e.gamesAway >= 1
  {
    var w :| Takes(tg, champ, Frame(t, w, e.gamesAway));
    TakesDepth(tg, champ, Frame(t, w, e.gamesAway));
  }

  lemma CoveringEntry(tg: TeamGames, champ: TeamId, r: seq<PathEntry>, m: Frame) returns (i: nat)
    requires CoversTakes(tg, champ, r) && Takes(tg, champ, m)
    ensures i < |r| && r[i].teamId == m.holder && r[i].gamesAway <= m.depth
  {
    i :| 0 <= i < |r| && r[i].teamId == m.holder && r[i].gamesAway <= m.depth && r[i].earliestWeek <= m.week;
  }

  /** A team some outcome hands the belt in one change is listed at one change. */
  lemma AnswerForOne(tg: TeamGames, champ: TeamId, r: seq<PathEntry>, m: Frame)
    requires Answers(tg, champ, r) && Takes(tg, champ, m) && m.depth == 1
    ensures Lists(r, m.holder, 1)
  {
    var i := CoveringEntry(tg, champ, r, m);
    assert Realized(tg, champ, r[i].teamId, r[i]);
    RealizedDepth(tg, champ, r[i].teamId, r[i]);
    assert r[i].teamId == m.holder && r[i].gamesAway == 1;
  }

  /** On the same schedule the corrected search lists team 3 as one change away. */
  lemma CorrectedFindsOneChange(schools: seq<School>)
    ensures Lists(ChaseOf(ExampleRows(), schools, Some(1), 0, true), 3, 1)
  {
    ExampleTakesInOne();
    ChaseFindsShortest(ExampleRows(), schools, Some(1), 0);
    AnswerForOne(Outcomes(ExampleRows(), 0), 1, ChaseOf(ExampleRows(), schools, Some(1), 0, true), Frame(3, 3, 1));
  }
}
