/**
 * `get_longest_reigns` (data_fetcher.py:496-542): the belt-change games in
 * date order are cut into reigns, a new reign starting whenever the winner
 * differs from the tracked champion, so back-to-back belt-change wins by
 * the same team make one reign (unlike `get_team_belt_history`, which counts
 * each such win).  The reigns are then ordered longest first and cut to
 * `limit`.
 */
module Reigns {
  import opened Wrappers
  import opened Calendar
  import opened Sorting
  import opened Records
  import opened Directory
  import opened Replay

  /** One dict of the returned list; the open reign has no end date. */
  datatype Reign = Reign(championId: TeamId, championName: string, startDate: Instant, endDate: Option<Instant>, days: int)

  predicate IsOpen(r: Reign) {
    r.endDate.None?
  }

  /** The key of `sort(key=days, reverse=True)`: a stable ascending sort on the negated days. */
  function NegDays(r: Reign): int {
    -r.days
  }

  /** `belt_games`: the belt-change rows in date order. */
  function BeltGamesByDate(games: seq<Game>): seq<Game> {
    ByDate(Filter(games, IsBelt))
  }

  function Winners(gs: seq<Game>): (ws: seq<TeamId>)
    ensures |ws| == |gs| && forall i :: 0 <= i < |gs| ==> ws[i] == gs[i].winnerId
  {
    seq(|gs|, i requires 0 <= i < |gs| => gs[i].winnerId)
  }

  function Champions(rs: seq<Reign>): (cs: seq<TeamId>)
    ensures |cs| == |rs| && forall i :: 0 <= i < |rs| ==> cs[i] == rs[i].championId
  {
    seq(|rs|, i requires 0 <= i < |rs| => rs[i].championId)
  }

  /** The winners with each run of repeats collapsed to one. */
  function Compress(ws: seq<TeamId>): (c: seq<TeamId>)
    ensures |c| <= |ws|
    ensures ws != [] ==> c != [] && c[|c| - 1] == ws[|ws| - 1]
    ensures ws == [] ==> c == []
    ensures forall i :: 0 <= i < |c| - 1 ==> c[i] != c[i + 1]
  {
    if ws == [] then []
    else
      var c := Compress(ws[..|ws| - 1]);
      var w := ws[|ws| - 1];
      if c != [] && c[|c| - 1] == w then c else c + [w]
  }

  /** The loop's locals: the reigns closed so far and the tracked champion. */
  datatype ReignState = ReignState(reigns: seq<Reign>, current: Option<TeamId>, start: Option<Instant>)

  /** One iteration of data_fetcher.py:508-526. */
  function ReignStep(st: ReignState, g: Game, schools: seq<School>): ReignState {
    if st.current != Some(g.winnerId) then
      var closed :=
        if st.current.Some? && st.start.Some? then
          st.reigns + [Reign(st.current.value, TeamName(schools, st.current.value), st.start.value, Some(g.date),
                             DaysBetween(g.date, st.start.value))]
        else st.reigns;
      ReignState(closed, Some(g.winnerId), Some(g.date))
    else st
  }

  const NoReigns := ReignState([], None, None)

  function ReignFold(gs: seq<Game>, schools: seq<School>): ReignState {
    if gs == [] then NoReigns
    else ReignStep(ReignFold(gs[..|gs| - 1], schools), gs[|gs| - 1], schools)
  }

  /** data_fetcher.py:529-538: the reign still running, measured up to now. */
  function OpenReign(st: ReignState, schools: seq<School>, now: Instant): seq<Reign> {
    if st.current.Some? && st.start.Some? then
      [Reign(st.current.value, TeamName(schools, st.current.value), st.start.value, None, DaysBetween(now, st.start.value))]
    else []
  }

  /** Every reign, in the order the loop appends them. */
  function AllReigns(beltGames: seq<Game>, schools: seq<School>, now: Instant): seq<Reign> {
    var st := ReignFold(beltGames, schools);
    st.reigns + OpenReign(st, schools, now)
  }

  function LongestReignsOf(games: seq<Game>, schools: seq<School>, now: Instant, limit: int): seq<Reign> {
    if games == [] then []
    else SliceTo(SortBy(AllReigns(BeltGamesByDate(games), schools, now), NegDays), limit)
  }

  // ---------------------------------------------------------------------
  // The shape of the fold
  // ---------------------------------------------------------------------

  /** A champion is tracked, with its start, from the first belt game on. */
  lemma {:induction false} FoldTracks(gs: seq<Game>, schools: seq<School>)
    ensures ReignFold(gs, schools).current.Some? <==> gs != []
    ensures ReignFold(gs, schools).start.Some? <==> gs != []
    ensures gs != [] ==> ReignFold(gs, schools).current == Some(gs[|gs| - 1].winnerId)
    ensures gs == [] ==> ReignFold(gs, schools).reigns == []
  {
    if gs != [] {
      FoldTracks(gs[..|gs| - 1], schools);
    }
  }

  /** The champions of the closed reigns, then the tracked one, are the winners with repeats collapsed. */
  lemma {:induction false} FoldChampions(gs: seq<Game>, schools: seq<School>)
    requires gs != []
    ensures Champions(ReignFold(gs, schools).reigns) + [ReignFold(gs, schools).current.value] == Compress(Winners(gs))
  {
    var n := |gs| - 1;
    var g := gs[n];
    assert Winners(gs)[..n] == Winners(gs[..n]);
    if n == 0 {
      FoldTracks(gs[..n], schools);
      assert Compress(Winners(gs)[..0]) == [];
    } else {
      FoldChampions(gs[..n], schools);
      FoldTracks(gs[..n], schools);
      var st := ReignFold(gs[..n], schools);
      var c := Compress(Winners(gs[..n]));
      assert c[|c| - 1] == st.current.value;
      assert ReignFold(gs, schools) == ReignStep(st, g, schools);
      assert Compress(Winners(gs)) == if c[|c| - 1] == g.winnerId then c else c + [g.winnerId];
      if st.current != Some(g.winnerId) {
        var closed := ReignStep(st, g, schools).reigns;
        assert Champions(closed) == Champions(st.reigns) + [st.current.value];
      }
    }
  }

  /** Closed reigns have an end; each ends where the next begins; the last ends where the tracked one began. */
  lemma {:induction false} FoldChain(gs: seq<Game>, schools: seq<School>)
    ensures forall i :: 0 <= i < |ReignFold(gs, schools).reigns| ==> ReignFold(gs, schools).reigns[i].endDate.Some?
    ensures forall i :: 0 <= i < |ReignFold(gs, schools).reigns| - 1 ==>
      ReignFold(gs, schools).reigns[i].endDate == Some(ReignFold(gs, schools).reigns[i + 1].startDate)
    ensures ReignFold(gs, schools).reigns != [] ==>
      ReignFold(gs, schools).reigns[|ReignFold(gs, schools).reigns| - 1].endDate == ReignFold(gs, schools).start
  {
    if gs != [] {
      FoldChain(gs[..|gs| - 1], schools);
    }
  }

  /** Over date-sorted games no reign ends before it starts, and the tracked start is the latest date seen. */
  lemma {:induction false} FoldOrdered(gs: seq<Game>, schools: seq<School>)
    requires SortedBy(gs, DateKey)
    ensures forall i :: 0 <= i < |ReignFold(gs, schools).reigns| ==> ReignFold(gs, schools).reigns[i].days >= 0
    ensures gs != [] ==> ReignFold(gs, schools).start.Some? && ReignFold(gs, schools).start.value <= gs[|gs| - 1].date
  {
    if gs != [] {
      var n := |gs| - 1;
      SortedPrefix(gs, n, DateKey);
      FoldOrdered(gs[..n], schools);
      FoldTracks(gs[..n], schools);
      var st := ReignFold(gs[..n], schools);
      if n > 0 {
        assert DateKey(gs[n - 1]) <= DateKey(gs[n]);
        DaysBetweenSign(gs[n].date, st.start.value);
      }
    }
  }

  // ---------------------------------------------------------------------
  // What the reign list promises
  // ---------------------------------------------------------------------

  /**
   * The reigns' champions are the belt-change winners with back-to-back
   * repeats merged, so consecutive reigns have different champions and
   * there are no more reigns than belt-change games.
   */
  lemma ReignsChampions(gs: seq<Game>, schools: seq<School>, now: Instant)
    ensures Champions(AllReigns(gs, schools, now)) == Compress(Winners(gs))
    ensures |AllReigns(gs, schools, now)| <= |gs|
    ensures forall i :: 0 <= i < |AllReigns(gs, schools, now)| - 1 ==>
      AllReigns(gs, schools, now)[i].championId != AllReigns(gs, schools, now)[i + 1].championId
  {
    var st := ReignFold(gs, schools);
    var r := AllReigns(gs, schools, now);
    FoldTracks(gs, schools);
    if gs != [] {
      FoldChampions(gs, schools);
      assert Champions(r) == Champions(st.reigns) + [st.current.value];
    }
    forall i | 0 <= i < |r| - 1 ensures r[i].championId != r[i + 1].championId {
      assert Champions(r)[i] == r[i].championId && Champions(r)[i + 1] == r[i + 1].championId;
    }
  }

  /** Each reign ends when the next begins; only the last reign is open, and it is open. */
  lemma ReignsChain(gs: seq<Game>, schools: seq<School>, now: Instant)
    ensures forall i :: 0 <= i < |AllReigns(gs, schools, now)| - 1 ==>
      AllReigns(gs, schools, now)[i].endDate == Some(AllReigns(gs, schools, now)[i + 1].startDate)
    ensures forall i :: 0 <= i < |AllReigns(gs, schools, now)| - 1 ==> !IsOpen(AllReigns(gs, schools, now)[i])
    ensures gs != [] <==> AllReigns(gs, schools, now) != []
    ensures gs != [] ==> IsOpen(AllReigns(gs, schools, now)[|AllReigns(gs, schools, now)| - 1])
  {
    FoldTracks(gs, schools);
    FoldChain(gs, schools);
  }

  /** Over date-sorted belt games every closed reign lasts zero days or more. */
  lemma ReignsClosedDays(gs: seq<Game>, schools: seq<School>, now: Instant)
    requires SortedBy(gs, DateKey)
    ensures forall i :: 0 <= i < |AllReigns(gs, schools, now)| && !IsOpen(AllReigns(gs, schools, now)[i]) ==>
      AllReigns(gs, schools, now)[i].days >= 0
  {
    FoldOrdered(gs, schools);
    FoldTracks(gs, schools);
  }

  lemma {:induction false} CountPrefix<T>(s: seq<T>, n: nat, p: T -> bool)
    requires n <= |s|
    ensures Count(s[..n], p) <= Count(s, p)
  {
    assert s == s[..n] + s[n..];
    FilterConcat(s[..n], s[n..], p);
  }

  lemma OpenAtMostOnce(r: seq<Reign>)
    requires forall i :: 0 <= i < |r| - 1 ==> !IsOpen(r[i])
    ensures Count(r, IsOpen) <= 1
  {
    if r != [] {
      var n := |r| - 1;
      CountZero(r[..n], IsOpen);
      assert r == r[..n] + [r[n]];
      FilterConcat(r[..n], [r[n]], IsOpen);
    }
  }

  // ---------------------------------------------------------------------
  // The top of the list
  // ---------------------------------------------------------------------

  /** At most `limit` reigns, longest first. */
  lemma LongestOrdered(games: seq<Game>, schools: seq<School>, now: Instant, limit: int)
    ensures limit >= 0 ==> |LongestReignsOf(games, schools, now, limit)| <= limit
    ensures forall i, j :: 0 <= i < j < |LongestReignsOf(games, schools, now, limit)| ==>
      LongestReignsOf(games, schools, now, limit)[i].days >= LongestReignsOf(games, schools, now, limit)[j].days
  {
    if games != [] {
      var sorted := SortBy(AllReigns(BeltGamesByDate(games), schools, now), NegDays);
      SortBySorted(AllReigns(BeltGamesByDate(games), schools, now), NegDays);
      var r := LongestReignsOf(games, schools, now, limit);
      assert r == sorted[..|r|];
      SortedPrefix(sorted, |r|, NegDays);
      forall i, j | 0 <= i < j < |r| ensures r[i].days >= r[j].days {
        assert NegDays(r[i]) <= NegDays(r[j]);
      }
    }
  }

  /** Every listed reign is a real reign, and at most one of them is still running. */
  lemma LongestMembers(games: seq<Game>, schools: seq<School>, now: Instant, limit: int)
    ensures forall x :: x in LongestReignsOf(games, schools, now, limit) ==> x in AllReigns(BeltGamesByDate(games), schools, now)
    ensures Count(LongestReignsOf(games, schools, now, limit), IsOpen) <= 1
  {
    if games != [] {
      var all := AllReigns(BeltGamesByDate(games), schools, now);
      var sorted := SortBy(all, NegDays);
      var r := LongestReignsOf(games, schools, now, limit);
      SortByMembers(all, NegDays);
      assert r == sorted[..|r|];
      ReignsChain(BeltGamesByDate(games), schools, now);
      OpenAtMostOnce(all);
      SortByCount(all, NegDays, IsOpen);
      CountPrefix(sorted, |r|, IsOpen);
    }
  }

  /**
   * "Sort by days and return top N": with `limit >= 0` there are
   * `min(limit, |reigns|)` reigns, drawn from the reigns without repeats
   * beyond theirs, and no reign left out lasted longer than a listed one.
   */
  lemma LongestTopN(games: seq<Game>, schools: seq<School>, now: Instant, limit: int)
    ensures var r := LongestReignsOf(games, schools, now, limit);
      var all := AllReigns(BeltGamesByDate(games), schools, now);
      && (limit >= 0 ==> |r| == if limit <= |all| then limit else |all|)
      && multiset(r) <= multiset(all)
      && forall x: Reign, y: Reign :: x in multiset(all) - multiset(r) && y in r ==> x.days <= y.days
  {
    var all := AllReigns(BeltGamesByDate(games), schools, now);
    var r := LongestReignsOf(games, schools, now, limit);
    if games == [] {
      assert all == [] by {
        assert BeltGamesByDate(games) == [];
        FoldTracks([], schools);
      }
    } else {
      var sorted := SortBy(all, NegDays);
      SortByFacts(all, NegDays);
      assert r == sorted[..|r|];
      SortedPrefixTop(all, sorted, |r|, NegDays);
      forall x: Reign, y: Reign | x in multiset(all) - multiset(r) && y in r ensures x.days <= y.days {
        assert NegDays(y) <= NegDays(x);
      }
    }
  }

  /** A limit no smaller than the number of games lists every reign. */
  lemma LongestAll(games: seq<Game>, schools: seq<School>, now: Instant, limit: int)
    requires limit >= |games|
    ensures multiset(LongestReignsOf(games, schools, now, limit)) == multiset(AllReigns(BeltGamesByDate(games), schools, now))
  {
    if games != [] {
      var belt := BeltGamesByDate(games);
      var all := AllReigns(belt, schools, now);
      var sorted := SortBy(all, NegDays);
      assert |all| <= |belt| by {
        ReignsChampions(belt, schools, now);
      }
      assert |belt| <= |games| by {
        SortByPerm(Filter(games, IsBelt), DateKey);
      }
      SortByPerm(all, NegDays);
      assert SliceTo(sorted, limit) == sorted;
    }
  }

  /** data_fetcher.py:496-542, over the fetched games table and schools dict. */
  method LongestReigns(games: seq<Game>, schools: seq<School>, now: Instant, limit: int) returns (r: seq<Reign>)
    ensures r == LongestReignsOf(games, schools, now, limit)
  {
    if |games| == 0 {
      return [];
    }
    var beltGames := BeltGamesByDate(games);
    var reigns: seq<Reign> := [];
    var current: Option<TeamId> := None;
    var reignStart: Option<Instant> := None;
    var i := 0;
    while i < |beltGames|
      invariant 0 <= i <= |beltGames|
      invariant ReignState(reigns, current, reignStart) == ReignFold(beltGames[..i], schools)
    {
      var game := beltGames[i];
      assert beltGames[..i + 1][..i] == beltGames[..i];
      if current != Some(game.winnerId) {
        if current.Some? && reignStart.Some? {
          var reignDays := DaysBetween(game.date, reignStart.value);
          reigns := reigns + [Reign(current.value, TeamName(schools, current.value), reignStart.value, Some(game.date), reignDays)];
        }
        current := Some(game.winnerId);
        reignStart := Some(game.date);
      }
      i := i + 1;
    }
    assert beltGames[..i] == beltGames;
    if current.Some? && reignStart.Some? {
      var reignDays := DaysBetween(now, reignStart.value);
      reigns := reigns + [Reign(current.value, TeamName(schools, current.value), reignStart.value, None, reignDays)];
    }
    assert reigns == AllReigns(beltGames, schools, now);
    reigns := SortBy(reigns, NegDays);
    r := SliceTo(reigns, limit);
  }
}
