/**
 * `get_next_belt_game` (data_fetcher.py:183-225): the earliest upcoming,
 * not yet completed game of the schedule that involves the champion, with
 * its ids rendered as `str(int(id))`, the champion's opponent picked by
 * comparing those renderings, and the school names looked up.
 */
module Schedule {
  import opened Wrappers
  import opened Calendar
  import opened Sorting
  import opened Text
  import opened Records
  import opened Directory

  /** The dict `get_next_belt_game` returns. */
  datatype NextGame = NextGame(
    date: Instant,
    opponentId: Option<string>,
    opponentName: string,
    location: string,
    week: Option<int>,
    homeId: Option<string>,
    awayId: Option<string>,
    homeName: string,
    awayName: string)

  /** The filter of data_fetcher.py:196-200. */
  predicate Involves(r: ScheduleRow, champ: TeamId, now: Instant) {
    r.startDate > now && !r.completed && (r.homeId == Some(champ) || r.awayId == Some(champ))
  }

  function InvolvesChamp(champ: TeamId, now: Instant): ScheduleRow -> bool {
    (r: ScheduleRow) => Involves(r, champ, now)
  }

  function StartKey(r: ScheduleRow): int {
    r.startDate
  }

  /** `str(int(x)) if pd.notna(x) else None`. */
  function IdText(id: Option<TeamId>): (s: Option<string>)
    ensures s.Some? <==> id.Some?
  {
    match id
    case None => None
    case Some(v) => Some(Decimal(v))
  }

  /** Rendering ids as text loses nothing: different ids give different texts. */
  lemma DecimalInjective(a: int, b: int)
    requires Decimal(a) == Decimal(b)
    ensures a == b
  {
    ParseDecimalOfDecimal(a);
    ParseDecimalOfDecimal(b);
  }

  /** data_fetcher.py:209-225 for the chosen row. */
  function Describe(row: ScheduleRow, champ: TeamId, schools: seq<School>): NextGame {
    var home := IdText(row.homeId);
    var away := IdText(row.awayId);
    var opponent := if home == Some(Decimal(champ)) then away else home;
    NextGame(row.startDate, opponent, SchoolName(schools, opponent), row.venue.GetOr("TBD"), row.week,
             home, away, SchoolName(schools, home), SchoolName(schools, away))
  }

  /** The next belt game, given the champion `get_current_champion` reports. */
  function NextBeltGameOf(champ: Option<TeamId>, rows: seq<ScheduleRow>, schools: seq<School>, now: Instant): Option<NextGame> {
    if !Truthy(champ) || rows == [] then None
    else
      var future := Filter(rows, InvolvesChamp(champ.value, now));
      if future == [] then None
      else Some(Describe(SortBy(future, StartKey)[0], champ.value, schools))
  }

  /** The earliest row among those involving the champion (data_fetcher.py:206). */
  lemma EarliestFirst(rows: seq<ScheduleRow>, champ: TeamId, now: Instant)
    requires Filter(rows, InvolvesChamp(champ, now)) != []
    ensures SortBy(Filter(rows, InvolvesChamp(champ, now)), StartKey)[0] in rows
    ensures Involves(SortBy(Filter(rows, InvolvesChamp(champ, now)), StartKey)[0], champ, now)
    ensures forall i :: 0 <= i < |rows| && Involves(rows[i], champ, now) ==>
      SortBy(Filter(rows, InvolvesChamp(champ, now)), StartKey)[0].startDate <= rows[i].startDate
  {
    var future := Filter(rows, InvolvesChamp(champ, now));
    SortByHead(future, StartKey);
    forall i | 0 <= i < |rows| && Involves(rows[i], champ, now)
      ensures SortBy(future, StartKey)[0].startDate <= rows[i].startDate
    {
      FilterMember(rows, i, InvolvesChamp(champ, now));
      assert StartKey(SortBy(future, StartKey)[0]) <= StartKey(rows[i]);
    }
  }

  /** There is no next game exactly when there is no champion or no upcoming game of the champion. */
  lemma NextBeltGameNone(champ: Option<TeamId>, rows: seq<ScheduleRow>, schools: seq<School>, now: Instant)
    ensures NextBeltGameOf(champ, rows, schools, now).None? <==>
      !Truthy(champ) || forall i :: 0 <= i < |rows| ==> !Involves(rows[i], champ.value, now)
  {
    if Truthy(champ) {
      CountZero(rows, InvolvesChamp(champ.value, now));
    }
  }

  /**
   * The next game is an upcoming game of the champion, after now, no later
   * than any other.
   */
  lemma NextBeltGameEarliest(champ: Option<TeamId>, rows: seq<ScheduleRow>, schools: seq<School>, now: Instant)
    requires NextBeltGameOf(champ, rows, schools, now).Some?
    ensures var n := NextBeltGameOf(champ, rows, schools, now).value;
      && n.date > now
      && (exists i :: 0 <= i < |rows| && Involves(rows[i], champ.value, now) && n == Describe(rows[i], champ.value, schools))
      && forall i :: 0 <= i < |rows| && Involves(rows[i], champ.value, now) ==> n.date <= rows[i].startDate
  {
    EarliestFirst(rows, champ.value, now);
    var first := SortBy(Filter(rows, InvolvesChamp(champ.value, now)), StartKey)[0];
    var k :| 0 <= k < |rows| && rows[k] == first;
  }

  /**
   * The opponent is the away side when the champion is at home and the
   * home side otherwise; when the two sides differ it is never the
   * champion itself.
   */
  lemma DescribeOpponent(row: ScheduleRow, champ: TeamId, schools: seq<School>)
    ensures row.homeId == Some(champ) ==> Describe(row, champ, schools).opponentId == IdText(row.awayId)
    ensures row.homeId != Some(champ) ==> Describe(row, champ, schools).opponentId == IdText(row.homeId)
    ensures row.homeId != row.awayId && (row.homeId == Some(champ) || row.awayId == Some(champ)) ==>
      Describe(row, champ, schools).opponentId != Some(Decimal(champ))
  {
    if row.homeId.Some? && row.homeId != Some(champ) && Decimal(row.homeId.value) == Decimal(champ) {
      DecimalInjective(row.homeId.value, champ);
    }
    if row.awayId.Some? && row.awayId != Some(champ) && Decimal(row.awayId.value) == Decimal(champ) {
      DecimalInjective(row.awayId.value, champ);
    }
  }

  /** `'TBD'` stands in for a missing venue, and the names follow `get_school_name`. */
  lemma DescribeNames(row: ScheduleRow, champ: TeamId, schools: seq<School>)
    ensures row.venue.None? ==> Describe(row, champ, schools).location == "TBD"
    ensures row.venue.Some? ==> Describe(row, champ, schools).location == row.venue.value
    ensures row.homeId.None? ==> Describe(row, champ, schools).homeName == "Unknown"
    ensures row.homeId.Some? ==> Describe(row, champ, schools).homeName == TeamName(schools, row.homeId.value)
  {
  }
}
