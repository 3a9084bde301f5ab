/** The rows the bot reads: played games and the future schedule. */
module Records {
  import opened Wrappers
  import opened Calendar

  /** A team id as the sheets store it (a number). */
  type TeamId = int

  /** One played game of the games sheet; `beltChange` is a non-empty `belt_change` cell. */
  datatype Game = Game(
    date: Instant,
    winnerId: TeamId,
    loserId: TeamId,
    beltChange: bool,
    winnerScore: Option<int>,
    loserScore: Option<int>)

  /** One row of the schedule sheet; absent cells are `None`. */
  datatype ScheduleRow = ScheduleRow(
    homeId: Option<TeamId>,
    awayId: Option<TeamId>,
    week: Option<int>,
    completed: bool,
    startDate: Instant,
    venue: Option<string>)

  /** Python truthiness of an optional id: `None` and `0` are both false. */
  predicate Truthy(id: Option<TeamId>) {
    id.Some? && id.value != 0
  }

  function DateKey(g: Game): int {
    g.date
  }
}
