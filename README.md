# cfb-beltbot in Dafny

A model of the core of cfb-beltbot, the Reddit bot that follows college football's linear championship belt. The belt started with Rutgers' win over Princeton on November 6, 1869. From then on it passes to whoever beats its holder. The model covers three parts:

- **The belt engine**, `BeltDataFetcher` in `data_fetcher.py`. It replays the table of played games in date order to get:
  - the current champion, the reign start and the defense count;
  - one team's belt history;
  - the overall totals;
  - the belt-change games on a given day of the year;
  - the longest reigns.

  It also looks up schools by id and by free text, picks the champion's next scheduled game, and runs a breadth-first search over the remaining schedule for every team that can still take the belt. It holds the schools dict, the games table, the schedule table and a 15-minute time stamp in object fields.
- **The command router**, `CommandHandler` in `commands.py`. It turns a comment's text into a command and builds the reply.
- **The post generators**, `ScheduledPosts` in `scheduled_posts.py`: the weekly update, the game-day alert and the belt-change announcement, with the helpers for the season week and ordinals.

## How the model is built

Modules, in dependency order:

| module | contents |
|---|---|
| `Wrappers` | `Option` |
| `Calendar` | instants in seconds, day numbers, the Gregorian calendar |
| `Text` | the Python string operations the bot uses |
| `Sorting` | filters, counts and a stable sort |
| `Records` | games and schedule rows |
| `Directory` | the schools dict and name lookup |
| `Replay` | champion, team history, overall stats, games on this day |
| `Reigns` | longest reigns |
| `Schedule` | next belt game |
| `Chase` | the belt-chase search |
| `Fetcher` | the `BeltDataFetcher` class and its cache |
| `Layout` | what replies and posts share |
| `Commands` | the router and the replies |
| `Posts` | the scheduled posts |

Conventions:

- **Replays and the search.** Each is a specification function: a left fold over the date-sorted games, or the search run to an empty queue. Each also has a method holding the source's loop. The method is proved equal to the function, and the lemmas state what the function promises.
- **The cache.** The fetcher's cache is a `class` whose methods update its fields. What each method serves, and the state it leaves, are stated through pure transition functions over `CacheState`.
- **Replies and posts.** Each is first a datatype value that records the branch taken and the values shown. That value is then rendered to the exact text the source assembles, including `config.BOT_SIGNATURE`.
- **Data sources and the clock.** Every request to a data source is a parameter: `Some(answer)`, or `None` for a failed request. The clock `now` is a parameter too.

## Model

| member | source | states |
|---|---|---|
| Calendar.DaysBetweenSign | commands.py:111-117 | `(later - earlier).days` is non-negative exactly when `later` is not before `earlier` |
| Text.Lower | data_fetcher.py:87 | `lower()` keeps the length and lower-cases each character on its own |
| Text.StripLeft | data_fetcher.py:59-60 | the left strip is a suffix of the text that starts with no white space |
| Text.StripRight | data_fetcher.py:59-60 | the right strip is a prefix of the text that ends with no white space |
| Text.StripBlank | commands.py:13 | `strip()` is empty exactly when the text is all white space |
| Text.Words | commands.py:13 | every piece of `split()` is a non-empty run without white space |
| Text.WordsEmpty | commands.py:13-16 | `split()` gives no words exactly when the text is all white space |
| Text.WordsOfJoin | commands.py:31-33 | splitting a single-space join of words gives the same words back |
| Text.SplitOn | data_fetcher.py:55-57 | `split(sep)` gives at least one piece, and no piece contains the separator |
| Text.JoinSplit | data_fetcher.py:55-57 | joining the pieces of `split(sep)` with the separator gives back the text |
| Text.ParseDecimalOfDecimal | data_fetcher.py:208-212 | `int(str(n)) == n` for every integer |
| Sorting.Filter | data_fetcher.py:150 | a row filter keeps only rows of the table that pass the test, and never more rows |
| Sorting.CountZero | data_fetcher.py:151 | no row passes the test exactly when the count is zero |
| Sorting.SortByFacts | data_fetcher.py:245 | `sort_values` gives a permutation of the table that is ordered by the key |
| Sorting.SortByHead | data_fetcher.py:205 | the first row after sorting is a row of the table with the least key |
| Sorting.SortByCount | data_fetcher.py:319 | sorting keeps the number of rows with any property |
| Sorting.SortByStable | data_fetcher.py:245 | among rows with the same key, sorting keeps the table order |
| Sorting.SliceTo | data_fetcher.py:542 | `s[:limit]` is a prefix with `limit` elements (at most all), and a negative limit drops that many from the end |
| Sorting.SortedPrefixTop | data_fetcher.py:540-542 | a prefix of an ordered permutation is drawn from the input, and every element it leaves out has a key no smaller than any it keeps |
| Directory.IdIndex | data_fetcher.py:75 | the dict lookup finds the one entry with that id, or none when no entry has it |
| Directory.Put | data_fetcher.py:61 | `schools[id] = name` maps `id` to `name` and leaves every other id as it was; the dict grows only for a new id |
| Directory.LoadedLookup | data_fetcher.py:55-61 | after loading the lines, each id maps to the name on the last data line that gives it; other ids keep their old entry |
| Directory.SchoolName | data_fetcher.py:68-75 | "Unknown" for no id; the table's name for a known id; the id text itself for an unknown id |
| Directory.FirstWhere | data_fetcher.py:93-105 | each lookup tier returns the first entry in table order that matches |
| Directory.FindTeamWith | data_fetcher.py:83-107 | empty text finds nothing, and any team found is an entry of the schools table |
| Directory.FindTeamNone | data_fetcher.py:83-107 | lookup fails exactly when the text is empty, or when the key names no alias of a listed school and no school name contains the key, ignoring case |
| Directory.AliasesAgree | data_fetcher.py:89-95 | two spellings that are aliases of the same listed school find that same school |
| Replay.ByDateFacts | data_fetcher.py:245 | the date-sorted games are ordered by date and hold exactly the same games |
| Replay.LatestBeltIndex | data_fetcher.py:150-158 | picks a belt-change game with the latest date, the first such in table order; none exactly when there is no belt-change game |
| Replay.DefensesAtMostWins | data_fetcher.py:172-179 | the defense count never exceeds the champion's wins after the reign start in the window |
| Replay.DefensesWithoutLoss | data_fetcher.py:172-179 | with no loss by the champion in the window, every win after the start counts as a defense |
| Replay.DefensesStopAtLoss | data_fetcher.py:177-179 | nothing from the champion's first loss onward is counted |
| Replay.CurrentChampion | data_fetcher.py:141-181 | the loop computes `CurrentChampionOf`: `(None, None, 0)` exactly when no game is a belt change; otherwise the winner and date of a latest belt-change game, and at most the champion's wins in `reign_start < date <= now` |
| Replay.HistoryStep | data_fetcher.py:258-289 | each replayed game keeps the invariant that the team, while it is the tracked champion, has a known reign start |
| Replay.BeltHistoryFor | data_fetcher.py:229-242 | no games give the all-zero record; otherwise an id `int()` rejects fails, and any other id gives the replay for that number |
| Replay.FoldReigns | data_fetcher.py:258-289 | `total_reigns` is the number of belt-change games the team won; defenses come only from the team's wins that are not belt changes |
| Replay.FoldDays | data_fetcher.py:271-279 | over date-sorted games, `0 <= best_reign_days <= total_days` after every game |
| Replay.TeamHistoryFacts | data_fetcher.py:227-306 | `total_reigns` equals the count of the team's belt-change wins, and `total_defenses` is at most its other wins |
| Replay.TeamHistoryDays | data_fetcher.py:273-295 | when no game is dated after now, `0 <= best_reign_days <= total_days` |
| Replay.TeamBeltHistory | data_fetcher.py:227-306 | the method gives `BeltHistoryFor` |
| Replay.ReplayHistory | data_fetcher.py:245-306 | the loop over the date-sorted games computes `TeamHistoryOf` |
| Replay.StatsFoldCounts | data_fetcher.py:326-344 | every belt game counted is a change or a defense; defenses come only from games that are not belt changes |
| Replay.StatsFoldStart | data_fetcher.py:333-334 | the start date is set exactly when a belt change is replayed, and it is the date of one |
| Replay.StatsFoldEarliest | data_fetcher.py:319-334 | over date-sorted games the start date is the earliest belt-change date |
| Replay.StatsStartAgree | data_fetcher.py:319-350 | the reported start is absent exactly when no game is a belt change; otherwise it is the earliest belt-change date |
| Replay.OverallStatsFacts | data_fetcher.py:308-352 | `{}` exactly for no games; otherwise `total_changes` is the number of belt-change rows, `total_games == total_changes + total_defenses`, and `start_date` is the earliest belt-change date |
| Replay.OverallStats | data_fetcher.py:308-352 | the loop computes `OverallStatsOf` |
| Replay.AnniversaryMembers | data_fetcher.py:363-375 | every game that falls on the month and day has an entry, and every entry comes from such a game |
| Replay.AnniversariesOfMatches | data_fetcher.py:363-375 | the list has exactly one entry for each game that falls on the month and day, in table order |
| Replay.GamesOnThisDayCount | data_fetcher.py:354-377 | newest year first, with as many entries as there are belt-change games on the day, and the same entries as the loop collects |
| Replay.GamesOnThisDayMembers | data_fetcher.py:354-377 | an entry comes from a belt-change game on the day, and every such game has one |
| Replay.MatchesOnDay | data_fetcher.py:363-375 | the loop collects the matches in table order |
| Replay.GamesOnThisDay | data_fetcher.py:354-377 | the result lists exactly the belt-change games on that month and day, one entry each, newest year first |
| Reigns.Compress | data_fetcher.py:512 | collapsing runs of repeats leaves no two equal neighbours, keeps the last winner, and never lengthens the sequence |
| Reigns.FoldTracks | data_fetcher.py:508-526 | a champion and a start are tracked from the first belt game on, and the tracked champion is the last winner |
| Reigns.FoldChampions | data_fetcher.py:512-526 | the closed reigns' champions, then the tracked one, are the winners with back-to-back repeats merged |
| Reigns.FoldChain | data_fetcher.py:514-526 | closed reigns have an end date, and each ends where the next begins |
| Reigns.FoldOrdered | data_fetcher.py:502-526 | over date-sorted games no closed reign has negative length |
| Reigns.ReignsChampions | data_fetcher.py:502-538 | consecutive belt-change wins by one team form one reign, and there are no more reigns than belt-change games |
| Reigns.ReignsChain | data_fetcher.py:514-538 | each reign ends when the next begins, and only the last reign is open (`end_date` None) |
| Reigns.ReignsClosedDays | data_fetcher.py:516 | every closed reign of date-sorted games lasts zero days or more |
| Reigns.OpenAtMostOnce | data_fetcher.py:529-538 | a list whose reigns before the last are all closed holds at most one open reign |
| Reigns.LongestOrdered | data_fetcher.py:541-542 | at most `limit` reigns, sorted by days from most to fewest |
| Reigns.LongestMembers | data_fetcher.py:541-542 | every listed reign is a real reign, and at most one of them is open |
| Reigns.LongestAll | data_fetcher.py:541-542 | a limit of at least the number of games lists every reign |
| Reigns.LongestTopN | data_fetcher.py:540-542 | the top N: `min(limit, number of reigns)` reigns for a limit of 0 or more, drawn from the reigns, and no reign left out lasted longer than a listed one |
| Reigns.LongestReigns | data_fetcher.py:496-542 | the loop computes `LongestReignsOf`, whose top-N property `Reigns.LongestTopN` states |
| Schedule.IdText | data_fetcher.py:208-209 | an id is rendered exactly when it is present |
| Schedule.DecimalInjective | data_fetcher.py:208-212 | different ids never render to the same text |
| Schedule.EarliestFirst | data_fetcher.py:204-205 | the first row after sorting is an upcoming game of the champion, no later than any other such game |
| Schedule.NextBeltGameNone | data_fetcher.py:185-202 | no next game exactly when there is no champion, or no row is an upcoming, unfinished game of the champion |
| Schedule.NextBeltGameEarliest | data_fetcher.py:193-212 | the next game is after now, describes an upcoming game of the champion, and none is earlier |
| Schedule.DescribeOpponent | data_fetcher.py:207-212 | the opponent is the away side when the champion is home and the home side otherwise, and it is never the champion itself |
| Schedule.DescribeNames | data_fetcher.py:213-224 | a missing venue reads 'TBD', and the side names follow `get_school_name` |
| Chase.InfosEmpty | data_fetcher.py:394-402 | no game is kept exactly when no row is unfinished, after now and has both teams |
| Chase.GroupedMembers | data_fetcher.py:411-423 | each upcoming game is listed under its home team and its away team, and under no other team |
| Chase.TeamGamesFacts | data_fetcher.py:409-427 | each team's list is sorted by week and holds exactly the upcoming games the team plays in |
| Chase.FirstAfter | data_fetcher.py:450-456 | the holder's next game is the first in its week-sorted list with a week strictly after the cursor |
| Chase.Moves | data_fetcher.py:458-492 | a frame has no successor, or exactly two: the opponent wins or the holder keeps the belt |
| Chase.Upsert | data_fetcher.py:466-478 | a new team is entered; a known team keeps the smaller `games_away` and the smaller `earliest_week`, each separately; other teams are untouched |
| Chase.StepVisitsOnce | data_fetcher.py:445-448 | a frame whose key was visited is dropped without effect, and any other frame's key is recorded: one step adds exactly the frame's key to the visited set |
| Chase.Run | data_fetcher.py:439-492 | the search ends with an empty queue, having met only frames in a finite space |
| Chase.Entries | data_fetcher.py:494 | `list(belt_paths.values())` lists every entry once, in insertion order |
| Chase.StepSound | data_fetcher.py:439-492 | the corrected search queues, visits and records only what some outcome of the remaining games achieves |
| Chase.StepClosed | data_fetcher.py:439-492 | in the corrected search, nothing a visited frame leads to is lost, and every takeover it allows is recorded |
| Chase.RunKeeps | data_fetcher.py:439-492 | both invariants hold through the whole corrected search |
| Chase.PathVisited | data_fetcher.py:439-492 | once the queue is empty, every frame some outcome reaches has been visited |
| Chase.SearchFindsShortest | data_fetcher.py:429-494 | the corrected search records exactly the teams some outcome hands the belt, each with the fewest changes and the earliest week |
| Chase.ChaseEmpty | data_fetcher.py:384-402 | no champion, or no upcoming game with both teams known, gives an empty list |
| Chase.RealizedDepth | data_fetcher.py:470 | every listed team is at least one game away |
| Chase.ChaseFindsShortest | data_fetcher.py:379-494 | with the corrected key, the listed teams are exactly the teams some outcome hands the belt, each once, with the fewest changes and the earliest week over all outcomes |
| Chase.BeltChase | data_fetcher.py:379-494 | the method, with its grouping loop and its queue loop, computes `ChaseOf` for the chosen key |
| Chase.NextGameIndex | data_fetcher.py:450-456 | the loop finds the first game after the cursor week |
| Chase.Expand | data_fetcher.py:450-492 | expanding a frame updates `belt_paths` and queues exactly the two outcomes of the holder's next game, or nothing when there is none |
| Chase.Visit | data_fetcher.py:440-492 | one iteration of the queue loop is one `Step` |
| Chase.Explore | data_fetcher.py:437-492 | the queue loop computes `Run` |
| Chase.AsWrittenRun | data_fetcher.py:437-492 | on the example schedule, the as-written search goes through nine given states |
| Chase.AsWrittenMissesShortest | data_fetcher.py:445-448 | on the example, the as-written search lists team 3 as three changes away, while an outcome hands it the belt in one change |
| Chase.CorrectedFindsOneChange | data_fetcher.py:475-476 | on the same example, the corrected search lists team 3 at one change |
| Layout.Weekday | commands.py:107 | `%A` picks one of the seven day names |
| Layout.WeekdayNext | commands.py:107 | consecutive days have consecutive weekdays, and a week later is the same weekday |
| Layout.Grouped | commands.py:140-143 | `{:,}` adds no comma to three digits or fewer |
| Layout.ThousandsDigits | commands.py:140-143 | taking the commas out of `{:,}` gives `str(n)`, and numbers under a thousand carry none |
| Layout.AsWrittenNeverHome | commands.py:57-58 | as written, the text home id never equals the numeric champion id, so every reply says "at" |
| Layout.AsWrittenHomeGameReadsAt | commands.py:102-103 | for a home game of the champion, the as-written test reads "at" and the corrected test reads "vs" |
| Layout.IsHomeIff | commands.py:57-58 | the corrected test holds exactly when the schedule row has the champion as its home side |
| Layout.NextGameVsAt | commands.py:101-106 | with the corrected home test (see Findings), the next-game reply says "vs" exactly when the champion is the home side of that game; as written it always says "at" (`Layout.AsWrittenNeverHome`) |
| Commands.RouteBlank | commands.py:13-16 | text with no words, and only such text, splits into nothing and gets the status reply |
| Commands.TriggerSkipped | commands.py:19-20 | a leading trigger word is skipped, so `!beltbot stats` routes as `stats` does |
| Commands.UnknownIsStatus | commands.py:22-36 | any subcommand other than help, next, stats and history falls back to the status reply |
| Commands.HistoryArgument | commands.py:28-34 | the team name is None exactly when nothing follows `history`; otherwise it is non-empty and splits back into exactly the words that follow |
| Commands.Render | commands.py:38-188 | every reply, on every branch, ends with the bot signature |
| Commands.HandleCommand | commands.py:11-36 | every reply `handle_command` returns ends with the bot signature |
| Commands.RespondFails | commands.py:149-161 | only a history request that matches a school whose id `int()` rejects, with games present, gets no reply |
| Commands.StatusFacts | commands.py:40-63 | the no-data reply comes exactly when there is no champion; otherwise the reply shows the reign start, the days since it and the next belt game |
| Commands.NextGameCountdown | commands.py:111-117 | the next game is after now, so the reply always has a countdown line, "today" exactly at zero days |
| Commands.StatsDefenses | commands.py:129-143 | the stats reply is missing exactly when there are no games, and `total_games - total_changes` equals the defenses counted |
| Commands.HistoryGates | commands.py:151-164 | no name asks for one; an unmatched name says so; "never held" exactly when the school won no belt-change game (or there are no games); otherwise the reply carries that school's record, with at least one reign |
| Posts.Ordinal | scheduled_posts.py:172 | the ordinal is the number's digits followed by a two-letter suffix |
| Posts.SuffixIsEnglish | scheduled_posts.py:166-171 | the suffix rule agrees with English usage: "th" when the tens digit is 1, otherwise st/nd/rd for a last digit of 1/2/3, and "th" for anything else |
| Posts.OrdinalDigits | scheduled_posts.py:172 | the digits before the suffix read back as the number, and the suffix is st, nd, rd or th |
| Posts.OrdinalExamples | scheduled_posts.py:166-172 | 1st, 2nd, 3rd, 4th, 11th, 12th, 13th, 21st, 112th |
| Posts.WeekNumber | scheduled_posts.py:153-164 | the week number is always within 0..15 |
| Posts.WeekNumberMonotone | scheduled_posts.py:158-164 | within one season the week number never goes back |
| Posts.WeekNumberAdvances | scheduled_posts.py:163-164 | seven days later in the same season the week number is one more, capped at 15 |
| Posts.RenderWeekly | scheduled_posts.py:41-43 | the body carries the "on the line this week" banner whenever the update says so |
| Posts.WeeklyGates | scheduled_posts.py:12-43 | the update exists exactly when there is a champion; it has the banner exactly when the next game is at most three days away |
| Posts.AlertGates | scheduled_posts.py:57-70 | the alert exists exactly when the champion's next game falls on today's date; that game is still ahead of now |
| Posts.RenderBeltChange | scheduled_posts.py:98-117 | the title has no score unless one is given, and ends with it when one is; the body names the new champion's ordinal |
| Posts.BeltChangeFacts | scheduled_posts.py:96-117 | the announcement fails only when a history lookup raises, and its ordinal counts the new champion's belt-change wins |
| Fetcher.GamesCacheHit | data_fetcher.py:111-120 | a successful download is served again, with no request, by every call in the next 15 minutes that does not force a refresh |
| Fetcher.GamesFailure | data_fetcher.py:122-124 | a failed download serves an empty table and leaves every cache field untouched |
| Fetcher.GamesForced | data_fetcher.py:111-120 | a forced refresh always uses the download, and a successful one stamps the time |
| Fetcher.ScheduleKeepsStamp | data_fetcher.py:126-139 | `fetch_schedule` never changes the time stamp or the games; with no stamp it always downloads |
| Fetcher.SchoolsFacts | data_fetcher.py:46-63 | a non-empty dict is served without a request; once filled it never changes; a filled dict maps each id to the name on the last line that gives it |
| Fetcher.StoreLines | data_fetcher.py:55-61 | the loop stores every data line with two fields, in order |
| Fetcher.BeltDataFetcher.constructor | data_fetcher.py:10-15 | a new fetcher has an empty dict, no tables and no time stamp |
| Fetcher.BeltDataFetcher.FetchSchools | data_fetcher.py:46-66 | serves and stores the dict as `SchoolsServed` / `SchoolsAfter` say |
| Fetcher.BeltDataFetcher.FetchGames | data_fetcher.py:109-124 | serves the cached table while it is fresh and not forced; otherwise serves the download and replaces the table and the stamp, or serves an empty table and keeps the cache when the download fails |
| Fetcher.BeltDataFetcher.FetchSchedule | data_fetcher.py:126-139 | the same as the games, using the games' stamp and never stamping |
| Fetcher.BeltDataFetcher.GetSchoolName | data_fetcher.py:68-75 | the name `get_school_name` gives, over the dict `fetch_schools` serves |
| Fetcher.BeltDataFetcher.FindTeamByName | data_fetcher.py:77-107 | empty text finds nothing and makes no request; otherwise the lookup over the served dict, and any team found is in that dict |
| Fetcher.BeltDataFetcher.GetCurrentChampion | data_fetcher.py:141-181 | the champion of the served games table |
| Fetcher.BeltDataFetcher.GetNextBeltGame | data_fetcher.py:183-225 | the next belt game of the served tables; the schedule is requested only when there is a champion |
| Fetcher.BeltDataFetcher.GetTeamBeltHistory | data_fetcher.py:227-306 | the team history over the served games, or a failure for a non-numeric id |
| Fetcher.BeltDataFetcher.GetOverallStats | data_fetcher.py:308-352 | the overall stats of the served games |
| Fetcher.BeltDataFetcher.GetGamesOnThisDay | data_fetcher.py:354-377 | the belt-change games on the day, over the served games |
| Fetcher.BeltDataFetcher.ComputeBeltChaseTeams | data_fetcher.py:379-494 | the corrected chase over the served schedule; the schedule is requested only when there is a champion |
| Fetcher.BeltDataFetcher.GetLongestReigns | data_fetcher.py:496-542 | the longest reigns over the served games |

## Left out

- The network and file formats are not modelled:
  - `requests.get` and `pd.read_csv` become parameters: the parsed rows, or `None` for a failure.
  - CSV quoting, `dateutil` and pandas date parsing, time zones and NaN coercion are left out.
  - Game and schedule dates are instants in whole seconds.
- `datetime.now()` is a parameter. One operation reads the clock once, and every reply and post reads one snapshot of the data.
- Sorting ties: `sort_values` and `list.sort` are modelled as one stable sort. Games with the same date therefore keep table order. pandas' default sort does not promise this.
- Fetcher.BeltDataFetcher.GetNextBeltGame: the schools dict is fetched up front rather than inside `get_school_name`. The first lookup of the dict may therefore happen on a path where the source makes none. The same holds for the other `Get` methods.
- Fetcher.BeltDataFetcher.FetchSchools: the loop is run over a local table that is stored once at the end. With no exceptions inside the loop, this gives the same final dict.
- Fetcher.BeltDataFetcher.ComputeBeltChaseTeams: uses the corrected search (see Findings). `Chase.BeltChase` with `byDepth == false` is the search as written.
- Commands.CurrentStatus, Commands.NextGameInfo, Posts.WeeklyUpdateOf, Posts.GameDayAlertOf: use the corrected home test `Layout.IsHome` (see Findings). As written, the source always says "at", which `Layout.AsWrittenNeverHome` states.
- Fetcher.BeltDataFetcher.GetSchoolName: takes the id as text. Numeric ids are rendered as `str(int(id))` by `Directory.TeamName`.
- Text.Lower: only ASCII letters are lower-cased.
- Text.ParseDecimal does not accept underscores or non-ASCII digits, although Python's `int()` does.
- A missing week prints as `nan`. A float week, such as pandas' `1.0`, is not modelled.
- `strftime('%Y')` is rendered without zero padding for years below 1000.
- `config.WEBSITE_URL` is fixed at its default. The environment override is not modelled.
- Posts.WeekNumber: the model does not prove that the season start is never after now. The calendar conversion is not proved to invert.
- `generate_belt_defense_announcement` (scheduled_posts.py:127-151) is not modelled. Its only gates are the score and the next game, which are the same as those of the modelled generators.
- `bot.py` is not part of this model: the Reddit client, the cron jobs, the polling loop and the cooldown maps depend on the network and the wall clock. Neither are the stand-alone scripts that only authenticate and print.
- Exceptions other than `int()` rejecting a school id are not modelled, for example `AttributeError` from a missing key.

## Findings

| source | as written | input that shows it | evidently intended | confidence | as-written member | corrected member |
|---|---|---|---|---|---|---|
| data_fetcher.py:445-448 | the search marks states visited by holder and week only, so a frame reached later with fewer belt changes is dropped | champion 1 plays team 2 in weeks 1 and 2 and team 3 in week 3: team 3 is listed as 3 games away, although 1 can keep the belt through week 2 and lose it to 3 in week 3 | `games_away` is the fewest changes over all outcomes (key on holder, week and depth) | not executed | Chase.AsWrittenMissesShortest | Chase.ChaseFindsShortest |
| commands.py:57, 102; scheduled_posts.py:33, 72 | `is_home = next_game['home_id'] == champion_id` compares the text id (`str(int(...))`) with the numeric champion id, which is never equal | a home game of champion 5 (`home_id` 5, `away_id` 7) is announced as "at" | "vs" when the champion is the home side | not executed | Layout.AsWrittenHomeGameReadsAt | Layout.IsHomeIff |
