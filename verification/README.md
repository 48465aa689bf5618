# A verified model of the AoE2 live standings API

The service ranks Age of Empires II tournament players from ratings it polls. Pollers write ratings, matches and
live presence into tables; read endpoints fold those tables into standings, a bump chart of positions over time,
and frozen results after the event; a small protocol tells clients when to refetch; a management API edits
tournaments, rosters and teams. This project models those parts in Dafny and proves what they promise: of every
input, every run and every interleaving, not of examples.

## The parts

- `RatingLog`, `StatsPayload`: the stats tick. One transaction compares a polled batch with the latest snapshot of
  each (profile, leaderboard), appends what differs, and overwrites the live rows. The log is shown to be a lossless
  change log: replaying it as of any time gives back what was polled. The results over runs take a clock that does not
  run backwards and batches that name a pair once; what a repeated pair does is stated exactly.
- `HistorySeries`, `HistorySweep`, `HistoryBuckets`, `StandingsHistory`: the standings history. One interleaved scan
  per query is grouped into a series per entrant; two cursors per entrant advance over the merged time points; the
  field is ranked at each candidate time and most candidates are suppressed. The sweep is proved equal to the plain
  definition "the field as of time t".
- `Ranking`: the multi-key sort, the positions read off it, and what a position means.
- `HistoryResults`, `FinalOrder`, `LiveTable`: what the chart promises its readers, up to the composition with the
  tick: after any run of ticks, while the window is open, the last bucket charts every rated entrant at the live peak,
  and it is the live table, in either mode, exactly under a condition stated pair by pair. A live row may be older than
  the snapshot log: the run starts from any tables in which no live row contradicts the log.
- `WindowEnd`: where the chart ends once the window has an end.
- `PastBuckets`: the chart read twice, before and after more ticks and later games: exactly when a point of the past
  stays. A game stored only after the first read has a point on the second alone, so both reads are of tables with
  the same games completed by the first.
- `Freeze`: the ranked metric after the window has closed, against both pollers still running, settling late games
  included.
- `FinalTable`: the closed table re-ranked on that metric: exactly when its positions stay.
- `FrozenTable`: the frozen metrics against the last bucket of the chart, over the same tables: exactly when they
  agree, and for peaks which of the two is higher.
- `ChartCases`: queries over the tables of a run that meet the hypotheses of these results together, an unrecorded
  entrant among them, and the inputs on which the chart departs from its documentation.
- `MatchIngest`, `MatchTables`, `MatchReports`: two pollers writing the same match rows under different conflict
  rules, and what a cycle leaves behind in terms of the payloads it read.
- `Nudges`, `Scopes`: version rows committed by the worker with the tournaments they concern, polled by each
  instance, fanned out to bounded queues.
- `Idempotency`: the middleware that answers a repeated keyed write from its cache.
- `OptionsCodec`: the record layer of the match options blob.
- `Management`, `ManagementSafety`, `ManagementEffects`: the write API over tournaments, owners, rosters, teams and
  captains: what every run keeps, when each request is accepted, and what it leaves behind.
- `Migrations`, `MigrationResults`: the roster and team migrations, forward and back.
- `WinRun`, `CivCache`: the record with its longest win run, and the double-checked civilization-name cache.
- `Common`: nullable values, maxima over them, and sorted query results.

Times are integers (microseconds where a calendar day matters), null columns are `Option`s, a table is a map or a
sequence of rows, and a SQL query is a function whose contract says which rows it selects and in which order. State
that the program updates in place is a class; each of its methods is tied to a function of the old state, and the
properties are proved about those functions. A tick or a request is one atomic transaction. Clocks, payloads, query
results of the identity tables and the visibility gate of the roster are parameters.

## Where the code and its documentation differ

The model follows the code. Each difference is a lemma that shows it on an input, or says exactly when it arises, or
both.

- The closed table is called final, one that later laddering cannot reorder (`app/routers/tournaments.py:959-962`,
  `app/routers/tournaments.py:1339-1343`). Its tie-break is the live other rating
  (`app/routers/tournaments.py:1401-1410`), and its metric is capped by the live peak
  (`app/routers/tournaments.py:1058-1064`). `FinalTableStaysIff` says over every run after the close, in either mode,
  exactly when its positions stay. `FrozenPeakStaysIff` and `FrozenCurrentStaysIff` say exactly when one row's metric
  does, and `StandingMetricsIff` that where all metrics stand still the table does exactly if every tie falls as at the
  close. `GrindReorders` shows it turning with every metric standing still, `RebaseMovesFrozenPeak` a metric moving.
- A game that started in time and settles late joins the recorded peak (`SettledPeak`); where nothing was recorded it
  replaces the live fallback and can lower the result. `LateSettlement` says exactly when it does not, in terms of the
  rating about to be stored, `LateRunKeepsPeakIff` says it over runs, and `LateSettlementLowers` shows the frozen peak
  going from 1700 to 1500. The docstring at `app/routers/tournaments.py:984-992` admits the fallback but not the
  direction.
- The docstring of the history says its latest bucket always equals the live order
  (`app/routers/tournaments.py:2146-2147`). The tie-break of the sweep is the last rating in the window's log when
  there is one, not the live current rating, and an unrated entrant is ranked by charted games.
  `LastBucketIsLiveTableIff` says exactly when the last bucket is the live table, `RatedPairAgreesIff`,
  `UnratedPairAgreesIff` and `UnratedTwoAgreeIff` when a pair stands as it does there, and `TieBreakCanDiffer` is a
  query over the tables of a run whose last bucket orders two rated entrants the other way.
- The same sentence says that past buckets stay stable (also `app/schemas/leaderboard.py:539-540`). The live peak that
  caps them and the rating that floors them can change later: `PastCompared` gives a past point on both reads from what
  is the same on both, `PastPointStaysIff` says exactly when it stays for an entrant observed, and with a charted game,
  by the first read, `BaselineStaysIff` exactly when a baseline does, `PastCurrentStaysIff` is the rule in current mode,
  and `PastPointMoves` is a run after which the chart at one past time goes from 1500 to 1600.
- The history's last bucket is said to be capped at the end of the window, with no point for a game in flight
  (`app/routers/tournaments.py:971-974`). The window is on the start of a game
  (`app/routers/tournaments.py:2239-2242`), so a game that starts in time and finishes after the end is charted, at its
  completion time: `LateFinishIsCharted` shows the last bucket after the end, `LastBucketInWindowIff` says exactly when
  it is not.
- The same lines call such a game the only source that can lift the frozen table above the last bucket.
  `FrozenAgainstLastBucket` gives the exact condition: never such a game, but an observation from before the window or a
  game that started before it or was never completed; `FrozenAboveChart` shows it with no game at all. It also says
  exactly when the frozen table ends below the chart.
- An observation after the last game is said to equal what that game left (`app/routers/tournaments.py:1090-1092`), and
  the history to mirror the freeze of current ratings (`app/routers/tournaments.py:2157`). The freeze takes the last
  started game, the history whatever is newest. `FrozenCurrentIsLastPointIff` says exactly when they agree;
  `FrozenCurrentCanDiffer` has 1400 frozen and 1420 charted.
- The column documentation of `rank_by` (`app/models/tournament.py:30-34`) says the history answers 501 in current mode.
  The code charts it: `CurrentPointIsNewest` says what every point is, and `LastCurrentIsLiveIff` when the last one is
  the live rating.
- Two commits of one event between two polls keep only the second scope (`app/events.py:174-176`): `NothingLostIff`,
  `TwoCommitsLoseOne`.
- The snapshot diff compares every row of a batch with the table as it stood before the batch
  (`app/poller/upserts.py:185-208`), so a batch naming a pair twice can leave the log behind the live row:
  `RepeatedPairInStepIff`, `RepeatedPairDrifts`.
- "A player belongs to at most one team per tournament" (`app/routers/tournaments.py:1257-1258`) is not enforced by the
  handlers: `OneTeamKeptIff`, `TwoTeamsReachable`.

## Model

| member | source | states |
|---|---|---|
| RatingLog.Latest | app/poller/upserts.py:163-184 | the row numbered 1 per pair: one of the pair's rows, and no row of the pair is newer by (observed time, id) |
| RatingLog.PeakAsOf | app/routers/tournaments.py:1009-1024 | the windowed maximum: reached by one of the pair's rows up to the bound, exceeded by none, null exactly if there is none |
| RatingLog.RatingStore.InsertRatingSnapshots | app/poller/upserts.py:134-211 | appends, stamped with consecutive ids and one time, exactly the rows that differ from the pair's latest reading in the table before the call; returns their number |
| RatingLog.RatingStore.UpsertPlayerRating | app/poller/upserts.py:118-131 | overwrites the pair's live row and no other; a null current rating is refused by the NOT NULL column |
| RatingLog.RatingStore.StorePlayerStats | app/poller/player_stats.py:53-73 | the snapshot diff, then every live row; a refused row rolls both tables back |
| RatingLog.RatingStore.TickPlayerStats | app/poller/player_stats.py:53-73 | one cycle over the tracked profiles: nothing for none; else one transaction of the snapshot diff and every live row, and the nudge scoped over the profiles polled; a refused row rolls all of it back |
| RatingLog.AppendStamped | app/poller/upserts.py:198-210 | appending stamped rows keeps the log in order, and each pair's latest reading becomes that of its last appended row |
| RatingLog.StampedAre | app/poller/upserts.py:198-210 | row i of an insert has the i-th next id, the reading of its polled row and the time of the tick |
| RatingLog.OverwrittenRow | app/poller/upserts.py:118-131 | after a batch of upserts a live row is the pair's last row in the batch, or the old one |
| RatingLog.TickStored | app/poller/player_stats.py:53-73 | after a tick over a batch that names each pair once, the latest recorded reading of a pair is the polled one, or the old one if it was not polled |
| RatingLog.TickInStep | app/poller/player_stats.py:53-73 | a tick brings log and live row of every polled pair together and separates no other pair |
| RatingLog.RepeatedPairInStepIff | app/poller/upserts.py:185-208 | for batches that repeat a pair: log and live row agree afterwards exactly if the pair's last row is a change or none of its rows is |
| RatingLog.RepeatedPairDrifts | app/poller/upserts.py:185-208 | from tables in step, one batch that repeats a pair and leaves the log and the live row of the pair apart |
| RatingLog.TickNoRepeats | app/poller/upserts.py:134-211 | a tick appends no row equal to the pair's row before it |
| RatingLog.RunNeighboursDiffer | app/poller/upserts.py:137-160 | in every run of ticks, neighbouring rows of a pair carry different readings |
| RatingLog.RunInStep | app/poller/player_stats.py:53-73 | after every run each pair ever polled has its live row equal to its newest log row |
| RatingLog.RunConsistent | app/poller/player_stats.py:53-73 | every run keeps each live row in step with the log and each logged pair in the live table |
| RatingLog.RunAccounted | app/poller/upserts.py:137-142 | every run keeps each live row either in step with the log or, where it is older than the log, without any row there |
| RatingLog.ReplayGivesBackThePolls | app/poller/upserts.py:134-160 | the log is lossless: replayed as of any time it gives the reading of the last poll at or before that time, rebases down included |
| RatingLog.RecordedPeakIsPolledPeak | app/routers/tournaments.py:1009-1024 | the highest recorded peak up to any time is the highest peak polled up to it, for any batches |
| StatsPayload.ParsePlayerStats | app/poller/parsers.py:59-124 | the payload's rating rows, as RowsAre characterises them; no peak below the current rating |
| StatsPayload.OwnerIs | app/poller/parsers.py:71-80 | the owner of a group id is the first member of the last group with that id that has members |
| StatsPayload.RowsAre | app/poller/parsers.py:93-122 | each stats row with an owner gives one rating row, in order, and no other does: of the owner's pair, its peak at least both given ratings and one of them (0 for a missing one), its current rating the given one, 0 if missing, null if null |
| StatsPayload.RunFloored | app/poller/parsers.py:105-111 | whatever payloads arrive, no stored peak, live or logged, is ever below the current rating beside it |
| Ranking.NamesOrdered | app/routers/tournaments.py:2542-2542 | the order on names is strict, total and transitive |
| Ranking.NameBeforeIff | app/routers/tournaments.py:2542-2542 | names compare at their first difference by code point, a proper prefix first |
| Ranking.BeforeIsTotal | app/routers/tournaments.py:2535-2545 | metric descending with null last, then the other rating, then name, then id is a strict total order |
| Ranking.KeyIsTheOrder | app/routers/tournaments.py:2535-2545 | the tuple of null flags and negated values sorts by exactly that order |
| Ranking.RankedKeeps | app/routers/tournaments.py:2535-2545 | sorting keeps every row, once |
| Ranking.RankedInOrder | app/routers/tournaments.py:2535-2545 | the sorted rows are in rank order |
| Ranking.PositionCountsAhead | app/routers/tournaments.py:2546-2546 | a position is one more than the number of entities ranked ahead |
| Ranking.PositionsFollowOrder | app/routers/tournaments.py:2535-2546 | of two entities the one ranked ahead has the smaller position |
| Ranking.HigherIsAhead | app/routers/tournaments.py:2535-2546 | the higher metric has the smaller position, null last; ties go by the other rating, the name and the smaller id |
| Ranking.PositionsArePermutation | app/routers/tournaments.py:2546-2546 | each of 1..n is somebody's position |
| Ranking.PositionsDiffer | app/routers/tournaments.py:2546-2546 | no two entities share a position |
| Ranking.PositionsCoverIds | app/routers/tournaments.py:2546-2546 | exactly the ranked entities have a position |
| Ranking.LiveOrderGivesPositions | app/routers/tournaments.py:1370-1390 | with unique names the live table's ORDER BY leaves no choice, and its row i has position i + 1 |
| HistorySeries.TpByProfile | app/routers/tournaments.py:2215-2215 | every linked profile of the roster maps to the id of a row linked to it, and nothing else does |
| HistorySeries.WindowGames | app/routers/tournaments.py:2223-2242 | exactly the settled rated games of linked entrants on the ladder that started inside the window, ordered by (completion, match) |
| HistorySeries.EarlierGames | app/routers/tournaments.py:2267-2279 | exactly those that started before it, in peak mode with a start date; otherwise none |
| HistorySeries.Observed | app/routers/tournaments.py:2305-2324 | exactly the non-null observations of the ranked metric of linked entrants up to the end, ordered by (time, id) |
| HistorySeries.WindowGameIff | app/routers/tournaments.py:2223-2242 | column by column: a game is charted exactly if it is settled, rated, of a linked entrant, on the ladder and started inside the window, both bounds included |
| HistorySeries.EarlierGameIff | app/routers/tournaments.py:2267-2279 | and carried in exactly if such a game started before it, in peak mode |
| HistorySeries.ObservedIff | app/routers/tournaments.py:2305-2324 | an observation is read exactly if it is of a linked entrant's pair, up to the end, and carries the ranked metric |
| HistorySeries.QueriesInOrder | app/routers/tournaments.py:2237-2321 | games come by completion, then match id; observations by time, then id |
| HistorySeries.EntryIs | app/routers/tournaments.py:2243-2249 | the rating held entering the window is the old rating of the entrant's first charted game |
| HistorySeries.RebasedPrefix | app/routers/tournaments.py:2280-2286 | ends at the profile's last row above the live peak; no later row is above it |
| HistorySeries.MaxHeld | app/routers/tournaments.py:2283-2288 | the highest rating held over the profile's rows, null exactly if it has none |
| HistorySeries.CollectPoints | app/routers/tournaments.py:2243-2249 | the grouping loop over everybody's rows, equal to its step function |
| HistorySeries.GatheredPerProfile | app/routers/tournaments.py:2243-2249 | the interleaved scan gives each entrant exactly their own points in order, and the old rating of their own first row |
| HistorySeries.CollectEarlierPeaks | app/routers/tournaments.py:2280-2288 | the rebase-aware loop over everybody's earlier rows, equal to its step function |
| HistorySeries.CarriedPerProfile | app/routers/tournaments.py:2266-2288 | the interleaved fold gives each entrant the highest rating held over their own rows after their last row above the live peak, or nothing |
| HistorySeries.CarriedIs | app/routers/tournaments.py:2280-2288 | over old and new ratings: the highest shown after the entrant's last row that shows one above the live peak, none if no row follows it |
| HistorySeries.CarriedInIsCapped | app/routers/tournaments.py:2258-2265 | a carried-in rating never exceeds the live peak |
| HistorySeries.CollectObservations | app/routers/tournaments.py:2325-2333 | the loop that splits observations at the start, equal to its step function |
| HistorySeries.SightedPerProfile | app/routers/tournaments.py:2326-2333 | each entrant gets the latest of their own observations up to the start, and their own later ones in order |
| HistorySeries.SeriesTimed | app/routers/tournaments.py:2237-2321 | every entrant's points and observations are oldest first |
| HistorySweep.Consume | app/routers/tournaments.py:2464-2472 | one cursor: afterwards it has passed exactly the points at or before the bucket's time, and holds their maximum and last value |
| HistorySweep.Advance | app/routers/tournaments.py:2463-2486 | both cursors of an entrant, equal to the as-of definition at every candidate time |
| HistorySweep.MaxRatingIs | app/routers/tournaments.py:2470-2470 | the running maximum is reached by a passed point and exceeded by none |
| HistorySweep.UpToIsPrefix | app/routers/tournaments.py:2466-2471 | what a cursor has passed is the prefix of the points at or before the time |
| HistorySweep.PeakOnlyRises | app/routers/tournaments.py:2508-2531 | the charted peak never falls, from any baseline, and never exceeds the live peak of a rated entrant |
| HistorySweep.CurrentIsNewest | app/routers/tournaments.py:2491-2503 | in current mode the metric is the newest item of the log and the observations merged by time, the log winning ties, or the baseline if there is none |
| HistorySweep.OtherIs | app/routers/tournaments.py:2493-2534 | the tie-break at any time: in peak mode the rating after the last game by then, else the live current one; in current mode the live peak |
| HistorySweep.StartsRecorded | app/routers/tournaments.py:2404-2418 | until something happens a recorded entrant is charted at the last peak observed by the start, else the first one later, not below the rating held entering the window nor above the live peak |
| HistorySweep.StartsFlat | app/routers/tournaments.py:2404-2418 | an unrecorded entrant whose games stay below the live peak is charted flat at it |
| HistorySweep.StartsClimbing | app/routers/tournaments.py:2404-2418 | one whose games reach it starts at what earlier games or the first old rating prove |
| HistorySweep.StartsCurrent | app/routers/tournaments.py:2431-2446 | in current mode a line starts at the rating held entering the window, else the last observed by the start, else the first later, else the live one |
| HistoryBuckets.CandidateTimes | app/routers/tournaments.py:2340-2354 | strictly increasing; exactly the midnights from the first to the last day and every event time; none when there is neither a start nor an event |
| HistoryBuckets.AnchorsAre | app/routers/tournaments.py:2340-2354 | the anchors in microseconds: the multiples of 86,400,000,000 after the start less one day, up to the last event |
| HistoryBuckets.AxisCoversEvents | app/routers/tournaments.py:2354-2354 | no event lies after the last candidate time |
| HistoryBuckets.PlayerPositionIs | app/routers/tournaments.py:2535-2546 | in every bucket an entrant's position is one more than the number of entrants ahead |
| HistoryBuckets.TeamPositionIs | app/routers/tournaments.py:2551-2552 | the same for teams |
| HistoryBuckets.EmittedAreCandidates | app/routers/tournaments.py:2558-2560 | emitted buckets are candidates, in time order, starting with the first |
| HistoryBuckets.AnchorsAndLastEmitted | app/routers/tournaments.py:2558-2560 | every daily anchor and the last candidate are emitted |
| HistoryBuckets.OtherBucketsAreReorders | app/routers/tournaments.py:2553-2560 | any other bucket after the first differs in its positions from the one before it |
| HistoryBuckets.NoPositionLost | app/routers/tournaments.py:2553-2577 | at every candidate time the position vector is that of the latest emitted bucket |
| StandingsHistory.LookedIsSeries | app/routers/tournaments.py:2217-2333 | what the dictionaries of the three interleaved scans hold for an entrant is that entrant's own series, linked or not |
| StandingsHistory.BuildEntries | app/routers/tournaments.py:2207-2333 | the three grouping loops together build every entrant's own series |
| StandingsHistory.AdvanceEntry | app/routers/tournaments.py:2463-2534 | one entrant's step of the sweep gives the standing defined as of the time |
| StandingsHistory.AdvanceField | app/routers/tournaments.py:2463-2534 | one step of the sweep gives the whole field as defined as of the time |
| StandingsHistory.AppendPoints | app/routers/tournaments.py:2561-2576 | every line, player and team, grows by the bucket's point |
| StandingsHistory.Record | app/routers/tournaments.py:2558-2577 | the bucket is emitted exactly if it is an anchor, a reorder, the first or the last |
| StandingsHistory.Sweep | app/routers/tournaments.py:2447-2577 | the fast sweep: its buckets are the emitted candidates of the as-of definition and every line has one point per bucket |
| StandingsHistory.GetStandingsHistory | app/routers/tournaments.py:2104-2603 | the endpoint in every case: an empty roster, nothing to chart, or the chart over the whole axis with the time of the last event |
| HistoryResults.HistoryLosesNoPosition | app/routers/tournaments.py:2335-2339 | the answer: at every candidate time all players' and all teams' positions are those of its latest bucket |
| HistoryResults.BucketsAreTheField | app/routers/tournaments.py:2559-2560 | the answer's buckets come in time order and each is the field as of its own time |
| HistoryResults.HistoryKeepsAnchors | app/routers/tournaments.py:2558-2560 | the answer has a bucket at the first and last candidate time and at every midnight |
| HistoryResults.PointPosition | app/routers/tournaments.py:2561-2568 | a player's point has the position 1 plus the number of entrants ahead in its bucket, and null in the field of the other mode |
| HistoryResults.PointsArePermutation | app/routers/tournaments.py:2561-2568 | at every bucket each of 1..n is the position of exactly one player's point |
| HistoryResults.HigherPointIsAhead | app/routers/tournaments.py:2535-2568 | of two points of a bucket the one showing the higher rating has the smaller position, null last; ties by the other rating, name and id |
| HistoryResults.PeakLinesOnlyRise | app/routers/tournaments.py:2371-2372 | in peak mode a player's line never falls |
| HistoryResults.PeakLinesCapped | app/routers/tournaments.py:2517-2531 | a rated player's line never exceeds the live peak |
| HistoryResults.CurrentPointIsNewest | app/routers/tournaments.py:2491-2503 | in current mode a point is the newest item of the entrant's merged history as of the bucket, or the baseline |
| HistoryResults.TeamPointIsTotal | app/routers/tournaments.py:2547-2576 | a team's point is the sum of its members' metrics as of the bucket, null counting as nothing |
| HistoryResults.TeamsCharted | app/routers/tournaments.py:2357-2371 | exactly the teams with a member have a line |
| HistoryResults.TeamPointPosition | app/routers/tournaments.py:2547-2576 | a team's point has the position 1 plus the number of teams ahead |
| HistoryResults.HigherTeamIsAhead | app/routers/tournaments.py:2547-2576 | of two teams the one with the larger total has the smaller position, equal totals by the smaller id |
| HistoryResults.TeamPointsArePermutation | app/routers/tournaments.py:2547-2576 | at every bucket each of 1..n is a team's position |
| HistoryResults.LastPointIsMetric | app/routers/tournaments.py:2558-2568 | in either mode a player's line ends with the metric at the last candidate time |
| HistoryResults.FinalPeakIsLive | app/routers/tournaments.py:2393-2414 | once everything has happened the charted peak is the live one, whichever baseline applies |
| HistoryResults.FinalOtherIsLiveIff | app/routers/tournaments.py:2532-2534 | the final tie-break is the live current rating exactly if there is no charted game or the last one left that rating |
| HistoryResults.FinalCurrentIsLiveIff | app/routers/tournaments.py:2488-2503 | in current mode the final metric is the live current rating exactly if there is no charted game, or the last one left that rating, or an observation came after it |
| HistoryResults.FinalStandingIs | app/routers/tournaments.py:2504-2534 | what the last candidate time ranks an entrant by, rated or not, read off the live row and the charted games |
| HistoryResults.FinalOrderIsLive | app/routers/tournaments.py:2146-2147 | if every series ends at its live values the last candidate ranks the field as the live table does |
| FinalOrder.TableOrderIff | app/routers/tournaments.py:2535-2546 | a ranking puts every row of the live table in its place exactly if it agrees with it on every pair |
| FinalOrder.FinalAgreesIff | app/routers/tournaments.py:2535-2546 | the last bucket agrees with the live table exactly if every pair of entrants does |
| FinalOrder.RatedPairAgreesIff | app/routers/tournaments.py:2532-2545 | two rated entrants end in the live order exactly if their live peaks differ, or the tie-break by last charted rating falls as the one by live current rating |
| FinalOrder.UnratedPairAgreesIff | app/routers/tournaments.py:2504-2545 | an unrated entrant ends behind a rated one exactly if it has no charted game, or its best charted rating is below the live peak, or equals it and loses the tie-break |
| FinalOrder.UnratedTwoAgreeIff | app/routers/tournaments.py:2504-2545 | two unrated entrants end in name order exactly if the first has the higher charted peak, or the same, null included, and wins the tie-break |
| LiveTable.NewestObservation | app/routers/tournaments.py:2310-2324 | while the window is open an entrant's newest charted observation, in either mode, is the pair's latest log row if that carries the metric; without a row there is none |
| LiveTable.SeriesAgreesWithLive | app/routers/tournaments.py:2290-2333 | what a series records of a rated entrant agrees with the live row in either mode; a pair never logged has nothing recorded |
| LiveTable.LastBucketChartsLivePeaks | app/routers/tournaments.py:2462-2546 | after any run of ticks, window open, the last point of every rated entrant is exactly the live peak, whichever of the four baselines applies, unrecorded entrants included |
| LiveTable.LastBucketIsLiveTable | app/routers/tournaments.py:2146-2147 | and if the log ends at the live current ratings, the last bucket's positions are the live table's rows |
| LiveTable.LastBucketIsLiveTableIff | app/routers/tournaments.py:2146-2147 | after any run of ticks, window open, the last bucket has every row of the live table in its place exactly if every pair of entrants stands the same by live ratings and by what the charted games leave |
| LiveTable.LastBucketIsLiveCurrentIff | app/routers/tournaments.py:2488-2546 | the same in current mode: the last bucket has every row of the live table in its place exactly if every pair stands the same with the last charted game's rating for those it is newest of |
| LiveTable.LastCurrentIsLiveIff | app/routers/tournaments.py:2488-2503 | after any run of ticks, window open, a rated entrant's last point in current mode is the live current rating exactly if no charted game newer than its observations left another rating |
| WindowEnd.EventsInWindowIff | app/routers/tournaments.py:2239-2242 | with an end set, nothing is charted after it exactly if every charted game was over by then |
| WindowEnd.LastBucketInWindowIff | app/routers/tournaments.py:971-974 | the last bucket lies within the window exactly if every charted game was over by its end |
| ChartCases.LastBucketCase | app/routers/tournaments.py:2393-2414 | tables of a run and a query on which the last bucket is the live table, an entrant whose live row is older than the log among its rows |
| ChartCases.TieBreakCanDiffer | app/routers/tournaments.py:2532-2534 | tables of a run and a query on which the last bucket orders two rated entrants against the live table |
| ChartCases.LateFinishIsCharted | app/routers/tournaments.py:2239-2242 | a window that ends at 3 with a last bucket at 10 |
| PastBuckets.PastCompared | app/routers/tournaments.py:2504-2531 | read now and again later, a past point is the same charted peak over each read's own baseline and below its own live peak |
| PastBuckets.PastStaysIff | app/routers/tournaments.py:2517-2531 | with the same baseline a past point of a rated entrant stays exactly if the live peak does or cuts it on neither read |
| PastBuckets.BaselineStaysIff | app/routers/tournaments.py:2390-2418 | the baseline of an entrant observed in an open window stays exactly if the rating held entering the window adds the same to the first observation |
| PastBuckets.EntryStays | app/routers/tournaments.py:2243-2249 | once a game is charted the rating held entering the window is settled |
| PastBuckets.PastPointStaysIff | app/routers/tournaments.py:2146-2147 | over any further run, a past point of an entrant observed and with a charted game by the first read stays exactly if the live peak does or cuts it on neither read |
| PastBuckets.PastCurrentStaysIff | app/routers/tournaments.py:2491-2503 | in current mode a past point stays exactly if a game or an observation is charted by then or the baseline stays |
| ChartCases.PastPointMoves | app/routers/tournaments.py:2146-2147 | a run between two reads that moves a past point from 1500 to 1600 |
| Freeze.HighestIs | app/routers/tournaments.py:1036-1053 | the highest settled rating of the started-by-bound games: reached by one, exceeded by none |
| Freeze.LastStartedIs | app/routers/tournaments.py:1116-1144 | the game numbered 1 by (start, match) descending: no other started later |
| Freeze.FrozenPeakByProfile | app/routers/tournaments.py:994-1065 | no answer while the window is open; afterwards, for the answers of its three queries, every profile's frozen peak of the tables |
| Freeze.FrozenCurrentByProfile | app/routers/tournaments.py:1101-1183 | no answer while the window is open; afterwards, for the answers of its three queries, every profile's frozen current rating of the tables |
| Freeze.QuietKeepsRaw | app/routers/tournaments.py:1009-1053 | post-window ticks and games that start after the bound change neither as-of-bound value, over any run |
| Freeze.FrozenCurrentStaysIff | app/routers/tournaments.py:1087-1099 | over any such run the frozen current rating is unchanged exactly if a started-by-bound game or a pre-bound observation exists, or live did not change |
| Freeze.FrozenPeakStaysIff | app/routers/tournaments.py:1054-1065 | the frozen peak is unchanged exactly if live did not change, or an as-of-bound value exists that live covered then and covers now |
| Freeze.RebaseMovesFrozenPeak | app/routers/tournaments.py:1062-1063 | one post-window poll that lowers a frozen peak |
| Freeze.SettledPeak | app/routers/tournaments.py:1025-1064 | after one write by which a started-by-bound game counts, the frozen peak is that of the old raw peak and the settled rating |
| Freeze.LateSettlement | app/routers/tournaments.py:1025-1035 | a started-by-bound game that settles late does not lower the frozen peak exactly if there was a raw peak, or no live one, or nothing settles for the profile, or the settled rating reaches the live peak |
| Freeze.LateSettlementLowers | app/routers/tournaments.py:984-992 | one late settlement that lowers a frozen peak from 1700 to 1500 |
| Freeze.LateRaw | app/routers/tournaments.py:1009-1053 | over runs of post-window ticks and late settlements the raw peak rises by exactly what settles |
| Freeze.LateRunKeepsPeakIff | app/routers/tournaments.py:1054-1065 | over such runs the frozen peak does not fall exactly if the live peak does not cut below it and the raw peak of the close, what settled, or else the live fallback reaches it |
| Freeze.SettledCurrent | app/routers/tournaments.py:1116-1144 | a late settlement makes the frozen current rating the settled one exactly if that game is the last started one, by (start, match), and else leaves it |
| FinalTable.SamePositionsIff | app/routers/tournaments.py:1401-1412 | two rankings of rows with unique ids and names give the same positions exactly if they keep the order of every pair |
| FinalTable.HigherFrozenIsAhead | app/routers/tournaments.py:1401-1412 | in the closed table the higher frozen metric has the smaller position; ties go by the other rating as it is live, then by name |
| FinalTable.UnlinkedIsBehind | app/routers/tournaments.py:1403-1410 | an unlinked row is behind every row with a frozen metric |
| FinalTable.FinalTableStaysIff | app/routers/tournaments.py:1339-1343 | over any run after the close, in either mode, the final table's positions stay exactly if the values of the close, with the live tables of now as cap, fallback and tie-break, keep the order of every pair of rows |
| FinalTable.MetricStandsIff | app/routers/tournaments.py:1054-1065 | a row's frozen metric stands still over such a run exactly under the condition on the live rating, null for an unlinked row |
| FinalTable.PairKeepsOrderIff | app/routers/tournaments.py:1401-1410 | two rows with standing metrics keep their order exactly if these differ or the tie-break by live other rating and name falls the same way |
| FinalTable.StandingMetricsIff | app/routers/tournaments.py:1401-1410 | where every metric stands still, the final table does exactly if every tie falls as at the close |
| FinalTable.GrindReorders | app/routers/tournaments.py:1339-1343 | one quiet tick after which no metric has moved and the final table has turned |
| Freeze.FrozenCurrentIsLastPolled | app/routers/tournaments.py:1087-1092 | over any run of polls around the bound and any log before it, null ratings included, a profile without a game is frozen at the current rating last polled at or before it |
| Freeze.FrozenPeakIsPolledPeak | app/routers/tournaments.py:977-982 | over any run from empty tables the as-of-bound peak is the highest polled or settled by the bound |
| FrozenTable.FrozenAgainstLastBucket | app/routers/tournaments.py:962-982 | over one set of tables, exactly when the frozen peak is above the last bucket's point (a rating observed before the window, or of a game that started before it or was never completed, is higher and the live peak does not cut it off) and exactly when it is below |
| FrozenTable.FrozenCurrentIsLastPointIff | app/routers/tournaments.py:1087-1099 | exactly when the frozen current rating is the last current-mode point: the last started game left the last completed one's rating, or, where an observation is newer, the newest recorded rating |
| ChartCases.FrozenCurrentCanDiffer | app/routers/tournaments.py:1090-1092 | one set of tables with 1400 frozen and 1420 charted |
| ChartCases.FrozenAboveChart | app/routers/tournaments.py:971-974 | tables of a run, with no game, whose frozen peak is above the last bucket's point |
| MatchIngest.LinksAre | app/poller/parsers.py:259-300 | a profile is linked to a match exactly if it is tracked and sits in a lobby of that match |
| MatchIngest.LastReportStands | app/poller/upserts.py:232-271 | once a match has been reported, no interleaving of live observations changes more than its state, and nothing at all if the last report completed it |
| MatchIngest.CompletedRowsConfluent | app/poller/upserts.py:232-271 | two runs with the same reports in the same order leave the same completed row, wherever their live ticks fall |
| MatchIngest.RunKeepsSound | app/poller/parsers.py:155-177 | in every run of live and recent ticks a match is completed exactly if it has a completion time, and every live link names a stored match |
| MatchIngest.FirstPlayerRowStands | app/poller/upserts.py:274-284 | a player row never changes after its first write |
| Scopes.TournamentsAre | app/poller/roster.py:35-53 | a tournament is in the scope exactly if its roster links one of the profiles |
| MatchTables.Tables.UpsertMatchFromRecent | app/poller/upserts.py:232-246 | inserts or overwrites the whole row |
| MatchTables.Tables.UpsertMatchFromLive | app/poller/upserts.py:249-271 | inserts, or updates state and update time alone where no completion time is set |
| MatchTables.Tables.UpsertMatchPlayer | app/poller/upserts.py:274-284 | inserts or does nothing |
| MatchTables.Tables.ReplaceLiveMatchPlayers | app/poller/upserts.py:287-305 | clears the links and writes the new ones |
| MatchTables.Tables.TickLiveMatches | app/poller/live_matches.py:48-63 | the whole live cycle: what is stored, and the nudge that goes out with it, scoped over who was live before or is live now |
| MatchTables.Tables.TickRecentMatches | app/poller/recent_matches.py:113-141 | the whole history cycle: failed fetches are skipped, an unstorable match rolls everything back, and the nudge is scoped to the profiles whose history was fetched; the stored columns are those of CycleStoresMatch and CycleStoresResults |
| MatchTables.ScopeCoversChanges | app/poller/live_matches.py:49-62 | if a tick changes the match any entrant is shown in, or whether there is one, the stored scope names that tournament |
| MatchTables.HistoryScopeIs | app/poller/recent_matches.py:113-141 | a history cycle's scope names exactly the tournaments whose roster links a profile whose fetch succeeded |
| MatchReports.CommitsIff | app/poller/parsers.py:155-177 | a history cycle commits exactly if every reported match has a start time other than 0 |
| MatchReports.CycleStoresMatch | app/poller/parsers.py:155-177 | after it a reported match has the start, completion, board, map, type and description of its last report, completed exactly with a completion time |
| MatchReports.CycleStoresResults | app/poller/parsers.py:192-213 | each reported player has the row stored before, else the cycle's first result for that match; nobody else gets one |
| MatchReports.CycleLeavesOthers | app/poller/recent_matches.py:113-141 | a match it does not report stays as it was, and a cycle that cannot commit changes nothing |
| MatchReports.LiveStoresMatch | app/poller/parsers.py:267-297 | a match first seen in a live cycle has its first lobby's columns, no board, its creation time or else the time of the cycle; staging exactly if its last lobby's state is 0 or missing |
| MatchReports.LiveKeepsMatch | app/poller/upserts.py:249-305 | a known match keeps all but state and update time, a completed one those too; the links are the tracked members of the lobbies |
| MatchReports.LiveKeepsPlayers | app/poller/live_matches.py:48-63 | a live cycle stores no player row, and one that tracks nobody does nothing |
| Nudges.StoredScope | app/events.py:164-170 | null exactly for no ids; otherwise the same ids, distinct and sorted |
| Nudges.NudgeTable.EmitNudge | app/events.py:149-176 | one row per event, inserted or overwritten with the time and the scope |
| Nudges.Subscription.PutNowait | app/events.py:112-117 | appends, or drops on a full queue of 16 |
| Nudges.Subscription.Take | app/events.py:83-87 | hands out the oldest nudge |
| Nudges.EventHub.Subscribe | app/events.py:83-87 | registers a fresh empty queue |
| Nudges.EventHub.Unsubscribe | app/events.py:89-91 | forgets a queue, known or not |
| Nudges.EventHub.Publish | app/events.py:93-117 | offers the nudge to every subscriber's queue |
| Nudges.Poller.PollOnce | app/events.py:192-213 | remembers every row; the first poll publishes nothing, a later one publishes exactly what advanced, to every queue |
| Nudges.RunTracks | app/events.py:188-213 | in every run the table holds each event's last commit, and what was last seen is each event's last commit before the last successful poll |
| Nudges.PublishedAreCommits | app/events.py:156-159 | each published nudge is a committed row of one of the three known events, whatever rolls back or fails |
| Nudges.InitializedIff | app/events.py:192-213 | an instance has its baseline exactly once it has polled successfully |
| Nudges.FirstPollIsSilent | app/events.py:192-201 | the first poll of an instance publishes nothing |
| Nudges.NudgeGoesOut | app/events.py:195-213 | in every run a commit of "standings", "live" or "matches" is published by the next successful poll, unless a later commit of its event came first |
| Scopes.TickNudgeGoesOut | app/poller/player_stats.py:66-72 | so the nudge of a stats, live or history tick goes out, naming exactly the tournaments whose roster links one of its profiles |
| Nudges.PublishedTimesIncrease | app/events.py:200-200 | per event, published times strictly increase |
| Nudges.PollCatchesUp | app/events.py:179-187 | after any successful poll each event's last baseline or published time is the table's |
| Nudges.PollPublishesLastPending | app/events.py:195-213 | of the commits since the last poll, exactly each event's last one is published |
| Nudges.NothingLostIff | app/events.py:175-176 | a poll loses no scope of an event exactly if it was committed at most once since the last poll |
| Nudges.TwoCommitsLoseOne | app/events.py:175-176 | two commits between polls, of which the first never goes out |
| Nudges.UnhurriedRunsLoseNothing | app/events.py:156-159 | in runs with at most one commit per event between polls every commit after the first poll is published |
| Nudges.QueuesSound | app/events.py:83-117 | each queue holds at most 16 nudges; what was read and what waits is an in-order part of what was published since subscription, and the rest is counted as dropped |
| Nudges.QueueHolds16 | app/events.py:112-117 | of the nudges delivered to a queue those that find room among 16 wait in order, and exactly the others are dropped |
| Nudges.ReadTakesOldest | app/events.py:83-87 | reading hands out the oldest waiting nudge and changes nothing else |
| Nudges.DeliveryIsOffer | app/events.py:112-117 | the queues of the protocol hold what the hub's queues hold |
| Nudges.UndroppedIsWhole | app/events.py:83-117 | a subscriber on which nothing was dropped has exactly what was published since it joined |
| Idempotency.Middleware.HandleRequest | app/middleware/idempotency.py:96-182 | pass-through, malformed key, reused key, cached answer, run and cache, run and do not cache |
| Idempotency.KeyedIff | app/middleware/idempotency.py:101-106 | exactly POST, PATCH, DELETE and PUT on a versioned path with a non-empty key are keyed |
| Idempotency.UuidIff | app/middleware/idempotency.py:50-52 | a key is well formed exactly if it is 8, 4, 4, 4 and 12 hexadecimal digits with hyphens between |
| Idempotency.VersionedIff | app/middleware/idempotency.py:46-46 | a path is versioned exactly if it begins with "/v", digits and "/" |
| Idempotency.OtherRequests | app/middleware/idempotency.py:101-117 | a malformed key is answered 422 and runs nothing; a request without one goes to the handler |
| Idempotency.KeptIff | app/middleware/idempotency.py:150-170 | a keyed request not in the table is run, and kept exactly if its answer has a status from 200 to 499 |
| Idempotency.RetriesEliminated | app/middleware/idempotency.py:126-182 | deleting every request that finds its key cached leaves the application state, the key table and all other answers unchanged, for any handler |
| Idempotency.EntriesStay | app/middleware/idempotency.py:130-170 | a cached answer is never changed or removed |
| Idempotency.RetryGetsFirstAnswer | app/middleware/idempotency.py:133-148 | once answered with a status from 200 to 499, every later request with the key gets that status and body if the fingerprint of its method, path and body is equal and 422 if not, and changes nothing |
| Idempotency.FailedAttemptRunsAgain | app/middleware/idempotency.py:156-159 | an attempt that raised or was answered outside 200 to 499 is not cached and the next one runs |
| Idempotency.AtMostOneExecution | app/middleware/idempotency.py:126-170 | at most one request per key takes effect with a final answer, and a key is cached at the end exactly if one did or it was there |
| OptionsCodec.DecodeMatchOptions | app/poller/map_names.py:115-129 | the walk: never out of bounds, none for an empty blob or one that ends inside a record, otherwise the settings of its records |
| OptionsCodec.NumberRoundTrip | app/poller/map_names.py:121-121 | little-endian numbers of any width survive encoding |
| OptionsCodec.WordIs | app/poller/map_names.py:121-121 | a length is read low byte first |
| OptionsCodec.PartitionJoined | app/poller/map_names.py:127-127 | splitting at the first colon undoes joining for a key without one |
| OptionsCodec.DecodesIff | app/poller/map_names.py:115-129 | a blob decodes exactly if it begins with the encoding of as many records as its first byte says |
| OptionsCodec.OneRecordBlob | app/poller/map_names.py:110-129 | the bytes 1, 3 0 0 0, "1:2" decode to that one setting |
| OptionsCodec.RoundTrip | tests/poller/test_map_names.py:26-34 | decoding an encoding gives every setting back under its key, and nothing else |
| OptionsCodec.EncodingsPrefixFree | app/poller/map_names.py:110-110 | no encoding of equally many records is a proper prefix of another |
| OptionsCodec.ProperPrefixFails | app/poller/map_names.py:119-124 | no proper prefix of an encoding decodes |
| WinRun.LongestWinRun | app/routers/tournaments.py:571-601 | the length is that of the longest run of wins anywhere; start and end are the completion times of the oldest and newest win of the most recent such run |
| WinRun.PeakRunUnique | app/routers/tournaments.py:571-588 | that run is unique |
| WinRun.CountWins | app/routers/tournaments.py:809-809 | the number of wins |
| WinRun.PeakRating | app/routers/tournaments.py:821-828 | the highest non-null rating after any game, null exactly if there is none |
| WinRun.RecordOf | app/routers/tournaments.py:807-829 | counts, the signed leading run, the longest win run, the peak and the newest start; the zero record for no games |
| WinRun.RecordsAreConsistent | app/routers/tournaments.py:807-829 | wins + losses = games, a streak is within the longest run or the losses, the longest run within the wins, and wins <= longest * (losses + 1) |
| CivCache.CivilizationNames.FastCheck | app/routers/tournaments.py:1546-1549 | the map if there is one less than a TTL old, else nothing |
| CivCache.CivilizationNames.LockedCheck | app/routers/tournaments.py:1553-1558 | the same under the lock |
| CivCache.CivilizationNames.Store | app/routers/tournaments.py:1555-1558 | stores and returns the rows that were read, with the time after the read |
| CivCache.RefreshesAreRare | app/routers/tournaments.py:1517-1518 | in every interleaving two refreshes are stored at least one TTL apart, and the later query begins no sooner either |
| CivCache.AnswersAreFresh | app/routers/tournaments.py:1546-1558 | every returned map was stored by a refresh less than one TTL before the check that returned it |
| CivCache.RefreshesReadTheTable | app/routers/tournaments.py:1555-1557 | what a refresh stored is what the table held at some time between the start of its query and its storing |
| CivCache.StampedeCollapses | app/routers/tournaments.py:1550-1558 | whoever gets the lock within one TTL of a refresh is answered from it without a query |
| CivCache.FailureIsRecovered | app/routers/tournaments.py:1546-1558 | a run in which a query fails: the next waiting caller reads the table, and later callers are answered from the cache while it is fresh |
| Management.Database.HandleCreateTournament | app/routers/tournaments.py:245-339 | every refusal in order, else the tournament with its creator as owner |
| Management.Database.HandleUpdateTournament | app/routers/tournaments.py:356-391 | applies the given fields to the row, or refuses and commits nothing |
| Management.Database.HandleDeleteTournament | app/routers/tournaments.py:410-428 | removes the row and everything that cascades |
| Management.Database.HandleGrantOwner | app/routers/owners.py:87-114 | adds an owner, 409 for one there already |
| Management.Database.HandleRevokeOwner | app/routers/owners.py:124-176 | the conditional delete: 404, 422 for the last owner, else removed |
| Management.Database.HandleAddPlayer | app/routers/players.py:230-294 | the ceiling, the two clashes, else one more row under the next id |
| Management.Database.HandleUpdatePlayer | app/routers/players.py:338-389 | links an unlinked row; 422 if linked, 409 if the profile is taken |
| Management.Database.HandleRemovePlayer | app/routers/players.py:305-327 | removes the row and its memberships |
| Management.Database.HandleCreateTeam | app/routers/teams.py:47-63 | one more team under the next id |
| Management.Database.HandleUpdateTeam | app/routers/teams.py:75-91 | changes the given fields |
| Management.Database.HandleDeleteTeam | app/routers/teams.py:102-120 | removes the team and its memberships |
| Management.Database.HandleAddMember | app/routers/teams.py:151-183 | 404 off the roster, 409 on the team already, else a member without the captaincy |
| Management.Database.HandleRemoveMember | app/routers/teams.py:194-220 | removes the membership or 404 |
| Management.Database.HandleSetCaptain | app/routers/teams.py:230-278 | clears the team's captain and sets the new one; nothing to do for the current one |
| Management.Database.HandleClearCaptain | app/routers/teams.py:290-318 | clears the team's captain, if any |
| Management.Database.Handle | app/auth/dependencies.py:77-106 | every write route: 404 for no tournament, 403 for a caller who is not an owner, else the handler |
| ManagementSafety.RequestKeepsSound | app/models/tournament.py:40-332 | one request keeps every invariant below |
| ManagementSafety.RunKeepsSound | app/models/tournament.py:40-332 | over every sequence of requests: unique allowed slugs, start <= end, an owner per tournament, unique names and links per roster, at most 100 rows, members from their team's roster, one captain per team, references and ids intact |
| ManagementSafety.LinkIsImmutable | app/routers/players.py:363-386 | over every sequence a set link never changes until its row is deleted, and no id comes back |
| ManagementSafety.RefusedChangesNothing | app/routers/tournaments.py:381-389 | a request answered with an error commits nothing |
| ManagementSafety.OnlyOwnersChange | app/auth/dependencies.py:77-106 | a request to another tournament or by a caller who is not an owner leaves a tournament's row, owners, roster, teams and members as they are |
| ManagementSafety.DeleteErases | app/routers/tournaments.py:416-428 | a deletion leaves no row of the tournament and touches nothing of the others |
| ManagementSafety.DeleteUndoesCreate | app/routers/tournaments.py:245-428 | deleting a tournament just created gives every table back |
| ManagementSafety.CaptainIsSet | app/routers/teams.py:246-278 | naming a captain makes exactly that member captain of the team and leaves other teams alone |
| ManagementSafety.OneTeamKeptIff | app/routers/teams.py:171-183 | adding a member keeps players on one team exactly if the player is on no other team |
| ManagementSafety.TwoTeamsReachable | app/routers/tournaments.py:1257-1258 | six requests, each accepted, that put one player on two teams |
| ManagementEffects.OnlyOwnersPass | app/auth/dependencies.py:77-106 | 404 without the tournament, 403 to anyone but an owner, and nothing changes |
| ManagementEffects.SlugIff | app/schemas/tournament.py:102-136 | a slug is allowed exactly if it is 1 to 64 lower-case letters, digits and inner hyphens and not "current" |
| ManagementEffects.CreateEffect | app/routers/tournaments.py:245-339 | 201 exactly for a listed creator of fewer than ten tournaments, a free allowed slug, a window in order and a ranked supported ladder; it leaves the tournament and its owner row |
| ManagementEffects.EveryTournamentCreated | app/routers/tournaments.py:245-339 | in every run each tournament was created by a user who was on the list then and owned fewer than ten, on a ladder ranked then, under its slug |
| ManagementEffects.UpdateEffect | app/routers/tournaments.py:356-391 | 200 exactly for a ranked ladder and a window in order; it sets exactly the fields given |
| ManagementEffects.DeleteEffect | app/routers/tournaments.py:410-428 | a deletion keeps exactly what belongs to other tournaments |
| ManagementEffects.RevokeEffect | app/routers/owners.py:124-176 | 204 exactly for an owner beside whom another is left |
| ManagementEffects.AddPlayerEffect | app/routers/players.py:230-294 | 204 exactly below a hundred rows, for a name and a profile not on the roster; it leaves one more row |
| ManagementEffects.LinkEffect | app/routers/players.py:338-389 | a link is stored exactly on an unlinked row of the roster for a profile nobody on it is linked to |
| ManagementEffects.RemovePlayerEffect | app/routers/players.py:305-327 | the row and its memberships go, and nothing else |
| ManagementEffects.UpdateTeamEffect | app/routers/teams.py:75-91 | a team of the tournament takes exactly the fields given |
| ManagementEffects.DeleteTeamEffect | app/routers/teams.py:102-120 | the team and its memberships go, and nothing else |
| ManagementEffects.AddMemberEffect | app/routers/teams.py:151-183 | 204 exactly for a roster row and a team of the tournament it is not on; it leaves a plain membership |
| ManagementEffects.RemoveMemberEffect | app/routers/teams.py:194-220 | 204 exactly for a membership of a team of the tournament; it goes, and nothing else |
| ManagementEffects.SetCaptainEffect | app/routers/teams.py:230-278 | 204 exactly for such a membership, which alone captains the team then |
| ManagementEffects.ClearCaptainEffect | app/routers/teams.py:290-318 | the team has no captain then, the others keep theirs |
| Migrations.Database.UpgradeUnify | alembic/versions/75c172c71c39_unify_tournament_players_to_allow_.py:32-117 | numbers the rows, inserts each placeholder with the sequence's next id, and keeps the result if every new constraint holds |
| Migrations.Database.DowngradeUnify | alembic/versions/75c172c71c39_unify_tournament_players_to_allow_.py:120-163 | moves unlinked rows back and drops the new columns, or aborts |
| Migrations.Database.UpgradeExpand | alembic/versions/f812a0b45583_expand_team_members_with_tournament_.py:35-60 | row by row, each membership takes the id of a roster row of its team's tournament with its profile, or stays as it is where there is none; with profiles unique per roster the outcome is the one join |
| Migrations.Database.DowngradeExpand | alembic/versions/f812a0b45583_expand_team_members_with_tournament_.py:79-83 | drops the new key |
| Migrations.Database.UpgradeTransition | alembic/versions/fd4a4e26ec02_transition_team_members_reads_to_.py:37-70 | row by row, each membership without the new key takes the id of a matching roster row or stays; the result is kept if (team, entry) is then a key, else nothing changes; with profiles unique per roster the outcome is determined |
| Migrations.Database.DowngradeTransition | alembic/versions/fd4a4e26ec02_transition_team_members_reads_to_.py:73-87 | deletes memberships without a profile and makes (team, profile) the primary key, or aborts |
| Migrations.Database.UpgradeContract | alembic/versions/cb051bd9d638_drop_profile_id_from_team_members_.py:33-39 | drops the old key |
| Migrations.Database.DowngradeContract | alembic/versions/cb051bd9d638_drop_profile_id_from_team_members_.py:42-58 | row by row, each membership takes the profile of its roster row, null for an unlinked entrant; with unique row ids the outcome is determined |
| Migrations.Database.UpgradeNames | alembic/versions/1b4c7991f59a_expand_tournament_players_drop_xor_.py:49-82 | the two updates name every linked row, by alias or label, and abort if a name is too long or taken |
| Migrations.Database.DowngradeNames | alembic/versions/1b4c7991f59a_expand_tournament_players_drop_xor_.py:85-98 | takes the names of linked rows away |
| MigrationResults.NumbersInRange | alembic/versions/75c172c71c39_unify_tournament_players_to_allow_.py:46-60 | row numbers lie between 1 and the sequence's value |
| MigrationResults.NumbersFollowKeys | alembic/versions/75c172c71c39_unify_tournament_players_to_allow_.py:46-60 | row numbers follow the tournament, then the profile |
| MigrationResults.LastValueIsLargest | alembic/versions/75c172c71c39_unify_tournament_players_to_allow_.py:65-73 | the sequence is set to the largest id in use |
| MigrationResults.FirstPlaceholder | alembic/versions/75c172c71c39_unify_tournament_players_to_allow_.py:65-94 | for an empty table the sequence stands at 1 and its first placeholder gets id 2 |
| MigrationResults.UnifySucceeds | alembic/versions/75c172c71c39_unify_tournament_players_to_allow_.py:79-117 | merging never aborts: new ids are collision-free and the check and unique constraints hold, in whatever order placeholders are inserted |
| MigrationResults.SplitUndoesUnify | alembic/versions/75c172c71c39_unify_tournament_players_to_allow_.py:120-163 | splitting gives both tables back |
| MigrationResults.SplitIff | alembic/versions/75c172c71c39_unify_tournament_players_to_allow_.py:120-163 | splitting aborts exactly if an unlinked row has no name, two of a tournament share one, or two linked rows share a profile |
| MigrationResults.RekeyIff | alembic/versions/fd4a4e26ec02_transition_team_members_reads_to_.py:43-64 | the new key can be required exactly if every member is on the roster of its team's tournament |
| MigrationResults.TransitionIff | alembic/versions/fd4a4e26ec02_transition_team_members_reads_to_.py:37-70 | for any rows, requiring the new key aborts exactly if a membership ends without it or two of a team share one |
| MigrationResults.UntransitionIff | alembic/versions/fd4a4e26ec02_transition_team_members_reads_to_.py:73-87 | going back aborts exactly if two memberships of a team share a profile |
| MigrationResults.SameTeams | alembic/versions/f812a0b45583_expand_team_members_with_tournament_.py:45-60 | teams and captains read the same through the new key as through the old |
| MigrationResults.UnrekeyUndoesRekey | alembic/versions/cb051bd9d638_drop_profile_id_from_team_members_.py:42-58 | moving the key there and back gives every membership back |
| MigrationResults.NamesIff | alembic/versions/1b4c7991f59a_expand_tournament_players_drop_xor_.py:58-82 | the names go in exactly if every label fits and collides with no other label or placeholder name of its tournament |
| MigrationResults.UnfillIff | alembic/versions/1b4c7991f59a_expand_tournament_players_drop_xor_.py:85-98 | taking the names away aborts exactly if an unlinked row has none |
| MigrationResults.SyntheticLabelsDiffer | alembic/versions/1b4c7991f59a_expand_tournament_players_drop_xor_.py:71-82 | the labels of two unpolled profiles differ |
| MigrationResults.UpgradeNamesRows | alembic/versions/1b4c7991f59a_expand_tournament_players_drop_xor_.py:58-82 | after the upgrade every linked row is there under its number with its name, the alias of a polled profile or "Player " and the id in decimal, and every placeholder with its own |
| MigrationResults.UpgradeIff | alembic/versions/75c172c71c39_unify_tournament_players_to_allow_.py:32-117 | the whole upgrade succeeds exactly if every member is rostered and the labels are clear |
| MigrationResults.RoundTrip | alembic/versions/75c172c71c39_unify_tournament_players_to_allow_.py:120-163 | for every such database, upgrading succeeds and downgrading again is the identity on rosters, placeholders and memberships |
| MigrationResults.UpgradeIdsUnique | alembic/versions/75c172c71c39_unify_tournament_players_to_allow_.py:46-94 | surrogate ids are collision-free after the whole upgrade |
| MigrationResults.UpgradeKeepsTeams | alembic/versions/fd4a4e26ec02_transition_team_members_reads_to_.py:37-70 | after the whole upgrade every team and its captain reads as before |
| MigrationResults.DowngradeSucceeds | alembic/versions/fd4a4e26ec02_transition_team_members_reads_to_.py:73-87 | the downgrade goes through from any later state |
| MigrationResults.DowngradeKeepsLinked | alembic/versions/fd4a4e26ec02_transition_team_members_reads_to_.py:73-79 | and keeps exactly the memberships of linked entrants |

## Left out

- Ranking.NamesOrdered: names are compared by code point, as Python does; the collation of the database, which orders the live table, is not modelled.
- StandingsHistory.GetStandingsHistory: players and teams come as maps by id instead of the final lists sorted by id; display names, team initials and the visibility gate of the roster query are not modelled.
- HistorySweep.Advance: the eight dictionaries of the sweep are grouped into two cursors of four values per entrant.
- HistoryBuckets.NoPositionLost: position vectors are compared as maps by id, not as tuples in id order.
- OptionsCodec.DecodeMatchOptions: Base64, zlib and JSON around the record layer are not modelled, and the UTF-8 decoder with replacement is a parameter known only to read ASCII as itself.
- Idempotency.Middleware.HandleRequest: the fingerprint is an abstract function of method, path and body; digits in the path are ASCII; the replay closure, response headers, the crash between the handler's commit and the key's, concurrent requests with one key and the key purge are not modelled.
- MatchTables.Tables.TickRecentMatches: the merge of the two per-player arrays and the map name happen before the model; aliases are not stored.
- RatingLog.RatingStore.TickPlayerStats: the upsert of the player rows in the same transaction is not modelled.
- StatsPayload.ParsePlayerStats: the player rows and the columns nothing here reads are not modelled.
- Management.Database.HandleUpdatePlayer: presentation bags, prize pools and stream URLs are opaque columns and left out, as are payload size limits.
- ManagementSafety.RunKeepsSound: deleting a roster row also cascades to stream rows, which are not modelled.
- Migrations.Database.UpgradeUnify: foreign keys, indexes and the captain column added between two of the revisions are not modelled as steps; the captain flag is carried along.
- WinRun.RecordOf: the query that groups rows by profile and the recent-matchup lists are not modelled.
- Schema-only migrations, HTTP clients, authentication tokens, rate limits, cache headers, logging and auditing.
- The civilization, progression, head-to-head and summary endpoints, the broadcast pollers and the leaderboard loader.
- Map-name resolution from the decoded settings.
- SQL engine internals and isolation levels: ticks and requests are atomic.
