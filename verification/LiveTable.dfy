/** The history read off the tables a run of stats ticks leaves behind: while the window is open, its
    last bucket is the live table. */
module LiveTable {
  import opened Common
  import opened RatingLog
  import opened Ranking
  import opened HistorySeries
  import opened HistorySweep
  import opened HistoryBuckets
  import opened StandingsHistory
  import opened HistoryResults
  import opened FinalOrder

  /** The rows of Observed(q) before sorting, over any log. */
  function RelevantRows(q: Query, log: seq<Snapshot>): seq<Snapshot> {
    Filter(log, (s: Snapshot) => Relevant(q, s))
  }

  lemma {:induction false} RelevantInOrder(q: Query, log: seq<Snapshot>)
    requires InOrder(log)
    ensures InOrder(RelevantRows(q, log))
  {
    if |log| > 0 {
      RelevantInOrder(q, Init(log));
      var front := RelevantRows(q, Init(log));
      OneMoreRow(q, log);
      assert Init(front + [Last(log)]) == front;
    }
  }

  lemma OneMoreRow(q: Query, log: seq<Snapshot>)
    requires |log| > 0
    ensures RelevantRows(q, log)
         == if Relevant(q, Last(log)) then RelevantRows(q, Init(log)) + [Last(log)] else RelevantRows(q, Init(log))
  {
  }

  lemma {:induction false} InOrderIsSorted(log: seq<Snapshot>)
    requires InOrder(log)
    ensures SortedBy(log, ByObservation)
  {
    if |log| > 0 {
      InOrderIsSorted(Init(log));
      forall i | 0 <= i < |log| - 1 ensures KeyLe(ByObservation(log[i]), ByObservation(Last(log))) {
        assert log[i] == Init(log)[i] && log[i] in Init(log);
      }
    }
  }

  lemma ObservedIsRelevant(q: Query)
    requires InOrder(q.log)
    ensures Observed(q) == RelevantRows(q, q.log)
  {
    RelevantInOrder(q, q.log);
    InOrderIsSorted(RelevantRows(q, q.log));
    OrderByInOrder(RelevantRows(q, q.log), ByObservation);
  }

  /** The newest observation is the pair's latest row, if that carries the ranked metric; without a row there is
      none. */
  ghost predicate NewestIsLatest(mode: Mode, own: seq<Point>, latest: Option<Snapshot>) {
    if latest.None? then own == []
    else
      var metric := ObservedMetric(mode, latest.value);
      metric.Some? ==> |own| > 0 && Last(own) == Point(latest.value.observedAt, metric.value)
  }

  /** While the window is open, a linked entrant's newest charted observation is the pair's latest row. */
  lemma {:induction false} NewestObservation(q: Query, log: seq<Snapshot>, p: int)
    requires InOrder(log) && p in TpByProfile(q.roster)
    requires forall s :: s in log ==> AtOrBefore(q.end, s.observedAt)
    ensures NewestIsLatest(q.mode, ObservationsOf(RelevantRows(q, log), p, q.mode), Latest(log, Pair(p, q.board)))
  {
    if |log| > 0 {
      SplitLast(log);
      NewestObservation(q, Init(log), p);
      OneMoreRow(q, log);
      OneMoreLatest(log, Pair(p, q.board));
      OneMoreObserved(RelevantRows(q, Init(log)), Last(log), p, q.mode);
      PairIsRelevant(q, Last(log), p);
    }
  }

  lemma PairIsRelevant(q: Query, s: Snapshot, p: int)
    requires p in TpByProfile(q.roster) && AtOrBefore(q.end, s.observedAt)
    ensures s.pair == Pair(p, q.board) && ObservedMetric(q.mode, s).Some? ==> Relevant(q, s)
    ensures Relevant(q, s) && s.pair.profile == p ==> s.pair == Pair(p, q.board)
  {
  }

  lemma OneMoreLatest(log: seq<Snapshot>, pair: Pair)
    requires InOrder(log) && |log| > 0
    ensures Latest(log, pair) == if Last(log).pair == pair then Some(Last(log)) else Latest(Init(log), pair)
  {
  }

  lemma OneMoreObserved(rows: seq<Snapshot>, s: Snapshot, p: int, mode: Mode)
    ensures ObservationsOf(rows + [s], p, mode)
         == if s.pair.profile == p
            then ObservationsOf(rows, p, mode) + [Point(s.observedAt, ObservedMetric(mode, s).GetOr(0))]
            else ObservationsOf(rows, p, mode)
  {
    assert Init(rows + [s]) == rows;
  }

  /** Splitting observations at the start keeps the newest one: as the last charted one, or as the
      carried-in value. */
  lemma NewestSurvivesSplit(points: seq<Point>, start: Option<int>)
    requires Timed(points) && |points| > 0
    ensures if start.Some? && Last(points).at <= start.value
      then AfterStart(points, start) == [] && BaseOf(points, start) == Some(Last(points).rating)
      else |AfterStart(points, start)| > 0 && Last(AfterStart(points, start)) == Last(points)
  {
  }

  lemma NoObservations(start: Option<int>)
    ensures AfterStart([], start) == [] && BaseOf([], start) == None
  {
  }

  /** The tables a query reads are the poller's: its log, and for each entrant the live row of its pair. */
  ghost predicate ReadsTables(q: Query, t: Tables) {
    && q.log == t.log
    && forall e :: e in q.roster ==>
         e.live == if e.profile.None? then None else Get(t.live, Pair(e.profile.value, q.board))
  }

  ghost predicate WindowOpen(q: Query, now: int) {
    AtOrBefore(q.end, now)
  }

  function LiveMetric(mode: Mode, live: LiveRating): int {
    if mode.PeakMode? then live.maxRating else live.currentRating
  }

  /** What a series records of a rated entrant agrees with the live row, in either mode; an entrant whose pair was
      never logged has nothing recorded. */
  lemma SeriesAgreesWithLive(q: Query, t: Tables, now: int, e: Entrant)
    requires ReadsTables(q, t) && Chronological(t, now) && WindowOpen(q, now) && e in q.roster
    requires e.profile.Some? ==> RecordedOrNew(t, Pair(e.profile.value, q.board))
    ensures e.live.Some? ==> NewestRecordedIs(SeriesOf(q, e), LiveMetric(q.mode, e.live.value))
    ensures e.profile.None? || Latest(t.log, Pair(e.profile.value, q.board)).None? ==> SeriesOf(q, e).snaps == []
  {
    if e.profile.Some? {
      var p := e.profile.value;
      var own := ObservationsOf(Observed(q), p, q.mode);
      ObservedIsRelevant(q);
      NewestObservation(q, q.log, p);
      ObservationsTimed(Observed(q), p, q.mode);
      if own == [] {
        NoObservations(q.start);
      } else {
        NewestSurvivesSplit(own, q.start);
      }
    }
  }

  // ---- the axis reaches every event ----

  lemma {:induction false} TimesHold(points: seq<Point>, x: Point)
    requires x in points
    ensures x.at in Times(points)
  {
    SplitLast(points);
    if x != Last(points) {
      TimesHold(Init(points), x);
    }
  }

  lemma {:induction false} EventTimesHold(entries: seq<Entry>, e: Entry, x: Point)
    requires e in entries && (x in e.series.points || x in e.series.snaps)
    ensures x.at in EventTimes(entries)
  {
    SplitLast(entries);
    if e == Last(entries) {
      if x in e.series.points {
        TimesHold(e.series.points, x);
      } else {
        TimesHold(e.series.snaps, x);
      }
    } else {
      EventTimesHold(Init(entries), e, x);
    }
  }

  lemma LastTimeCovers(q: Query, axis: Axis, e: Entry, x: Point)
    requires IsAxis(q.start, EventTimes(Entries(q)), Some(axis))
    requires e in Entries(q) && (x in e.series.points || x in e.series.snaps)
    ensures x.at <= Last(axis.times)
  {
    EventTimesHold(Entries(q), e, x);
    AxisCoversEvents(q.start, EventTimes(Entries(q)), axis, x.at);
  }

  // ---- the composed results ----

  /** After any run of stats ticks, while the window is open, the last bucket
      charts every rated entrant at exactly the live peak. */
  lemma LastBucketChartsLivePeaks(t: Tables, polls: seq<Poll>, since: int, q: Query, axis: Axis, h: History, i: nat)
    requires Chronological(t, since) && WellTimed(polls, since) && DistinctBatches(polls) && Accounted(t)
    requires q.mode.PeakMode? && ReadsTables(q, Run(t, polls)) && WindowOpen(q, Clock(polls, since)) && Unique(q.roster)
    requires IsAxis(q.start, EventTimes(Entries(q)), Some(axis)) && Charts(ChartOf(q), axis, h)
    requires i < |q.roster| && q.roster[i].live.Some?
    ensures var id := q.roster[i].id;
      && id in h.players && |h.players[id]| > 0
      && Last(h.players[id]).peakRating == Some(q.roster[i].live.value.maxRating)
  {
    var e := q.roster[i];
    RunAccounted(t, polls, since);
    RunChronological(t, polls, since);
    SeriesAgreesWithLive(q, Run(t, polls), Clock(polls, since), e);
    FinalMetric(q, axis, h, i);
  }

  lemma FinalMetric(q: Query, axis: Axis, h: History, i: nat)
    requires q.mode.PeakMode? && Unique(q.roster) && i < |q.roster| && q.roster[i].live.Some?
    requires IsAxis(q.start, EventTimes(Entries(q)), Some(axis)) && Charts(ChartOf(q), axis, h)
    requires NewestRecordedIs(SeriesOf(q, q.roster[i]), q.roster[i].live.value.maxRating)
    ensures var id := q.roster[i].id;
      && id in h.players && |h.players[id]| > 0
      && Last(h.players[id]).peakRating == Some(q.roster[i].live.value.maxRating)
  {
    EntriesAreTimed(q);
    LastPointIsMetric(ChartOf(q), axis, h, i);
    EndMetric(q, axis, i);
  }

  lemma EndMetric(q: Query, axis: Axis, i: nat)
    requires i < |q.roster| && q.roster[i].live.Some?
    requires IsAxis(q.start, EventTimes(Entries(q)), Some(axis))
    requires NewestRecordedIs(SeriesOf(q, q.roster[i]), q.roster[i].live.value.maxRating)
    ensures MetricAt(PeakMode, SeriesOf(q, q.roster[i]), Last(axis.times)) == Some(q.roster[i].live.value.maxRating)
  {
    var s := SeriesOf(q, q.roster[i]);
    assert Entries(q)[i] in Entries(q);
    forall x | x in s.points || x in s.snaps ensures x.at <= Last(axis.times) {
      LastTimeCovers(q, axis, Entries(q)[i], x);
    }
    FinalPeakIsLive(s, Last(axis.times));
  }

  /** The log side of the tie-break: a rated entrant's last charted game, if any, left the live current
      rating, and nobody unrated has a charted game. */
  ghost predicate LogEndsLive(q: Query, e: Entrant) {
    var s := SeriesOf(q, e);
    |s.points| > 0 ==> e.live.Some? && Last(s.points).rating == e.live.value.currentRating
  }

  /** After any run of stats ticks, while the window is open and the log agrees
      with the live current ratings, the last bucket ranks the roster exactly as the live table. */
  lemma LastBucketIsLiveTable(t: Tables, polls: seq<Poll>, since: int, q: Query, axis: Axis, h: History,
                              table: seq<Standing>, i: nat)
    requires Chronological(t, since) && WellTimed(polls, since) && DistinctBatches(polls) && Accounted(t)
    requires q.mode.PeakMode? && ReadsTables(q, Run(t, polls)) && WindowOpen(q, Clock(polls, since)) && Unique(q.roster)
    requires IsAxis(q.start, EventTimes(Entries(q)), Some(axis)) && Charts(ChartOf(q), axis, h)
    requires forall e :: e in q.roster ==> LogEndsLive(q, e)
    requires LiveOrder(table) && DistinctNames(table)
    requires forall x :: x in table <==> x in LiveStandings(Entries(q))
    requires i < |table|
    ensures |h.buckets| > 0 && Get(Last(h.buckets).PlayerPositions(), table[i].id) == Some(i + 1)
  {
    FieldEndsLive(t, polls, since, q);
    LastBucketRanksLive(q, axis, h, table, i);
  }

  lemma LastBucketRanksLive(q: Query, axis: Axis, h: History, table: seq<Standing>, i: nat)
    requires q.mode.PeakMode? && Unique(q.roster) && (forall e :: e in Entries(q) ==> EndsLive(e.series))
    requires IsAxis(q.start, EventTimes(Entries(q)), Some(axis)) && Charts(ChartOf(q), axis, h)
    requires LiveOrder(table) && DistinctNames(table)
    requires forall x :: x in table <==> x in LiveStandings(Entries(q))
    requires i < |table|
    ensures |h.buckets| > 0 && Get(Last(h.buckets).PlayerPositions(), table[i].id) == Some(i + 1)
  {
    LastBucket(ChartOf(q), axis, h);
    forall e, x | e in Entries(q) && (x in e.series.points || x in e.series.snaps) ensures x.at <= Last(axis.times) {
      LastTimeCovers(q, axis, e, x);
    }
    EntriesAreTimed(q);
    FinalOrderIsLive(ChartOf(q), Last(axis.times), table, i);
  }

  lemma FieldEndsLive(t: Tables, polls: seq<Poll>, since: int, q: Query)
    requires Chronological(t, since) && WellTimed(polls, since) && DistinctBatches(polls) && Accounted(t)
    requires q.mode.PeakMode? && ReadsTables(q, Run(t, polls)) && WindowOpen(q, Clock(polls, since))
    requires forall e :: e in q.roster ==> LogEndsLive(q, e)
    ensures forall e :: e in Entries(q) ==> EndsLive(e.series)
  {
    forall e | e in Entries(q) ensures EndsLive(e.series) {
      var k :| 0 <= k < |q.roster| && Entries(q)[k] == e;
      RosterEndsLive(t, polls, since, q, q.roster[k]);
    }
  }

  lemma RosterEndsLive(t: Tables, polls: seq<Poll>, since: int, q: Query, e: Entrant)
    requires Chronological(t, since) && WellTimed(polls, since) && DistinctBatches(polls) && Accounted(t)
    requires q.mode.PeakMode? && ReadsTables(q, Run(t, polls)) && WindowOpen(q, Clock(polls, since))
    requires e in q.roster && LogEndsLive(q, e)
    ensures EndsLive(SeriesOf(q, e))
  {
    RunAccounted(t, polls, since);
    RunChronological(t, polls, since);
    SeriesAgreesWithLive(q, Run(t, polls), Clock(polls, since), e);
  }

  // ---- exactly when ----

  lemma RosterRecorded(t: Tables, polls: seq<Poll>, since: int, q: Query)
    requires Chronological(t, since) && WellTimed(polls, since) && DistinctBatches(polls) && Accounted(t)
    requires q.mode.PeakMode? && ReadsTables(q, Run(t, polls)) && WindowOpen(q, Clock(polls, since))
    ensures forall e :: e in Entries(q) ==> PeakRecorded(e.series)
  {
    RunAccounted(t, polls, since);
    RunChronological(t, polls, since);
    forall e | e in Entries(q) ensures PeakRecorded(e.series) {
      var k :| 0 <= k < |q.roster| && Entries(q)[k] == e;
      SeriesAgreesWithLive(q, Run(t, polls), Clock(polls, since), q.roster[k]);
    }
  }

  /** After any run of stats ticks, while the window is open, the last bucket has every row of the live table in
      its place exactly if every pair of entrants stands the same by live ratings and by what the log leaves. */
  lemma LastBucketIsLiveTableIff(t: Tables, polls: seq<Poll>, since: int, q: Query, axis: Axis, h: History,
                                 table: seq<Standing>)
    requires Chronological(t, since) && WellTimed(polls, since) && DistinctBatches(polls) && Accounted(t)
    requires q.mode.PeakMode? && ReadsTables(q, Run(t, polls)) && WindowOpen(q, Clock(polls, since)) && Unique(q.roster)
    requires IsAxis(q.start, EventTimes(Entries(q)), Some(axis)) && Charts(ChartOf(q), axis, h)
    requires LiveOrder(table) && DistinctNames(table)
    requires forall x :: x in table <==> x in LiveStandings(Entries(q))
    ensures |h.buckets| > 0 && Last(h.buckets).players == FinalStandings(Entries(q))
    ensures PositionsAre(Last(h.buckets).players, table)
      <==> Agrees(FinalStandings(Entries(q)), LiveStandings(Entries(q)))
  {
    RosterRecorded(t, polls, since, q);
    LastBucketOrderIff(q, axis, h, table);
  }

  /** While every record agrees with its live row, the last bucket ranks the entries by their final standings. */
  lemma LastBucketIsFinal(q: Query, axis: Axis, h: History)
    requires q.mode.PeakMode? && Unique(q.roster) && (forall e :: e in Entries(q) ==> PeakRecorded(e.series))
    requires IsAxis(q.start, EventTimes(Entries(q)), Some(axis)) && Charts(ChartOf(q), axis, h)
    ensures |h.buckets| > 0 && Last(h.buckets).players == FinalStandings(Entries(q))
  {
    LastBucket(ChartOf(q), axis, h);
    forall e, x | e in Entries(q) && (x in e.series.points || x in e.series.snaps) ensures x.at <= Last(axis.times) {
      LastTimeCovers(q, axis, e, x);
    }
    FinalRows(ChartOf(q), Last(axis.times));
  }

  lemma LastBucketOrderIff(q: Query, axis: Axis, h: History, table: seq<Standing>)
    requires q.mode.PeakMode? && Unique(q.roster) && (forall e :: e in Entries(q) ==> PeakRecorded(e.series))
    requires IsAxis(q.start, EventTimes(Entries(q)), Some(axis)) && Charts(ChartOf(q), axis, h)
    requires LiveOrder(table) && DistinctNames(table)
    requires forall x :: x in table <==> x in LiveStandings(Entries(q))
    ensures |h.buckets| > 0 && Last(h.buckets).players == FinalStandings(Entries(q))
    ensures PositionsAre(Last(h.buckets).players, table)
      <==> Agrees(FinalStandings(Entries(q)), LiveStandings(Entries(q)))
  {
    LastBucketIsFinal(q, axis, h);
    EntriesAreTimed(q);
    TableOrderIff(FinalStandings(Entries(q)), LiveStandings(Entries(q)), table);
  }

  // ---- current mode ----

  lemma {:induction false} NoGamesNoEntry(rows: seq<Game>, p: int)
    requires PointsOf(rows, p) == []
    ensures EntryRating(rows, p) == None
  {
    if |rows| > 0 {
      NoGamesNoEntry(Init(rows), p);
    }
  }

  /** After any run of stats ticks, while the window is open, a rated entrant's last point in current mode is the
      live current rating exactly if no charted game is newer than its observations and left another rating. */
  lemma LastCurrentIsLiveIff(t: Tables, polls: seq<Poll>, since: int, q: Query, axis: Axis, h: History, i: nat)
    requires Chronological(t, since) && WellTimed(polls, since) && DistinctBatches(polls) && Accounted(t)
    requires q.mode.CurrentMode? && ReadsTables(q, Run(t, polls)) && WindowOpen(q, Clock(polls, since))
    requires Unique(q.roster) && i < |q.roster| && q.roster[i].live.Some?
    requires IsAxis(q.start, EventTimes(Entries(q)), Some(axis)) && Charts(ChartOf(q), axis, h)
    ensures var id, s, live := q.roster[i].id, SeriesOf(q, q.roster[i]), q.roster[i].live.value.currentRating;
      && id in h.players && |h.players[id]| > 0
      && (Last(h.players[id]).currentRating == Some(live) <==>
           (|| s.points == [] || Last(s.points).rating == live
            || (|s.snaps| > 0 && Last(s.points).at < Last(s.snaps).at)))
  {
    var e := q.roster[i];
    RunAccounted(t, polls, since);
    RunChronological(t, polls, since);
    SeriesAgreesWithLive(q, Run(t, polls), Clock(polls, since), e);
    EntriesAreTimed(q);
    LastPointIsMetric(ChartOf(q), axis, h, i);
    EndCurrent(q, axis, i);
  }

  lemma EndCurrent(q: Query, axis: Axis, i: nat)
    requires i < |q.roster| && q.roster[i].live.Some?
    requires IsAxis(q.start, EventTimes(Entries(q)), Some(axis))
    requires NewestRecordedIs(SeriesOf(q, q.roster[i]), q.roster[i].live.value.currentRating)
    ensures var s, live := SeriesOf(q, q.roster[i]), q.roster[i].live.value.currentRating;
      MetricAt(CurrentMode, s, Last(axis.times)) == Some(live) <==>
        (|| s.points == [] || Last(s.points).rating == live
         || (|s.snaps| > 0 && Last(s.points).at < Last(s.snaps).at))
  {
    var e := q.roster[i];
    var s := SeriesOf(q, e);
    assert Entries(q)[i] in Entries(q);
    forall x | x in s.points || x in s.snaps ensures x.at <= Last(axis.times) {
      LastTimeCovers(q, axis, Entries(q)[i], x);
    }
    if s.points == [] {
      NoPointsNoEntry(q, e);
    }
    FinalCurrentIsLiveIff(s, Last(axis.times));
  }

  lemma RosterCurrentRecorded(t: Tables, polls: seq<Poll>, since: int, q: Query)
    requires Chronological(t, since) && WellTimed(polls, since) && DistinctBatches(polls) && Accounted(t)
    requires q.mode.CurrentMode? && ReadsTables(q, Run(t, polls)) && WindowOpen(q, Clock(polls, since))
    ensures forall e :: e in Entries(q) ==> CurrentRecorded(e.series)
  {
    RunAccounted(t, polls, since);
    RunChronological(t, polls, since);
    forall e | e in Entries(q) ensures CurrentRecorded(e.series) {
      var k :| 0 <= k < |q.roster| && Entries(q)[k] == e;
      EntrantCurrentRecorded(q, Run(t, polls), Clock(polls, since), q.roster[k]);
    }
  }

  lemma EntrantCurrentRecorded(q: Query, t: Tables, now: int, e: Entrant)
    requires ReadsTables(q, t) && Chronological(t, now) && Accounted(t) && WindowOpen(q, now) && e in q.roster
    requires q.mode.CurrentMode?
    ensures CurrentRecorded(SeriesOf(q, e))
  {
    SeriesAgreesWithLive(q, t, now, e);
    if SeriesOf(q, e).points == [] {
      NoPointsNoEntry(q, e);
    }
  }

  lemma NoPointsNoEntry(q: Query, e: Entrant)
    requires SeriesOf(q, e).points == []
    ensures SeriesOf(q, e).entryOld == None
  {
    if e.profile.Some? {
      NoGamesNoEntry(WindowGames(q), e.profile.value);
    }
  }

  lemma LastBucketIsFinalCurrent(q: Query, axis: Axis, h: History)
    requires q.mode.CurrentMode? && Unique(q.roster) && (forall e :: e in Entries(q) ==> CurrentRecorded(e.series))
    requires IsAxis(q.start, EventTimes(Entries(q)), Some(axis)) && Charts(ChartOf(q), axis, h)
    ensures |h.buckets| > 0 && Last(h.buckets).players == FinalCurrentStandings(Entries(q))
  {
    LastBucket(ChartOf(q), axis, h);
    forall e, x | e in Entries(q) && (x in e.series.points || x in e.series.snaps) ensures x.at <= Last(axis.times) {
      LastTimeCovers(q, axis, e, x);
    }
    FinalCurrentRows(ChartOf(q), Last(axis.times));
  }

  /** After any run of stats ticks, while the window is open, the last bucket in current mode has every row of the
      live table in its place exactly if every pair of entrants stands the same by live current ratings and with
      the last charted game's rating for whoever has none newer. */
  lemma LastBucketIsLiveCurrentIff(t: Tables, polls: seq<Poll>, since: int, q: Query, axis: Axis, h: History,
                                   table: seq<Standing>)
    requires Chronological(t, since) && WellTimed(polls, since) && DistinctBatches(polls) && Accounted(t)
    requires q.mode.CurrentMode? && ReadsTables(q, Run(t, polls)) && WindowOpen(q, Clock(polls, since))
    requires Unique(q.roster)
    requires IsAxis(q.start, EventTimes(Entries(q)), Some(axis)) && Charts(ChartOf(q), axis, h)
    requires LiveOrder(table) && DistinctNames(table)
    requires forall x :: x in table <==> x in LiveCurrentStandings(Entries(q))
    ensures |h.buckets| > 0 && Last(h.buckets).players == FinalCurrentStandings(Entries(q))
    ensures PositionsAre(Last(h.buckets).players, table)
      <==> KeepsPairs(FinalCurrentStandings(Entries(q)), LiveCurrentStandings(Entries(q)))
  {
    RosterCurrentRecorded(t, polls, since, q);
    LastBucketIsFinalCurrent(q, axis, h);
    EntriesAreTimed(q);
    CurrentOrderIff(Entries(q), table);
  }
}
