/** The table frozen at the end of the window against the last bucket of the peak chart. */
module FrozenTable {
  import opened Common
  import opened RatingLog
  import opened Ranking
  import opened HistorySeries
  import opened HistorySweep
  import opened HistoryBuckets
  import opened StandingsHistory
  import opened HistoryResults
  import opened LiveTable
  import opened WindowEnd
  import opened Freeze
  import M = MatchIngest

  // ---- both read the same tables ----

  /** A player row joined to its match. */
  predicate IsRow(db: M.Db, g: Game) {
    && (g.matchId, g.profile) in db.players && g.matchId in db.matches
    && var m, played := db.matches[g.matchId], db.players[(g.matchId, g.profile)];
      g == Game(g.matchId, g.profile, m.board, m.startedAt, m.completedAt, played.oldRating, played.newRating)
  }

  ghost predicate ReadsWorld(q: Query, w: World) {
    && ReadsTables(q, w.ratings)
    && forall g :: g in q.games <==> IsRow(w.db, g)
  }

  // ---- what the chart holds ----

  lemma {:induction false} ObservationsHold(rows: seq<Snapshot>, mode: Mode, s: Snapshot)
    requires s in rows
    ensures Point(s.observedAt, ObservedMetric(mode, s).GetOr(0)) in ObservationsOf(rows, s.pair.profile, mode)
  {
    SplitLast(rows);
    if s != Last(rows) {
      ObservationsHold(Init(rows), mode, s);
    }
  }

  lemma {:induction false} ObservationFrom(rows: seq<Snapshot>, p: int, mode: Mode, x: Point) returns (s: Snapshot)
    requires x in ObservationsOf(rows, p, mode)
    ensures s in rows && s.pair.profile == p && x == Point(s.observedAt, ObservedMetric(mode, s).GetOr(0))
  {
    SplitLast(rows);
    if x in ObservationsOf(Init(rows), p, mode) {
      s := ObservationFrom(Init(rows), p, mode, x);
    } else {
      s := Last(rows);
    }
  }

  lemma {:induction false} PointFrom(rows: seq<Game>, p: int, x: Point) returns (g: Game)
    requires x in PointsOf(rows, p)
    ensures g in rows && g.profile == p && x == Point(g.completedAt.GetOr(0), g.newRating.GetOr(0))
  {
    SplitLast(rows);
    if x in PointsOf(Init(rows), p) {
      g := PointFrom(Init(rows), p, x);
    } else {
      g := Last(rows);
    }
  }

  lemma {:induction false} AfterStartHolds(points: seq<Point>, start: Option<int>, x: Point)
    requires x in points && !(start.Some? && x.at <= start.value)
    ensures x in AfterStart(points, start)
  {
    SplitLast(points);
    if x != Last(points) {
      AfterStartHolds(Init(points), start, x);
    }
  }

  lemma {:induction false} BaseFrom(points: seq<Point>, start: Option<int>) returns (x: Point)
    requires BaseOf(points, start).Some?
    ensures x in points && BaseOf(points, start) == Some(x.rating)
  {
    SplitLast(points);
    if Last(points).at <= start.value {
      x := Last(points);
    } else {
      x := BaseFrom(Init(points), start);
    }
  }

  /** An observation in the window, or a completed game of it, is charted. */
  lemma ObservationCharted(q: Query, e: Entrant, p: int, s: Snapshot)
    requires q.mode.PeakMode? && e in q.roster && e.profile == Some(p)
    requires s in q.log && s.pair == Pair(p, q.board) && AtOrBefore(q.end, s.observedAt)
    requires q.start.None? || q.start.value < s.observedAt
    ensures AtMost(Some(s.maxRating), Charted(SeriesOf(q, e)))
  {
    var x := Point(s.observedAt, s.maxRating);
    ObservationsHold(Observed(q), q.mode, s);
    AfterStartHolds(ObservationsOf(Observed(q), p, q.mode), q.start, x);
    MaxRatingIs(SeriesOf(q, e).snaps);
  }

  lemma GameCharted(q: Query, e: Entrant, p: int, g: Game)
    requires e in q.roster && e.profile == Some(p)
    requires g in q.games && Rated(q, g) && StartedInWindow(q, g) && g.profile == p
    ensures AtMost(g.newRating, Charted(SeriesOf(q, e)))
  {
    PointsHold(WindowGames(q), g);
    MaxRatingIs(SeriesOf(q, e).points);
  }

  // ---- what the freeze reads and the chart does not ----

  /** Recorded before the window opened. */
  predicate EarlyObservation(q: Query, p: int, end: int, s: Snapshot) {
    && s.pair == Pair(p, q.board) && s.observedAt <= end
    && q.start.Some? && s.observedAt <= q.start.value
  }

  /** Started by the end, but before the window opened or not completed. */
  predicate UnchartedGame(q: Query, p: int, end: int, g: Game) {
    && g.profile == p && g.board == Some(q.board) && g.startedAt <= end && g.newRating.Some?
    && (g.completedAt.None? || !AtOrAfter(q.start, g.startedAt))
  }

  /** One of these is above the value. */
  ghost predicate UnchartedAbove(q: Query, p: int, end: int, c: Option<int>) {
    || (exists s :: s in q.log && EarlyObservation(q, p, end, s) && Above(Some(s.maxRating), c))
    || (exists g :: g in q.games && UnchartedGame(q, p, end, g) && Above(g.newRating, c))
  }

  lemma RowOfGame(q: Query, w: World, p: int, end: int, id: int) returns (g: Game)
    requires ReadsWorld(q, w) && id in Games(w.db, p, q.board, end)
    ensures g in q.games && g.profile == p && g.board == Some(q.board) && g.startedAt <= end
    ensures g.newRating == Some(Games(w.db, p, q.board, end)[id].1)
  {
    GameAt(w.db, p, q.board, end, id);
    var m, played := w.db.matches[id], w.db.players[(id, p)];
    g := Game(id, p, m.board, m.startedAt, m.completedAt, played.oldRating, played.newRating);
    assert IsRow(w.db, g);
  }

  lemma GameOfRow(q: Query, w: World, p: int, end: int, g: Game)
    requires ReadsWorld(q, w) && g in q.games && g.profile == p && g.board == Some(q.board)
    requires g.startedAt <= end && g.newRating.Some?
    ensures AtMost(g.newRating, InFlight(Games(w.db, p, q.board, end)))
  {
    GameAt(w.db, p, q.board, end, g.matchId);
    HighestIs(Games(w.db, p, q.board, end), Games(w.db, p, q.board, end).Keys);
  }

  /** A raw peak above everything charted comes from what is not charted. */
  lemma RawAbove(q: Query, w: World, e: Entrant, p: int, end: int, c: Option<int>)
    requires ReadsWorld(q, w) && q.mode.PeakMode? && e in q.roster && e.profile == Some(p) && q.end == Some(end)
    requires AtMost(Charted(SeriesOf(q, e)), c) && Above(RawPeak(w, p, q.board, end), c)
    ensures UnchartedAbove(q, p, end, c)
  {
    var log, games := w.ratings.log, Games(w.db, p, q.board, end);
    if Above(PeakAsOf(log, Pair(p, q.board), end), c) {
      var top := PeakAsOf(log, Pair(p, q.board), end).value;
      var s :| s in log && s.pair == Pair(p, q.board) && s.observedAt <= end && s.maxRating == top;
      if !EarlyObservation(q, p, end, s) {
        ObservationCharted(q, e, p, s);
      }
    } else {
      HighestIs(games, games.Keys);
      var id :| id in games.Keys && games[id].1 == InFlight(games).value;
      var g := RowOfGame(q, w, p, end, id);
      if !UnchartedGame(q, p, end, g) {
        GameCharted(q, e, p, g);
      }
    }
  }

  lemma UnchartedRaises(q: Query, w: World, p: int, end: int, c: Option<int>)
    requires ReadsWorld(q, w) && UnchartedAbove(q, p, end, c)
    ensures Above(RawPeak(w, p, q.board, end), c)
  {
    if s :| s in q.log && EarlyObservation(q, p, end, s) && Above(Some(s.maxRating), c) {
    } else {
      var g :| g in q.games && UnchartedGame(q, p, end, g) && Above(g.newRating, c);
      GameOfRow(q, w, p, end, g);
    }
  }

  // ---- which of the two ends higher ----

  lemma ObservedAtMostRaw(q: Query, w: World, p: int, end: int, x: Point)
    requires ReadsWorld(q, w) && q.mode.PeakMode? && q.end == Some(end)
    requires x in ObservationsOf(Observed(q), p, q.mode)
    ensures AtMost(Some(x.rating), PeakAsOf(w.ratings.log, Pair(p, q.board), end))
  {
    var s := ObservationFrom(Observed(q), p, q.mode, x);
  }

  lemma SnapsAtMostRaw(q: Query, w: World, e: Entrant, p: int, end: int)
    requires ReadsWorld(q, w) && q.mode.PeakMode? && e in q.roster && e.profile == Some(p) && q.end == Some(end)
    ensures AtMost(MaxRating(SeriesOf(q, e).snaps), PeakAsOf(w.ratings.log, Pair(p, q.board), end))
  {
    var seen, snaps := ObservationsOf(Observed(q), p, q.mode), SeriesOf(q, e).snaps;
    MaxRatingIs(snaps);
    if MaxRating(snaps).Some? {
      var x :| x in snaps && x.rating == MaxRating(snaps).value;
      ObservationsTimed(Observed(q), p, q.mode);
      AfterStartTimed(seen, q.start);
      ObservedAtMostRaw(q, w, p, end, x);
    }
  }

  lemma PointsAtMostRaw(q: Query, w: World, e: Entrant, p: int, end: int)
    requires ReadsWorld(q, w) && e in q.roster && e.profile == Some(p) && q.end == Some(end)
    ensures AtMost(MaxRating(SeriesOf(q, e).points), InFlight(Games(w.db, p, q.board, end)))
  {
    var points := SeriesOf(q, e).points;
    MaxRatingIs(points);
    if MaxRating(points).Some? {
      var x :| x in points && x.rating == MaxRating(points).value;
      var g := PointFrom(WindowGames(q), p, x);
      GameOfRow(q, w, p, end, g);
    }
  }

  /** Everything charted is also read by the freeze. */
  lemma ChartedAtMostRaw(q: Query, w: World, e: Entrant, p: int, end: int)
    requires ReadsWorld(q, w) && q.mode.PeakMode? && e in q.roster && e.profile == Some(p) && q.end == Some(end)
    ensures AtMost(Charted(SeriesOf(q, e)), RawPeak(w, p, q.board, end))
  {
    SnapsAtMostRaw(q, w, e, p, end);
    PointsAtMostRaw(q, w, e, p, end);
  }

  /** The chart has an observation, in the window or carried in, exactly if one was recorded by the end. */
  lemma RecordedIffSeen(q: Query, w: World, e: Entrant, p: int, end: int)
    requires ReadsWorld(q, w) && q.mode.PeakMode? && e in q.roster && e.profile == Some(p) && q.end == Some(end)
    ensures PeakAsOf(w.ratings.log, Pair(p, q.board), end).None?
      <==> SeriesOf(q, e).snaps == [] && SeriesOf(q, e).snapBase.None?
  {
    var log, seen := w.ratings.log, ObservationsOf(Observed(q), p, q.mode);
    if seen != [] {
      ObservedAtMostRaw(q, w, p, end, seen[0]);
      ObservationsTimed(Observed(q), p, q.mode);
      NewestSurvivesSplit(seen, q.start);
    } else {
      NoObservations(q.start);
      if PeakAsOf(log, Pair(p, q.board), end).Some? {
        var s :| s in log && s.pair == Pair(p, q.board) && s.observedAt <= end;
        ObservationsHold(Observed(q), q.mode, s);
      }
    }
  }

  lemma SeenAtMostRaw(q: Query, w: World, e: Entrant, p: int, end: int)
    requires ReadsWorld(q, w) && q.mode.PeakMode? && e in q.roster && e.profile == Some(p) && q.end == Some(end)
    ensures AtMost(FirstSeen(SeriesOf(q, e)), RawPeak(w, p, q.board, end))
  {
    var s := SeriesOf(q, e);
    if s.snapBase.Some? {
      var x := BaseFrom(ObservationsOf(Observed(q), p, q.mode), q.start);
      ObservedAtMostRaw(q, w, p, end, x);
    } else if |s.snaps| > 0 {
      MaxRatingIs(s.snaps);
      assert s.snaps[0] in s.snaps;
      SnapsAtMostRaw(q, w, e, p, end);
    }
  }

  lemma BaselineAbove(s: Series, raw: int)
    requires s.live.Some? && raw < s.live.value.maxRating
    requires AtMost(Charted(s), Some(raw)) && AtMost(FirstSeen(s), Some(raw))
    ensures Above(Baseline(PeakMode, s), Some(raw))
      <==> ((s.snaps == [] && s.snapBase.None?) || Above(s.entryOld, Some(raw)))
  {
  }

  /** The baseline is above a raw peak below the live one exactly if nothing was recorded or the rating held
      entering the window was higher. */
  lemma BaselineAboveRaw(q: Query, w: World, e: Entrant, p: int, end: int)
    requires ReadsWorld(q, w) && q.mode.PeakMode? && e in q.roster && e.profile == Some(p) && q.end == Some(end)
    requires RawPeak(w, p, q.board, end).Some? && e.live.Some?
    requires RawPeak(w, p, q.board, end).value < e.live.value.maxRating
    ensures var raw := RawPeak(w, p, q.board, end);
      Above(Baseline(PeakMode, SeriesOf(q, e)), raw)
      <==> (PeakAsOf(w.ratings.log, Pair(p, q.board), end).None? || Above(SeriesOf(q, e).entryOld, raw))
  {
    ChartedAtMostRaw(q, w, e, p, end);
    SeenAtMostRaw(q, w, e, p, end);
    RecordedIffSeen(q, w, e, p, end);
    BaselineAbove(SeriesOf(q, e), RawPeak(w, p, q.board, end).value);
  }

  /** With nothing recorded or settled by the end, chart and freeze both show the live peak. */
  lemma NothingRaw(q: Query, w: World, e: Entrant, p: int, end: int)
    requires ReadsWorld(q, w) && q.mode.PeakMode? && e in q.roster && e.profile == Some(p) && q.end == Some(end)
    requires RawPeak(w, p, q.board, end).None?
    ensures Charted(SeriesOf(q, e)).None? && Baseline(PeakMode, SeriesOf(q, e)) == e.MaxRating()
  {
    ChartedAtMostRaw(q, w, e, p, end);
    RecordedIffSeen(q, w, e, p, end);
    MaxRatingIs(SeriesOf(q, e).points);
    NoGamesNoEntry(WindowGames(q), p);
  }

  /** Both values, from the raw peak, the live one, the baseline and what was charted. */
  lemma Compared(raw: Option<int>, live: Option<LiveRating>, base: Option<int>, charted: Option<int>, max: Option<int>)
    requires max == (if live.None? then None else Some(live.value.maxRating))
    requires AtMost(charted, raw) && (raw.None? ==> charted.None? && base == max) && (live.None? ==> base.None?)
    ensures var c, frozen := Clamp(MaxOpt(base, charted), live), Settle(raw, max);
      && (Above(frozen, c) <==> (live.None? || Above(max, c)) && Above(raw, c))
      && (Above(c, frozen) <==> raw.Some? && Above(max, raw) && Above(base, raw))
      && (live.None? || Above(max, c) ==> AtMost(charted, c))
  {
  }

  /** The last metric and the frozen peak in terms of the raw peak and the baseline. */
  lemma EndsCompared(q: Query, w: World, e: Entrant, p: int, end: int, t: int)
    requires ReadsWorld(q, w) && q.mode.PeakMode? && e in q.roster && e.profile == Some(p) && q.end == Some(end)
    requires forall x :: x in SeriesOf(q, e).points || x in SeriesOf(q, e).snaps ==> x.at <= t
    ensures var c, raw, max := MetricAt(PeakMode, SeriesOf(q, e), t), RawPeak(w, p, q.board, end), e.MaxRating();
      && (Above(FrozenPeak(w, p, q.board, end), c) <==> (e.live.None? || Above(max, c)) && Above(raw, c))
      && (Above(c, FrozenPeak(w, p, q.board, end)) <==>
            raw.Some? && Above(max, raw) && Above(Baseline(PeakMode, SeriesOf(q, e)), raw))
      && (e.live.None? || Above(max, c) ==> AtMost(Charted(SeriesOf(q, e)), c))
  {
    var s, raw := SeriesOf(q, e), RawPeak(w, p, q.board, end);
    EndIs(s, t);
    ChartedAtMostRaw(q, w, e, p, end);
    if raw.None? {
      NothingRaw(q, w, e, p, end);
    }
    Compared(raw, e.live, Baseline(PeakMode, s), Charted(s), e.MaxRating());
  }

  /** The frozen peak ends above the chart exactly if the live peak does not cut it down to the chart, and a
      rating the chart leaves out is higher: one recorded before the window, or of a game that started before it
      or was never completed. A game in flight at the end is charted, so it is never the reason. */
  lemma FrozenAboveIff(q: Query, w: World, e: Entrant, p: int, end: int, t: int)
    requires ReadsWorld(q, w) && q.mode.PeakMode? && e in q.roster && e.profile == Some(p) && q.end == Some(end)
    requires forall x :: x in SeriesOf(q, e).points || x in SeriesOf(q, e).snaps ==> x.at <= t
    ensures var c := MetricAt(PeakMode, SeriesOf(q, e), t);
      Above(FrozenPeak(w, p, q.board, end), c)
      <==> (e.live.None? || Above(e.MaxRating(), c)) && UnchartedAbove(q, p, end, c)
  {
    var c := MetricAt(PeakMode, SeriesOf(q, e), t);
    EndsCompared(q, w, e, p, end, t);
    if Above(FrozenPeak(w, p, q.board, end), c) {
      RawAbove(q, w, e, p, end, c);
    } else if UnchartedAbove(q, p, end, c) {
      UnchartedRaises(q, w, p, end, c);
    }
  }

  /** It ends below the chart exactly if the freeze has a value of its own, below the live peak, and nothing was
      recorded by the end or the rating held entering the window was higher. */
  lemma FrozenBelowIff(q: Query, w: World, e: Entrant, p: int, end: int, t: int)
    requires ReadsWorld(q, w) && q.mode.PeakMode? && e in q.roster && e.profile == Some(p) && q.end == Some(end)
    requires forall x :: x in SeriesOf(q, e).points || x in SeriesOf(q, e).snaps ==> x.at <= t
    ensures var raw := RawPeak(w, p, q.board, end);
      Above(MetricAt(PeakMode, SeriesOf(q, e), t), FrozenPeak(w, p, q.board, end))
      <==> (&& raw.Some? && Above(e.MaxRating(), raw)
            && (PeakAsOf(w.ratings.log, Pair(p, q.board), end).None? || Above(SeriesOf(q, e).entryOld, raw)))
  {
    var raw := RawPeak(w, p, q.board, end);
    EndsCompared(q, w, e, p, end, t);
    if raw.Some? && Above(e.MaxRating(), raw) {
      BaselineAboveRaw(q, w, e, p, end);
    }
  }

  lemma LastPeakIs(q: Query, axis: Axis, h: History, i: nat)
    requires q.mode.PeakMode? && Unique(q.roster) && i < |q.roster|
    requires IsAxis(q.start, EventTimes(Entries(q)), Some(axis)) && Charts(ChartOf(q), axis, h)
    ensures var id := q.roster[i].id;
      && id in h.players && |h.players[id]| > 0
      && Last(h.players[id]).peakRating == MetricAt(PeakMode, SeriesOf(q, q.roster[i]), Last(axis.times))
    ensures forall x :: x in SeriesOf(q, q.roster[i]).points || x in SeriesOf(q, q.roster[i]).snaps ==>
      x.at <= Last(axis.times)
  {
    EntriesAreTimed(q);
    LastPointIsMetric(ChartOf(q), axis, h, i);
    var s := SeriesOf(q, q.roster[i]);
    assert Entries(q)[i] in Entries(q);
    forall x | x in s.points || x in s.snaps ensures x.at <= Last(axis.times) {
      LastTimeCovers(q, axis, Entries(q)[i], x);
    }
  }

  /** The last point of a linked entrant's line against the frozen table, both ways. */
  lemma FrozenAgainstLastBucket(q: Query, w: World, axis: Axis, h: History, i: nat, p: int, end: int)
    requires ReadsWorld(q, w) && q.mode.PeakMode? && Unique(q.roster) && q.end == Some(end)
    requires i < |q.roster| && q.roster[i].profile == Some(p)
    requires IsAxis(q.start, EventTimes(Entries(q)), Some(axis)) && Charts(ChartOf(q), axis, h)
    ensures q.roster[i].id in h.players && |h.players[q.roster[i].id]| > 0
    ensures var e, c := q.roster[i], Last(h.players[q.roster[i].id]).peakRating;
      var raw, frozen := RawPeak(w, p, q.board, end), FrozenPeak(w, p, q.board, end);
      && (Above(frozen, c) <==> (e.live.None? || Above(e.MaxRating(), c)) && UnchartedAbove(q, p, end, c))
      && (Above(c, frozen) <==>
            (&& raw.Some? && Above(e.MaxRating(), raw)
             && (PeakAsOf(w.ratings.log, Pair(p, q.board), end).None? || Above(SeriesOf(q, e).entryOld, raw))))
  {
    LastPeakIs(q, axis, h, i);
    FrozenAboveIff(q, w, q.roster[i], p, end, Last(axis.times));
    FrozenBelowIff(q, w, q.roster[i], p, end, Last(axis.times));
  }

  // ---- current ratings ----

  lemma {:induction false} CurrentRowsInOrder(log: seq<Snapshot>, end: int)
    requires InOrder(log)
    ensures InOrder(CurrentRows(log, end))
  {
    if |log| > 0 {
      CurrentRowsInOrder(Init(log), end);
      var front := CurrentRows(Init(log), end);
      OneMoreCurrent(log, end);
      assert Init(front + [Last(log)]) == front;
    }
  }

  lemma OneMoreCurrent(log: seq<Snapshot>, end: int)
    requires |log| > 0
    ensures CurrentRows(log, end)
      == if Last(log).observedAt <= end && Last(log).currentRating.Some? then CurrentRows(Init(log), end) + [Last(log)]
         else CurrentRows(Init(log), end)
  {
  }

  /** The chart of current ratings looks at no other rows. */
  lemma {:induction false} RelevantCurrent(q: Query, log: seq<Snapshot>, end: int)
    requires q.mode.CurrentMode? && q.end == Some(end)
    ensures RelevantRows(q, CurrentRows(log, end)) == RelevantRows(q, log)
  {
    if |log| > 0 {
      RelevantCurrent(q, Init(log), end);
      OneMoreCurrent(log, end);
      OneMoreRow(q, log);
      var rows := CurrentRows(Init(log), end) + [Last(log)];
      assert Init(rows) == CurrentRows(Init(log), end);
      OneMoreRow(q, rows);
    }
  }

  /** The newest charted observation is the one the freeze looks up. */
  lemma NewestIsAsOf(q: Query, w: World, e: Entrant, p: int, end: int)
    requires ReadsWorld(q, w) && InOrder(q.log) && q.mode.CurrentMode? && q.end == Some(end)
    requires e in q.roster && e.profile == Some(p)
    ensures LastRating(ObservationsOf(Observed(q), p, q.mode)) == CurrentAsOf(q.log, Pair(p, q.board), end)
  {
    ObservedIsRelevant(q);
    RelevantCurrent(q, q.log, end);
    CurrentRowsInOrder(q.log, end);
    NewestObservation(q, CurrentRows(q.log, end), p);
  }

  /** The newest recorded value, the live one if there is none; nothing for an unrated entrant without an
      observation in the window. */
  function SeenOrLive(s: Series, seen: Option<int>): Option<int> {
    if s.live.Some? then Or(seen, Some(s.live.value.currentRating)) else if s.snaps == [] then None else seen
  }

  lemma CurrentEndOf(s: Series, seen: Option<int>, t: int)
    requires if s.snaps == [] then s.snapBase == seen else seen == Some(Last(s.snaps).rating)
    requires s.points == [] ==> s.entryOld == None
    requires forall x :: x in s.points || x in s.snaps ==> x.at <= t
    ensures MetricAt(CurrentMode, s, t) == if LogIsNewest(s) then LastRating(s.points) else SeenOrLive(s, seen)
  {
    UpToAll(s.points, t);
    UpToAll(s.snaps, t);
  }

  /** The last metric in current mode: the last charted game if that is newest, else the newest recorded value. */
  lemma CurrentEndIs(q: Query, w: World, e: Entrant, p: int, end: int, t: int)
    requires ReadsWorld(q, w) && InOrder(q.log) && q.mode.CurrentMode? && q.end == Some(end)
    requires e in q.roster && e.profile == Some(p)
    requires forall x :: x in SeriesOf(q, e).points || x in SeriesOf(q, e).snaps ==> x.at <= t
    ensures var s, seen := SeriesOf(q, e), CurrentAsOf(q.log, Pair(p, q.board), end);
      MetricAt(CurrentMode, s, t) == if LogIsNewest(s) then LastRating(s.points) else SeenOrLive(s, seen)
  {
    var own := ObservationsOf(Observed(q), p, q.mode);
    NewestIsAsOf(q, w, e, p, end);
    ObservationsTimed(Observed(q), p, q.mode);
    if own == [] {
      NoObservations(q.start);
    } else {
      NewestSurvivesSplit(own, q.start);
    }
    if SeriesOf(q, e).points == [] {
      NoPointsNoEntry(q, e);
    }
    CurrentEndOf(SeriesOf(q, e), CurrentAsOf(q.log, Pair(p, q.board), end), t);
  }

  /** A charted game is one the freeze looks at. */
  lemma ChartedInLog(q: Query, w: World, e: Entrant, p: int, end: int)
    requires ReadsWorld(q, w) && e in q.roster && e.profile == Some(p) && q.end == Some(end)
    requires SeriesOf(q, e).points != []
    ensures FromLog(Games(w.db, p, q.board, end)).Some?
  {
    var g := PointFrom(WindowGames(q), p, SeriesOf(q, e).points[0]);
    GameAt(w.db, p, q.board, end, g.matchId);
    assert g.matchId in Games(w.db, p, q.board, end).Keys;
  }

  /** The last current-mode point of a linked entrant is the frozen current rating exactly if the last started game
      left what the chart ends at: the last completed game's rating, where no observation of the window is newer,
      and otherwise the newest recorded one. Without a started game they agree but for an unrated entrant with
      observations before the window only. */
  lemma FrozenCurrentIsLastPointIff(q: Query, w: World, axis: Axis, h: History, i: nat, p: int, end: int)
    requires ReadsWorld(q, w) && InOrder(q.log) && q.mode.CurrentMode? && Unique(q.roster) && q.end == Some(end)
    requires i < |q.roster| && q.roster[i].profile == Some(p)
    requires IsAxis(q.start, EventTimes(Entries(q)), Some(axis)) && Charts(ChartOf(q), axis, h)
    ensures q.roster[i].id in h.players && |h.players[q.roster[i].id]| > 0
    ensures var s, fromLog := SeriesOf(q, q.roster[i]), FromLog(Games(w.db, p, q.board, end));
      var seen := CurrentAsOf(q.log, Pair(p, q.board), end);
      Last(h.players[q.roster[i].id]).currentRating == FrozenCurrent(w, p, q.board, end) <==>
        (if LogIsNewest(s) then fromLog == LastRating(s.points)
         else if fromLog.Some? then fromLog == SeenOrLive(s, seen)
         else s.live.Some? || s.snaps != [] || seen.None?)
  {
    LastCurrentIs(q, axis, h, i);
    CurrentEndIs(q, w, q.roster[i], p, end, Last(axis.times));
    if SeriesOf(q, q.roster[i]).points != [] {
      ChartedInLog(q, w, q.roster[i], p, end);
    }
  }

  lemma LastCurrentIs(q: Query, axis: Axis, h: History, i: nat)
    requires q.mode.CurrentMode? && Unique(q.roster) && i < |q.roster|
    requires IsAxis(q.start, EventTimes(Entries(q)), Some(axis)) && Charts(ChartOf(q), axis, h)
    ensures var id := q.roster[i].id;
      && id in h.players && |h.players[id]| > 0
      && Last(h.players[id]).currentRating == MetricAt(CurrentMode, SeriesOf(q, q.roster[i]), Last(axis.times))
    ensures forall x :: x in SeriesOf(q, q.roster[i]).points || x in SeriesOf(q, q.roster[i]).snaps ==>
      x.at <= Last(axis.times)
  {
    EntriesAreTimed(q);
    LastPointIsMetric(ChartOf(q), axis, h, i);
    var s := SeriesOf(q, q.roster[i]);
    assert Entries(q)[i] in Entries(q);
    forall x | x in s.points || x in s.snaps ensures x.at <= Last(axis.times) {
      LastTimeCovers(q, axis, Entries(q)[i], x);
    }
  }
}
