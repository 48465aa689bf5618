/** Where the chart ends once the window has an end: a game counts by its start, so one that finishes late is
    charted late. */
module WindowEnd {
  import opened Common
  import opened HistorySeries
  import opened HistoryBuckets
  import opened StandingsHistory
  import opened HistoryResults
  import opened LiveTable

  lemma {:induction false} TimesFrom(points: seq<Point>, t: int) returns (x: Point)
    requires t in Times(points)
    ensures x in points && x.at == t
  {
    SplitLast(points);
    if Last(points).at == t {
      x := Last(points);
    } else {
      x := TimesFrom(Init(points), t);
    }
  }

  lemma {:induction false} EventTimesFrom(entries: seq<Entry>, t: int) returns (e: Entry, x: Point)
    requires t in EventTimes(entries)
    ensures e in entries && (x in e.series.points || x in e.series.snaps) && x.at == t
  {
    SplitLast(entries);
    e := Last(entries);
    if t in Times(e.series.points) {
      x := TimesFrom(e.series.points, t);
    } else if t in Times(e.series.snaps) {
      x := TimesFrom(e.series.snaps, t);
    } else {
      e, x := EventTimesFrom(Init(entries), t);
    }
  }

  lemma {:induction false} PointsHold(rows: seq<Game>, g: Game)
    requires g in rows
    ensures Point(g.completedAt.GetOr(0), g.newRating.GetOr(0)) in PointsOf(rows, g.profile)
  {
    SplitLast(rows);
    if g != Last(rows) {
      PointsHold(Init(rows), g);
    }
  }

  ghost predicate FinishedBy(games: seq<Game>, end: int) {
    forall g :: g in games ==> g.completedAt.GetOr(0) <= end
  }

  ghost predicate AllBy(times: seq<int>, end: int) {
    forall t :: t in times ==> t <= end
  }

  lemma PointInTime(q: Query, e: Entrant, x: Point)
    requires q.end.Some? && FinishedBy(WindowGames(q), q.end.value)
    requires x in SeriesOf(q, e).points || x in SeriesOf(q, e).snaps
    ensures x.at <= q.end.value
  {
    var p := e.profile.value;
    if x in SeriesOf(q, e).points {
      PointsTimed(WindowGames(q), p);
    } else {
      ObservationsTimed(Observed(q), p, q.mode);
      AfterStartTimed(ObservationsOf(Observed(q), p, q.mode), q.start);
    }
  }

  lemma GameIsEvent(q: Query, g: Game)
    requires g in WindowGames(q)
    ensures g.completedAt.GetOr(0) in EventTimes(Entries(q))
  {
    var e :| e in q.roster && e.profile == Some(g.profile) && e.id == TpByProfile(q.roster)[g.profile];
    var k :| 0 <= k < |q.roster| && q.roster[k] == e;
    PointsHold(WindowGames(q), g);
    assert Entries(q)[k] in Entries(q);
    EventTimesHold(Entries(q), Entries(q)[k], Point(g.completedAt.GetOr(0), g.newRating.GetOr(0)));
  }

  lemma EventInTime(q: Query, t: int)
    requires q.end.Some? && FinishedBy(WindowGames(q), q.end.value) && t in EventTimes(Entries(q))
    ensures t <= q.end.value
  {
    var e, x := EventTimesFrom(Entries(q), t);
    var k :| 0 <= k < |q.roster| && Entries(q)[k] == e;
    PointInTime(q, q.roster[k], x);
  }

  lemma EventsInTime(q: Query)
    requires q.end.Some? && FinishedBy(WindowGames(q), q.end.value)
    ensures AllBy(EventTimes(Entries(q)), q.end.value)
  {
    forall t | t in EventTimes(Entries(q)) ensures t <= q.end.value {
      EventInTime(q, t);
    }
  }

  lemma GamesInTime(q: Query)
    requires q.end.Some? && AllBy(EventTimes(Entries(q)), q.end.value)
    ensures FinishedBy(WindowGames(q), q.end.value)
  {
    forall g | g in WindowGames(q) ensures g.completedAt.GetOr(0) <= q.end.value {
      GameIsEvent(q, g);
    }
  }

  /** Nothing is charted after the window exactly if every charted game was over by its end. */
  lemma EventsInWindowIff(q: Query)
    requires q.end.Some?
    ensures AllBy(EventTimes(Entries(q)), q.end.value) <==> FinishedBy(WindowGames(q), q.end.value)
  {
    if FinishedBy(WindowGames(q), q.end.value) {
      EventsInTime(q);
    } else if AllBy(EventTimes(Entries(q)), q.end.value) {
      GamesInTime(q);
    }
  }

  lemma MidnightBefore(midnight: int, t: int)
    requires midnight % DAY == 0 && DayOf(midnight) <= DayOf(t)
    ensures midnight <= t
  {
    assert midnight == DayOf(midnight) * DAY;
    assert DayOf(t) * DAY <= t;
  }

  /** The axis ends at the last event, or at the start's midnight if there is none. */
  lemma LastTimeIs(start: Option<int>, events: seq<int>, axis: Axis)
    requires IsAxis(start, events, Some(axis))
    ensures |events| > 0 ==> Last(axis.times) == Greatest(events)
    ensures |events| == 0 ==> start.Some? && Last(axis.times) <= start.value
  {
    var last := Last(axis.times);
    assert last in axis.times;
    if |events| > 0 {
      AxisCoversEvents(start, events, axis, Greatest(events));
      if last in axis.anchors {
        MidnightBefore(last, Greatest(events));
      }
    } else {
      MidnightBefore(last, start.value);
    }
  }

  lemma LastTimeByIff(start: Option<int>, events: seq<int>, axis: Axis, end: int)
    requires IsAxis(start, events, Some(axis)) && (start.Some? ==> start.value <= end)
    ensures |axis.times| > 0 && (Last(axis.times) <= end <==> AllBy(events, end))
  {
    LastTimeIs(start, events, axis);
  }

  /** For a window whose start is not after its end, the last bucket lies within it exactly if every charted game
      was over by the end. */
  lemma LastBucketInWindowIff(q: Query, axis: Axis, h: History)
    requires q.end.Some? && (q.start.Some? ==> q.start.value <= q.end.value)
    requires IsAxis(q.start, EventTimes(Entries(q)), Some(axis)) && Charts(ChartOf(q), axis, h)
    ensures |h.buckets| > 0 && (Last(h.buckets).at <= q.end.value <==> FinishedBy(WindowGames(q), q.end.value))
  {
    LastTimeByIff(q.start, EventTimes(Entries(q)), axis, q.end.value);
    LastBucket(ChartOf(q), axis, h);
    EventsInWindowIff(q);
  }
}
