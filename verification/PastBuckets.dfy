/** The chart read twice: what it shows of the past on the first read against what it shows of it later, after more
    stats ticks and more games. */
module PastBuckets {
  import opened Common
  import opened RatingLog
  import opened HistorySeries
  import opened HistorySweep
  import opened LiveTable

  // ---- what a later read adds ----

  /** The games completed by t, in table order. */
  function CompletedBy(games: seq<Game>, t: int): seq<Game> {
    Filter(games, (g: Game) => g.completedAt.Some? && g.completedAt.value <= t)
  }

  /** The same endpoint, read at `now` and again later: the log grew after `now`, and the games completed by `now`
      are the same. */
  ghost predicate ReadsLater(q: Query, q': Query, now: int) {
    && q'.mode == q.mode && q'.board == q.board && q'.start == q.start && q'.end == q.end
    && TpByProfile(q'.roster).Keys == TpByProfile(q.roster).Keys
    && InOrder(q.log) && InOrder(q'.log) && q.log <= q'.log
    && (forall s :: s in q'.log[|q.log|..] ==> now < s.observedAt)
    && CompletedBy(q'.games, now) == CompletedBy(q.games, now)
  }

  // ---- games ----

  function Early(rows: seq<Game>, at: int): seq<Game> {
    Filter(rows, (g: Game) => g.completedAt.GetOr(0) <= at)
  }

  lemma EarlyOneMore(rows: seq<Game>, g: Game, at: int)
    ensures Early(rows + [g], at) == if g.completedAt.GetOr(0) <= at then Early(rows, at) + [g] else Early(rows, at)
  {
    FilterOneMore(rows, g, (g: Game) => g.completedAt.GetOr(0) <= at);
    assert Early(rows, at) + [] == Early(rows, at);
  }

  lemma {:induction false} PointsUpTo(rows: seq<Game>, p: int, at: int)
    ensures UpTo(PointsOf(rows, p), at) == PointsOf(Early(rows, at), p)
  {
    if |rows| > 0 {
      var front, g := Init(rows), Last(rows);
      PointsUpTo(front, p, at);
      SplitLast(rows);
      PointsOneMore(front, g, p);
      EarlyOneMore(front, g, at);
      PointsOneMore(Early(front, at), g, p);
      UpToOneMore(PointsOf(front, p), Point(g.completedAt.GetOr(0), g.newRating.GetOr(0)), at);
    }
  }

  lemma PointsOneMore(rows: seq<Game>, g: Game, p: int)
    ensures PointsOf(rows + [g], p)
      == PointsOf(rows, p) + if g.profile == p then [Point(g.completedAt.GetOr(0), g.newRating.GetOr(0))] else []
  {
    assert Init(rows + [g]) == rows;
  }

  lemma UpToOneMore(points: seq<Point>, x: Point, at: int)
    ensures UpTo(points + [x], at) == UpTo(points, at) + if x.at <= at then [x] else []
  {
    assert Init(points + [x]) == points;
  }

  /** The charted games completed by `at` are those of the table as of `now`. */
  lemma WindowUpTo(q: Query, now: int, at: int)
    requires at <= now
    ensures var both := (g: Game) => Rated(q, g) && StartedInWindow(q, g) && g.completedAt.GetOr(0) <= at;
      Early(WindowGames(q), at) == OrderBy(Filter(CompletedBy(q.games, now), both), ByCompletion)
  {
    var charted := (g: Game) => Rated(q, g) && StartedInWindow(q, g);
    var early := (g: Game) => g.completedAt.GetOr(0) <= at;
    var both := (g: Game) => Rated(q, g) && StartedInWindow(q, g) && g.completedAt.GetOr(0) <= at;
    FilterOrderBy(Filter(q.games, charted), ByCompletion, early);
    FilterTwice(q.games, charted, early, both);
    FilterTwice(q.games, (g: Game) => g.completedAt.Some? && g.completedAt.value <= now, both, both);
  }

  /** Both reads chart the same games up to any time by the first read. */
  lemma SameGamesSoFar(q: Query, q': Query, now: int, at: int)
    requires ReadsLater(q, q', now) && at <= now
    ensures Early(WindowGames(q'), at) == Early(WindowGames(q), at)
  {
    WindowUpTo(q, now, at);
    WindowUpTo(q', now, at);
    FilterSame(CompletedBy(q.games, now),
               (g: Game) => Rated(q, g) && StartedInWindow(q, g) && g.completedAt.GetOr(0) <= at,
               (g: Game) => Rated(q', g) && StartedInWindow(q', g) && g.completedAt.GetOr(0) <= at);
  }

  lemma GamesSoFar(q: Query, q': Query, now: int, p: int, at: int)
    requires ReadsLater(q, q', now) && at <= now
    ensures UpTo(PointsOf(WindowGames(q'), p), at) == UpTo(PointsOf(WindowGames(q), p), at)
  {
    PointsUpTo(WindowGames(q), p, at);
    PointsUpTo(WindowGames(q'), p, at);
    SameGamesSoFar(q, q', now, at);
  }

  // ---- observations ----

  lemma {:induction false} ObservationsConcat(a: seq<Snapshot>, b: seq<Snapshot>, p: int, mode: Mode)
    ensures ObservationsOf(a + b, p, mode) == ObservationsOf(a, p, mode) + ObservationsOf(b, p, mode)
  {
    if |b| == 0 {
      assert a + b == a;
    } else {
      SplitLast(b);
      assert a + b == (a + Init(b)) + [Last(b)];
      ObservationsConcat(a, Init(b), p, mode);
      OneMoreObserved(a + Init(b), Last(b), p, mode);
      OneMoreObserved(Init(b), Last(b), p, mode);
    }
  }

  lemma {:induction false} AfterStartConcat(a: seq<Point>, b: seq<Point>, start: Option<int>)
    ensures AfterStart(a + b, start) == AfterStart(a, start) + AfterStart(b, start)
    ensures BaseOf(b, start).None? ==> BaseOf(a + b, start) == BaseOf(a, start)
  {
    if |b| == 0 {
      assert a + b == a;
    } else {
      SplitLast(b);
      assert a + b == (a + Init(b)) + [Last(b)];
      AfterStartConcat(a, Init(b), start);
      SplitOneMore(a + Init(b), Last(b), start);
      SplitOneMore(Init(b), Last(b), start);
    }
  }

  lemma {:induction false} UpToSkips(a: seq<Point>, b: seq<Point>, t: int)
    requires forall x :: x in b ==> t < x.at
    ensures UpTo(a + b, t) == UpTo(a, t)
  {
    if |b| == 0 {
      assert a + b == a;
    } else {
      SplitLast(b);
      assert a + b == (a + Init(b)) + [Last(b)];
      UpToSkips(a, Init(b), t);
      UpToOneMore(a + Init(b), Last(b), t);
    }
  }

  lemma {:induction false} ObservedAfter(rows: seq<Snapshot>, p: int, mode: Mode, now: int)
    requires forall s :: s in rows ==> now < s.observedAt
    ensures forall x :: x in ObservationsOf(rows, p, mode) ==> now < x.at
  {
    if |rows| > 0 {
      SplitLast(rows);
      ObservedAfter(Init(rows), p, mode, now);
    }
  }

  /** The later read sees what the first one saw, and then only newer observations. */
  lemma SeenLater(q: Query, q': Query, now: int, p: int) returns (later: seq<Point>)
    requires ReadsLater(q, q', now)
    ensures ObservationsOf(Observed(q'), p, q.mode) == ObservationsOf(Observed(q), p, q.mode) + later
    ensures forall x :: x in later ==> now < x.at
  {
    var extra := q'.log[|q.log|..];
    assert q'.log == q.log + extra;
    ObservedIsRelevant(q);
    ObservedIsRelevant(q');
    FilterConcat(q.log, extra, (s: Snapshot) => Relevant(q', s));
    FilterSame(q.log, (s: Snapshot) => Relevant(q, s), (s: Snapshot) => Relevant(q', s));
    var rows := RelevantRows(q', extra);
    ObservationsConcat(Observed(q), rows, p, q.mode);
    ObservedAfter(rows, p, q.mode, now);
    later := ObservationsOf(rows, p, q.mode);
  }

  lemma {:induction false} NoBase(points: seq<Point>, start: Option<int>)
    requires forall x :: x in points ==> start.None? || start.value < x.at
    ensures BaseOf(points, start).None? && AfterStart(points, start) == points
  {
    if |points| > 0 {
      SplitLast(points);
      NoBase(Init(points), start);
    }
  }

  // ---- one entrant, read twice ----

  /** The same roster row on both reads. */
  ghost predicate SameEntrant(q: Query, q': Query, e: Entrant, e': Entrant) {
    e in q.roster && e' in q'.roster && e'.profile == e.profile
  }

  /** What a series charts up to a time, besides its baseline. */
  function ChartedBy(s: Series, t: int): Option<int> {
    MaxOpt(MaxRating(UpTo(s.snaps, t)), MaxRating(UpTo(s.points, t)))
  }

  lemma SeriesSoFar(q: Query, q': Query, now: int, e: Entrant, e': Entrant, at: int)
    requires ReadsLater(q, q', now) && SameEntrant(q, q', e, e') && at <= now
    ensures UpTo(SeriesOf(q', e').points, at) == UpTo(SeriesOf(q, e).points, at)
    ensures UpTo(SeriesOf(q', e').snaps, at) == UpTo(SeriesOf(q, e).snaps, at)
  {
    if e.profile.Some? {
      var p := e.profile.value;
      GamesSoFar(q, q', now, p, at);
      var later := SeenLater(q, q', now, p);
      var own := ObservationsOf(Observed(q), p, q.mode);
      AfterStartConcat(own, later, q.start);
      AfterStartKeeps(later, q.start);
      UpToSkips(AfterStart(own, q.start), AfterStart(later, q.start), at);
    }
  }

  lemma {:induction false} AfterStartKeeps(points: seq<Point>, start: Option<int>)
    ensures forall x :: x in AfterStart(points, start) ==> x in points
  {
    if |points| > 0 {
      AfterStartKeeps(Init(points), start);
    }
  }

  /** Both reads show, at any time by the first, the same charted peak over their own baselines and below their own
      live peaks. */
  lemma PastCompared(q: Query, q': Query, now: int, e: Entrant, e': Entrant, at: int)
    requires ReadsLater(q, q', now) && SameEntrant(q, q', e, e') && at <= now
    ensures var s, s' := SeriesOf(q, e), SeriesOf(q', e');
      && MetricAt(PeakMode, s, at) == Clamp(MaxOpt(Baseline(PeakMode, s), ChartedBy(s, at)), s.live)
      && MetricAt(PeakMode, s', at) == Clamp(MaxOpt(Baseline(PeakMode, s'), ChartedBy(s, at)), s'.live)
  {
    SeriesSoFar(q, q', now, e, e', at);
  }

  /** The live peak does not cut a value. */
  predicate Uncut(live: LiveRating, x: Option<int>) {
    x.Some? ==> x.value <= live.maxRating
  }

  /** Where a rated entrant's baseline stays, its point of the past does exactly if the live peak stays or cuts the
      past value on neither read. */
  lemma PastStaysIff(q: Query, q': Query, now: int, e: Entrant, e': Entrant, at: int)
    requires ReadsLater(q, q', now) && SameEntrant(q, q', e, e') && at <= now && e.live.Some? && e'.live.Some?
    requires Baseline(PeakMode, SeriesOf(q', e')) == Baseline(PeakMode, SeriesOf(q, e))
    ensures var s := SeriesOf(q, e);
      var x := MaxOpt(Baseline(PeakMode, s), ChartedBy(s, at));
      MetricAt(PeakMode, SeriesOf(q', e'), at) == MetricAt(PeakMode, s, at) <==>
        (|| e'.live.value.maxRating == e.live.value.maxRating || (Uncut(e.live.value, x) && Uncut(e'.live.value, x)))
  {
    PastCompared(q, q', now, e, e', at);
  }

  // ---- when the baseline stays ----

  lemma FirstSeenStays(q: Query, q': Query, now: int, e: Entrant, e': Entrant)
    requires ReadsLater(q, q', now) && SameEntrant(q, q', e, e') && AtOrAfter(q.start, now)
    requires FirstSeen(SeriesOf(q, e)).Some?
    ensures FirstSeen(SeriesOf(q', e')) == FirstSeen(SeriesOf(q, e))
  {
    var p := e.profile.value;
    var later := SeenLater(q, q', now, p);
    AfterStartConcat(ObservationsOf(Observed(q), p, q.mode), later, q.start);
    NoBase(later, q.start);
  }

  /** Once an entrant has been observed in an open window, the baseline stays exactly if the rating held entering the
      window adds to the first observation what it did before. */
  lemma BaselineStaysIff(q: Query, q': Query, now: int, e: Entrant, e': Entrant)
    requires ReadsLater(q, q', now) && SameEntrant(q, q', e, e') && AtOrAfter(q.start, now)
    requires e.live.Some? && e'.live.Some? && FirstSeen(SeriesOf(q, e)).Some?
    ensures var s, s' := SeriesOf(q, e), SeriesOf(q', e');
      Baseline(PeakMode, s') == Baseline(PeakMode, s)
      <==> MaxOpt(FirstSeen(s), s'.entryOld) == MaxOpt(FirstSeen(s), s.entryOld)
  {
    FirstSeenStays(q, q', now, e, e');
  }

  lemma {:induction false} EntryOfEarly(rows: seq<Game>, p: int, at: int)
    requires SortedBy(rows, ByCompletion) && PointsOf(Early(rows, at), p) != []
    ensures EntryRating(rows, p) == EntryRating(Early(rows, at), p)
  {
    SplitLast(rows);
    EarlyOneMore(Init(rows), Last(rows), at);
    if Last(rows).completedAt.GetOr(0) <= at {
      FilterAll(rows, (g: Game) => g.completedAt.GetOr(0) <= at);
    } else {
      EntryOfEarly(Init(rows), p, at);
      PointsUpTo(Init(rows), p, at);
    }
  }

  /** With a charted game by the first read, the rating held entering the window is settled. */
  lemma EntryStays(q: Query, q': Query, now: int, e: Entrant, e': Entrant)
    requires ReadsLater(q, q', now) && SameEntrant(q, q', e, e')
    requires UpTo(SeriesOf(q, e).points, now) != []
    ensures SeriesOf(q', e').entryOld == SeriesOf(q, e).entryOld
  {
    var p := e.profile.value;
    PointsUpTo(WindowGames(q), p, now);
    SameGamesSoFar(q, q', now, now);
    EntryOfEarly(WindowGames(q), p, now);
    EntryOfEarly(WindowGames(q'), p, now);
  }

  // ---- current mode ----

  /** In current mode a point of the past stays exactly if a game or an observation is charted by then, or the
      baseline stays. */
  lemma PastCurrentStaysIff(q: Query, q': Query, now: int, e: Entrant, e': Entrant, at: int)
    requires ReadsLater(q, q', now) && SameEntrant(q, q', e, e') && at <= now
    ensures var s, s' := SeriesOf(q, e), SeriesOf(q', e');
      MetricAt(CurrentMode, s', at) == MetricAt(CurrentMode, s, at) <==>
        (|| UpTo(s.points, at) != [] || UpTo(s.snaps, at) != []
         || Baseline(CurrentMode, s') == Baseline(CurrentMode, s))
  {
    SeriesSoFar(q, q', now, e, e', at);
  }

  // ---- over runs ----

  lemma {:induction false} StampedAt(rows: seq<Polled>, now: int, nextId: int)
    ensures forall s :: s in Stamp(rows, now, nextId) ==> s.observedAt == now
  {
    if |rows| > 0 {
      StampedAt(Init(rows), now, nextId);
    }
  }

  lemma OneMorePoll(t: Tables, polls: seq<Poll>, p: Poll)
    ensures Run(t, polls + [p]) == Tick(Run(t, polls), p.batch, p.at)
  {
    assert Init(polls + [p]) == polls;
  }

  /** More polls only append, at their own times. */
  lemma {:induction false} RunAppends(t: Tables, polls: seq<Poll>, more: seq<Poll>, now: int)
    requires forall p :: p in more ==> now < p.at
    ensures Run(t, polls).log <= Run(t, polls + more).log
    ensures forall s :: s in Run(t, polls + more).log[|Run(t, polls).log|..] ==> now < s.observedAt
  {
    if |more| == 0 {
      assert polls + more == polls;
    } else {
      SplitLast(more);
      assert polls + more == (polls + Init(more)) + [Last(more)];
      RunAppends(t, polls, Init(more), now);
      OneMorePoll(t, polls + Init(more), Last(more));
      TickAppends(Run(t, polls + Init(more)), Last(more), Run(t, polls).log, now);
    }
  }

  lemma TickAppends(t: Tables, p: Poll, log: seq<Snapshot>, now: int)
    requires now < p.at && log <= t.log && forall s :: s in t.log[|log|..] ==> now < s.observedAt
    ensures log <= Tick(t, p.batch, p.at).log
    ensures forall s :: s in Tick(t, p.batch, p.at).log[|log|..] ==> now < s.observedAt
  {
    if Storable(p.batch) {
      var stamped := Stamp(Changed(t.log, p.batch), p.at, t.nextId);
      StampedAt(Changed(t.log, p.batch), p.at, t.nextId);
      assert (t.log + stamped)[|log|..] == t.log[|log|..] + stamped;
    }
  }

  /** The endpoint read after some polls, and read again after more. */
  ghost predicate ReadTwice(t: Tables, polls: seq<Poll>, more: seq<Poll>, since: int, q: Query, q': Query) {
    && Chronological(t, since) && WellTimed(polls, since) && WellTimed(polls + more, since)
    && (forall p :: p in more ==> Clock(polls, since) < p.at)
    && ReadsTables(q, Run(t, polls)) && ReadsTables(q', Run(t, polls + more))
    && q'.mode == q.mode && q'.board == q.board && q'.start == q.start && q'.end == q.end
    && TpByProfile(q'.roster).Keys == TpByProfile(q.roster).Keys
    && CompletedBy(q'.games, Clock(polls, since)) == CompletedBy(q.games, Clock(polls, since))
  }

  lemma TwiceIsLater(t: Tables, polls: seq<Poll>, more: seq<Poll>, since: int, q: Query, q': Query)
    requires ReadTwice(t, polls, more, since, q, q')
    ensures ReadsLater(q, q', Clock(polls, since))
  {
    RunAppends(t, polls, more, Clock(polls, since));
    RunChronological(t, polls, since);
    RunChronological(t, polls + more, since);
  }

  /** The past of a rated entrant who was observed, and had a charted game, by the first read of an open window: a
      point of the peak chart stays, over any further run, exactly if the live peak stays or cuts it on neither
      read. */
  lemma PastPointStaysIff(t: Tables, polls: seq<Poll>, more: seq<Poll>, since: int, q: Query, q': Query,
                          e: Entrant, e': Entrant, at: int)
    requires ReadTwice(t, polls, more, since, q, q') && SameEntrant(q, q', e, e') && at <= Clock(polls, since)
    requires q.mode.PeakMode? && AtOrAfter(q.start, Clock(polls, since)) && e.live.Some? && e'.live.Some?
    requires FirstSeen(SeriesOf(q, e)).Some? && UpTo(SeriesOf(q, e).points, Clock(polls, since)) != []
    ensures var s := SeriesOf(q, e);
      var x := MaxOpt(Baseline(PeakMode, s), ChartedBy(s, at));
      MetricAt(PeakMode, SeriesOf(q', e'), at) == MetricAt(PeakMode, s, at) <==>
        (|| e'.live.value.maxRating == e.live.value.maxRating || (Uncut(e.live.value, x) && Uncut(e'.live.value, x)))
  {
    var now := Clock(polls, since);
    TwiceIsLater(t, polls, more, since, q, q');
    EntryStays(q, q', now, e, e');
    BaselineStaysIff(q, q', now, e, e');
    PastStaysIff(q, q', now, e, e', at);
  }
}
