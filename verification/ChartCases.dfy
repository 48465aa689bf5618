/** Charts of small tables: they meet the hypotheses of the results about the last bucket, and show where the
    chart departs from what is said of it. */
module ChartCases {
  import opened Common
  import opened RatingLog
  import opened Ranking
  import opened HistorySeries
  import opened HistorySweep
  import opened HistoryBuckets
  import opened StandingsHistory
  import opened HistoryResults
  import opened FinalOrder
  import opened LiveTable
  import opened Freeze
  import opened FrozenTable
  import opened PastBuckets
  import M = MatchIngest

  lemma ChartExists(c: Chart, axis: Axis) returns (h: History)
    ensures Charts(c, axis, h)
  {
    var buckets := Emitted(Candidates(c, axis.times), axis.anchors, |axis.times|);
    h := History(None, buckets, map id | id in Ids(c.entries) :: PlayerLine(c.mode, buckets, id),
                 map id | id in TeamIds(c.members) :: TeamLine(c.mode, buckets, c.members, id));
  }

  lemma ObservedAll(q: Query)
    requires InOrder(q.log) && forall s :: s in q.log ==> Relevant(q, s)
    ensures Observed(q) == q.log
  {
    ObservedIsRelevant(q);
    FilterAll(q.log, (s: Snapshot) => Relevant(q, s));
  }

  lemma OneGame(q: Query, g: Game)
    requires q.games == [g] && Rated(q, g) && StartedInWindow(q, g)
    ensures WindowGames(q) == [g] && EarlierGames(q) == []
  {
    OneWindowGame(q, g);
    NoneEarlier(q);
  }

  lemma OneWindowGame(q: Query, g: Game)
    requires q.games == [g] && Rated(q, g) && StartedInWindow(q, g)
    ensures WindowGames(q) == [g]
  {
    OnlyRow(g, (g: Game) => Rated(q, g) && StartedInWindow(q, g), ByCompletion);
  }

  lemma OnlyRow<T(!new)>(x: T, keep: T -> bool, key: T -> (int, int))
    requires keep(x)
    ensures OrderBy(Filter([x], keep), key) == [x]
  {
    FilterOneMore([], x, keep);
    assert [] + [x] == [x];
    OrderByInOrder([x], key);
  }

  lemma NoneEarlier(q: Query)
    requires forall g :: g in q.games ==> StartedInWindow(q, g)
    ensures EarlierGames(q) == []
  {
    assert forall g :: g !in EarlierGames(q);
  }

  // ---- three entrants: two tied at the peak, and one whose live row is older than the log ----

  function Older(board: int): Tables {
    Tables([], map[Pair(9, board) := LiveRating(1200, 1100, [])], 1)
  }

  function FirstPoll(board: int): Poll {
    Poll(5, [Polled(Pair(7, board), 1500, Some(1400), []), Polled(Pair(8, board), 1500, Some(1350), [])])
  }

  function RowA(board: int): Snapshot {
    Snapshot(1, Pair(7, board), 1500, Some(1400), 5)
  }

  function RowB(board: int): Snapshot {
    Snapshot(2, Pair(8, board), 1500, Some(1350), 5)
  }

  lemma PollIsRecorded(board: int)
    ensures var batch := FirstPoll(board).batch;
      && Storable(batch) && DistinctPairs(batch) && Changed([], batch) == batch
      && Stamp(batch, 5, 1) == [RowA(board), RowB(board)]
  {
    var batch := FirstPoll(board).batch;
    FilterAll(batch, (r: Polled) => Stored([], r.pair) != Some(r.Reading()));
    assert Init(batch) == [batch[0]] && Init([batch[0]]) == [];
    assert Stamp([batch[0]], 5, 1) == [RowA(board)];
  }

  lemma PollIsLive(board: int, live: map<Pair, LiveRating>)
    requires Storable(FirstPoll(board).batch)
    ensures Overwritten(live, FirstPoll(board).batch)
      == live[Pair(7, board) := LiveRating(1500, 1400, [])][Pair(8, board) := LiveRating(1500, 1350, [])]
  {
    var batch := FirstPoll(board).batch;
    assert Init(batch) == [batch[0]];
    OverwrittenOnce(live, batch[0]);
  }

  lemma PollRuns(board: int)
    ensures var t := Run(Older(board), [FirstPoll(board)]);
      && t.log == [RowA(board), RowB(board)]
      && t.live == Older(board).live[Pair(7, board) := LiveRating(1500, 1400, [])]
                   [Pair(8, board) := LiveRating(1500, 1350, [])]
  {
    PollIsRecorded(board);
    PollIsLive(board, Older(board).live);
    assert Init([FirstPoll(board)]) == [];
  }

  /** A run from tables whose one live row was never recorded. */
  lemma PollIsPossible(board: int)
    ensures var polls := [FirstPoll(board)];
      && Chronological(Older(board), 0) && Accounted(Older(board)) && !Consistent(Older(board))
      && WellTimed(polls, 0) && DistinctBatches(polls) && Clock(polls, 0) == 5
  {
    PollIsRecorded(board);
    assert Init([FirstPoll(board)]) == [];
    assert !InStep(Older(board), Pair(9, board));
  }

  function EntrantA(): Entrant {
    Entrant(1, Some(7), "a", Some(LiveRating(1500, 1400, [])))
  }

  function EntrantB(): Entrant {
    Entrant(2, Some(8), "b", Some(LiveRating(1500, 1350, [])))
  }

  function EntrantC(): Entrant {
    Entrant(3, Some(9), "c", Some(LiveRating(1200, 1100, [])))
  }

  /** The window is open since time 0; entrant a has one charted game, which left the rating r. */
  function OpenQuery(board: int, r: int): Query {
    Query(PeakMode, board, Some(0), None, [EntrantA(), EntrantB(), EntrantC()],
          [OpenGame(board, r)], [RowA(board), RowB(board)], [])
  }

  function OpenGame(board: int, r: int): Game {
    Game(1, 7, Some(board), 1, Some(2), None, Some(r))
  }

  lemma OpenReadsTables(board: int, r: int)
    ensures ReadsTables(OpenQuery(board, r), Run(Older(board), [FirstPoll(board)]))
    ensures WindowOpen(OpenQuery(board, r), 5) && Unique(OpenQuery(board, r).roster)
  {
    PollRuns(board);
  }

  lemma OpenRows(board: int, r: int)
    ensures OpenResults(OpenQuery(board, r), board, r)
  {
    var q := OpenQuery(board, r);
    assert EntrantA() in q.roster && EntrantB() in q.roster;
    assert Init(q.log) == [RowA(board)] && Init([RowA(board)]) == [];
    ObservedAll(q);
    OneGame(q, OpenGame(board, r));
  }

  lemma TwoObserved(a: Snapshot, b: Snapshot, p: int)
    ensures ObservationsOf([a, b], p, PeakMode) == Own(a, b, p)
  {
    OneMoreObserved([], a, p, PeakMode);
    OneMoreObserved([a], b, p, PeakMode);
    assert [] + [a] == [a] && [a] + [b] == [a, b];
  }

  lemma OnePoint(g: Game, p: int)
    requires g.oldRating.None?
    ensures PointsOf([g], p)
      == if g.profile == p then [Point(g.completedAt.GetOr(0), g.newRating.GetOr(0))] else []
    ensures EntryRating([g], p) == None
  {
    assert Init([g]) == [];
  }

  lemma SplitOne(x: Point, start: int)
    requires x.at > start
    ensures AfterStart([x], Some(start)) == [x] && BaseOf([x], Some(start)) == None
  {
    assert Init([x]) == [];
  }

  lemma NothingCarried(p: int, cap: Option<int>)
    ensures CarriedIn([], p, cap) == None
  {
  }

  function SeriesA(r: int): Series {
    Series(EntrantA().live, [Point(2, r)], None, None, None, [Point(5, 1500)])
  }

  function SeriesB(): Series {
    Series(EntrantB().live, [], None, None, None, [Point(5, 1500)])
  }

  /** Nothing recorded at all. */
  function SeriesC(): Series {
    Series(EntrantC().live, [], None, None, None, [])
  }

  function Own(a: Snapshot, b: Snapshot, p: int): seq<Point> {
    (if a.pair.profile == p then [Point(a.observedAt, a.maxRating)] else [])
    + (if b.pair.profile == p then [Point(b.observedAt, b.maxRating)] else [])
  }

  /** A series over one charted game and two observations, none carried in. */
  lemma SmallSeries(q: Query, e: Entrant, p: int, g: Game, a: Snapshot, b: Snapshot, seen: seq<Point>)
    requires e.profile == Some(p) && q.mode.PeakMode? && g.oldRating.None?
    requires WindowGames(q) == [g] && EarlierGames(q) == [] && Observed(q) == [a, b] && Own(a, b, p) == seen
    requires AfterStart(seen, q.start) == seen && BaseOf(seen, q.start) == None
    ensures SeriesOf(q, e)
      == Series(e.live, if g.profile == p then [Point(g.completedAt.GetOr(0), g.newRating.GetOr(0))] else [],
                None, None, None, seen)
  {
    OnePoint(g, p);
    TwoObserved(a, b, p);
    NothingCarried(p, e.MaxRating());
  }

  lemma OneSighted(x: Point, a: Snapshot, b: Snapshot, p: int)
    requires (a.pair.profile == p) != (b.pair.profile == p)
    requires x == if a.pair.profile == p then Point(a.observedAt, a.maxRating) else Point(b.observedAt, b.maxRating)
    ensures Own(a, b, p) == [x]
  {
  }

  /** What the queries of the open case return. */
  ghost predicate OpenResults(q: Query, board: int, r: int) {
    && q.mode.PeakMode? && q.start == Some(0)
    && Observed(q) == [RowA(board), RowB(board)] && WindowGames(q) == [OpenGame(board, r)] && EarlierGames(q) == []
  }

  lemma SeriesSeen(q: Query, board: int, r: int, e: Entrant, p: int)
    requires OpenResults(q, board, r) && e.profile == Some(p) && (p == 7 || p == 8)
    ensures SeriesOf(q, e) == Series(e.live, if p == 7 then [Point(2, r)] else [], None, None, None, [Point(5, 1500)])
  {
    OneSighted(Point(5, 1500), RowA(board), RowB(board), p);
    SplitOne(Point(5, 1500), 0);
    SmallSeries(q, e, p, OpenGame(board, r), RowA(board), RowB(board), [Point(5, 1500)]);
  }

  lemma SeriesUnseen(q: Query, board: int, r: int, e: Entrant)
    requires OpenResults(q, board, r) && e.profile == Some(9)
    ensures SeriesOf(q, e) == Series(e.live, [], None, None, None, [])
  {
    EmptySeries(q, e, 9, OpenGame(board, r), RowA(board), RowB(board));
  }

  lemma EmptySeries(q: Query, e: Entrant, p: int, g: Game, a: Snapshot, b: Snapshot)
    requires e.profile == Some(p) && q.mode.PeakMode? && g.oldRating.None?
    requires g.profile != p && a.pair.profile != p && b.pair.profile != p
    requires WindowGames(q) == [g] && EarlierGames(q) == [] && Observed(q) == [a, b]
    ensures SeriesOf(q, e) == Series(e.live, [], None, None, None, [])
  {
    OnePoint(g, p);
    TwoObserved(a, b, p);
    NothingCarried(p, e.MaxRating());
    NoObservations(q.start);
  }

  lemma SeriesOpen(q: Query, board: int, r: int)
    requires OpenResults(q, board, r)
    ensures SeriesOf(q, EntrantA()) == SeriesA(r)
    ensures SeriesOf(q, EntrantB()) == SeriesB()
    ensures SeriesOf(q, EntrantC()) == SeriesC()
  {
    SeriesSeen(q, board, r, EntrantA(), 7);
    SeriesSeen(q, board, r, EntrantB(), 8);
    SeriesUnseen(q, board, r, EntrantC());
  }

  function OpenEntries(r: int): seq<Entry> {
    [Entry(1, "a", SeriesA(r)), Entry(2, "b", SeriesB()), Entry(3, "c", SeriesC())]
  }

  lemma EntriesOfThree(q: Query, a: Entrant, b: Entrant, c: Entrant, sa: Series, sb: Series, sc: Series)
    requires q.roster == [a, b, c] && SeriesOf(q, a) == sa && SeriesOf(q, b) == sb && SeriesOf(q, c) == sc
    ensures Entries(q) == [Entry(a.id, a.name, sa), Entry(b.id, b.name, sb), Entry(c.id, c.name, sc)]
  {
  }

  lemma OpenEntriesIn(q: Query, board: int, r: int)
    requires OpenResults(q, board, r) && q.roster == [EntrantA(), EntrantB(), EntrantC()]
    ensures Entries(q) == OpenEntries(r)
  {
    SeriesOpen(q, board, r);
    EntriesOfThree(q, EntrantA(), EntrantB(), EntrantC(), SeriesA(r), SeriesB(), SeriesC());
  }

  lemma OpenEntriesAre(board: int, r: int)
    ensures Entries(OpenQuery(board, r)) == OpenEntries(r)
  {
    OpenRows(board, r);
    OpenEntriesIn(OpenQuery(board, r), board, r);
  }

  lemma OneTime(x: Point)
    ensures Times([x]) == [x.at] && Times([]) == []
  {
    assert Init([x]) == [];
  }

  lemma OneMoreEntry(entries: seq<Entry>, e: Entry)
    ensures EventTimes(entries + [e]) == EventTimes(entries) + Times(e.series.points) + Times(e.series.snaps)
  {
    assert Init(entries + [e]) == entries;
  }

  lemma OpenTimes(r: int)
    ensures EventTimes(OpenEntries(r)) == [2, 5, 5]
  {
    var e := OpenEntries(r);
    OneTime(Point(2, r));
    OneTime(Point(5, 1500));
    OneMoreEntry([], e[0]);
    OneMoreEntry([e[0]], e[1]);
    OneMoreEntry([e[0], e[1]], e[2]);
    assert [] + [e[0]] == [e[0]] && [e[0]] + [e[1]] == [e[0], e[1]] && [e[0], e[1]] + [e[2]] == e;
  }

  /** One midnight, then the event times of the same day. */
  ghost predicate OneDay(events: seq<int>, axis: Axis) {
    && axis.anchors == {0} && |axis.times| > 0 && Increasing(axis.times)
    && (forall t :: t in axis.times <==> t == 0 || t in events)
    && |events| > 0 && forall t :: t in events ==> 0 < t < DAY
  }

  lemma OneDayAxis(start: Option<int>, events: seq<int>, axis: Axis)
    requires start == Some(0) && OneDay(events, axis)
    ensures IsAxis(start, events, Some(axis))
  {
    MidnightOf(0);
    assert Greatest(events) in events;
    assert DayOf(Greatest(events)) == 0;
  }

  function OpenAxis(): Axis {
    Axis([0, 2, 5], {0})
  }

  lemma OpenDay(events: seq<int>)
    requires events == [2, 5, 5]
    ensures OneDay(events, OpenAxis())
  {
    assert 2 in events && 5 in events;
    assert 0 in OpenAxis().times && 2 in OpenAxis().times && 5 in OpenAxis().times;
  }

  function OpenTable(): seq<Standing> {
    [Standing(1, Some(1500), Some(1400), "a"), Standing(2, Some(1500), Some(1350), "b"),
     Standing(3, Some(1200), Some(1100), "c")]
  }

  lemma OpenTableIs(r: int)
    ensures LiveOrder(OpenTable()) && DistinctNames(OpenTable())
    ensures LiveStandings(OpenEntries(r)) == OpenTable()
  {
    assert NameBefore("a", "b");
  }

  /** What the results about the last bucket suppose of a run, a query and its axis. */
  ghost predicate WhileOpen(t: Tables, polls: seq<Poll>, since: int, q: Query, axis: Axis) {
    && Chronological(t, since) && Accounted(t) && WellTimed(polls, since) && DistinctBatches(polls)
    && ReadsTables(q, Run(t, polls)) && WindowOpen(q, Clock(polls, since)) && Unique(q.roster)
    && IsAxis(q.start, EventTimes(Entries(q)), Some(axis))
  }

  lemma OpenAxisIs(board: int, r: int)
    ensures IsAxis(OpenQuery(board, r).start, EventTimes(Entries(OpenQuery(board, r))), Some(OpenAxis()))
  {
    OpenEntriesAre(board, r);
    OpenTimes(r);
    OpenDay(EventTimes(OpenEntries(r)));
    OneDayAxis(OpenQuery(board, r).start, EventTimes(OpenEntries(r)), OpenAxis());
  }

  lemma OpenCase(board: int, r: int)
    ensures WhileOpen(Older(board), [FirstPoll(board)], 0, OpenQuery(board, r), OpenAxis())
  {
    PollIsPossible(board);
    OpenReadsTables(board, r);
    OpenAxisIs(board, r);
  }

  lemma LiveTableFollows(t: Tables, polls: seq<Poll>, since: int, q: Query, axis: Axis, h: History,
                         table: seq<Standing>)
    requires WhileOpen(t, polls, since, q, axis) && q.mode.PeakMode? && Charts(ChartOf(q), axis, h)
    requires forall e :: e in q.roster ==> LogEndsLive(q, e)
    requires LiveOrder(table) && DistinctNames(table) && table == LiveStandings(Entries(q)) && |table| > 0
    ensures |h.buckets| > 0 && PositionsAre(Last(h.buckets).players, table)
  {
    forall i | 0 <= i < |table|
      ensures |h.buckets| > 0 && Get(Last(h.buckets).PlayerPositions(), table[i].id) == Some(i + 1)
    {
      LastBucketIsLiveTable(t, polls, since, q, axis, h, table, i);
    }
    LastBucket(ChartOf(q), axis, h);
  }

  lemma LastPeakFollows(t: Tables, polls: seq<Poll>, since: int, q: Query, axis: Axis, h: History, e: Entrant, i: nat)
    requires WhileOpen(t, polls, since, q, axis) && q.mode.PeakMode? && Charts(ChartOf(q), axis, h)
    requires i < |q.roster| && q.roster[i] == e && e.live.Some?
    ensures e.id in h.players && |h.players[e.id]| > 0
    ensures Last(h.players[e.id]).peakRating == Some(e.live.value.maxRating)
  {
    LastBucketChartsLivePeaks(t, polls, since, q, axis, h, i);
  }

  lemma LogEndsAt(q: Query, e: Entrant, s: Series)
    requires SeriesOf(q, e) == s
    requires s.points == [] || (e.live.Some? && Last(s.points).rating == e.live.value.currentRating)
    ensures LogEndsLive(q, e)
  {
  }

  lemma LogEndsForAll(q: Query, a: Entrant, b: Entrant, c: Entrant)
    requires q.roster == [a, b, c] && LogEndsLive(q, a) && LogEndsLive(q, b) && LogEndsLive(q, c)
    ensures forall e :: e in q.roster ==> LogEndsLive(q, e)
  {
  }

  lemma LogEndsIn(q: Query, board: int, r: int)
    requires OpenResults(q, board, r) && r == 1400
    ensures LogEndsLive(q, EntrantA()) && LogEndsLive(q, EntrantB()) && LogEndsLive(q, EntrantC())
  {
    SeriesOpen(q, board, r);
    LogEndsAt(q, EntrantA(), SeriesA(r));
    LogEndsAt(q, EntrantB(), SeriesB());
    LogEndsAt(q, EntrantC(), SeriesC());
  }

  lemma OpenLogEnds(board: int, r: int)
    requires r == 1400
    ensures forall e :: e in OpenQuery(board, r).roster ==> LogEndsLive(OpenQuery(board, r), e)
  {
    OpenRows(board, r);
    LogEndsIn(OpenQuery(board, r), board, r);
    LogEndsForAll(OpenQuery(board, r), EntrantA(), EntrantB(), EntrantC());
  }

  /** With a's game at the live current rating the last bucket is the live table, the unrecorded entrant at the
      live peak. */
  lemma LastBucketCase(board: int) returns (h: History)
    ensures Charts(ChartOf(OpenQuery(board, 1400)), OpenAxis(), h)
    ensures |h.buckets| > 0 && PositionsAre(Last(h.buckets).players, OpenTable())
    ensures 3 in h.players && |h.players[3]| > 0 && Last(h.players[3]).peakRating == Some(1200)
  {
    var t, polls, q := Older(board), [FirstPoll(board)], OpenQuery(board, 1400);
    OpenCase(board, 1400);
    OpenTableIs(1400);
    OpenEntriesAre(board, 1400);
    OpenLogEnds(board, 1400);
    h := ChartExists(ChartOf(q), OpenAxis());
    LiveTableFollows(t, polls, 0, q, OpenAxis(), h, OpenTable());
    LastPeakFollows(t, polls, 0, q, OpenAxis(), h, EntrantC(), 2);
  }

  predicate PlacedBefore(b: Bucket, x: int, y: int) {
    x in b.PlayerPositions() && y in b.PlayerPositions() && b.PlayerPositions()[x] < b.PlayerPositions()[y]
  }

  lemma OrderDiffers(t: Tables, polls: seq<Poll>, since: int, q: Query, axis: Axis, h: History, entries: seq<Entry>,
                     x: Entry, y: Entry)
    requires WhileOpen(t, polls, since, q, axis) && q.mode.PeakMode? && Charts(ChartOf(q), axis, h)
    requires Entries(q) == entries && x in entries && y in entries
    requires Before(FinalStanding(x), FinalStanding(y))
    ensures |h.buckets| > 0 && PlacedBefore(Last(h.buckets), x.id, y.id)
  {
    RosterRecorded(t, polls, since, q);
    LastBucketIsFinal(q, axis, h);
    EntriesAreTimed(q);
    PositionsFollowOrder(FinalStandings(entries), FinalStanding(x), FinalStanding(y));
  }

  lemma PlacedOtherwise(b: Bucket, table: seq<Standing>, x: nat, y: nat)
    requires y < x < |table| && PlacedBefore(b, table[x].id, table[y].id)
    ensures !PositionsAre(b.players, table)
  {
  }

  lemma TieFalls(r: int)
    requires r < 1350
    ensures Before(FinalStanding(OpenEntries(r)[1]), FinalStanding(OpenEntries(r)[0]))
  {
  }

  /** With a's game below b's current rating the last bucket puts b ahead of a, the live table a ahead of b. */
  lemma TieBreakCanDiffer(board: int, r: int, h: History)
    requires r < 1350 && Charts(ChartOf(OpenQuery(board, r)), OpenAxis(), h)
    ensures WhileOpen(Older(board), [FirstPoll(board)], 0, OpenQuery(board, r), OpenAxis())
    ensures LiveOrder(OpenTable()) && LiveStandings(Entries(OpenQuery(board, r))) == OpenTable()
    ensures OpenTable()[0].id == 1 && OpenTable()[1].id == 2 && |h.buckets| > 0 && PlacedBefore(Last(h.buckets), 2, 1)
    ensures !PositionsAre(Last(h.buckets).players, OpenTable())
  {
    OpenCase(board, r);
    OpenTableIs(r);
    OpenEntriesAre(board, r);
    TieFalls(r);
    OrderDiffers(Older(board), [FirstPoll(board)], 0, OpenQuery(board, r), OpenAxis(), h, OpenEntries(r),
                 OpenEntries(r)[1], OpenEntries(r)[0]);
    PlacedOtherwise(Last(h.buckets), OpenTable(), 1, 0);
  }

  // ---- a game that finishes after the end ----

  /** The window closed at 3; the one game started at 1 and was over at 10. */
  function LateQuery(board: int): Query {
    Query(PeakMode, board, Some(0), Some(3), [EntrantA()],
          [Game(1, 7, Some(board), 1, Some(10), None, Some(1500))], [], [])
  }

  lemma OneSeries(q: Query, e: Entrant, g: Game, p: int)
    requires e.profile == Some(p) && g.profile == p && g.oldRating.None?
    requires WindowGames(q) == [g] && EarlierGames(q) == [] && Observed(q) == []
    ensures SeriesOf(q, e)
      == Series(e.live, [Point(g.completedAt.GetOr(0), g.newRating.GetOr(0))], None, None, None, [])
  {
    OnePoint(g, p);
    NothingCarried(p, e.MaxRating());
    NoObservations(q.start);
  }

  lemma EntriesOfOne(q: Query, e: Entrant, s: Series)
    requires q.roster == [e] && SeriesOf(q, e) == s
    ensures Entries(q) == [Entry(e.id, e.name, s)]
  {
  }

  lemma TimesOfOne(e: Entry)
    ensures EventTimes([e]) == Times(e.series.points) + Times(e.series.snaps)
  {
    OneMoreEntry([], e);
    assert [] + [e] == [e];
  }

  function LateSeries(): Series {
    Series(EntrantA().live, [Point(10, 1500)], None, None, None, [])
  }

  lemma LateRows(board: int)
    ensures SeriesOf(LateQuery(board), EntrantA()) == LateSeries()
  {
    var q := LateQuery(board);
    assert EntrantA() in q.roster;
    OneGame(q, q.games[0]);
    assert Observed(q) == [] by {
      assert forall s :: s !in Observed(q);
    }
    OneSeries(q, EntrantA(), q.games[0], 7);
  }

  lemma LateTimes(board: int)
    ensures EventTimes(Entries(LateQuery(board))) == [10]
  {
    LateRows(board);
    EntriesOfOne(LateQuery(board), EntrantA(), LateSeries());
    TimesOfOne(Entry(1, "a", LateSeries()));
    OneTime(Point(10, 1500));
  }

  lemma LateDay(events: seq<int>, at: int) returns (axis: Axis)
    requires events == [at] && 0 < at < DAY
    ensures OneDay(events, axis) && Last(axis.times) == at
  {
    axis := Axis([0, at], {0});
    assert axis.times[0] == 0 && axis.times[1] == at && events[0] == at;
  }

  lemma ChartOfOneDay(q: Query, axis: Axis) returns (h: History)
    requires q.start == Some(0) && OneDay(EventTimes(Entries(q)), axis)
    ensures IsAxis(q.start, EventTimes(Entries(q)), Some(axis)) && Charts(ChartOf(q), axis, h)
    ensures |h.buckets| > 0 && Last(h.buckets).at == Last(axis.times)
  {
    OneDayAxis(q.start, EventTimes(Entries(q)), axis);
    h := ChartExists(ChartOf(q), axis);
    LastBucket(ChartOf(q), axis, h);
  }

  /** It is charted at 10, and the last bucket lies there. */
  lemma LateFinishIsCharted(board: int) returns (axis: Axis, h: History)
    ensures IsAxis(Some(0), EventTimes(Entries(LateQuery(board))), Some(axis))
    ensures Charts(ChartOf(LateQuery(board)), axis, h)
    ensures |h.buckets| > 0 && LateQuery(board).end == Some(3) && Last(h.buckets).at == 10
  {
    LateTimes(board);
    axis := LateDay(EventTimes(Entries(LateQuery(board))), 10);
    h := ChartOfOneDay(LateQuery(board), axis);
  }

  // ---- a frozen peak above the chart, without any game ----

  lemma OneRowTick(t: Tables, row: Polled, now: int)
    requires row.currentRating.Some? && Stored(t.log, row.pair) != Some(row.Reading())
    ensures Tick(t, [row], now)
      == Tables(t.log + [Snapshot(t.nextId, row.pair, row.maxRating, row.currentRating, now)],
                t.live[row.pair := LiveRating(row.maxRating, row.currentRating.value, row.stats)], t.nextId + 1)
  {
    OverwrittenOnce(t.live, row);
    FilterAll([row], (r: Polled) => Stored(t.log, r.pair) != Some(r.Reading()));
    assert Init([row]) == [];
    assert Stamp([row], now, t.nextId) == [Snapshot(t.nextId, row.pair, row.maxRating, row.currentRating, now)];
  }

  function Reported(pair: Pair, rating: int): Polled {
    Polled(pair, rating, Some(rating), [])
  }

  function Recorded(pair: Pair, id: int, rating: int, at: int): Snapshot {
    Snapshot(id, pair, rating, Some(rating), at)
  }

  lemma StoredThen(log: seq<Snapshot>, s: Snapshot)
    requires InOrder(log) && forall x :: x in log ==> x.id < s.id && x.observedAt <= s.observedAt
    ensures InOrder(log + [s]) && Stored(log + [s], s.pair) == Some(s.Reading())
  {
    PushLatest(log, s, s.pair);
  }

  function RebasedLog(pair: Pair): seq<Snapshot> {
    [Recorded(pair, 1, 1700, 1), Recorded(pair, 2, 1650, 2), Recorded(pair, 3, 1800, 20)]
  }

  /** Reported at 1700 and rebased to 1650, both before the window 5..10; up at 1800 after it. */
  function RebasedPolls(pair: Pair): seq<Poll> {
    [Poll(1, [Reported(pair, 1700)]), Poll(2, [Reported(pair, 1650)]), Poll(20, [Reported(pair, 1800)])]
  }

  lemma LogOfOne(pair: Pair)
    ensures InOrder([Recorded(pair, 1, 1700, 1)])
    ensures Stored([Recorded(pair, 1, 1700, 1)], pair) == Some((1700, Some(1700)))
  {
    StoredThen([], Recorded(pair, 1, 1700, 1));
    assert [] + [Recorded(pair, 1, 1700, 1)] == [Recorded(pair, 1, 1700, 1)];
  }

  lemma LogOfTwo(pair: Pair)
    ensures InOrder([Recorded(pair, 1, 1700, 1), Recorded(pair, 2, 1650, 2)])
    ensures Stored([Recorded(pair, 1, 1700, 1), Recorded(pair, 2, 1650, 2)], pair) == Some((1650, Some(1650)))
  {
    LogOfOne(pair);
    StoredThen([Recorded(pair, 1, 1700, 1)], Recorded(pair, 2, 1650, 2));
    assert [Recorded(pair, 1, 1700, 1)] + [Recorded(pair, 2, 1650, 2)]
      == [Recorded(pair, 1, 1700, 1), Recorded(pair, 2, 1650, 2)];
  }

  lemma LogInOrder(pair: Pair)
    ensures InOrder(RebasedLog(pair))
  {
    LogOfTwo(pair);
    assert Init(RebasedLog(pair)) == [Recorded(pair, 1, 1700, 1), Recorded(pair, 2, 1650, 2)];
  }

  lemma RunOfThree(t: Tables, a: Poll, b: Poll, c: Poll, t1: Tables, t2: Tables, t3: Tables)
    requires Tick(t, a.batch, a.at) == t1 && Tick(t1, b.batch, b.at) == t2 && Tick(t2, c.batch, c.at) == t3
    ensures Run(t, [a, b, c]) == t3
  {
    assert Init([a, b, c]) == [a, b] && Init([a, b]) == [a] && Init([a]) == [];
    assert Run(t, [a]) == t1;
  }

  function Shows(pair: Pair, log: seq<Snapshot>, rating: int): Tables {
    Tables(log, map[pair := LiveRating(rating, rating, [])], |log| + 1)
  }

  lemma ShownNext(pair: Pair, log: seq<Snapshot>, before: int, rating: int, s: Snapshot)
    ensures Tables(log + [s], Shows(pair, log, before).live[pair := LiveRating(rating, rating, [])], |log| + 2)
      == Shows(pair, log + [s], rating)
  {
    var live, now := Shows(pair, log, before).live, LiveRating(rating, rating, []);
    assert live[pair := now] == map[pair := now];
  }

  lemma NextReport(pair: Pair, log: seq<Snapshot>, before: int, rating: int, at: int)
    requires Stored(log, pair) != Some((rating, Some(rating)))
    ensures Tick(Shows(pair, log, before), [Reported(pair, rating)], at)
      == Shows(pair, log + [Recorded(pair, |log| + 1, rating, at)], rating)
  {
    OneRowTick(Shows(pair, log, before), Reported(pair, rating), at);
    ShownNext(pair, log, before, rating, Recorded(pair, |log| + 1, rating, at));
  }

  lemma FirstReport(pair: Pair)
    ensures Tick(Tables([], map[], 1), [Reported(pair, 1700)], 1) == Shows(pair, [Recorded(pair, 1, 1700, 1)], 1700)
  {
    OneRowTick(Tables([], map[], 1), Reported(pair, 1700), 1);
    assert [] + [Recorded(pair, 1, 1700, 1)] == [Recorded(pair, 1, 1700, 1)];
  }

  lemma LaterReports(pair: Pair, t: Tables, one: seq<Snapshot>, two: seq<Snapshot>)
    requires Tick(t, [Reported(pair, 1700)], 1) == Shows(pair, one, 1700)
    requires |one| == 1 && Stored(one, pair) == Some((1700, Some(1700)))
    requires two == one + [Recorded(pair, 2, 1650, 2)] && Stored(two, pair) == Some((1650, Some(1650)))
    ensures Run(t, RebasedPolls(pair)) == Shows(pair, two + [Recorded(pair, 3, 1800, 20)], 1800)
  {
    NextReport(pair, one, 1700, 1650, 2);
    NextReport(pair, two, 1650, 1800, 20);
    RunOfThree(t, Poll(1, [Reported(pair, 1700)]), Poll(2, [Reported(pair, 1650)]), Poll(20, [Reported(pair, 1800)]),
               Shows(pair, one, 1700), Shows(pair, two, 1650), Shows(pair, two + [Recorded(pair, 3, 1800, 20)], 1800));
  }

  lemma RebasedRun(pair: Pair, t: Tables)
    requires t == Tables([], map[], 1)
    ensures Run(t, RebasedPolls(pair)) == Shows(pair, RebasedLog(pair), 1800)
  {
    var one, two := [Recorded(pair, 1, 1700, 1)], [Recorded(pair, 1, 1700, 1), Recorded(pair, 2, 1650, 2)];
    LogOfOne(pair);
    LogOfTwo(pair);
    FirstReport(pair);
    assert two == one + [Recorded(pair, 2, 1650, 2)];
    assert RebasedLog(pair) == two + [Recorded(pair, 3, 1800, 20)];
    LaterReports(pair, t, one, two);
  }

  function RebasedEntrant(): Entrant {
    Entrant(1, Some(7), "a", Some(LiveRating(1800, 1800, [])))
  }

  function RebasedQuery(board: int): Query {
    Query(PeakMode, board, Some(5), Some(10), [RebasedEntrant()], [], RebasedLog(Pair(7, board)), [])
  }

  lemma RebasedObserved(board: int)
    ensures var pair := Pair(7, board);
      Observed(RebasedQuery(board)) == [Recorded(pair, 1, 1700, 1), Recorded(pair, 2, 1650, 2)]
  {
    var q, pair := RebasedQuery(board), Pair(7, board);
    var a, b, c := Recorded(pair, 1, 1700, 1), Recorded(pair, 2, 1650, 2), Recorded(pair, 3, 1800, 20);
    LogInOrder(pair);
    ObservedIsRelevant(q);
    assert RebasedEntrant() in q.roster;
    assert Init([a, b, c]) == [a, b];
    OneMoreRow(q, [a, b, c]);
    FilterAll([a, b], (s: Snapshot) => Relevant(q, s));
  }

  lemma SplitBefore(x: Point, y: Point, start: int)
    requires x.at <= start && y.at <= start
    ensures AfterStart([x, y], Some(start)) == [] && BaseOf([x, y], Some(start)) == Some(y.rating)
  {
    assert Init([x, y]) == [x] && Init([x]) == [];
    assert AfterStart([x], Some(start)) == [];
  }

  function RebasedSeries(): Series {
    Series(RebasedEntrant().live, [], None, None, Some(1650), [])
  }

  /** Without games and with two early observations a series is the newer of them. */
  lemma EarlySeries(q: Query, e: Entrant, p: int, a: Snapshot, b: Snapshot, start: int)
    requires e.profile == Some(p) && q.mode.PeakMode? && q.start == Some(start) && q.games == []
    requires Observed(q) == [a, b] && a.pair.profile == p && b.pair.profile == p
    requires a.observedAt <= start && b.observedAt <= start
    ensures SeriesOf(q, e) == Series(e.live, [], None, None, Some(b.maxRating), [])
  {
    assert WindowGames(q) == [] by {
      assert forall g :: g !in WindowGames(q);
    }
    assert EarlierGames(q) == [] by {
      assert forall g :: g !in EarlierGames(q);
    }
    TwoObserved(a, b, p);
    var x, y := Point(a.observedAt, a.maxRating), Point(b.observedAt, b.maxRating);
    assert ObservationsOf([a, b], p, PeakMode) == [x, y];
    SplitBefore(x, y, start);
    NothingCarried(p, e.MaxRating());
  }

  lemma RebasedSeriesIs(board: int)
    ensures SeriesOf(RebasedQuery(board), RebasedEntrant()) == RebasedSeries()
  {
    var pair := Pair(7, board);
    RebasedObserved(board);
    EarlySeries(RebasedQuery(board), RebasedEntrant(), 7, Recorded(pair, 1, 1700, 1), Recorded(pair, 2, 1650, 2), 5);
  }

  function RebasedWorld(pair: Pair): World {
    World(Run(Tables([], map[], 1), RebasedPolls(pair)), M.Db(map[], map[], {}))
  }

  lemma RebasedRaw(board: int)
    ensures RawPeak(RebasedWorld(Pair(7, board)), 7, board, 10) == Some(1700)
  {
    var pair := Pair(7, board);
    RebasedRun(pair, Tables([], map[], 1));
    var log := RebasedLog(pair);
    assert log[0] == Recorded(pair, 1, 1700, 1);
    EarlyPeak(log, pair, 10, log[0]);
    NoGamesInFlight(7, board, 10);
  }

  lemma RebasedReads(board: int)
    ensures ReadsWorld(RebasedQuery(board), RebasedWorld(Pair(7, board)))
    ensures LivePeak(RebasedWorld(Pair(7, board)).ratings, Pair(7, board)) == Some(1800)
  {
    RebasedRun(Pair(7, board), Tables([], map[], 1));
  }

  /** A chart with one entrant and no event ends at the baseline. */
  lemma QuietChart(q: Query, e: Entrant, s: Series) returns (axis: Axis, h: History)
    requires q.mode.PeakMode? && q.roster == [e] && SeriesOf(q, e) == s && s.points == [] && s.snaps == []
    requires q.start.Some? && 0 <= q.start.value < DAY
    ensures IsAxis(q.start, EventTimes(Entries(q)), Some(axis)) && Charts(ChartOf(q), axis, h)
    ensures e.id in h.players && |h.players[e.id]| > 0
    ensures Last(h.players[e.id]).peakRating == Clamp(Baseline(PeakMode, s), s.live)
  {
    axis := Axis([0], {0});
    EntriesOfOne(q, e, s);
    TimesOfOne(Entry(e.id, e.name, s));
    MidnightOf(0);
    assert 0 in axis.times;
    h := ChartExists(ChartOf(q), axis);
    LastPeakIs(q, axis, h, 0);
    EndIs(s, 0);
  }

  lemma RebasedChart(q: Query, board: int) returns (axis: Axis, h: History)
    requires q == RebasedQuery(board)
    ensures IsAxis(q.start, EventTimes(Entries(q)), Some(axis)) && Charts(ChartOf(q), axis, h)
    ensures 1 in h.players && |h.players[1]| > 0 && Last(h.players[1]).peakRating == Some(1650)
  {
    RebasedSeriesIs(board);
    axis, h := QuietChart(q, RebasedEntrant(), RebasedSeries());
  }

  /** After this run, with no game at all, the frozen table shows 1700 and the chart ends at 1650. */
  lemma FrozenAboveChart(q: Query, w: World, board: int) returns (axis: Axis, h: History)
    requires q == RebasedQuery(board) && w == RebasedWorld(Pair(7, board))
    ensures ReadsWorld(q, w) && q.games == [] && FrozenPeak(w, 7, board, 10) == Some(1700)
    ensures IsAxis(q.start, EventTimes(Entries(q)), Some(axis)) && Charts(ChartOf(q), axis, h)
    ensures 1 in h.players && |h.players[1]| > 0 && Last(h.players[1]).peakRating == Some(1650)
  {
    RebasedReads(board);
    RebasedRaw(board);
    axis, h := RebasedChart(q, board);
  }

  // ---- a point of the past that moves ----

  /** A series of one charted game and of observations that all follow the start. */
  lemma GameSeries(q: Query, e: Entrant, p: int, g: Game, seen: seq<Point>)
    requires e.profile == Some(p) && g.profile == p && g.oldRating.None?
    requires WindowGames(q) == [g] && EarlierGames(q) == [] && ObservationsOf(Observed(q), p, q.mode) == seen
    requires AfterStart(seen, q.start) == seen && BaseOf(seen, q.start) == None
    ensures SeriesOf(q, e)
      == Series(e.live, [Point(g.completedAt.GetOr(0), g.newRating.GetOr(0))], None, None, None, seen)
  {
    OnePoint(g, p);
    NothingCarried(p, e.MaxRating());
  }

  lemma BothAfter(x: Point, y: Point, start: Option<int>)
    requires start.None? || (start.value < x.at && start.value < y.at)
    ensures AfterStart([x], start) == [x] && BaseOf([x], start) == None
    ensures AfterStart([x, y], start) == [x, y] && BaseOf([x, y], start) == None
  {
    NoBase([x], start);
    NoBase([x, y], start);
  }

  lemma OneSeen(a: Snapshot, p: int, mode: Mode)
    requires a.pair.profile == p
    ensures ObservationsOf([a], p, mode) == [Point(a.observedAt, ObservedMetric(mode, a).GetOr(0))]
  {
    OneMoreObserved([], a, p, mode);
    assert [] + [a] == [a];
  }

  /** A game left 1600 at time 3, and the peak reported at 5 was 1500. */
  function PastGame(board: int): Game {
    Game(1, 7, Some(board), 1, Some(3), None, Some(1600))
  }

  function PastEntrant(peak: int): Entrant {
    Entrant(1, Some(7), "a", Some(LiveRating(peak, peak, [])))
  }

  function PastQuery(board: int, peak: int, log: seq<Snapshot>): Query {
    Query(PeakMode, board, Some(0), None, [PastEntrant(peak)], [PastGame(board)], log, [])
  }

  lemma PastRows(board: int, peak: int, log: seq<Snapshot>)
    requires InOrder(log) && forall s :: s in log ==> s.pair == Pair(7, board)
    ensures var q := PastQuery(board, peak, log);
      WindowGames(q) == [PastGame(board)] && EarlierGames(q) == [] && Observed(q) == log
  {
    var q := PastQuery(board, peak, log);
    assert PastEntrant(peak) in q.roster;
    ObservedAll(q);
    OneGame(q, PastGame(board));
  }

  /** A series of one charted game and one later observation. */
  lemma SeriesOfOne(q: Query, e: Entrant, p: int, g: Game, a: Snapshot)
    requires e.profile == Some(p) && g.profile == p && g.oldRating.None? && a.pair.profile == p
    requires WindowGames(q) == [g] && EarlierGames(q) == [] && Observed(q) == [a]
    requires q.start.None? || q.start.value < a.observedAt
    ensures SeriesOf(q, e)
      == Series(e.live, [Point(g.completedAt.GetOr(0), g.newRating.GetOr(0))], None, None, None,
                [Point(a.observedAt, ObservedMetric(q.mode, a).GetOr(0))])
  {
    var x := Point(a.observedAt, ObservedMetric(q.mode, a).GetOr(0));
    OneSeen(a, p, q.mode);
    BothAfter(x, x, q.start);
    GameSeries(q, e, p, g, [x]);
  }

  lemma TwoSeen(a: Snapshot, b: Snapshot, p: int, seen: seq<Point>)
    requires a.pair.profile == p && b.pair.profile == p
    requires seen == [Point(a.observedAt, a.maxRating), Point(b.observedAt, b.maxRating)]
    ensures ObservationsOf([a, b], p, PeakMode) == seen
  {
    TwoObserved(a, b, p);
  }

  /** And of two. */
  lemma SeriesOfTwo(q: Query, e: Entrant, p: int, g: Game, a: Snapshot, b: Snapshot, seen: seq<Point>)
    requires e.profile == Some(p) && g.profile == p && g.oldRating.None? && q.mode.PeakMode?
    requires a.pair.profile == p && b.pair.profile == p
    requires WindowGames(q) == [g] && EarlierGames(q) == [] && Observed(q) == [a, b]
    requires seen == [Point(a.observedAt, a.maxRating), Point(b.observedAt, b.maxRating)]
    requires q.start.None? || (q.start.value < a.observedAt && q.start.value < b.observedAt)
    ensures SeriesOf(q, e)
      == Series(e.live, [Point(g.completedAt.GetOr(0), g.newRating.GetOr(0))], None, None, None, seen)
  {
    TwoSeen(a, b, p, seen);
    BothAfter(seen[0], seen[1], q.start);
    GameSeries(q, e, p, g, seen);
  }

  lemma PastFirst(q: Query, board: int, a: Snapshot)
    requires q.mode.PeakMode? && q.start == Some(0) && a == Recorded(Pair(7, board), 1, 1500, 5)
    requires WindowGames(q) == [PastGame(board)] && EarlierGames(q) == [] && Observed(q) == [a]
    ensures SeriesOf(q, PastEntrant(1500))
      == Series(PastEntrant(1500).live, [Point(3, 1600)], None, None, None, [Point(5, 1500)])
  {
    SeriesOfOne(q, PastEntrant(1500), 7, PastGame(board), a);
  }

  lemma PastSecond(q: Query, board: int, a: Snapshot, b: Snapshot)
    requires q.mode.PeakMode? && q.start == Some(0)
    requires a == Recorded(Pair(7, board), 1, 1500, 5) && b == Recorded(Pair(7, board), 2, 1650, 7)
    requires WindowGames(q) == [PastGame(board)] && EarlierGames(q) == [] && Observed(q) == [a, b]
    ensures SeriesOf(q, PastEntrant(1650))
      == Series(PastEntrant(1650).live, [Point(3, 1600)], None, None, None, [Point(5, 1500), Point(7, 1650)])
  {
    SeriesOfTwo(q, PastEntrant(1650), 7, PastGame(board), a, b, [Point(5, 1500), Point(7, 1650)]);
  }

  lemma PastPeaks(s: Series, s': Series)
    requires s == Series(PastEntrant(1500).live, [Point(3, 1600)], None, None, None, [Point(5, 1500)])
    requires s' == Series(PastEntrant(1650).live, [Point(3, 1600)], None, None, None, [Point(5, 1500), Point(7, 1650)])
    ensures MetricAt(PeakMode, s, 3) == Some(1500)
    ensures MetricAt(PeakMode, s', 3) == Some(1600)
  {
    assert Init(s.points) == [] && Init(s.snaps) == [];
    assert UpTo(s.points, 3) == s.points && UpTo(s.snaps, 3) == [];
    assert Init(s'.snaps) == s.snaps && UpTo(s'.snaps, 3) == [];
    assert MaxRating(s.points) == Some(1600);
  }

  lemma PastLogs(pair: Pair, t: Tables, one: seq<Snapshot>, two: seq<Snapshot>)
    requires t == Tables([], map[], 1)
    requires one == [Recorded(pair, 1, 1500, 5)] && two == [Recorded(pair, 1, 1500, 5), Recorded(pair, 2, 1650, 7)]
    ensures InOrder(one) && InOrder(two)
    ensures Run(t, [Poll(5, [Reported(pair, 1500)])]) == Shows(pair, one, 1500)
    ensures Run(t, [Poll(5, [Reported(pair, 1500)]), Poll(7, [Reported(pair, 1650)])]) == Shows(pair, two, 1650)
  {
    StoredThen([], one[0]);
    assert [] + [one[0]] == one && one + [two[1]] == two;
    StoredThen(one, two[1]);
    OneRowTick(t, Reported(pair, 1500), 5);
    NextReport(pair, one, 1500, 1650, 7);
    PastBuckets.OneMorePoll(t, [], Poll(5, [Reported(pair, 1500)]));
    PastBuckets.OneMorePoll(t, [Poll(5, [Reported(pair, 1500)])], Poll(7, [Reported(pair, 1650)]));
    assert [] + [Poll(5, [Reported(pair, 1500)])] == [Poll(5, [Reported(pair, 1500)])];
    assert [Poll(5, [Reported(pair, 1500)])] + [Poll(7, [Reported(pair, 1650)])]
      == [Poll(5, [Reported(pair, 1500)]), Poll(7, [Reported(pair, 1650)])];
  }

  /** The endpoint read after the first of two polls and after the second: the chart at time 3 goes from 1500 to
      1600, with the same game in both. */
  lemma PastPointMoves(board: int, q: Query, q': Query, one: seq<Snapshot>, two: seq<Snapshot>, t: Tables)
    requires t == Tables([], map[], 1) && one == [Recorded(Pair(7, board), 1, 1500, 5)]
    requires two == [Recorded(Pair(7, board), 1, 1500, 5), Recorded(Pair(7, board), 2, 1650, 7)]
    requires q == PastQuery(board, 1500, one) && q' == PastQuery(board, 1650, two)
    ensures var pair := Pair(7, board);
      ReadTwice(t, [Poll(5, [Reported(pair, 1500)])], [Poll(7, [Reported(pair, 1650)])], 0, q, q')
    ensures MetricAt(PeakMode, SeriesOf(q, PastEntrant(1500)), 3) == Some(1500)
    ensures MetricAt(PeakMode, SeriesOf(q', PastEntrant(1650)), 3) == Some(1600)
  {
    var pair := Pair(7, board);
    PastLogs(pair, t, one, two);
    PastRows(board, 1500, one);
    PastRows(board, 1650, two);
    PastFirst(q, board, one[0]);
    PastSecond(q', board, two[0], two[1]);
    PastPeaks(SeriesOf(q, PastEntrant(1500)), SeriesOf(q', PastEntrant(1650)));
    PastReads(board, q, q', one, two, t, [Poll(5, [Reported(pair, 1500)])], [Poll(7, [Reported(pair, 1650)])]);
  }

  lemma PastReads(board: int, q: Query, q': Query, one: seq<Snapshot>, two: seq<Snapshot>, t: Tables,
                  polls: seq<Poll>, more: seq<Poll>)
    requires t == Tables([], map[], 1) && |polls| == |more| == 1 && polls[0].at == 5 && more[0].at == 7
    requires q == PastQuery(board, 1500, one) && q' == PastQuery(board, 1650, two)
    requires Run(t, polls) == Shows(Pair(7, board), one, 1500)
    requires Run(t, [polls[0], more[0]]) == Shows(Pair(7, board), two, 1650)
    ensures ReadTwice(t, polls, more, 0, q, q')
  {
    assert polls + more == [polls[0], more[0]];
    assert Init(polls + more) == polls && Init(polls) == [];
    PastReadsTables(board, q, 1500, one, Run(t, polls));
    PastReadsTables(board, q', 1650, two, Run(t, polls + more));
  }

  lemma PastReadsTables(board: int, q: Query, peak: int, log: seq<Snapshot>, t: Tables)
    requires q == PastQuery(board, peak, log) && t == Shows(Pair(7, board), log, peak)
    ensures ReadsTables(q, t)
  {
  }

  // ---- a frozen current rating that the chart does not end at ----

  /** A game left 1400 at time 2; 1420 was observed at 5, and the window closed at 10. */
  function SeenQuery(board: int): Query {
    Query(CurrentMode, board, Some(0), Some(10), [SeenEntrant()], [SeenGame(board)], SeenLog(board), [])
  }

  function SeenGame(board: int): Game {
    Game(1, 7, Some(board), 1, Some(2), None, Some(1400))
  }

  function SeenEntrant(): Entrant {
    Entrant(1, Some(7), "a", Some(LiveRating(1500, 1420, [])))
  }

  function SeenLog(board: int): seq<Snapshot> {
    [Snapshot(1, Pair(7, board), 1500, Some(1420), 5)]
  }

  function SeenSeries(): Series {
    Series(SeenEntrant().live, [Point(2, 1400)], None, None, None, [Point(5, 1420)])
  }

  function SeenWorld(board: int, m: M.Match, played: M.Played): World {
    World(Tables(SeenLog(board), map[Pair(7, board) := LiveRating(1500, 1420, [])], 2),
          M.Db(map[1 := m], map[(1, 7) := played], {}))
  }

  predicate LeavesAt2(board: int, m: M.Match, played: M.Played) {
    && m.board == Some(board) && m.startedAt == 1 && m.completedAt == Some(2)
    && played.oldRating == None && played.newRating == Some(1400)
  }

  lemma SeenGames(q: Query, board: int)
    requires q == SeenQuery(board)
    ensures WindowGames(q) == [SeenGame(board)] && EarlierGames(q) == []
  {
    assert SeenEntrant() in q.roster;
    OneGame(q, SeenGame(board));
  }

  lemma SeenObserved(q: Query, board: int)
    requires q == SeenQuery(board)
    ensures Observed(q) == SeenLog(board)
  {
    assert SeenEntrant() in q.roster;
    assert Init(q.log) == [];
    ObservedAll(q);
  }

  lemma SeenSeriesIn(q: Query, board: int)
    requires q.mode.CurrentMode? && q.start == Some(0)
    requires WindowGames(q) == [SeenGame(board)] && EarlierGames(q) == [] && Observed(q) == SeenLog(board)
    ensures SeriesOf(q, SeenEntrant()) == SeenSeries()
  {
    SeriesOfOne(q, SeenEntrant(), 7, SeenGame(board), SeenLog(board)[0]);
  }

  lemma SeenSeriesIs(board: int)
    ensures SeriesOf(SeenQuery(board), SeenEntrant()) == SeenSeries()
  {
    SeenGames(SeenQuery(board), board);
    SeenObserved(SeenQuery(board), board);
    SeenSeriesIn(SeenQuery(board), board);
  }

  lemma SeenFrozen(board: int, m: M.Match, played: M.Played)
    requires LeavesAt2(board, m, played)
    ensures FrozenCurrent(SeenWorld(board, m, played), 7, board, 10) == Some(1400)
  {
    var games := Games(SeenWorld(board, m, played).db, 7, board, 10);
    GameAt(SeenWorld(board, m, played).db, 7, board, 10, 1);
    LastStartedIsUnique(games, 1);
  }

  lemma SeenReads(board: int, m: M.Match, played: M.Played)
    requires LeavesAt2(board, m, played)
    ensures ReadsWorld(SeenQuery(board), SeenWorld(board, m, played)) && InOrder(SeenLog(board))
  {
    assert Init(SeenLog(board)) == [];
  }

  lemma SeenTimes(q: Query)
    requires q.roster == [SeenEntrant()] && SeriesOf(q, SeenEntrant()) == SeenSeries()
    ensures EventTimes(Entries(q)) == [2, 5]
  {
    EntriesOfOne(q, SeenEntrant(), SeenSeries());
    TimesOfOne(Entry(1, "a", SeenSeries()));
    OneTime(Point(2, 1400));
    OneTime(Point(5, 1420));
  }

  lemma SeenDay(events: seq<int>) returns (axis: Axis)
    requires events == [2, 5]
    ensures OneDay(events, axis) && Last(axis.times) == 5
  {
    axis := Axis([0, 2, 5], {0});
    assert axis.times[0] == 0 && axis.times[1] == 2 && axis.times[2] == 5 && events[0] == 2 && events[1] == 5;
  }

  lemma SeenEnds(s: Series)
    requires s == SeenSeries()
    ensures MetricAt(CurrentMode, s, 5) == Some(1420)
  {
    CurrentEndOf(s, Some(1420), 5);
  }

  lemma SeenChart(q: Query) returns (axis: Axis, h: History)
    requires q.mode.CurrentMode? && q.start == Some(0)
    requires q.roster == [SeenEntrant()] && SeriesOf(q, SeenEntrant()) == SeenSeries()
    ensures IsAxis(q.start, EventTimes(Entries(q)), Some(axis)) && Charts(ChartOf(q), axis, h)
    ensures 1 in h.players && |h.players[1]| > 0 && Last(h.players[1]).currentRating == Some(1420)
  {
    SeenTimes(q);
    axis := SeenDay(EventTimes(Entries(q)));
    h := ChartOfOneDay(q, axis);
    LastCurrentIs(q, axis, h, 0);
    SeenEnds(SeriesOf(q, SeenEntrant()));
  }

  /** The frozen table shows 1400, from the log; the chart ends at 1420, the newer observation. */
  lemma FrozenCurrentCanDiffer(q: Query, board: int, m: M.Match, played: M.Played) returns (axis: Axis, h: History)
    requires LeavesAt2(board, m, played) && q == SeenQuery(board)
    ensures ReadsWorld(q, SeenWorld(board, m, played)) && InOrder(q.log)
    ensures IsAxis(q.start, EventTimes(Entries(q)), Some(axis)) && Charts(ChartOf(q), axis, h)
    ensures FrozenCurrent(SeenWorld(board, m, played), 7, board, 10) == Some(1400)
    ensures 1 in h.players && |h.players[1]| > 0 && Last(h.players[1]).currentRating == Some(1420)
  {
    SeenReads(board, m, played);
    SeenFrozen(board, m, played);
    SeenSeriesIs(board);
    axis, h := SeenChart(q);
  }
}
