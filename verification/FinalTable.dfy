/** The final table: the roster re-ranked on the frozen metric once the window has closed. Its tie-break stays
    live, so it can be reordered while every frozen metric stands still. */
module FinalTable {
  import opened Common
  import opened RatingLog
  import opened Ranking
  import opened HistorySeries
  import opened FinalOrder
  import opened Freeze
  import M = MatchIngest

  /** A visible roster row. */
  datatype Row = Row(id: int, profile: Option<int>, name: string)

  ghost function FrozenMetric(mode: Mode, w: World, p: int, board: int, end: int): Option<int> {
    if mode.PeakMode? then FrozenPeak(w, p, board, end) else FrozenCurrent(w, p, board, end)
  }

  /** The other rating, which stays live. */
  function LiveOther(mode: Mode, w: World, p: int, board: int): Option<int> {
    if mode.PeakMode? then LiveCurrent(w.ratings, Pair(p, board)) else LivePeak(w.ratings, Pair(p, board))
  }

  /** What the closed table ranks a row by; an unlinked row has no rating. */
  ghost function FrozenRow(mode: Mode, w: World, row: Row, board: int, end: int): Standing {
    if row.profile.None? then Standing(row.id, None, None, row.name)
    else Standing(row.id, FrozenMetric(mode, w, row.profile.value, board, end),
                  LiveOther(mode, w, row.profile.value, board), row.name)
  }

  ghost function FrozenRows(mode: Mode, w: World, roster: seq<Row>, board: int, end: int): (r: seq<Standing>)
    ensures |r| == |roster| && forall i :: 0 <= i < |r| ==> r[i] == FrozenRow(mode, w, roster[i], board, end)
  {
    seq(|roster|, i requires 0 <= i < |roster| => FrozenRow(mode, w, roster[i], board, end))
  }

  /** The positions of the closed table. */
  ghost function FinalPositions(mode: Mode, w: World, roster: seq<Row>, board: int, end: int): map<int, int> {
    Positions(Ranked(FrozenRows(mode, w, roster, board, end)))
  }

  ghost predicate UniqueRows(roster: seq<Row>) {
    forall i, j :: 0 <= i < j < |roster| ==> roster[i].id != roster[j].id && roster[i].name != roster[j].name
  }

  // ---- what the closed table ranks by ----

  /** Of two rows of the closed table the one with the higher frozen metric has the smaller position, null last; ties
      go by the other rating as it is live, then by name. */
  lemma HigherFrozenIsAhead(mode: Mode, w: World, roster: seq<Row>, board: int, end: int, i: nat, j: nat)
    requires UniqueRows(roster) && i < |roster| && j < |roster|
    requires roster[i].profile.Some? && roster[j].profile.Some?
    ensures var positions := FinalPositions(mode, w, roster, board, end);
      var a, b := Pair(roster[i].profile.value, board), Pair(roster[j].profile.value, board);
      var x := if mode.PeakMode? then FrozenPeak(w, a.profile, board, end) else FrozenCurrent(w, a.profile, board, end);
      var y := if mode.PeakMode? then FrozenPeak(w, b.profile, board, end) else FrozenCurrent(w, b.profile, board, end);
      var live := w.ratings.live;
      && roster[i].id in positions && roster[j].id in positions
      && var ahead := positions[roster[i].id] < positions[roster[j].id];
      && (x.Some? && (y.None? || x.value > y.value) ==> ahead)
      && (x == y && a in live && b in live ==>
            && (mode.PeakMode? && live[a].currentRating > live[b].currentRating ==> ahead)
            && (mode.CurrentMode? && live[a].maxRating > live[b].maxRating ==> ahead)
            && (live[a].Reading() == live[b].Reading() && NameBefore(roster[i].name, roster[j].name) ==> ahead))
      && (x == y && a in live && b !in live ==> ahead)
  {
    var rows := FrozenRows(mode, w, roster, board, end);
    RowsComparable(mode, w, w, roster, board, end);
    RowIs(mode, w, roster[i], board, end);
    RowIs(mode, w, roster[j], board, end);
    HigherIsAhead(rows, rows[i], rows[j]);
  }

  lemma RowIs(mode: Mode, w: World, row: Row, board: int, end: int)
    requires row.profile.Some?
    ensures var x, pair := FrozenRow(mode, w, row, board, end), Pair(row.profile.value, board);
      && x.id == row.id && x.name == row.name
      && x.metric == (if mode.PeakMode? then FrozenPeak(w, pair.profile, board, end)
                      else FrozenCurrent(w, pair.profile, board, end))
      && (pair !in w.ratings.live ==> x.other.None?)
      && (pair in w.ratings.live ==>
            x.other == Some(if mode.PeakMode? then w.ratings.live[pair].currentRating
                            else w.ratings.live[pair].maxRating))
  {
  }

  /** An unlinked row has no rating: it is behind every row that has one. */
  lemma UnlinkedIsBehind(mode: Mode, w: World, roster: seq<Row>, board: int, end: int, i: nat, j: nat)
    requires UniqueRows(roster) && i < |roster| && j < |roster|
    requires roster[i].profile.Some? && roster[j].profile.None?
    requires (if mode.PeakMode? then FrozenPeak(w, roster[i].profile.value, board, end)
              else FrozenCurrent(w, roster[i].profile.value, board, end)).Some?
    ensures var positions := FinalPositions(mode, w, roster, board, end);
      roster[i].id in positions && roster[j].id in positions && positions[roster[i].id] < positions[roster[j].id]
  {
    var rows := FrozenRows(mode, w, roster, board, end);
    HigherIsAhead(rows, rows[i], rows[j]);
  }

  // ---- two rankings of one roster ----

  lemma RankingIsLiveOrder(rows: seq<Standing>)
    requires DistinctIds(rows) && DistinctNames(rows)
    ensures var order := Ranked(rows);
      && LiveOrder(order) && DistinctNames(order) && DistinctIds(order)
      && (forall x :: x in order <==> x in rows)
  {
    var order := Ranked(rows);
    RankedInOrder(rows);
    OrderKeepsIds(rows);
    forall i, j | 0 <= i < j < |order| ensures !RatingBefore(order[j], order[i]) && order[i].name != order[j].name {
      BeforeIsTotal(order[i], order[j], order[i]);
      assert order[i] in rows && order[j] in rows;
    }
  }

  lemma SameIdsRanked(rows: seq<Standing>, rows': seq<Standing>, id: int)
    requires Parallel(rows', rows) && DistinctIds(rows)
    ensures id in Positions(Ranked(rows')) <==> id in Positions(Ranked(rows))
  {
    PositionsCoverIds(rows, id);
    PositionsCoverIds(rows', id);
    if id in Positions(Ranked(rows)) {
      var j :| 0 <= j < |rows| && rows[j].id == id;
      assert rows'[j] in rows';
    }
    if id in Positions(Ranked(rows')) {
      var j :| 0 <= j < |rows'| && rows'[j].id == id;
      assert rows[j] in rows;
    }
  }

  lemma OwnPositions(rows: seq<Standing>)
    requires DistinctIds(rows)
    ensures PositionsAre(rows, Ranked(rows))
  {
    OrderKeepsIds(rows);
    PositionsAt(Ranked(rows));
  }

  lemma PositionsAgree(rows: seq<Standing>, rows': seq<Standing>)
    requires Parallel(rows', rows) && DistinctIds(rows) && PositionsAre(rows', Ranked(rows))
    ensures Positions(Ranked(rows')) == Positions(Ranked(rows))
  {
    var order := Ranked(rows);
    OrderKeepsIds(rows);
    PositionsAt(order);
    forall id ensures Get(Positions(Ranked(rows')), id) == Get(Positions(order), id) {
      SameIdsRanked(rows, rows', id);
      if id in Positions(order) {
        var i :| 0 <= i < |order| && order[i].id == id;
      }
    }
    SameEntries(Positions(Ranked(rows')), Positions(order));
  }

  /** The same rows, in two rankings, with unique ids and names. */
  ghost predicate Comparable(rows: seq<Standing>, rows': seq<Standing>) {
    Parallel(rows', rows) && DistinctIds(rows) && DistinctNames(rows)
  }

  /** Two rankings of rows with unique names give the same positions exactly if they keep the order of every pair. */
  lemma SamePositionsIff(rows: seq<Standing>, rows': seq<Standing>)
    requires Comparable(rows, rows')
    ensures Positions(Ranked(rows')) == Positions(Ranked(rows)) <==> KeepsPairs(rows', rows)
  {
    RankingIsLiveOrder(rows);
    TableOrderIff(rows', rows, Ranked(rows));
    AgreesIffPairs(rows', rows);
    OwnPositions(rows);
    if PositionsAre(rows', Ranked(rows)) {
      PositionsAgree(rows, rows');
    }
  }

  lemma RowsComparable(mode: Mode, w: World, w': World, roster: seq<Row>, board: int, end: int)
    requires UniqueRows(roster)
    ensures Comparable(FrozenRows(mode, w, roster, board, end), FrozenRows(mode, w', roster, board, end))
  {
  }

  // ---- the final table over runs ----

  /** The row ranked on what the log and the games gave at the close, and on later live tables. */
  ghost function ClosedRow(mode: Mode, w: World, later: Tables, row: Row, board: int, end: int): Standing {
    if row.profile.None? then Standing(row.id, None, None, row.name)
    else
      var p := row.profile.value;
      var peak, current := LivePeak(later, Pair(p, board)), LiveCurrent(later, Pair(p, board));
      if mode.PeakMode? then Standing(row.id, Settle(RawPeak(w, p, board, end), peak), current, row.name)
      else Standing(row.id, Or(RawCurrent(w, p, board, end), current), peak, row.name)
  }

  ghost function ClosedRows(mode: Mode, w: World, later: Tables, roster: seq<Row>, board: int, end: int)
    : (r: seq<Standing>)
    ensures |r| == |roster| && forall i :: 0 <= i < |r| ==> r[i] == ClosedRow(mode, w, later, roster[i], board, end)
  {
    seq(|roster|, i requires 0 <= i < |roster| => ClosedRow(mode, w, later, roster[i], board, end))
  }

  lemma RowAfter(mode: Mode, w: World, steps: seq<Step>, row: Row, board: int, end: int)
    requires QuietRun(w, steps, board, end)
    ensures FrozenRow(mode, After(w, steps), row, board, end)
      == ClosedRow(mode, w, After(w, steps).ratings, row, board, end)
  {
    if row.profile.Some? {
      QuietKeepsRaw(w, steps, row.profile.value, board, end);
    }
  }

  lemma RowsAfter(mode: Mode, w: World, steps: seq<Step>, roster: seq<Row>, board: int, end: int)
    requires QuietRun(w, steps, board, end)
    ensures FrozenRows(mode, After(w, steps), roster, board, end)
      == ClosedRows(mode, w, After(w, steps).ratings, roster, board, end)
  {
    forall i | 0 <= i < |roster|
      ensures FrozenRow(mode, After(w, steps), roster[i], board, end)
        == ClosedRow(mode, w, After(w, steps).ratings, roster[i], board, end)
    {
      RowAfter(mode, w, steps, roster[i], board, end);
    }
  }

  /** Over any run after the close, the final table's positions are those at the close exactly if the values of the
      close, capped and tied by the live tables of now, order every pair of rows as they did then. */
  lemma FinalTableStaysIff(mode: Mode, w: World, steps: seq<Step>, roster: seq<Row>, board: int, end: int)
    requires QuietRun(w, steps, board, end) && UniqueRows(roster)
    ensures FinalPositions(mode, After(w, steps), roster, board, end) == FinalPositions(mode, w, roster, board, end)
      <==> KeepsPairs(ClosedRows(mode, w, After(w, steps).ratings, roster, board, end),
                      FrozenRows(mode, w, roster, board, end))
  {
    RowsAfter(mode, w, steps, roster, board, end);
    RowsComparable(mode, w, After(w, steps), roster, board, end);
    SamePositionsIff(FrozenRows(mode, w, roster, board, end), FrozenRows(mode, After(w, steps), roster, board, end));
  }

  // ---- pairs whose frozen metrics stand still ----

  predicate Tie(x: Standing, y: Standing) {
    TieBefore(x.other, x.name, y.other, y.name)
  }

  /** A pair whose metrics stand still keeps its order exactly if they differ or the tie-break by the live other
      rating and the name falls the same way. */
  lemma PairKeepsOrderIff(x: Standing, y: Standing, x': Standing, y': Standing)
    requires x'.name == x.name && y'.name == y.name && x.name != y.name
    requires x'.metric == x.metric && y'.metric == y.metric
    ensures KeepsPair(x, y, x', y') <==> (x.metric != y.metric || (Tie(x, y) <==> Tie(x', y')))
  {
    NamesOrdered(x.name, y.name, x.name);
  }

  /** Exactly when a linked row's frozen metric stands still over a run: the conditions on the live rating of
      `FrozenPeakStaysIff` and `FrozenCurrentStaysIff`. */
  ghost predicate MetricStands(mode: Mode, w: World, later: Tables, row: Row, board: int, end: int) {
    row.profile.Some? ==>
      var pair := Pair(row.profile.value, board);
      if mode.PeakMode? then
        var raw := RawPeak(w, pair.profile, board, end);
        || LivePeak(later, pair) == LivePeak(w.ratings, pair)
        || (raw.Some? && Covers(LivePeak(w.ratings, pair), raw.value) && Covers(LivePeak(later, pair), raw.value))
      else
        RawCurrent(w, pair.profile, board, end).Some? || LiveCurrent(later, pair) == LiveCurrent(w.ratings, pair)
  }

  lemma MetricStandsIff(mode: Mode, w: World, steps: seq<Step>, row: Row, board: int, end: int)
    requires QuietRun(w, steps, board, end)
    ensures FrozenRow(mode, After(w, steps), row, board, end).metric == FrozenRow(mode, w, row, board, end).metric
      <==> MetricStands(mode, w, After(w, steps).ratings, row, board, end)
  {
    if row.profile.Some? {
      FrozenPeakStaysIff(w, steps, row.profile.value, board, end);
      FrozenCurrentStaysIff(w, steps, row.profile.value, board, end);
    }
  }

  /** Every tie between two rows with equal metrics falls the same way in both rankings. */
  ghost predicate TiesStand(rows: seq<Standing>, rows': seq<Standing>)
    requires |rows| == |rows'|
  {
    forall j, k :: 0 <= j < k < |rows| ==>
      rows[j].metric != rows[k].metric || (Tie(rows[j], rows[k]) <==> Tie(rows'[j], rows'[k]))
  }

  /** The same rows with the same metrics. */
  ghost predicate SameMetrics(rows: seq<Standing>, rows': seq<Standing>) {
    && |rows| == |rows'| && DistinctNames(rows)
    && forall i :: 0 <= i < |rows| ==> rows'[i].name == rows[i].name && rows'[i].metric == rows[i].metric
  }

  lemma OrderIsTies(rows: seq<Standing>, rows': seq<Standing>)
    requires SameMetrics(rows, rows')
    ensures KeepsPairs(rows', rows) <==> TiesStand(rows, rows')
  {
    forall j, k | 0 <= j < k < |rows|
      ensures KeepsPair(rows[j], rows[k], rows'[j], rows'[k])
        <==> (rows[j].metric != rows[k].metric || (Tie(rows[j], rows[k]) <==> Tie(rows'[j], rows'[k])))
    {
      PairKeepsOrderIff(rows[j], rows[k], rows'[j], rows'[k]);
    }
  }

  lemma MetricsStand(mode: Mode, w: World, steps: seq<Step>, roster: seq<Row>, board: int, end: int)
    requires QuietRun(w, steps, board, end) && UniqueRows(roster)
    requires forall row :: row in roster ==> MetricStands(mode, w, After(w, steps).ratings, row, board, end)
    ensures SameMetrics(FrozenRows(mode, w, roster, board, end), FrozenRows(mode, After(w, steps), roster, board, end))
  {
    forall i | 0 <= i < |roster|
      ensures FrozenRow(mode, After(w, steps), roster[i], board, end).metric
        == FrozenRow(mode, w, roster[i], board, end).metric
    {
      assert roster[i] in roster;
      MetricStandsIff(mode, w, steps, roster[i], board, end);
    }
  }

  /** Where every frozen metric stands still, the final table does exactly if every tie falls as at the close. */
  lemma StandingMetricsIff(mode: Mode, w: World, steps: seq<Step>, roster: seq<Row>, board: int, end: int)
    requires QuietRun(w, steps, board, end) && UniqueRows(roster)
    requires forall row :: row in roster ==> MetricStands(mode, w, After(w, steps).ratings, row, board, end)
    ensures FinalPositions(mode, After(w, steps), roster, board, end) == FinalPositions(mode, w, roster, board, end)
      <==> TiesStand(FrozenRows(mode, w, roster, board, end), FrozenRows(mode, After(w, steps), roster, board, end))
  {
    MetricsStand(mode, w, steps, roster, board, end);
    RowsComparable(mode, w, After(w, steps), roster, board, end);
    SamePositionsIff(FrozenRows(mode, w, roster, board, end), FrozenRows(mode, After(w, steps), roster, board, end));
    OrderIsTies(FrozenRows(mode, w, roster, board, end), FrozenRows(mode, After(w, steps), roster, board, end));
  }

  // ---- a tie that turns after the close ----

  function LevelLog(board: int, at: int): seq<Snapshot> {
    [Snapshot(1, Pair(7, board), 1500, Some(1400), at), Snapshot(2, Pair(8, board), 1500, Some(1350), at)]
  }

  function LevelLive(board: int, b: int): map<Pair, LiveRating> {
    map[Pair(7, board) := LiveRating(1500, 1400, []), Pair(8, board) := LiveRating(1500, b, [])]
  }

  /** Two profiles recorded at a peak of 1500, one currently at 1400 and one at 1350. */
  function Level(board: int, at: int): Tables {
    Tables(LevelLog(board, at), LevelLive(board, 1350), 3)
  }

  lemma LevelIsPossible(board: int, at: int)
    ensures Chronological(Level(board, at), at) && Consistent(Level(board, at))
  {
    var a, b := LevelLog(board, at)[0], LevelLog(board, at)[1];
    assert Init([a, b]) == [a] && Init([a]) == [];
    PushLatest([], a, a.pair);
    assert [] + [a] == [a] && [a] + [b] == [a, b];
    PushLatest([a], b, a.pair);
    PushLatest([a], b, b.pair);
  }

  function RowA(): Row {
    Row(1, Some(7), "a")
  }

  function RowB(): Row {
    Row(2, Some(8), "b")
  }

  function Grind(board: int, end: int): Step {
    Stats(end + 30, [Polled(Pair(8, board), 1500, Some(1450), [])])
  }

  lemma GrindIs(board: int, at: int, end: int, w: World)
    requires w.ratings == Level(board, at)
    ensures After(w, [Grind(board, end)]) == Next(w, Grind(board, end))
    ensures QuietRun(w, [Grind(board, end)], board, end)
    ensures Next(w, Grind(board, end)).ratings.live == LevelLive(board, 1450)
  {
    assert Init([Grind(board, end)]) == [];
    OverwrittenOnce(w.ratings.live, Grind(board, end).batch[0]);
    assert LevelLive(board, 1350)[Pair(8, board) := LiveRating(1500, 1450, [])] == LevelLive(board, 1450);
  }

  lemma LevelRaw(board: int, at: int, end: int, w: World, p: int)
    requires at <= end && w == World(Level(board, at), M.Db(map[], map[], {})) && (p == 7 || p == 8)
    ensures RawPeak(w, p, board, end) == Some(1500)
  {
    var log := LevelLog(board, at);
    assert log[0] in log && log[1] in log;
    EarlyPeak(log, Pair(p, board), end, if p == 7 then log[0] else log[1]);
    NoGamesInFlight(p, board, end);
  }

  lemma LevelRows(board: int, w: World, later: Tables, end: int, b: int)
    requires RawPeak(w, 7, board, end) == Some(1500) && RawPeak(w, 8, board, end) == Some(1500)
    requires later.live == LevelLive(board, b)
    ensures ClosedRow(PeakMode, w, later, RowA(), board, end) == Standing(1, Some(1500), Some(1400), "a")
    ensures ClosedRow(PeakMode, w, later, RowB(), board, end) == Standing(2, Some(1500), Some(b), "b")
  {
  }

  lemma TwoRowsTurn(rows: seq<Standing>, rows': seq<Standing>)
    requires |rows| == |rows'| == 2 && rows[0].id == rows'[0].id && rows[1].id == rows'[1].id
    requires rows[0].id != rows[1].id && Before(rows[0], rows[1]) && Before(rows'[1], rows'[0])
    ensures Positions(Ranked(rows')) != Positions(Ranked(rows))
  {
    PositionsFollowOrder(rows, rows[0], rows[1]);
    PositionsFollowOrder(rows', rows'[1], rows'[0]);
  }

  lemma RowsOfTwo(mode: Mode, w: World, board: int, end: int, a: Row, b: Row)
    ensures FrozenRows(mode, w, [a, b], board, end)
      == [FrozenRow(mode, w, a, board, end), FrozenRow(mode, w, b, board, end)]
  {
  }

  lemma LevelOrder(board: int, w: World, later: Tables, end: int, b: int)
    requires RawPeak(w, 7, board, end) == Some(1500) && RawPeak(w, 8, board, end) == Some(1500)
    requires later.live == LevelLive(board, b)
    ensures var rowA := ClosedRow(PeakMode, w, later, RowA(), board, end);
      var rowB := ClosedRow(PeakMode, w, later, RowB(), board, end);
      && rowA.metric == rowB.metric == Some(1500)
      && (b < 1400 ==> Before(rowA, rowB)) && (b > 1400 ==> Before(rowB, rowA))
  {
    LevelRows(board, w, later, end, b);
  }

  /** The order turns between the close and now, on the values of the close. */
  lemma Turned(w: World, steps: seq<Step>, board: int, end: int, a: Row, b: Row)
    requires a.id != b.id && QuietRun(w, steps, board, end)
    requires Before(ClosedRow(PeakMode, w, w.ratings, a, board, end), ClosedRow(PeakMode, w, w.ratings, b, board, end))
    requires var later := After(w, steps).ratings;
      Before(ClosedRow(PeakMode, w, later, b, board, end), ClosedRow(PeakMode, w, later, a, board, end))
    ensures FinalPositions(PeakMode, After(w, steps), [a, b], board, end)
      != FinalPositions(PeakMode, w, [a, b], board, end)
  {
    RowAfter(PeakMode, w, steps, a, board, end);
    RowAfter(PeakMode, w, steps, b, board, end);
    RowsOfTwo(PeakMode, w, board, end, a, b);
    RowsOfTwo(PeakMode, After(w, steps), board, end, a, b);
    TwoRowsTurn(FrozenRows(PeakMode, w, [a, b], board, end), FrozenRows(PeakMode, After(w, steps), [a, b], board, end));
  }

  /** a is ahead of b by 1400 to 1350 when the window closes; afterwards b grinds to 1450. No frozen peak moves,
      and the final table turns. */
  lemma GrindReorders(board: int, at: int, end: int, w: World)
    requires at <= end && w == World(Level(board, at), M.Db(map[], map[], {}))
    ensures Chronological(w.ratings, at) && Consistent(w.ratings) && QuietRun(w, [Grind(board, end)], board, end)
    ensures forall row :: row in [RowA(), RowB()] ==>
      MetricStands(PeakMode, w, After(w, [Grind(board, end)]).ratings, row, board, end)
    ensures FinalPositions(PeakMode, After(w, [Grind(board, end)]), [RowA(), RowB()], board, end)
      != FinalPositions(PeakMode, w, [RowA(), RowB()], board, end)
  {
    LevelIsPossible(board, at);
    GrindIs(board, at, end, w);
    GrindTurns(board, at, end, w, [Grind(board, end)]);
  }

  lemma GrindTurns(board: int, at: int, end: int, w: World, steps: seq<Step>)
    requires at <= end && w == World(Level(board, at), M.Db(map[], map[], {})) && QuietRun(w, steps, board, end)
    requires After(w, steps).ratings.live == LevelLive(board, 1450)
    ensures MetricStands(PeakMode, w, After(w, steps).ratings, RowA(), board, end)
    ensures MetricStands(PeakMode, w, After(w, steps).ratings, RowB(), board, end)
    ensures FinalPositions(PeakMode, After(w, steps), [RowA(), RowB()], board, end)
      != FinalPositions(PeakMode, w, [RowA(), RowB()], board, end)
  {
    LevelRaw(board, at, end, w, 7);
    LevelRaw(board, at, end, w, 8);
    LevelStands(board, end, w, After(w, steps).ratings);
    TurnedOnLevel(board, end, w, steps);
  }

  lemma LevelStands(board: int, end: int, w: World, later: Tables)
    requires RawPeak(w, 7, board, end) == Some(1500) && RawPeak(w, 8, board, end) == Some(1500)
    requires w.ratings.live == LevelLive(board, 1350) && later.live == LevelLive(board, 1450)
    ensures MetricStands(PeakMode, w, later, RowA(), board, end)
    ensures MetricStands(PeakMode, w, later, RowB(), board, end)
  {
  }

  lemma TurnedOnLevel(board: int, end: int, w: World, steps: seq<Step>)
    requires RawPeak(w, 7, board, end) == Some(1500) && RawPeak(w, 8, board, end) == Some(1500)
    requires w.ratings.live == LevelLive(board, 1350) && After(w, steps).ratings.live == LevelLive(board, 1450)
    requires QuietRun(w, steps, board, end)
    ensures FinalPositions(PeakMode, After(w, steps), [RowA(), RowB()], board, end)
      != FinalPositions(PeakMode, w, [RowA(), RowB()], board, end)
  {
    LevelOrder(board, w, w.ratings, end, 1350);
    LevelOrder(board, w, After(w, steps).ratings, end, 1450);
    Turned(w, steps, board, end, RowA(), RowB());
  }
}
