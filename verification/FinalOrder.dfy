/** When the last bucket of the peak chart orders the roster as the live table does: exactly, for the whole
    table and pair by pair. */
module FinalOrder {
  import opened Common
  import opened Ranking
  import opened HistorySweep
  import opened HistoryBuckets
  import opened HistoryResults

  // ---- two rankings of one roster ----

  /** Row i of both is about the same entity. */
  ghost predicate Parallel(rows: seq<Standing>, live: seq<Standing>) {
    && |rows| == |live| && DistinctIds(rows)
    && forall i :: 0 <= i < |rows| ==> rows[i].id == live[i].id && rows[i].name == live[i].name
  }

  /** Whatever the live table puts first, the rows put first too. */
  ghost predicate Agrees(rows: seq<Standing>, live: seq<Standing>)
    requires |rows| == |live|
  {
    forall j, k :: 0 <= j < |rows| && 0 <= k < |rows| && RatingBefore(live[j], live[k]) ==> Before(rows[j], rows[k])
  }

  /** The pair x, y of the live table stands in the same order as x', y'. */
  ghost predicate KeepsPair(x: Standing, y: Standing, x': Standing, y': Standing) {
    && (RatingBefore(x, y) ==> Before(x', y'))
    && (RatingBefore(y, x) ==> Before(y', x'))
  }

  ghost predicate KeepsPairs(rows: seq<Standing>, live: seq<Standing>)
    requires |rows| == |live|
  {
    forall j, k :: 0 <= j < k < |rows| ==> KeepsPair(live[j], live[k], rows[j], rows[k])
  }

  /** Agreement is a matter of pairs of different rows. */
  lemma AgreesIffPairs(rows: seq<Standing>, live: seq<Standing>)
    requires |rows| == |live|
    ensures Agrees(rows, live) <==> KeepsPairs(rows, live)
  {
    if KeepsPairs(rows, live) {
      forall j, k | 0 <= j < |rows| && 0 <= k < |rows| && RatingBefore(live[j], live[k])
        ensures Before(rows[j], rows[k])
      {
        if j == k {
          BeforeIsTotal(live[j], live[j], live[j]);
        } else {
          assert if j < k then KeepsPair(live[j], live[k], rows[j], rows[k])
                 else KeepsPair(live[k], live[j], rows[k], rows[j]);
        }
      }
    }
  }

  ghost predicate PositionsAre(rows: seq<Standing>, table: seq<Standing>) {
    forall i :: 0 <= i < |table| ==> Get(Positions(Ranked(rows)), table[i].id) == Some(i + 1)
  }

  function IndexIn(live: seq<Standing>, x: Standing): (j: nat)
    requires x in live
    ensures j < |live| && live[j] == x
  {
    if Last(live) == x then |live| - 1
    else
      SplitLast(live);
      IndexIn(Init(live), x)
  }

  /** The rows in the order of the live table. */
  function Listed(rows: seq<Standing>, live: seq<Standing>, table: seq<Standing>): (r: seq<Standing>)
    requires |rows| == |live| && forall x :: x in table ==> x in live
    ensures |r| == |table|
    ensures forall i :: 0 <= i < |r| ==> r[i] == rows[IndexIn(live, table[i])]
  {
    seq(|table|, i requires 0 <= i < |table| => rows[IndexIn(live, table[i])])
  }

  lemma TableDecides(table: seq<Standing>, i: nat, k: nat)
    requires LiveOrder(table) && DistinctNames(table) && i < k < |table|
    ensures RatingBefore(table[i], table[k])
  {
    BeforeIsTotal(table[i], table[k], table[k]);
  }

  lemma ListedInOrder(rows: seq<Standing>, live: seq<Standing>, table: seq<Standing>)
    requires Parallel(rows, live) && Agrees(rows, live) && LiveOrder(table) && DistinctNames(table)
    requires forall x :: x in table ==> x in live
    ensures InRankOrder(Listed(rows, live, table))
  {
    var listed := Listed(rows, live, table);
    forall i, k | 0 <= i < k < |listed| ensures Before(listed[i], listed[k]) {
      TableDecides(table, i, k);
    }
  }

  lemma ListedKeepsRows(rows: seq<Standing>, live: seq<Standing>, table: seq<Standing>)
    requires Parallel(rows, live) && forall x :: x in table <==> x in live
    ensures forall x :: x in rows <==> x in Listed(rows, live, table)
  {
    var listed := Listed(rows, live, table);
    forall x | x in rows ensures x in listed {
      var j :| 0 <= j < |rows| && rows[j] == x;
      assert live[j] in table;
      var i :| 0 <= i < |table| && table[i] == live[j];
      assert IndexIn(live, live[j]) == j;
      assert listed[i] == x;
    }
  }

  lemma AgreementGivesPositions(rows: seq<Standing>, live: seq<Standing>, table: seq<Standing>)
    requires Parallel(rows, live) && Agrees(rows, live) && LiveOrder(table) && DistinctNames(table)
    requires forall x :: x in table <==> x in live
    ensures PositionsAre(rows, table)
  {
    var listed := Listed(rows, live, table);
    ListedInOrder(rows, live, table);
    ListedKeepsRows(rows, live, table);
    forall i | 0 <= i < |table| ensures Get(Positions(Ranked(rows)), table[i].id) == Some(i + 1) {
      IndexIsPosition(rows, listed, i);
    }
  }

  lemma IndexIsPosition(rows: seq<Standing>, order: seq<Standing>, i: nat)
    requires DistinctIds(rows) && InRankOrder(order) && i < |order|
    requires forall x :: x in rows <==> x in order
    ensures Get(Positions(Ranked(rows)), order[i].id) == Some(i + 1)
  {
    IndexCountsAhead(rows, order, i);
    PositionCountsAhead(rows, order[i]);
  }

  lemma PositionsGiveAgreement(rows: seq<Standing>, live: seq<Standing>, table: seq<Standing>, j: nat, k: nat)
    requires Parallel(rows, live) && PositionsAre(rows, table) && LiveOrder(table)
    requires forall x :: x in table <==> x in live
    requires j < |rows| && k < |rows| && RatingBefore(live[j], live[k])
    ensures Before(rows[j], rows[k])
  {
    assert live[j] in table && live[k] in table;
    var x :| 0 <= x < |table| && table[x] == live[j];
    var y :| 0 <= y < |table| && table[y] == live[k];
    BeforeIsTotal(live[j], live[k], live[j]);
    assert x < y;
    PositionsFollowOrder(rows, rows[j], rows[k]);
  }

  /** Every row of the live table has its own position exactly if both rankings agree on every pair. */
  lemma TableOrderIff(rows: seq<Standing>, live: seq<Standing>, table: seq<Standing>)
    requires Parallel(rows, live) && LiveOrder(table) && DistinctNames(table)
    requires forall x :: x in table <==> x in live
    ensures PositionsAre(rows, table) <==> Agrees(rows, live)
  {
    if Agrees(rows, live) {
      AgreementGivesPositions(rows, live, table);
    }
    if PositionsAre(rows, table) {
      forall j, k | 0 <= j < |rows| && 0 <= k < |rows| && RatingBefore(live[j], live[k])
        ensures Before(rows[j], rows[k])
      {
        PositionsGiveAgreement(rows, live, table, j, k);
      }
    }
  }

  // ---- pairs ----

  /** The tie-break between equal peaks: the other rating, then the name. */
  predicate TieBefore(a: Option<int>, nameA: string, b: Option<int>, nameB: string) {
    Above(a, b) || (a == b && NameBefore(nameA, nameB))
  }

  ghost predicate PairAgrees(a: Entry, b: Entry) {
    KeepsPair(LiveStanding(a), LiveStanding(b), FinalStanding(a), FinalStanding(b))
  }

  /** Two rated entrants stand as in the live table exactly if their live peaks differ, or the tie-break by the
      last charted rating (the live current one without a charted game) falls as the one by live current
      ratings. */
  lemma RatedPairAgreesIff(a: Entry, b: Entry)
    requires a.series.live.Some? && b.series.live.Some? && a.name != b.name
    ensures PairAgrees(a, b) <==>
      (|| a.series.live.value.maxRating != b.series.live.value.maxRating
       || (TieBefore(LiveStanding(a).other, a.name, LiveStanding(b).other, b.name)
           <==> TieBefore(FinalStanding(a).other, a.name, FinalStanding(b).other, b.name)))
  {
    NamesOrdered(a.name, b.name, a.name);
  }

  /** An unrated entrant stays behind a rated one, where the live table has it, exactly if it has no charted
      game, or its highest charted rating stays below the live peak, or equals it and loses the tie-break. */
  lemma UnratedPairAgreesIff(a: Entry, b: Entry)
    requires a.series.live.None? && b.series.live.Some? && a.name != b.name
    ensures PairAgrees(a, b) <==>
      (|| MaxRating(a.series.points) == None
       || Above(LiveStanding(b).metric, MaxRating(a.series.points))
       || (LiveStanding(b).metric == MaxRating(a.series.points)
           && TieBefore(FinalStanding(b).other, b.name, FinalStanding(a).other, a.name)))
  {
    NamesOrdered(a.name, b.name, a.name);
  }

  /** Two unrated entrants stand by name, as in the live table, exactly if neither has a charted game, or the one
      named first has the higher charted peak, or the same and wins the tie-break. */
  lemma UnratedTwoAgreeIff(a: Entry, b: Entry)
    requires a.series.live.None? && b.series.live.None? && NameBefore(a.name, b.name)
    ensures PairAgrees(a, b) <==>
      (|| Above(MaxRating(a.series.points), MaxRating(b.series.points))
       || (MaxRating(a.series.points) == MaxRating(b.series.points)
           && TieBefore(FinalStanding(a).other, a.name, FinalStanding(b).other, b.name)))
  {
    NamesOrdered(a.name, b.name, a.name);
  }

  // ---- the last candidate time ----

  function FinalStandings(entries: seq<Entry>): (r: seq<Standing>)
    ensures |r| == |entries| && forall i :: 0 <= i < |r| ==> r[i] == FinalStanding(entries[i])
  {
    seq(|entries|, i requires 0 <= i < |entries| => FinalStanding(entries[i]))
  }

  /** The last bucket's rows agree with the live ones exactly if every pair of entrants does. */
  lemma FinalAgreesIff(entries: seq<Entry>)
    ensures Agrees(FinalStandings(entries), LiveStandings(entries))
      <==> forall j, k :: 0 <= j < k < |entries| ==> PairAgrees(entries[j], entries[k])
  {
    AgreesIffPairs(FinalStandings(entries), LiveStandings(entries));
    if KeepsPairs(FinalStandings(entries), LiveStandings(entries)) {
      forall j, k | 0 <= j < k < |entries| ensures PairAgrees(entries[j], entries[k]) {
        PairAt(entries, j, k);
      }
    }
    if forall j, k :: 0 <= j < k < |entries| ==> PairAgrees(entries[j], entries[k]) {
      forall j, k | 0 <= j < k < |entries|
        ensures KeepsPair(LiveStandings(entries)[j], LiveStandings(entries)[k],
                          FinalStandings(entries)[j], FinalStandings(entries)[k])
      {
        PairAt(entries, j, k);
      }
    }
  }

  lemma PairAt(entries: seq<Entry>, j: nat, k: nat)
    requires j < k < |entries|
    ensures PairAgrees(entries[j], entries[k])
      <==> KeepsPair(LiveStandings(entries)[j], LiveStandings(entries)[k],
                     FinalStandings(entries)[j], FinalStandings(entries)[k])
  {
  }

  /** Where every entry's record agrees with its live row, the field at the last time is ranked by these
      standings. */
  lemma FinalRows(c: Chart, t: int)
    requires c.mode.PeakMode? && forall e :: e in c.entries ==> PeakRecorded(e.series)
    requires forall e, x :: e in c.entries && (x in e.series.points || x in e.series.snaps) ==> x.at <= t
    ensures BucketAt(c, t).players == FinalStandings(c.entries)
  {
    var rows := BucketAt(c, t).players;
    forall i | 0 <= i < |c.entries| ensures rows[i] == FinalStanding(c.entries[i]) {
      assert c.entries[i] in c.entries;
      FinalStandingIs(c.entries[i], t);
    }
  }

  // ---- current mode ----

  function FinalCurrentStandings(entries: seq<Entry>): (r: seq<Standing>)
    ensures |r| == |entries| && forall i :: 0 <= i < |r| ==> r[i] == FinalCurrentStanding(entries[i])
  {
    seq(|entries|, i requires 0 <= i < |entries| => FinalCurrentStanding(entries[i]))
  }

  lemma FinalCurrentRows(c: Chart, t: int)
    requires c.mode.CurrentMode? && forall e :: e in c.entries ==> CurrentRecorded(e.series)
    requires forall e, x :: e in c.entries && (x in e.series.points || x in e.series.snaps) ==> x.at <= t
    ensures BucketAt(c, t).players == FinalCurrentStandings(c.entries)
  {
    var rows := BucketAt(c, t).players;
    forall i | 0 <= i < |c.entries| ensures rows[i] == FinalCurrentStanding(c.entries[i]) {
      assert c.entries[i] in c.entries;
      FinalCurrentStandingIs(c.entries[i], t);
    }
  }

  lemma CurrentOrderIff(entries: seq<Entry>, table: seq<Standing>)
    requires DistinctEntries(entries) && LiveOrder(table) && DistinctNames(table)
    requires forall x :: x in table <==> x in LiveCurrentStandings(entries)
    ensures PositionsAre(FinalCurrentStandings(entries), table)
      <==> KeepsPairs(FinalCurrentStandings(entries), LiveCurrentStandings(entries))
  {
    TableOrderIff(FinalCurrentStandings(entries), LiveCurrentStandings(entries), table);
    AgreesIffPairs(FinalCurrentStandings(entries), LiveCurrentStandings(entries));
  }
}
