/** Ranking a roster: the multi-key sort, the positions read off it, and what a position means. */
module Ranking {
  import opened Common

  /** One ranked entity. A team ranks on its combined rating alone. */
  datatype Standing = Standing(id: int, metric: Option<int>, other: Option<int>, name: string)

  function TeamStanding(id: int, combined: int): Standing {
    Standing(id, Some(combined), None, "")
  }

  // ---- what the order means ----

  /** Higher first, null last. */
  predicate Above(a: Option<int>, b: Option<int>) {
    a.Some? && (b.None? || b.value < a.value)
  }

  predicate NameBefore(a: string, b: string) {
    |b| > 0 && (|a| == 0 || a[0] < b[0] || (a[0] == b[0] && NameBefore(a[1..], b[1..])))
  }

  /** Metric, then the other rating, then name; the order of the live table. */
  predicate RatingBefore(a: Standing, b: Standing) {
    || Above(a.metric, b.metric)
    || (a.metric == b.metric && Above(a.other, b.other))
    || (a.metric == b.metric && a.other == b.other && NameBefore(a.name, b.name))
  }

  predicate Before(a: Standing, b: Standing) {
    RatingBefore(a, b) || (a.metric == b.metric && a.other == b.other && a.name == b.name && a.id < b.id)
  }

  lemma {:induction false} NamesOrdered(a: string, b: string, c: string)
    ensures !NameBefore(a, a)
    ensures a != b ==> NameBefore(a, b) != NameBefore(b, a)
    ensures NameBefore(a, b) && NameBefore(b, c) ==> NameBefore(a, c)
    decreases |a| + |b| + |c|
  {
    if |a| > 0 {
      var b', c' := if |b| > 0 then b[1..] else [], if |c| > 0 then c[1..] else [];
      NamesOrdered(a[1..], b', c');
      if |b| > 0 && a[0] == b[0] && a[1..] == b[1..] {
        assert a == [a[0]] + a[1..] && b == [b[0]] + b[1..];
      }
    }
  }

  /** The order is strict and total. */
  lemma BeforeIsTotal(a: Standing, b: Standing, c: Standing)
    ensures !Before(a, a)
    ensures a != b ==> Before(a, b) != Before(b, a)
    ensures Before(a, b) && Before(b, c) ==> Before(a, c)
  {
    NamesOrdered(a.name, b.name, c.name);
  }

  // ---- the sort key ----

  /** The key tuple: null flags and negated values, so that ascending order is descending rating. */
  predicate KeyBefore(a: Standing, b: Standing) {
    var (an, am, aon, ao) := (a.metric.None?, -a.metric.GetOr(0), a.other.None?, -a.other.GetOr(0));
    var (bn, bm, bon, bo) := (b.metric.None?, -b.metric.GetOr(0), b.other.None?, -b.other.GetOr(0));
    if an != bn then bn
    else if am != bm then am < bm
    else if aon != bon then bon
    else if ao != bo then ao < bo
    else if a.name != b.name then NameBefore(a.name, b.name)
    else a.id < b.id
  }

  lemma KeyIsTheOrder(a: Standing, b: Standing)
    ensures KeyBefore(a, b) <==> Before(a, b)
  {
    NamesOrdered(a.name, b.name, b.name);
  }

  function Place(order: seq<Standing>, x: Standing): seq<Standing> {
    if |order| == 0 then [x]
    else if KeyBefore(x, Last(order)) then Place(Init(order), x) + [Last(order)]
    else order + [x]
  }

  /** sorted(rows, key=...). */
  function Ranked(rows: seq<Standing>): seq<Standing> {
    if |rows| == 0 then [] else Place(Ranked(Init(rows)), Last(rows))
  }

  lemma {:induction false} PlaceKeeps(order: seq<Standing>, x: Standing)
    ensures multiset(Place(order, x)) == multiset(order) + multiset{x}
  {
    if |order| > 0 {
      SplitLast(order);
      PlaceKeeps(Init(order), x);
    }
  }

  /** Sorting keeps every row. */
  lemma {:induction false} RankedKeeps(rows: seq<Standing>)
    ensures multiset(Ranked(rows)) == multiset(rows)
    ensures |Ranked(rows)| == |rows| && forall x :: x in rows <==> x in Ranked(rows)
  {
    if |rows| > 0 {
      SplitLast(rows);
      RankedKeeps(Init(rows));
      PlaceKeeps(Ranked(Init(rows)), Last(rows));
    }
    SameElements(Ranked(rows), rows);
  }

  ghost predicate InRankOrder(order: seq<Standing>) {
    forall i, j :: 0 <= i < j < |order| ==> Before(order[i], order[j])
  }

  ghost predicate DistinctIds(rows: seq<Standing>) {
    forall i, j :: 0 <= i < j < |rows| ==> rows[i].id != rows[j].id
  }

  lemma {:induction false} PlaceInOrder(order: seq<Standing>, x: Standing)
    requires InRankOrder(order) && forall y :: y in order ==> y.id != x.id
    ensures InRankOrder(Place(order, x))
  {
    if |order| > 0 {
      var last := Last(order);
      SplitLast(order);
      KeyIsTheOrder(x, last);
      BeforeIsTotal(x, last, last);
      if KeyBefore(x, last) {
        var shorter := Place(Init(order), x);
        PlaceInOrder(Init(order), x);
        PlaceKeeps(Init(order), x);
        forall i | 0 <= i < |shorter| ensures Before(shorter[i], last) {
          assert shorter[i] in multiset(shorter);
        }
      } else {
        forall i | 0 <= i < |order| ensures Before(order[i], x) {
          BeforeIsTotal(order[i], last, x);
        }
      }
    }
  }

  lemma {:induction false} RankedInOrder(rows: seq<Standing>)
    requires DistinctIds(rows)
    ensures InRankOrder(Ranked(rows))
  {
    if |rows| > 0 {
      RankedInOrder(Init(rows));
      RankedKeeps(Init(rows));
      PlaceInOrder(Ranked(Init(rows)), Last(rows));
    }
  }

  // ---- positions ----

  /** {row.id: rank for rank, row in enumerate(order, start=1)}. */
  function Positions(order: seq<Standing>): map<int, int> {
    if |order| == 0 then map[] else Positions(Init(order))[Last(order).id := |order|]
  }

  /** The entities ranked strictly ahead of x. */
  function Ahead(rows: seq<Standing>, x: Standing): set<Standing> {
    set r | r in rows && Before(r, x)
  }

  lemma {:induction false} PositionsAt(order: seq<Standing>)
    requires DistinctIds(order)
    ensures forall i :: 0 <= i < |order| ==> Get(Positions(order), order[i].id) == Some(i + 1)
    ensures forall id :: id in Positions(order) ==> exists i :: 0 <= i < |order| && order[i].id == id
  {
    if |order| > 0 {
      PositionsAt(Init(order));
    }
  }

  lemma {:induction false} Distinct<T>(s: seq<T>)
    requires forall i, j :: 0 <= i < j < |s| ==> s[i] != s[j]
    ensures |set x | x in s| == |s|
  {
    if |s| > 0 {
      Distinct(Init(s));
      SplitLast(s);
      assert (set x | x in s) == (set x | x in Init(s)) + {Last(s)};
    }
  }

  /** In any listing of the rows in rank order, exactly i of them are ahead of the one at index i. */
  lemma IndexCountsAhead(rows: seq<Standing>, order: seq<Standing>, i: nat)
    requires InRankOrder(order) && i < |order|
    requires forall x :: x in rows <==> x in order
    ensures |Ahead(rows, order[i])| == i
  {
    var front := order[..i];
    assert forall a, b :: 0 <= a < b < i ==> front[a] != front[b] by {
      forall a, b | 0 <= a < b < i ensures front[a] != front[b] {
        BeforeIsTotal(order[a], order[b], order[b]);
      }
    }
    Distinct(front);
    forall x | x in order ensures Before(x, order[i]) <==> x in front {
      var k :| 0 <= k < |order| && order[k] == x;
      BeforeIsTotal(order[i], order[k], order[i]);
      if k < i {
        assert front[k] == x;
      }
    }
    assert Ahead(rows, order[i]) == set x | x in front;
  }

  lemma OrderKeepsIds(rows: seq<Standing>)
    requires DistinctIds(rows)
    ensures DistinctIds(Ranked(rows)) && |Ranked(rows)| == |rows|
    ensures forall x :: x in rows <==> x in Ranked(rows)
  {
    var order := Ranked(rows);
    RankedInOrder(rows);
    RankedKeeps(rows);
    forall i, j | 0 <= i < j < |order| ensures order[i].id != order[j].id {
      assert order[i] in rows && order[j] in rows;
      BeforeIsTotal(order[i], order[j], order[j]);
    }
  }

  lemma IndexOf(rows: seq<Standing>, x: Standing) returns (i: nat)
    requires DistinctIds(rows) && x in rows
    ensures i < |Ranked(rows)| && Ranked(rows)[i] == x
    ensures Get(Positions(Ranked(rows)), x.id) == Some(i + 1)
  {
    OrderKeepsIds(rows);
    PositionsAt(Ranked(rows));
    i :| 0 <= i < |Ranked(rows)| && Ranked(rows)[i] == x;
  }

  lemma CountsAheadIn(rows: seq<Standing>, order: seq<Standing>, x: Standing)
    requires InRankOrder(order) && DistinctIds(order) && x in order
    requires forall y :: y in rows <==> y in order
    ensures Get(Positions(order), x.id) == Some(1 + |Ahead(rows, x)|)
  {
    var i :| 0 <= i < |order| && order[i] == x;
    PositionsAt(order);
    IndexCountsAhead(rows, order, i);
  }

  /** A position is one more than the number of entities ahead. */
  lemma PositionCountsAhead(rows: seq<Standing>, x: Standing)
    requires DistinctIds(rows) && x in rows
    ensures Get(Positions(Ranked(rows)), x.id) == Some(1 + |Ahead(rows, x)|)
  {
    RankedInOrder(rows);
    OrderKeepsIds(rows);
    CountsAheadIn(rows, Ranked(rows), x);
  }

  /** The entity with the smaller position is the one ranked ahead. */
  lemma PositionsFollowOrder(rows: seq<Standing>, x: Standing, y: Standing)
    requires DistinctIds(rows) && x in rows && y in rows
    ensures x.id in Positions(Ranked(rows)) && y.id in Positions(Ranked(rows))
    ensures Positions(Ranked(rows))[x.id] < Positions(Ranked(rows))[y.id] <==> Before(x, y)
  {
    var i := IndexOf(rows, x);
    var j := IndexOf(rows, y);
    RankedInOrder(rows);
    BeforeIsTotal(x, y, x);
  }

  /** The positions of n entities are exactly 1..n: each is held by one of them ... */
  lemma PositionsArePermutation(rows: seq<Standing>, p: int)
    requires DistinctIds(rows) && 1 <= p <= |rows|
    ensures exists x :: x in rows && Get(Positions(Ranked(rows)), x.id) == Some(p)
  {
    var order := Ranked(rows);
    OrderKeepsIds(rows);
    PositionsAt(order);
    assert order[p - 1] in rows;
  }

  /** ... and no two entities share one. */
  lemma PositionsDiffer(rows: seq<Standing>, x: Standing, y: Standing)
    requires DistinctIds(rows) && x in rows && y in rows && x != y
    ensures Get(Positions(Ranked(rows)), x.id) != Get(Positions(Ranked(rows)), y.id)
  {
    var i := IndexOf(rows, x);
    var j := IndexOf(rows, y);
  }

  lemma PositionsCoverIds(rows: seq<Standing>, id: int)
    requires DistinctIds(rows)
    ensures id in Positions(Ranked(rows)) <==> exists x :: x in rows && x.id == id
  {
    var order := Ranked(rows);
    OrderKeepsIds(rows);
    PositionsAt(order);
    if id in Positions(order) {
      var i :| 0 <= i < |order| && order[i].id == id;
      assert order[i] in rows;
    }
  }

  /** A listing the live table's ORDER BY allows: no row after one it should precede. */
  ghost predicate LiveOrder(table: seq<Standing>) {
    forall i, j :: 0 <= i < j < |table| ==> !RatingBefore(table[j], table[i])
  }

  ghost predicate DistinctNames(rows: seq<Standing>) {
    forall i, j :: 0 <= i < j < |rows| ==> rows[i].name != rows[j].name
  }

  /** With unique names the live table's order leaves no choice, and its row i has position i + 1. */
  lemma LiveOrderGivesPositions(rows: seq<Standing>, table: seq<Standing>, i: nat)
    requires DistinctIds(rows) && DistinctNames(table) && LiveOrder(table)
    requires forall x :: x in rows <==> x in table
    requires i < |table|
    ensures Get(Positions(Ranked(rows)), table[i].id) == Some(i + 1)
  {
    LiveOrderIsRankOrder(table);
    IndexCountsAhead(rows, table, i);
    PositionCountsAhead(rows, table[i]);
  }

  lemma LiveOrderIsRankOrder(table: seq<Standing>)
    requires DistinctNames(table) && LiveOrder(table)
    ensures InRankOrder(table)
  {
    forall a, b | 0 <= a < b < |table| ensures Before(table[a], table[b]) {
      BeforeIsTotal(table[a], table[b], table[b]);
      assert !RatingBefore(table[b], table[a]);
    }
  }

  // ---- what stands ahead, in terms of the ratings themselves ----

  lemma {:induction false} FirstDifference(a: string, b: string) returns (k: nat)
    requires NameBefore(a, b)
    ensures k <= |a| && k < |b| && a[..k] == b[..k] && (k == |a| || a[k] < b[k])
  {
    k := 0;
    if |a| > 0 && a[0] == b[0] {
      k := FirstDifference(a[1..], b[1..]);
      assert a[..k + 1] == [a[0]] + a[1..][..k] && b[..k + 1] == [b[0]] + b[1..][..k];
      k := k + 1;
    }
  }

  lemma {:induction false} DecidedAt(a: string, b: string, k: nat)
    requires k <= |a| && k < |b| && a[..k] == b[..k] && (k == |a| || a[k] < b[k])
    ensures NameBefore(a, b)
  {
    if k > 0 {
      assert a[0] == a[..k][0] && b[0] == b[..k][0];
      assert a[1..][..k - 1] == a[..k][1..] && b[1..][..k - 1] == b[..k][1..];
      DecidedAt(a[1..], b[1..], k - 1);
    }
  }

  /** Names compare at their first difference; a proper prefix comes first. */
  lemma NameBeforeIff(a: string, b: string)
    ensures NameBefore(a, b) <==>
      exists k :: 0 <= k <= |a| && k < |b| && a[..k] == b[..k] && (k == |a| || a[k] < b[k])
  {
    if NameBefore(a, b) {
      var k := FirstDifference(a, b);
    }
    if k :| 0 <= k <= |a| && k < |b| && a[..k] == b[..k] && (k == |a| || a[k] < b[k]) {
      DecidedAt(a, b, k);
    }
  }

  /** The higher metric has the smaller position, null last; equal metrics fall back on the other rating, then on
      the names, then on the smaller id. */
  lemma HigherIsAhead(rows: seq<Standing>, x: Standing, y: Standing)
    requires DistinctIds(rows) && x in rows && y in rows
    ensures x.id in Positions(Ranked(rows)) && y.id in Positions(Ranked(rows))
    ensures x.metric.Some? && (y.metric.None? || x.metric.value > y.metric.value) ==>
      Positions(Ranked(rows))[x.id] < Positions(Ranked(rows))[y.id]
    ensures x.metric == y.metric && x.other.Some? && (y.other.None? || x.other.value > y.other.value) ==>
      Positions(Ranked(rows))[x.id] < Positions(Ranked(rows))[y.id]
    ensures x.metric == y.metric && x.other == y.other && NameBefore(x.name, y.name) ==>
      Positions(Ranked(rows))[x.id] < Positions(Ranked(rows))[y.id]
    ensures x.metric == y.metric && x.other == y.other && x.name == y.name && x.id < y.id ==>
      Positions(Ranked(rows))[x.id] < Positions(Ranked(rows))[y.id]
  {
    PositionsFollowOrder(rows, x, y);
  }
}
