/** The sweep over one entrant: two cursors and running values, advanced once per candidate time, and
    what they mean as of that time. */
module HistorySweep {
  import opened Common
  import opened RatingLog
  import opened HistorySeries

  // ---- the as-of definition ----

  /** The points at or before t. */
  function UpTo(points: seq<Point>, t: int): seq<Point> {
    if |points| == 0 then []
    else if Last(points).at <= t then UpTo(Init(points), t) + [Last(points)]
    else UpTo(Init(points), t)
  }

  function MaxRating(points: seq<Point>): Option<int> {
    if |points| == 0 then None
    else MaxOpt(MaxRating(Init(points)), Some(Last(points).rating))
  }

  lemma {:induction false} MaxRatingIs(points: seq<Point>)
    ensures MaxRating(points).None? <==> points == []
    ensures forall x :: x in points ==> x.rating <= MaxRating(points).value
    ensures MaxRating(points).Some? ==> exists x :: x in points && x.rating == MaxRating(points).value
  {
    if |points| > 0 {
      SplitLast(points);
      MaxRatingIs(Init(points));
      assert Last(points) in points;
    }
  }

  function LastRating(points: seq<Point>): Option<int> {
    if |points| == 0 then None else Some(Last(points).rating)
  }

  function LastAt(points: seq<Point>): Option<int> {
    if |points| == 0 then None else Some(Last(points).at)
  }

  /** One cursor and its running values: how many points it has passed, their maximum, and the rating
      and time of the last one. */
  datatype Cursor = Cursor(next: nat, max: Option<int>, last: Option<int>, at: Option<int>)

  /** The cursor after passing exactly these points. */
  function Passed(points: seq<Point>): Cursor {
    Cursor(|points|, MaxRating(points), LastRating(points), LastAt(points))
  }

  /** The sweep's eight locals for one entrant: a cursor into the log and one into the observations. */
  datatype Marks = Marks(played: Cursor, seen: Cursor)

  const START := Marks(Passed([]), Passed([]))

  function MarksAt(s: Series, t: int): Marks {
    Marks(Passed(UpTo(s.points, t)), Passed(UpTo(s.snaps, t)))
  }

  lemma {:induction false} UpToIsPrefix(points: seq<Point>, t: int)
    requires Timed(points)
    ensures |UpTo(points, t)| <= |points| && UpTo(points, t) == points[..|UpTo(points, t)|]
    ensures forall i :: 0 <= i < |points| ==> (points[i].at <= t <==> i < |UpTo(points, t)|)
  {
    if |points| > 0 {
      SplitLast(points);
      UpToIsPrefix(Init(points), t);
      if Last(points).at <= t {
        assert |UpTo(Init(points), t)| == |Init(points)|;
      }
    }
  }

  lemma UpToGrows(points: seq<Point>, t: int, t': int)
    requires Timed(points) && t <= t'
    ensures |UpTo(points, t)| <= |UpTo(points, t')|
    ensures UpTo(points, t) <= UpTo(points, t')
  {
    UpToIsPrefix(points, t);
    UpToIsPrefix(points, t');
  }

  /** A prefix whose next point is later than t is everything at or before t. */
  lemma UpToIs(points: seq<Point>, t: int, n: nat)
    requires Timed(points) && n <= |points|
    requires n > 0 ==> points[n - 1].at <= t
    requires n < |points| ==> t < points[n].at
    ensures points[..n] == UpTo(points, t)
  {
    UpToIsPrefix(points, t);
    assert n <= |UpTo(points, t)|;
  }

  // ---- the cursors ----

  /** Moves a cursor past every point at or before t. */
  method Consume(points: seq<Point>, before: Cursor, t0: int, t: int) returns (c: Cursor)
    requires Timed(points) && t0 <= t
    requires before == Passed([]) || before == Passed(UpTo(points, t0))
    ensures c == Passed(UpTo(points, t))
  {
    UpToIsPrefix(points, t0);
    assert points[..0] == [];
    c := before;
    while c.next < |points| && points[c.next].at <= t
      invariant c.next <= |points|
      invariant c.next > 0 ==> points[c.next - 1].at <= t
      invariant c == Passed(points[..c.next])
    {
      var x := points[c.next];
      assert Init(points[..c.next + 1]) == points[..c.next];
      var max := if c.max.None? || c.max.value < x.rating then Some(x.rating) else c.max;
      c := Cursor(c.next + 1, max, Some(x.rating), Some(x.at));
    }
    UpToIs(points, t, c.next);
  }

  /** One entrant's step of the sweep: both cursors move past everything at or before t. */
  method Advance(s: Series, before: Marks, t0: int, t: int) returns (m: Marks)
    requires Timed(s.points) && Timed(s.snaps) && t0 <= t
    requires before == START || before == MarksAt(s, t0)
    ensures m == MarksAt(s, t)
  {
    var played := Consume(s.points, before.played, t0, t);
    var seen := Consume(s.snaps, before.seen, t0, t);
    m := Marks(played, seen);
  }

  // ---- baselines ----

  /** The observation the baseline is read off: the latest one up to the start, else the earliest after it. */
  function FirstSeen(s: Series): Option<int> {
    if s.snapBase.Some? then s.snapBase else if |s.snaps| > 0 then Some(s.snaps[0].rating) else None
  }

  /** The rating an entrant is charted with before anything happens in the window. */
  function Baseline(mode: Mode, s: Series): Option<int> {
    var firstSeen := FirstSeen(s);
    if s.live.None? then None
    else if mode.CurrentMode? then
      if s.entryOld.Some? then s.entryOld
      else if firstSeen.Some? then firstSeen
      else Some(s.live.value.currentRating)
    else
      var total := MaxRating(s.points);
      var base := if firstSeen.Some? then firstSeen
                  else if total.None? || total.value < s.live.value.maxRating then Some(s.live.value.maxRating)
                  else s.earlierPeak;
      MaxOpt(base, s.entryOld)
  }

  // ---- the ranked metric ----

  function Clamp(peak: Option<int>, live: Option<LiveRating>): Option<int> {
    if live.Some? && peak.Some? && live.value.maxRating < peak.value then Some(live.value.maxRating) else peak
  }

  /** The metric the loop body computes from the locals. */
  function Metric(mode: Mode, s: Series, m: Marks): Option<int> {
    if mode.CurrentMode? then
      if m.played.at.Some? && (m.seen.at.None? || m.seen.at.value <= m.played.at.value) then m.played.last
      else if m.seen.at.Some? then m.seen.last
      else Baseline(mode, s)
    else Clamp(MaxOpt(Baseline(mode, s), MaxOpt(m.seen.max, m.played.max)), s.live)
  }

  /** The other rating, the tie-break. */
  function Other(mode: Mode, s: Series, m: Marks): Option<int> {
    var max := if s.live.None? then None else Some(s.live.value.maxRating);
    var current := if s.live.None? then None else Some(s.live.value.currentRating);
    if mode.CurrentMode? then max
    else if m.played.last.Some? then m.played.last else current
  }

  function MetricAt(mode: Mode, s: Series, t: int): Option<int> {
    Metric(mode, s, MarksAt(s, t))
  }

  function OtherAt(mode: Mode, s: Series, t: int): Option<int> {
    Other(mode, s, MarksAt(s, t))
  }

  lemma {:induction false} NothingUpTo(points: seq<Point>, t: int)
    requires forall x :: x in points ==> t < x.at
    ensures UpTo(points, t) == []
  {
    if |points| > 0 {
      NothingUpTo(Init(points), t);
    }
  }

  /** The tie-break as of t: in peak mode the rating after the last game at or before t, the live current rating if
      there is none; in current mode the live peak. */
  lemma OtherIs(s: Series, t: int)
    requires Timed(s.points)
    ensures forall i :: 0 <= i < |s.points| && s.points[i].at <= t
                        && (i + 1 < |s.points| ==> t < s.points[i + 1].at) ==>
      OtherAt(PeakMode, s, t) == Some(s.points[i].rating)
    ensures (forall x :: x in s.points ==> t < x.at) ==>
      OtherAt(PeakMode, s, t) == if s.live.None? then None else Some(s.live.value.currentRating)
    ensures OtherAt(CurrentMode, s, t) == if s.live.None? then None else Some(s.live.value.maxRating)
  {
    UpToIsPrefix(s.points, t);
    if forall x :: x in s.points ==> t < x.at {
      NothingUpTo(s.points, t);
    }
  }

  // ---- where a line starts ----

  /** Nothing of the series has happened by t. */
  ghost predicate Untouched(s: Series, t: int) {
    forall x :: x in s.points || x in s.snaps ==> t < x.at
  }

  lemma UntouchedIsBaseline(mode: Mode, s: Series, t: int)
    requires Untouched(s, t)
    ensures MetricAt(mode, s, t) == if mode.PeakMode? then Clamp(Baseline(mode, s), s.live) else Baseline(mode, s)
  {
    NothingUpTo(s.points, t);
    NothingUpTo(s.snaps, t);
  }

  /** Until something happens, a rated entrant is charted at the last peak observed by the start, or without one at
      the first observed later; not below the rating held entering the window, nor above the live peak. */
  lemma StartsRecorded(s: Series, t: int)
    requires Untouched(s, t) && s.live.Some? && (s.snapBase.Some? || |s.snaps| > 0)
    ensures var seen := if s.snapBase.Some? then s.snapBase.value else s.snaps[0].rating;
      var held := if s.entryOld.Some? && seen < s.entryOld.value then s.entryOld.value else seen;
      MetricAt(PeakMode, s, t)
        == Some(if s.live.value.maxRating < held then s.live.value.maxRating else held)
  {
    UntouchedIsBaseline(PeakMode, s, t);
  }

  /** Without an observation, an entrant whose charted games all stay below the live peak is charted flat at it. */
  lemma StartsFlat(s: Series, t: int)
    requires s.live.Some? && s.snapBase.None? && s.snaps == []
    requires forall x :: x in s.points ==> x.rating < s.live.value.maxRating
    ensures MetricAt(PeakMode, s, t) == Some(s.live.value.maxRating)
  {
    MaxRatingIs(s.points);
  }

  /** One whose charted games reach it starts at what earlier games or the first old rating prove, and climbs. */
  lemma StartsClimbing(s: Series, t: int, x: Point)
    requires Untouched(s, t) && s.live.Some? && s.snapBase.None? && s.snaps == []
    requires x in s.points && x.rating >= s.live.value.maxRating
    ensures var proved := MaxOpt(s.earlierPeak, s.entryOld);
      MetricAt(PeakMode, s, t)
        == if proved.Some? && s.live.value.maxRating < proved.value then Some(s.live.value.maxRating) else proved
  {
    UntouchedIsBaseline(PeakMode, s, t);
    MaxRatingIs(s.points);
  }

  /** In current mode a line starts at the rating held entering the window, else at the last one observed by the
      start, else at the first observed later, else at the live one. */
  lemma StartsCurrent(s: Series, t: int)
    requires Untouched(s, t) && s.live.Some?
    ensures MetricAt(CurrentMode, s, t)
      == if s.entryOld.Some? then s.entryOld
         else if s.snapBase.Some? then s.snapBase
         else Some(if |s.snaps| > 0 then s.snaps[0].rating else s.live.value.currentRating)
  {
    UntouchedIsBaseline(CurrentMode, s, t);
  }

  /** An unrated entrant has no rating until something happens. */
  lemma StartsUnrated(mode: Mode, s: Series, t: int)
    requires Untouched(s, t) && s.live.None?
    ensures MetricAt(mode, s, t) == None
  {
    UntouchedIsBaseline(mode, s, t);
  }

  lemma {:induction false} MaxRatingPrefix(a: seq<Point>, b: seq<Point>)
    requires a <= b
    ensures AtMost(MaxRating(a), MaxRating(b))
  {
    if |a| < |b| {
      assert a <= Init(b);
      MaxRatingPrefix(a, Init(b));
    } else {
      assert a == b;
    }
  }

  /** A charted peak never falls, and for a rated entrant it never exceeds the live peak. */
  lemma PeakOnlyRises(s: Series, t: int, t': int)
    requires Timed(s.points) && Timed(s.snaps) && t <= t'
    ensures AtMost(MetricAt(PeakMode, s, t), MetricAt(PeakMode, s, t'))
    ensures s.live.Some? ==> AtMost(MetricAt(PeakMode, s, t), Some(s.live.value.maxRating))
  {
    UpToGrows(s.points, t, t');
    UpToGrows(s.snaps, t, t');
    MaxRatingPrefix(UpTo(s.points, t), UpTo(s.points, t'));
    MaxRatingPrefix(UpTo(s.snaps, t), UpTo(s.snaps, t'));
  }

  // ---- current mode: the newest item of the merged history ----

  /** A log point or an observation, tagged with its rank among items of one time. */
  datatype Item = Item(at: int, rank: int, rating: int)

  function ByNewness(i: Item): (int, int) {
    (i.at, i.rank)
  }

  /** Points ranked from `from` on, in order. */
  function Tagged(points: seq<Point>, from: int): (r: seq<Item>)
    ensures |r| == |points|
    ensures forall i :: 0 <= i < |r| ==> r[i] == Item(points[i].at, from + i, points[i].rating)
  {
    seq(|points|, i requires 0 <= i < |points| => Item(points[i].at, from + i, points[i].rating))
  }

  /** Log and observations merged by time; at equal times the log comes later. */
  function Merged(points: seq<Point>, snaps: seq<Point>): seq<Item> {
    OrderBy(Tagged(snaps, 0) + Tagged(points, |snaps|), ByNewness)
  }

  /** In current mode the metric is the newest item of the merged history up to t, or the baseline. */
  lemma CurrentIsNewest(s: Series, t: int)
    requires Timed(s.points) && Timed(s.snaps)
    ensures var merged := Merged(UpTo(s.points, t), UpTo(s.snaps, t));
      MetricAt(CurrentMode, s, t) == if merged == [] then Baseline(CurrentMode, s) else Some(Last(merged).rating)
  {
    var p, o := UpTo(s.points, t), UpTo(s.snaps, t);
    UpToIsPrefix(s.points, t);
    UpToIsPrefix(s.snaps, t);
    LastMerged(p, o);
  }

  lemma LastMerged(p: seq<Point>, o: seq<Point>)
    requires Timed(p) && Timed(o)
    ensures |Merged(p, o)| == |p| + |o|
    ensures |Merged(p, o)| > 0 ==>
      Last(Merged(p, o)).rating
        == if |p| > 0 && (|o| == 0 || Last(o).at <= Last(p).at) then Last(p).rating else Last(o).rating
  {
    var items := Tagged(o, 0) + Tagged(p, |o|);
    SameElements(Merged(p, o), items);
    if |items| > 0 {
      var k := if |p| > 0 && (|o| == 0 || Last(o).at <= Last(p).at) then |items| - 1 else |o| - 1;
      NewestItem(p, o, items, k);
      NewestIs(items, Merged(p, o), k);
    }
  }

  lemma NewestItem(p: seq<Point>, o: seq<Point>, items: seq<Item>, k: nat)
    requires Timed(p) && Timed(o) && items == Tagged(o, 0) + Tagged(p, |o|) && k < |items|
    requires k == if |p| > 0 && (|o| == 0 || Last(o).at <= Last(p).at) then |items| - 1 else |o| - 1
    ensures forall i :: 0 <= i < |items| ==> KeyLe(ByNewness(items[i]), ByNewness(items[k]))
    ensures forall i :: 0 <= i < |items| && i != k ==> ByNewness(items[i]) != ByNewness(items[k])
  {
    assert forall i :: 0 <= i < |items| ==> items[i].rank == i;
  }

  lemma NewestIs(items: seq<Item>, merged: seq<Item>, k: nat)
    requires SortedBy(merged, ByNewness) && |merged| > 0 && k < |items|
    requires forall x :: x in merged <==> x in items
    requires forall i :: 0 <= i < |items| ==> KeyLe(ByNewness(items[i]), ByNewness(items[k]))
    requires forall i :: 0 <= i < |items| && i != k ==> ByNewness(items[i]) != ByNewness(items[k])
    ensures Last(merged) == items[k]
  {
    assert items[k] in merged;
    var j :| 0 <= j < |merged| && merged[j] == items[k];
    assert j < |merged| - 1 ==> KeyLe(ByNewness(merged[j]), ByNewness(Last(merged)));
    assert Last(merged) in items;
    var i :| 0 <= i < |items| && items[i] == Last(merged);
  }
}
