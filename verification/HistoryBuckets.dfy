/** The time axis, the ranking of the whole field at each candidate time, and which of those times
    become buckets. */
module HistoryBuckets {
  import opened Common
  import opened Ranking
  import opened HistorySeries
  import opened HistorySweep

  // ---- the time axis ----

  /** Times count microseconds of UTC; a day starts at a multiple of this. */
  const DAY := 86_400_000_000

  function DayOf(t: int): int {
    t / DAY
  }

  function Least(s: seq<int>): (r: int)
    requires |s| > 0
    ensures r in s && forall x :: x in s ==> r <= x
  {
    SplitLast(s);
    if |s| == 1 then s[0]
    else
      var r := Least(Init(s));
      if Last(s) < r then Last(s) else r
  }

  function Greatest(s: seq<int>): (r: int)
    requires |s| > 0
    ensures r in s && forall x :: x in s ==> x <= r
  {
    SplitLast(s);
    if |s| == 1 then s[0]
    else
      var r := Greatest(Init(s));
      if r < Last(s) then Last(s) else r
  }

  datatype Axis = Axis(times: seq<int>, anchors: set<int>)

  /** No axis when there is neither a start date nor anything to chart. */
  ghost predicate IsAxis(start: Option<int>, events: seq<int>, axis: Option<Axis>) {
    if start.None? && |events| == 0 then axis.None?
    else
      var from := DayOf(if start.Some? then start.value else Least(events));
      var to := if |events| > 0 then DayOf(Greatest(events)) else from;
      && axis.Some? && |axis.value.times| > 0 && Increasing(axis.value.times)
      && (forall t :: t in axis.value.anchors <==> t % DAY == 0 && (if from < to then from else to) <= DayOf(t) <= to)
      && (forall t :: t in axis.value.times <==> t in axis.value.anchors || t in events)
  }

  /** Midnight of every day from the start to the last event, and every event time, in order. */
  method CandidateTimes(start: Option<int>, events: seq<int>) returns (axis: Option<Axis>)
    ensures IsAxis(start, events, axis)
  {
    if start.None? && |events| == 0 {
      return None;
    }
    var startAnchor := if start.Some? then start.value else Least(events);
    var endDay := DayOf(if |events| > 0 then Greatest(events) else startAnchor);
    var firstDay := if DayOf(startAnchor) < endDay then DayOf(startAnchor) else endDay;
    var day := firstDay;
    var anchors: set<int>, midnights: seq<int> := {}, [];
    while day <= endDay
      invariant firstDay <= day <= endDay + 1
      invariant forall t :: t in anchors <==> t % DAY == 0 && firstDay <= DayOf(t) < day
      invariant forall t :: t in anchors <==> t in midnights
      decreases endDay + 1 - day
    {
      MidnightOf(day);
      anchors, midnights := anchors + {day * DAY}, midnights + [day * DAY];
      day := day + 1;
    }
    MidnightOf(endDay);
    assert endDay * DAY in anchors;
    var times := SortedUnique(midnights + events);
    assert endDay * DAY in times;
    axis := Some(Axis(times, anchors));
  }

  lemma MidnightOf(day: int)
    ensures (day * DAY) % DAY == 0 && DayOf(day * DAY) == day
    ensures forall t :: t % DAY == 0 && DayOf(t) == day ==> t == day * DAY
  {
  }

  /** The axis ends at or after every event. */
  lemma AxisCoversEvents(start: Option<int>, events: seq<int>, axis: Axis, t: int)
    requires IsAxis(start, events, Some(axis)) && t in events
    ensures t <= Last(axis.times)
  {
  }

  /** A day has 86,400,000,000 microseconds. The anchors are the midnights from the day of the start, or of the last
      event if that is earlier, up to the last event; without events the midnight of the start's day. */
  lemma AnchorsAre(start: Option<int>, events: seq<int>, axis: Axis, t: int)
    requires IsAxis(start, events, Some(axis))
    ensures |events| > 0 ==>
      var last := Greatest(events);
      var first := if start.Some? then start.value else Least(events);
      t in axis.anchors <==>
        t % 86_400_000_000 == 0 && t <= last && t > (if first < last then first else last) - 86_400_000_000
    ensures |events| == 0 ==>
      start.Some? && (t in axis.anchors <==> t % 86_400_000_000 == 0 && start.value - 86_400_000_000 < t <= start.value)
  {
    if t % DAY == 0 {
      if |events| > 0 {
        MidnightFrom(Greatest(events), t);
        MidnightFrom(if start.Some? then start.value else Least(events), t);
      } else {
        MidnightFrom(start.value, t);
      }
    }
  }

  lemma MidnightFrom(x: int, t: int)
    requires t % DAY == 0
    ensures DayOf(t) <= DayOf(x) <==> t <= x
    ensures DayOf(x) <= DayOf(t) <==> t > x - DAY
  {
    assert t == DayOf(t) * DAY;
    assert DayOf(x) * DAY <= x < DayOf(x) * DAY + DAY;
  }

  // ---- the field at one time ----

  datatype Entry = Entry(id: int, name: string, series: Series)

  /** `members` pairs a team with one of its members' roster row ids. */
  datatype Chart = Chart(mode: Mode, entries: seq<Entry>, members: seq<(int, int)>)

  function StandingAt(mode: Mode, e: Entry, t: int): Standing {
    Standing(e.id, MetricAt(mode, e.series, t), OtherAt(mode, e.series, t), e.name)
  }

  function StandingsAt(mode: Mode, entries: seq<Entry>, t: int): (r: seq<Standing>)
    ensures |r| == |entries| && forall i :: 0 <= i < |r| ==> r[i] == StandingAt(mode, entries[i], t)
  {
    seq(|entries|, i requires 0 <= i < |entries| => StandingAt(mode, entries[i], t))
  }

  function Metrics(rows: seq<Standing>): map<int, Option<int>> {
    if |rows| == 0 then map[] else Metrics(Init(rows))[Last(rows).id := Last(rows).metric]
  }

  function TeamIds(members: seq<(int, int)>): seq<int> {
    SortedUnique(seq(|members|, i requires 0 <= i < |members| => members[i].0))
  }

  /** The sum of the members' metrics, null counting as nothing, members off the chart skipped. */
  function Combined(metrics: map<int, Option<int>>, members: seq<(int, int)>, team: int): int {
    if |members| == 0 then 0
    else
      var (of, tp) := Last(members);
      Combined(metrics, Init(members), team) + if of == team && tp in metrics then metrics[tp].GetOr(0) else 0
  }

  function TeamStandings(metrics: map<int, Option<int>>, members: seq<(int, int)>): (r: seq<Standing>)
    ensures |r| == |TeamIds(members)|
    ensures forall i :: 0 <= i < |r| ==>
      r[i] == TeamStanding(TeamIds(members)[i], Combined(metrics, members, TeamIds(members)[i]))
  {
    var ids := TeamIds(members);
    seq(|ids|, i requires 0 <= i < |ids| => TeamStanding(ids[i], Combined(metrics, members, ids[i])))
  }

  /** One candidate time: the players and the teams as ranked there. */
  datatype Bucket = Bucket(at: int, players: seq<Standing>, teams: seq<Standing>) {
    function PlayerPositions(): map<int, int> {
      Positions(Ranked(players))
    }

    function TeamPositions(): map<int, int> {
      Positions(Ranked(teams))
    }

    /** The position vector whose changes mark a reorder. */
    function Vector(): (map<int, int>, map<int, int>) {
      (PlayerPositions(), TeamPositions())
    }
  }

  function BucketOf(players: seq<Standing>, members: seq<(int, int)>, t: int): Bucket {
    Bucket(t, players, TeamStandings(Metrics(players), members))
  }

  /** The field as of t, by definition. */
  function BucketAt(c: Chart, t: int): Bucket {
    BucketOf(StandingsAt(c.mode, c.entries, t), c.members, t)
  }

  ghost predicate DistinctEntries(entries: seq<Entry>) {
    forall i, j :: 0 <= i < j < |entries| ==> entries[i].id != entries[j].id
  }

  lemma DistinctStandings(c: Chart, t: int)
    requires DistinctEntries(c.entries)
    ensures DistinctIds(BucketAt(c, t).players) && DistinctIds(BucketAt(c, t).teams)
  {
  }

  /** In every bucket an entrant's position is one more than the number of entrants ahead in the total
      order. */
  lemma PlayerPositionIs(c: Chart, t: int, i: nat)
    requires DistinctEntries(c.entries) && i < |c.entries|
    ensures Get(BucketAt(c, t).PlayerPositions(), c.entries[i].id)
         == Some(1 + |Ahead(BucketAt(c, t).players, StandingAt(c.mode, c.entries[i], t))|)
  {
    DistinctStandings(c, t);
    PositionCountsAhead(BucketAt(c, t).players, BucketAt(c, t).players[i]);
  }

  /** In every bucket a team's position is one more than the number of teams ahead. */
  lemma TeamPositionIs(c: Chart, t: int, i: nat)
    requires DistinctEntries(c.entries) && i < |BucketAt(c, t).teams|
    ensures Get(BucketAt(c, t).TeamPositions(), BucketAt(c, t).teams[i].id)
         == Some(1 + |Ahead(BucketAt(c, t).teams, BucketAt(c, t).teams[i])|)
  {
    DistinctStandings(c, t);
    PositionCountsAhead(BucketAt(c, t).teams, BucketAt(c, t).teams[i]);
  }

  // ---- suppression ----

  /** Whether a candidate bucket is emitted after these; `total` is the number of candidates. */
  predicate Emits(before: seq<Bucket>, b: Bucket, index: int, anchors: set<int>, total: nat) {
    b.at in anchors || before == [] || b.Vector() != Last(before).Vector() || index == total - 1
  }

  /** The buckets emitted out of the candidates seen so far. */
  function Emitted(candidates: seq<Bucket>, anchors: set<int>, total: nat): seq<Bucket> {
    if |candidates| == 0 then []
    else
      var before := Emitted(Init(candidates), anchors, total);
      if Emits(before, Last(candidates), |candidates| - 1, anchors, total) then before + [Last(candidates)]
      else before
  }

  /** The last of these buckets at or before t. */
  function LatestBucket(buckets: seq<Bucket>, t: int): Option<Bucket> {
    if |buckets| == 0 then None
    else if Last(buckets).at <= t then Some(Last(buckets))
    else LatestBucket(Init(buckets), t)
  }

  ghost predicate InTimeOrder(buckets: seq<Bucket>) {
    |buckets| > 0 ==> InTimeOrder(Init(buckets)) && forall b :: b in Init(buckets) ==> b.at < Last(buckets).at
  }

  /** Emitted buckets are candidates, in time order, starting with the first one. */
  lemma {:induction false} EmittedAreCandidates(candidates: seq<Bucket>, anchors: set<int>, total: nat)
    requires InTimeOrder(candidates)
    ensures forall b :: b in Emitted(candidates, anchors, total) ==> b in candidates
    ensures InTimeOrder(Emitted(candidates, anchors, total))
    ensures |candidates| > 0 ==>
      |Emitted(candidates, anchors, total)| > 0 && Emitted(candidates, anchors, total)[0] == candidates[0]
  {
    if |candidates| > 0 {
      SplitLast(candidates);
      EmittedAreCandidates(Init(candidates), anchors, total);
      var before := Emitted(Init(candidates), anchors, total);
      assert Init(before + [Last(candidates)]) == before;
    }
  }

  /** Every daily anchor and the last candidate become buckets. */
  lemma {:induction false} AnchorsAndLastEmitted(candidates: seq<Bucket>, anchors: set<int>, total: nat, i: nat)
    requires i < |candidates| && (candidates[i].at in anchors || i == total - 1)
    ensures candidates[i] in Emitted(candidates, anchors, total)
  {
    if i < |candidates| - 1 {
      AnchorsAndLastEmitted(Init(candidates), anchors, total, i);
    }
  }

  /** A bucket that is neither an anchor nor the last candidate differs in a player's or a team's position from
      the bucket before it. */
  lemma {:induction false} OtherBucketsAreReorders(candidates: seq<Bucket>, anchors: set<int>, k: nat)
    requires InTimeOrder(candidates) && 0 < k < |Emitted(candidates, anchors, |candidates|)|
    ensures var b := Emitted(candidates, anchors, |candidates|);
      || b[k].at in anchors || b[k] == Last(candidates)
      || b[k].PlayerPositions() != b[k - 1].PlayerPositions() || b[k].TeamPositions() != b[k - 1].TeamPositions()
  {
    ReordersUpTo(candidates, anchors, |candidates|, k);
  }

  lemma {:induction false} ReordersUpTo(candidates: seq<Bucket>, anchors: set<int>, total: nat, k: nat)
    requires |candidates| <= total && 0 < k < |Emitted(candidates, anchors, total)|
    ensures var b := Emitted(candidates, anchors, total);
      || b[k].at in anchors || b[k].Vector() != b[k - 1].Vector()
      || (|candidates| == total && b[k] == Last(candidates))
  {
    if k < |Emitted(Init(candidates), anchors, total)| {
      ReordersUpTo(Init(candidates), anchors, total, k);
    }
  }

  /** Suppression loses no positions: at every candidate time the whole position vector is the one in
      the latest bucket at or before that time. */
  lemma {:induction false} NoPositionLost(candidates: seq<Bucket>, anchors: set<int>, total: nat, i: nat)
    requires i < |candidates| && InTimeOrder(candidates)
    ensures var latest := LatestBucket(Emitted(candidates, anchors, total), candidates[i].at);
      && latest.Some? && latest.value.Vector() == candidates[i].Vector()
      && latest.value.PlayerPositions() == candidates[i].PlayerPositions()
      && latest.value.TeamPositions() == candidates[i].TeamPositions()
  {
    var before := Emitted(Init(candidates), anchors, total);
    var b := Last(candidates);
    assert Init(before + [b]) == before;
    if i < |candidates| - 1 {
      NoPositionLost(Init(candidates), anchors, total, i);
      assert candidates[i] in Init(candidates);
    } else {
      EmittedAreCandidates(Init(candidates), anchors, total);
    }
  }
}
