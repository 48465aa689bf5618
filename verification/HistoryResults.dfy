/** What the history promises its readers: no reorder is lost, peaks only rise, and the last bucket is
    the live table. */
module HistoryResults {
  import opened Common
  import opened Ranking
  import opened HistorySeries
  import opened HistorySweep
  import opened HistoryBuckets
  import opened StandingsHistory

  // ---- buckets ----

  lemma {:induction false} CandidatesInOrder(c: Chart, times: seq<int>)
    requires Increasing(times)
    ensures InTimeOrder(Candidates(c, times))
    ensures forall b :: b in Candidates(c, times) ==> b.at in times
  {
    if |times| > 0 {
      SplitLast(times);
      CandidatesInOrder(c, Init(times));
      var front := Candidates(c, Init(times));
      assert Init(front + [BucketAt(c, Last(times))]) == front;
      forall b | b in front ensures b.at < Last(times) {
        var i :| 0 <= i < |Init(times)| && Init(times)[i] == b.at;
      }
    }
  }

  /** At every candidate time, the positions of all players and teams are those of the latest bucket at
      or before it. */
  lemma HistoryLosesNoPosition(c: Chart, axis: Axis, h: History, i: nat)
    requires Charts(c, axis, h) && Increasing(axis.times) && i < |axis.times|
    ensures var latest := LatestBucket(h.buckets, axis.times[i]);
      && latest.Some?
      && latest.value.PlayerPositions() == BucketAt(c, axis.times[i]).PlayerPositions()
      && latest.value.TeamPositions() == BucketAt(c, axis.times[i]).TeamPositions()
  {
    CandidatesInOrder(c, axis.times);
    CandidatesAt(c, axis.times);
    NoPositionLost(Candidates(c, axis.times), axis.anchors, |axis.times|, i);
  }

  /** Buckets come in time order, and each is the field as of its own candidate time. */
  lemma BucketsAreTheField(c: Chart, axis: Axis, h: History)
    requires Charts(c, axis, h) && Increasing(axis.times)
    ensures InTimeOrder(h.buckets)
    ensures forall b :: b in h.buckets ==> b.at in axis.times && b == BucketAt(c, b.at)
  {
    var all := Candidates(c, axis.times);
    CandidatesInOrder(c, axis.times);
    CandidatesAt(c, axis.times);
    EmittedAreCandidates(all, axis.anchors, |axis.times|);
    forall b | b in h.buckets ensures b.at in axis.times && b == BucketAt(c, b.at) {
      var k :| 0 <= k < |all| && all[k] == b;
    }
  }

  /** The first and last candidate times and every midnight have a bucket. */
  lemma HistoryKeepsAnchors(c: Chart, axis: Axis, h: History, i: nat)
    requires Charts(c, axis, h) && Increasing(axis.times) && i < |axis.times|
    requires i == 0 || i == |axis.times| - 1 || axis.times[i] in axis.anchors
    ensures BucketAt(c, axis.times[i]) in h.buckets
  {
    var all := Candidates(c, axis.times);
    CandidatesAt(c, axis.times);
    if i == 0 {
      CandidatesInOrder(c, axis.times);
      EmittedAreCandidates(all, axis.anchors, |axis.times|);
    } else {
      AnchorsAndLastEmitted(all, axis.anchors, |axis.times|, i);
    }
  }

  /** The last bucket is the field at the last candidate time. */
  lemma LastBucket(c: Chart, axis: Axis, h: History)
    requires Charts(c, axis, h) && |axis.times| > 0
    ensures |h.buckets| > 0 && Last(h.buckets) == BucketAt(c, Last(axis.times))
  {
    CandidatesAt(c, axis.times);
  }

  // ---- lines ----

  lemma {:induction false} MetricsOf(rows: seq<Standing>, i: nat)
    requires DistinctIds(rows) && i < |rows|
    ensures Get(Metrics(rows), rows[i].id) == Some(rows[i].metric)
  {
    if i < |rows| - 1 {
      MetricsOf(Init(rows), i);
    }
  }

  lemma {:induction false} TimesInOrder(buckets: seq<Bucket>, k: nat, k': nat)
    requires InTimeOrder(buckets) && k <= k' < |buckets|
    ensures buckets[k].at <= buckets[k'].at
  {
    if k' < |buckets| - 1 {
      TimesInOrder(Init(buckets), k, k');
    } else if k < k' {
      assert buckets[k] == Init(buckets)[k] && buckets[k] in Init(buckets);
    }
  }

  /** The rating a point shows: the ranked one. */
  function Shown(mode: Mode, p: PlayerPoint): Option<int> {
    if mode.PeakMode? then p.peakRating else p.currentRating
  }

  lemma LineMetric(c: Chart, buckets: seq<Bucket>, i: nat, k: nat, t: int)
    requires DistinctEntries(c.entries) && i < |c.entries|
    requires k < |buckets| && buckets[k] == BucketAt(c, t)
    ensures Shown(c.mode, PlayerLine(c.mode, buckets, c.entries[i].id)[k]) == MetricAt(c.mode, c.entries[i].series, t)
  {
    DistinctStandings(c, t);
    MetricsOf(buckets[k].players, i);
  }

  lemma LineOf(c: Chart, axis: Axis, h: History, i: nat)
    requires Charts(c, axis, h) && i < |c.entries|
    ensures c.entries[i].id in h.players
    ensures h.players[c.entries[i].id] == PlayerLine(c.mode, h.buckets, c.entries[i].id)
  {
  }

  lemma PointIsMetric(c: Chart, axis: Axis, h: History, i: nat, k: nat)
    requires Charts(c, axis, h) && Increasing(axis.times) && DistinctEntries(c.entries)
    requires i < |c.entries| && k < |h.buckets|
    ensures c.entries[i].id in h.players && |h.players[c.entries[i].id]| == |h.buckets|
    ensures Shown(c.mode, h.players[c.entries[i].id][k]) == MetricAt(c.mode, c.entries[i].series, h.buckets[k].at)
  {
    BucketsAreTheField(c, axis, h);
    assert h.buckets[k] in h.buckets;
    LineOf(c, axis, h, i);
    LineMetric(c, h.buckets, i, k, h.buckets[k].at);
  }

  /** A point's position is one more than the number of entrants ahead in its bucket, and its field of the other
      mode is null. */
  lemma PointPosition(c: Chart, axis: Axis, h: History, i: nat, k: nat)
    requires Charts(c, axis, h) && Increasing(axis.times) && DistinctEntries(c.entries)
    requires i < |c.entries| && k < |h.buckets|
    ensures c.entries[i].id in h.players && |h.players[c.entries[i].id]| == |h.buckets|
    ensures StandingAt(c.mode, c.entries[i], h.buckets[k].at) in h.buckets[k].players
    ensures h.players[c.entries[i].id][k].position
      == 1 + |Ahead(h.buckets[k].players, StandingAt(c.mode, c.entries[i], h.buckets[k].at))|
    ensures var p := h.players[c.entries[i].id][k];
      if c.mode.PeakMode? then p.currentRating == None else p.peakRating == None
  {
    BucketsAreTheField(c, axis, h);
    assert h.buckets[k] in h.buckets;
    LineOf(c, axis, h, i);
    PlayerPositionIs(c, h.buckets[k].at, i);
    assert h.buckets[k].players[i] == StandingAt(c.mode, c.entries[i], h.buckets[k].at);
  }

  /** The charted position is the bucket's. */
  lemma PointPlace(c: Chart, axis: Axis, h: History, i: nat, k: nat)
    requires Charts(c, axis, h) && Increasing(axis.times) && DistinctEntries(c.entries)
    requires i < |c.entries| && k < |h.buckets|
    ensures DistinctIds(h.buckets[k].players) && |h.buckets[k].players| == |c.entries|
    ensures h.buckets[k].players[i] == StandingAt(c.mode, c.entries[i], h.buckets[k].at)
    ensures c.entries[i].id in h.players && |h.players[c.entries[i].id]| == |h.buckets|
    ensures Get(Positions(Ranked(h.buckets[k].players)), c.entries[i].id)
      == Some(h.players[c.entries[i].id][k].position)
  {
    BucketsAreTheField(c, axis, h);
    assert h.buckets[k] in h.buckets;
    DistinctStandings(c, h.buckets[k].at);
    PointPosition(c, axis, h, i, k);
    PlayerPositionIs(c, h.buckets[k].at, i);
  }

  /** At every bucket the positions of n entrants are 1..n: each is held by one of them, and no two share one. */
  lemma PointsArePermutation(c: Chart, axis: Axis, h: History, k: nat, p: int) returns (i: nat)
    requires Charts(c, axis, h) && Increasing(axis.times) && DistinctEntries(c.entries)
    requires k < |h.buckets| && 1 <= p <= |c.entries|
    ensures i < |c.entries| && c.entries[i].id in h.players && |h.players[c.entries[i].id]| == |h.buckets|
    ensures h.players[c.entries[i].id][k].position == p
    ensures forall j :: 0 <= j < |c.entries| && j != i ==>
      && c.entries[j].id in h.players && |h.players[c.entries[j].id]| == |h.buckets|
      && h.players[c.entries[j].id][k].position != p
  {
    PointPlace(c, axis, h, 0, k);
    PositionsArePermutation(h.buckets[k].players, p);
    var rows := h.buckets[k].players;
    var x :| x in rows && Get(Positions(Ranked(rows)), x.id) == Some(p);
    i :| 0 <= i < |rows| && rows[i] == x;
    PointPlace(c, axis, h, i, k);
    forall j | 0 <= j < |c.entries| && j != i
      ensures c.entries[j].id in h.players && |h.players[c.entries[j].id]| == |h.buckets|
      ensures h.players[c.entries[j].id][k].position != p
    {
      PointPlace(c, axis, h, j, k);
      PositionsDiffer(rows, rows[i], rows[j]);
    }
  }

  /** Of two points of one bucket the one that shows the higher rating has the smaller position; null is last, and
      equal ratings fall back on the other rating, the names as `NameBefore` compares them, and the smaller id. */
  lemma HigherPointIsAhead(c: Chart, axis: Axis, h: History, i: nat, j: nat, k: nat)
    requires Charts(c, axis, h) && Increasing(axis.times) && DistinctEntries(c.entries)
    requires i < |c.entries| && j < |c.entries| && k < |h.buckets|
    ensures c.entries[i].id in h.players && c.entries[j].id in h.players
    ensures |h.players[c.entries[i].id]| == |h.players[c.entries[j].id]| == |h.buckets|
    ensures var a, b := h.players[c.entries[i].id][k], h.players[c.entries[j].id][k];
      var x, y := Shown(c.mode, a), Shown(c.mode, b);
      var t := h.buckets[k].at;
      var u, v := OtherAt(c.mode, c.entries[i].series, t), OtherAt(c.mode, c.entries[j].series, t);
      var m, n := c.entries[i].name, c.entries[j].name;
      && (x.Some? && (y.None? || x.value > y.value) ==> a.position < b.position)
      && (x == y && u.Some? && (v.None? || u.value > v.value) ==> a.position < b.position)
      && (x == y && u == v && NameBefore(m, n) ==> a.position < b.position)
      && (x == y && u == v && m == n && c.entries[i].id < c.entries[j].id ==> a.position < b.position)
  {
    PointPlace(c, axis, h, i, k);
    PointPlace(c, axis, h, j, k);
    PointIsMetric(c, axis, h, i, k);
    PointIsMetric(c, axis, h, j, k);
    HigherIsAhead(h.buckets[k].players, h.buckets[k].players[i], h.buckets[k].players[j]);
  }

  /** In peak mode a player's line never falls. */
  lemma PeakLinesOnlyRise(c: Chart, axis: Axis, h: History, i: nat, k: nat, k': nat)
    requires Charts(c, axis, h) && Increasing(axis.times)
    requires DistinctEntries(c.entries) && AllTimed(c.entries)
    requires c.mode.PeakMode? && i < |c.entries| && k <= k' < |h.buckets|
    ensures c.entries[i].id in h.players && |h.players[c.entries[i].id]| == |h.buckets|
    ensures AtMost(h.players[c.entries[i].id][k].peakRating, h.players[c.entries[i].id][k'].peakRating)
  {
    PointIsMetric(c, axis, h, i, k);
    PointIsMetric(c, axis, h, i, k');
    BucketTimes(c, axis, h, k, k');
    EntryRises(c.entries, i, h.buckets[k].at, h.buckets[k'].at);
  }

  /** A rated player's line never exceeds the live peak. */
  lemma PeakLinesCapped(c: Chart, axis: Axis, h: History, i: nat, k: nat)
    requires Charts(c, axis, h) && Increasing(axis.times)
    requires DistinctEntries(c.entries) && AllTimed(c.entries)
    requires c.mode.PeakMode? && i < |c.entries| && k < |h.buckets| && c.entries[i].series.live.Some?
    ensures c.entries[i].id in h.players && |h.players[c.entries[i].id]| == |h.buckets|
    ensures AtMost(h.players[c.entries[i].id][k].peakRating, Some(c.entries[i].series.live.value.maxRating))
  {
    PointIsMetric(c, axis, h, i, k);
    EntryRises(c.entries, i, h.buckets[k].at, h.buckets[k].at);
  }

  lemma EntryRises(entries: seq<Entry>, i: nat, t: int, t': int)
    requires AllTimed(entries) && i < |entries| && t <= t'
    ensures AtMost(MetricAt(PeakMode, entries[i].series, t), MetricAt(PeakMode, entries[i].series, t'))
    ensures entries[i].series.live.Some? ==>
      AtMost(MetricAt(PeakMode, entries[i].series, t), Some(entries[i].series.live.value.maxRating))
  {
    assert entries[i] in entries;
    PeakOnlyRises(entries[i].series, t, t');
  }

  lemma BucketTimes(c: Chart, axis: Axis, h: History, k: nat, k': nat)
    requires Charts(c, axis, h) && Increasing(axis.times) && k <= k' < |h.buckets|
    ensures h.buckets[k].at <= h.buckets[k'].at
  {
    BucketsAreTheField(c, axis, h);
    TimesInOrder(h.buckets, k, k');
  }

  /** In current mode a point is the newest item of the entrant's merged log and observations up to the
      bucket's time, or the baseline if there is none. */
  lemma CurrentPointIsNewest(c: Chart, axis: Axis, h: History, i: nat, k: nat)
    requires Charts(c, axis, h) && Increasing(axis.times)
    requires DistinctEntries(c.entries) && AllTimed(c.entries)
    requires c.mode.CurrentMode? && i < |c.entries| && k < |h.buckets|
    ensures c.entries[i].id in h.players && |h.players[c.entries[i].id]| == |h.buckets|
    ensures var s, t := c.entries[i].series, h.buckets[k].at;
      var merged := Merged(UpTo(s.points, t), UpTo(s.snaps, t));
      h.players[c.entries[i].id][k].currentRating
        == if merged == [] then Baseline(CurrentMode, s) else Some(Last(merged).rating)
  {
    PointIsMetric(c, axis, h, i, k);
    assert c.entries[i] in c.entries;
    CurrentIsNewest(c.entries[i].series, h.buckets[k].at);
  }

  // ---- teams ----

  /** A roster row's metric as of t, nothing if it is off the chart or unrated. */
  function MetricOf(mode: Mode, entries: seq<Entry>, t: int, id: int): int {
    if |entries| == 0 then 0
    else if Last(entries).id == id then MetricAt(mode, Last(entries).series, t).GetOr(0)
    else MetricOf(mode, Init(entries), t, id)
  }

  /** The sum of a team's members' metrics as of t. */
  function TeamTotal(c: Chart, t: int, members: seq<(int, int)>, team: int): int {
    if |members| == 0 then 0
    else if Last(members).0 == team
    then TeamTotal(c, t, Init(members), team) + MetricOf(c.mode, c.entries, t, Last(members).1)
    else TeamTotal(c, t, Init(members), team)
  }

  lemma {:induction false} MetricsAt(mode: Mode, entries: seq<Entry>, t: int, id: int)
    ensures Get(Metrics(StandingsAt(mode, entries, t)), id).GetOr(None).GetOr(0) == MetricOf(mode, entries, t, id)
  {
    if |entries| > 0 {
      assert Init(StandingsAt(mode, entries, t)) == StandingsAt(mode, Init(entries), t);
      MetricsAt(mode, Init(entries), t, id);
    }
  }

  lemma {:induction false} CombinedIsTotal(c: Chart, t: int, members: seq<(int, int)>, team: int)
    ensures Combined(Metrics(StandingsAt(c.mode, c.entries, t)), members, team) == TeamTotal(c, t, members, team)
  {
    if |members| > 0 {
      CombinedIsTotal(c, t, Init(members), team);
      MetricsAt(c.mode, c.entries, t, Last(members).1);
    }
  }

  /** A team's point is the sum of its members' metrics as of the bucket, in either mode. */
  lemma TeamPointIsTotal(c: Chart, axis: Axis, h: History, team: int, k: nat)
    requires Charts(c, axis, h) && Increasing(axis.times) && team in TeamIds(c.members) && k < |h.buckets|
    ensures team in h.teams && |h.teams[team]| == |h.buckets|
    ensures var p, total := h.teams[team][k], TeamTotal(c, h.buckets[k].at, c.members, team);
      if c.mode.PeakMode? then p.combinedPeak == Some(total) && p.combinedCurrent == None
      else p.combinedCurrent == Some(total) && p.combinedPeak == None
  {
    BucketsAreTheField(c, axis, h);
    assert h.buckets[k] in h.buckets;
    CombinedIsTotal(c, h.buckets[k].at, c.members, team);
  }

  /** Every team with a member on the chart's list has a line. */
  lemma TeamsCharted(c: Chart, axis: Axis, h: History, team: int)
    requires Charts(c, axis, h)
    ensures team in h.teams <==> exists m :: m in c.members && m.0 == team
  {
    TeamIdsAre(c.members, team);
  }

  lemma TeamIdsAre(members: seq<(int, int)>, team: int)
    ensures team in TeamIds(members) <==> exists m :: m in members && m.0 == team
  {
    var ids := seq(|members|, i requires 0 <= i < |members| => members[i].0);
    assert team in TeamIds(members) <==> team in ids;
    if team in ids {
      var i :| 0 <= i < |ids| && ids[i] == team;
      assert members[i] in members;
    }
    if m :| m in members && m.0 == team {
      var i :| 0 <= i < |members| && members[i] == m;
      assert ids[i] == team;
    }
  }

  lemma TeamRowAt(c: Chart, t: int, team: int) returns (j: nat)
    requires team in TeamIds(c.members)
    ensures j < |BucketAt(c, t).teams|
    ensures BucketAt(c, t).teams[j] == TeamStanding(team, TeamTotal(c, t, c.members, team))
  {
    j :| 0 <= j < |TeamIds(c.members)| && TeamIds(c.members)[j] == team;
    CombinedIsTotal(c, t, c.members, team);
  }

  lemma TeamPlace(c: Chart, axis: Axis, h: History, team: int, k: nat)
    requires Charts(c, axis, h) && Increasing(axis.times) && DistinctEntries(c.entries)
    requires team in h.teams && k < |h.buckets|
    ensures |h.teams[team]| == |h.buckets| && h.buckets[k] == BucketAt(c, h.buckets[k].at)
    ensures Get(Positions(Ranked(h.buckets[k].teams)), team) == Some(h.teams[team][k].position)
  {
    BucketsAreTheField(c, axis, h);
    assert h.buckets[k] in h.buckets;
    var j := TeamRowAt(c, h.buckets[k].at, team);
    TeamPositionIs(c, h.buckets[k].at, j);
  }

  /** A team's charted position is one more than the number of teams ahead in its bucket. */
  lemma TeamPointPosition(c: Chart, axis: Axis, h: History, team: int, k: nat)
    requires Charts(c, axis, h) && Increasing(axis.times) && DistinctEntries(c.entries)
    requires team in h.teams && k < |h.buckets|
    ensures |h.teams[team]| == |h.buckets|
    ensures h.teams[team][k].position
      == 1 + |Ahead(h.buckets[k].teams, TeamStanding(team, TeamTotal(c, h.buckets[k].at, c.members, team)))|
  {
    TeamPlace(c, axis, h, team, k);
    var j := TeamRowAt(c, h.buckets[k].at, team);
    TeamPositionIs(c, h.buckets[k].at, j);
  }

  /** Of two teams the one with the larger total has the smaller position; equal totals go by the smaller id. */
  lemma HigherTeamIsAhead(c: Chart, axis: Axis, h: History, a: int, b: int, k: nat)
    requires Charts(c, axis, h) && Increasing(axis.times) && DistinctEntries(c.entries)
    requires a in h.teams && b in h.teams && k < |h.buckets|
    ensures |h.teams[a]| == |h.teams[b]| == |h.buckets|
    ensures var x, y := TeamTotal(c, h.buckets[k].at, c.members, a), TeamTotal(c, h.buckets[k].at, c.members, b);
      h.teams[a][k].position < h.teams[b][k].position <==> x > y || (x == y && a < b)
  {
    TeamPlace(c, axis, h, a, k);
    TeamPlace(c, axis, h, b, k);
    TeamsFollowTotals(c, h.buckets[k].at, a, b);
  }

  lemma TeamBefore(a: int, x: int, b: int, y: int)
    ensures Before(TeamStanding(a, x), TeamStanding(b, y)) <==> x > y || (x == y && a < b)
  {
  }

  lemma TeamsFollowTotals(c: Chart, t: int, a: int, b: int)
    requires DistinctEntries(c.entries) && a in TeamIds(c.members) && b in TeamIds(c.members)
    ensures var positions := Positions(Ranked(BucketAt(c, t).teams));
      var x, y := TeamTotal(c, t, c.members, a), TeamTotal(c, t, c.members, b);
      a in positions && b in positions && (positions[a] < positions[b] <==> x > y || (x == y && a < b))
  {
    var i := TeamRowAt(c, t, a);
    var j := TeamRowAt(c, t, b);
    DistinctStandings(c, t);
    TeamBefore(a, TeamTotal(c, t, c.members, a), b, TeamTotal(c, t, c.members, b));
    PositionsFollowOrder(BucketAt(c, t).teams, BucketAt(c, t).teams[i], BucketAt(c, t).teams[j]);
  }

  /** The teams' positions at a bucket are 1..n. */
  lemma TeamPointsArePermutation(c: Chart, axis: Axis, h: History, k: nat, p: int) returns (team: int)
    requires Charts(c, axis, h) && Increasing(axis.times) && DistinctEntries(c.entries)
    requires k < |h.buckets| && 1 <= p <= |h.buckets[k].teams|
    ensures team in h.teams && |h.teams[team]| == |h.buckets| && h.teams[team][k].position == p
    ensures |h.buckets[k].teams| == |TeamIds(c.members)|
  {
    BucketsAreTheField(c, axis, h);
    assert h.buckets[k] in h.buckets;
    var rows := h.buckets[k].teams;
    DistinctStandings(c, h.buckets[k].at);
    PositionsArePermutation(rows, p);
    var x :| x in rows && Get(Positions(Ranked(rows)), x.id) == Some(p);
    team := x.id;
    TeamPlace(c, axis, h, team, k);
  }

  // ---- the last bucket ----

  /** A line ends with the entrant's metric at the last candidate time. */
  lemma LastPointIsMetric(c: Chart, axis: Axis, h: History, i: nat)
    requires Charts(c, axis, h) && Increasing(axis.times) && |axis.times| > 0 && DistinctEntries(c.entries)
    requires i < |c.entries|
    ensures c.entries[i].id in h.players && |h.players[c.entries[i].id]| > 0
    ensures Shown(c.mode, Last(h.players[c.entries[i].id])) == MetricAt(c.mode, c.entries[i].series, Last(axis.times))
  {
    LastBucket(c, axis, h);
    LineOf(c, axis, h, i);
    LineEnds(c, h.buckets, i, Last(axis.times));
  }

  lemma LineEnds(c: Chart, buckets: seq<Bucket>, i: nat, t: int)
    requires DistinctEntries(c.entries) && i < |c.entries| && |buckets| > 0 && Last(buckets) == BucketAt(c, t)
    ensures var line := PlayerLine(c.mode, buckets, c.entries[i].id);
      |line| > 0 && Shown(c.mode, Last(line)) == MetricAt(c.mode, c.entries[i].series, t)
  {
    LineMetric(c, buckets, i, |buckets| - 1, t);
  }

  lemma {:induction false} UpToAll(points: seq<Point>, t: int)
    requires forall x :: x in points ==> x.at <= t
    ensures UpTo(points, t) == points
  {
    if |points| > 0 {
      SplitLast(points);
      UpToAll(Init(points), t);
    }
  }

  /** The recorded part of a series agrees with live value m: its newest observation is m, or there is none at
      all. */
  ghost predicate NewestRecordedIs(s: Series, m: int) {
    if |s.snaps| > 0 then Last(s.snaps).rating == m
    else s.snapBase.Some? ==> s.snapBase.value == m
  }

  /** What a series charts besides its baseline: the ratings recorded in the window, and those of its games. */
  function Charted(s: Series): Option<int> {
    MaxOpt(MaxRating(s.snaps), MaxRating(s.points))
  }

  /** The last metric is the baseline or what was charted, capped at the live peak. */
  lemma EndIs(s: Series, t: int)
    requires forall x :: x in s.points || x in s.snaps ==> x.at <= t
    ensures MetricAt(PeakMode, s, t) == Clamp(MaxOpt(Baseline(PeakMode, s), Charted(s)), s.live)
  {
    UpToAll(s.points, t);
    UpToAll(s.snaps, t);
  }

  lemma PeakReached(s: Series)
    requires s.live.Some? && NewestRecordedIs(s, s.live.value.maxRating)
    ensures AtMost(Some(s.live.value.maxRating), MaxOpt(Baseline(PeakMode, s), Charted(s)))
  {
    if |s.snaps| > 0 {
      MaxRatingIs(s.snaps);
      assert Last(s.snaps) in s.snaps;
    }
  }

  /** Once everything in the window has happened the charted peak is the live one, whichever baseline
      the series has: recorded before the start, recorded only inside the window, or not recorded with
      the peak set before or during the event. */
  lemma FinalPeakIsLive(s: Series, t: int)
    requires s.live.Some? && NewestRecordedIs(s, s.live.value.maxRating)
    requires forall x :: x in s.points || x in s.snaps ==> x.at <= t
    ensures MetricAt(PeakMode, s, t) == Some(s.live.value.maxRating)
  {
    EndIs(s, t);
    PeakReached(s);
  }

  /** The tie-break at the end is the last rating of the window's log when there is one, so it is the
      live current rating exactly when that last rating is. */
  lemma FinalOtherIsLiveIff(s: Series, t: int)
    requires s.live.Some? && forall x :: x in s.points ==> x.at <= t
    ensures OtherAt(PeakMode, s, t) == Some(s.live.value.currentRating)
      <==> (|s.points| == 0 || Last(s.points).rating == s.live.value.currentRating)
  {
  }

  /** In current mode the last point is the live current rating exactly if there is no charted game, or the last
      one left that rating, or an observation came after it. */
  lemma FinalCurrentIsLiveIff(s: Series, t: int)
    requires s.live.Some? && NewestRecordedIs(s, s.live.value.currentRating)
    requires s.points == [] ==> s.entryOld == None
    requires forall x :: x in s.points || x in s.snaps ==> x.at <= t
    ensures MetricAt(CurrentMode, s, t) == Some(s.live.value.currentRating) <==>
      (|| s.points == [] || Last(s.points).rating == s.live.value.currentRating
       || (|s.snaps| > 0 && Last(s.points).at < Last(s.snaps).at))
  {
    UpToAll(s.points, t);
    UpToAll(s.snaps, t);
  }

  /** How the live table ranks an entry in peak mode. */
  function LiveStanding(e: Entry): Standing {
    Standing(e.id, if e.series.live.None? then None else Some(e.series.live.value.maxRating),
             if e.series.live.None? then None else Some(e.series.live.value.currentRating), e.name)
  }

  function LiveStandings(entries: seq<Entry>): seq<Standing> {
    seq(|entries|, i requires 0 <= i < |entries| => LiveStanding(entries[i]))
  }

  /** What an entry has recorded agrees with its live row; an unrated one has nothing recorded. */
  ghost predicate PeakRecorded(s: Series) {
    if s.live.None? then s.snaps == [] else NewestRecordedIs(s, s.live.value.maxRating)
  }

  /** How the last bucket ranks such an entry in peak mode, read off its live row and its charted games. */
  function FinalStanding(e: Entry): Standing {
    var s := e.series;
    Standing(e.id, if s.live.None? then MaxRating(s.points) else Some(s.live.value.maxRating),
             if |s.points| > 0 then Some(Last(s.points).rating)
             else if s.live.None? then None else Some(s.live.value.currentRating), e.name)
  }

  lemma FinalStandingIs(e: Entry, t: int)
    requires PeakRecorded(e.series)
    requires forall x :: x in e.series.points || x in e.series.snaps ==> x.at <= t
    ensures StandingAt(PeakMode, e, t) == FinalStanding(e)
  {
    UpToAll(e.series.points, t);
    UpToAll(e.series.snaps, t);
    if e.series.live.Some? {
      FinalPeakIsLive(e.series, t);
    }
  }

  // ---- the last bucket in current mode ----

  /** The last charted game is at least as new as the newest observation of the window. */
  predicate LogIsNewest(s: Series) {
    |s.points| > 0 && (|s.snaps| == 0 || Last(s.snaps).at <= Last(s.points).at)
  }

  /** How the live table ranks an entry in current mode. */
  function LiveCurrentStanding(e: Entry): Standing {
    Standing(e.id, if e.series.live.None? then None else Some(e.series.live.value.currentRating),
             if e.series.live.None? then None else Some(e.series.live.value.maxRating), e.name)
  }

  function LiveCurrentStandings(entries: seq<Entry>): seq<Standing> {
    seq(|entries|, i requires 0 <= i < |entries| => LiveCurrentStanding(entries[i]))
  }

  /** What an entry has recorded agrees with its live row, and only a charted game has an old rating. */
  ghost predicate CurrentRecorded(s: Series) {
    && (if s.live.None? then s.snaps == [] else NewestRecordedIs(s, s.live.value.currentRating))
    && (s.points == [] ==> s.entryOld == None)
  }

  /** How the last bucket ranks such an entry in current mode: by the last charted game if that is newest, else as
      the live table does. */
  function FinalCurrentStanding(e: Entry): Standing {
    if LogIsNewest(e.series) then LiveCurrentStanding(e).(metric := Some(Last(e.series.points).rating))
    else LiveCurrentStanding(e)
  }

  lemma FinalCurrentStandingIs(e: Entry, t: int)
    requires CurrentRecorded(e.series)
    requires forall x :: x in e.series.points || x in e.series.snaps ==> x.at <= t
    ensures StandingAt(CurrentMode, e, t) == FinalCurrentStanding(e)
  {
    UpToAll(e.series.points, t);
    UpToAll(e.series.snaps, t);
  }

  // ---- the live order ----

  /** What the last bucket needs of an entry for its ranking to be the live one. */
  ghost predicate EndsLive(s: Series) {
    if s.live.None? then s.points == [] && s.snaps == []
    else NewestRecordedIs(s, s.live.value.maxRating)
         && (|s.points| == 0 || Last(s.points).rating == s.live.value.currentRating)
  }

  lemma FinalStandingIsLive(e: Entry, t: int)
    requires EndsLive(e.series)
    requires forall x :: x in e.series.points || x in e.series.snaps ==> x.at <= t
    ensures StandingAt(PeakMode, e, t) == LiveStanding(e)
  {
    if e.series.live.Some? {
      FinalPeakIsLive(e.series, t);
      FinalOtherIsLiveIff(e.series, t);
    }
  }

  /** The last bucket ranks the field as the live table does: in any listing its ORDER BY allows, row i
      has position i + 1. */
  lemma FinalOrderIsLive(c: Chart, t: int, table: seq<Standing>, i: nat)
    requires c.mode.PeakMode? && DistinctEntries(c.entries)
    requires forall e :: e in c.entries ==> EndsLive(e.series)
    requires forall e, x :: e in c.entries && (x in e.series.points || x in e.series.snaps) ==> x.at <= t
    requires LiveOrder(table) && DistinctNames(table)
    requires forall x :: x in table <==> x in LiveStandings(c.entries)
    requires i < |table|
    ensures Get(BucketAt(c, t).PlayerPositions(), table[i].id) == Some(i + 1)
  {
    var players := StandingsAt(c.mode, c.entries, t);
    forall k | 0 <= k < |c.entries| ensures players[k] == LiveStandings(c.entries)[k] {
      assert c.entries[k] in c.entries;
      FinalStandingIsLive(c.entries[k], t);
    }
    assert players == LiveStandings(c.entries);
    LiveOrderGivesPositions(players, table, i);
  }
}
