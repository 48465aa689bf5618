/** The history endpoint: group the tables into series, build the axis, sweep it once. */
module StandingsHistory {
  import opened Common
  import opened Ranking
  import opened HistorySeries
  import opened HistorySweep
  import opened HistoryBuckets

  datatype PlayerPoint = PlayerPoint(position: int, peakRating: Option<int>, currentRating: Option<int>)
  datatype TeamPoint = TeamPoint(position: int, combinedPeak: Option<int>, combinedCurrent: Option<int>)

  datatype History = History(lastPolledAt: Option<int>, buckets: seq<Bucket>,
                             players: map<int, seq<PlayerPoint>>, teams: map<int, seq<TeamPoint>>)

  // ---- what the answer is ----

  /** The roster's series, each said of its own entrant's rows. */
  function Entries(q: Query): (r: seq<Entry>)
    ensures |r| == |q.roster|
    ensures forall i :: 0 <= i < |r| ==> r[i] == Entry(q.roster[i].id, q.roster[i].name, SeriesOf(q, q.roster[i]))
  {
    seq(|q.roster|, i requires 0 <= i < |q.roster| =>
      Entry(q.roster[i].id, q.roster[i].name, SeriesOf(q, q.roster[i])))
  }

  function Times(points: seq<Point>): seq<int> {
    if |points| == 0 then [] else Times(Init(points)) + [Last(points).at]
  }

  function EventTimes(entries: seq<Entry>): seq<int> {
    if |entries| == 0 then []
    else EventTimes(Init(entries)) + Times(Last(entries).series.points) + Times(Last(entries).series.snaps)
  }

  function ChartOf(q: Query): Chart {
    Chart(q.mode, Entries(q), q.members)
  }

  /** The field as of every candidate time. */
  function Candidates(c: Chart, times: seq<int>): seq<Bucket> {
    if |times| == 0 then [] else Candidates(c, Init(times)) + [BucketAt(c, Last(times))]
  }

  function PlayerPointOf(mode: Mode, b: Bucket, id: int): PlayerPoint {
    var metric := Get(Metrics(b.players), id).GetOr(None);
    PlayerPoint(Get(b.PlayerPositions(), id).GetOr(0), if mode.PeakMode? then metric else None,
                if mode.PeakMode? then None else metric)
  }

  function TeamPointOf(mode: Mode, b: Bucket, members: seq<(int, int)>, team: int): TeamPoint {
    var combined := Combined(Metrics(b.players), members, team);
    TeamPoint(Get(b.TeamPositions(), team).GetOr(0), if mode.PeakMode? then Some(combined) else None,
              if mode.PeakMode? then None else Some(combined))
  }

  /** An entrant's line: one point per bucket. */
  function PlayerLine(mode: Mode, buckets: seq<Bucket>, id: int): seq<PlayerPoint> {
    seq(|buckets|, i requires 0 <= i < |buckets| => PlayerPointOf(mode, buckets[i], id))
  }

  function TeamLine(mode: Mode, buckets: seq<Bucket>, members: seq<(int, int)>, team: int): seq<TeamPoint> {
    seq(|buckets|, i requires 0 <= i < |buckets| => TeamPointOf(mode, buckets[i], members, team))
  }

  lemma LinesGrow(mode: Mode, buckets: seq<Bucket>, b: Bucket, members: seq<(int, int)>, id: int)
    ensures PlayerLine(mode, buckets + [b], id) == PlayerLine(mode, buckets, id) + [PlayerPointOf(mode, b, id)]
    ensures TeamLine(mode, buckets + [b], members, id)
         == TeamLine(mode, buckets, members, id) + [TeamPointOf(mode, b, members, id)]
  {
  }

  /** Every entrant and every team has one line, with one point per emitted bucket. */
  ghost predicate Charts(c: Chart, axis: Axis, h: History) {
    && h.buckets == Emitted(Candidates(c, axis.times), axis.anchors, |axis.times|)
    && LinesOf(c, h.buckets, h.players, h.teams)
  }

  ghost predicate Unique(roster: seq<Entrant>) {
    forall i, j :: 0 <= i < j < |roster| ==>
      roster[i].id != roster[j].id && (roster[i].profile.Some? ==> roster[i].profile != roster[j].profile)
  }

  function Ids(entries: seq<Entry>): set<int> {
    set i | 0 <= i < |entries| :: entries[i].id
  }

  // ---- the sweep ----

  /** The marks of the whole field: everyone at the start, or everyone as of one time. */
  ghost predicate FieldAt(entries: seq<Entry>, marks: map<int, Marks>, t: Option<int>) {
    forall i :: 0 <= i < |entries| ==>
      Get(marks, entries[i].id) == Some(if t.None? then START else MarksAt(entries[i].series, t.value))
  }

  ghost predicate AllTimed(entries: seq<Entry>) {
    forall e :: e in entries ==> Timed(e.series.points) && Timed(e.series.snaps)
  }

  /** The first n entrants advanced to t, the others as before. */
  ghost predicate PartAdvanced(entries: seq<Entry>, marks: map<int, Marks>, before: map<int, Marks>, n: nat, t: int) {
    forall j :: 0 <= j < |entries| ==>
      Get(marks, entries[j].id) == if j < n then Some(MarksAt(entries[j].series, t)) else Get(before, entries[j].id)
  }

  lemma OneMoreAdvanced(entries: seq<Entry>, marks: map<int, Marks>, before: map<int, Marks>, n: nat, t: int)
    requires DistinctEntries(entries) && n < |entries| && PartAdvanced(entries, marks, before, n, t)
    ensures PartAdvanced(entries, marks[entries[n].id := MarksAt(entries[n].series, t)], before, n + 1, t)
  {
  }

  /** One entrant's step of the sweep, read off as a standing. */
  method AdvanceEntry(mode: Mode, e: Entry, before: Marks, t0: Option<int>, t: int)
    returns (m: Marks, row: Standing)
    requires Timed(e.series.points) && Timed(e.series.snaps) && (t0.Some? ==> t0.value <= t)
    requires before == if t0.None? then START else MarksAt(e.series, t0.value)
    ensures m == MarksAt(e.series, t) && row == StandingAt(mode, e, t)
  {
    m := Advance(e.series, before, t0.GetOr(t), t);
    row := Standing(e.id, Metric(mode, e.series, m), Other(mode, e.series, m), e.name);
  }

  /** Advances every entrant to t and reads off the field. */
  method AdvanceField(c: Chart, before: map<int, Marks>, t0: Option<int>, t: int)
    returns (marks: map<int, Marks>, rows: seq<Standing>)
    requires DistinctEntries(c.entries) && AllTimed(c.entries)
    requires FieldAt(c.entries, before, t0) && (t0.Some? ==> t0.value <= t)
    ensures FieldAt(c.entries, marks, Some(t))
    ensures rows == StandingsAt(c.mode, c.entries, t)
  {
    marks, rows := before, [];
    for i := 0 to |c.entries|
      invariant PartAdvanced(c.entries, marks, before, i, t)
      invariant |rows| == i && forall j :: 0 <= j < i ==> rows[j] == StandingAt(c.mode, c.entries[j], t)
    {
      var e := c.entries[i];
      assert e in c.entries;
      assert Get(marks, e.id) == Get(before, e.id) && Get(before, e.id).Some?;
      var m, row := AdvanceEntry(c.mode, e, marks[e.id], t0, t);
      OneMoreAdvanced(c.entries, marks, before, i, t);
      marks := marks[e.id := m];
      rows := rows + [row];
    }
  }

  /** What has been emitted so far, with one line per entrant and team. */
  ghost predicate LinesOf(c: Chart, buckets: seq<Bucket>, players: map<int, seq<PlayerPoint>>,
                          teams: map<int, seq<TeamPoint>>) {
    && players.Keys == Ids(c.entries)
    && (forall id :: id in players ==> players[id] == PlayerLine(c.mode, buckets, id))
    && (forall id :: id in teams <==> id in TeamIds(c.members))
    && (forall id :: id in teams ==> teams[id] == TeamLine(c.mode, buckets, c.members, id))
  }

  /** Adds the bucket's point to every line. */
  method AppendPoints(c: Chart, ghost buckets: seq<Bucket>, b: Bucket, before: map<int, seq<PlayerPoint>>,
                      teamsBefore: map<int, seq<TeamPoint>>)
    returns (players: map<int, seq<PlayerPoint>>, teams: map<int, seq<TeamPoint>>)
    requires LinesOf(c, buckets, before, teamsBefore)
    ensures LinesOf(c, buckets + [b], players, teams)
  {
    players := map id | id in before :: before[id] + [PlayerPointOf(c.mode, b, id)];
    teams := map id | id in teamsBefore :: teamsBefore[id] + [TeamPointOf(c.mode, b, c.members, id)];
    forall id ensures id in players ==> players[id] == PlayerLine(c.mode, buckets + [b], id)
      ensures id in teams ==> teams[id] == TeamLine(c.mode, buckets + [b], c.members, id) {
      LinesGrow(c.mode, buckets, b, c.members, id);
    }
  }

  /** Emits the bucket if it is an anchor, a reorder, the first or the last. */
  method Record(c: Chart, axis: Axis, h: History, b: Bucket, n: nat) returns (h': History)
    requires LinesOf(c, h.buckets, h.players, h.teams)
    ensures LinesOf(c, h'.buckets, h'.players, h'.teams) && h'.lastPolledAt == h.lastPolledAt
    ensures h'.buckets
         == if Emits(h.buckets, b, n, axis.anchors, |axis.times|) then h.buckets + [b] else h.buckets
  {
    h' := h;
    if b.at in axis.anchors || h.buckets == [] || b.Vector() != Last(h.buckets).Vector() || n == |axis.times| - 1 {
      var players, teams := AppendPoints(c, h.buckets, b, h.players, h.teams);
      h' := History(h.lastPolledAt, h.buckets + [b], players, teams);
    }
  }

  lemma NoBuckets(mode: Mode, members: seq<(int, int)>, id: int)
    ensures PlayerLine(mode, [], id) == [] && TeamLine(mode, [], members, id) == []
  {
  }

  method StartLines(c: Chart) returns (players: map<int, seq<PlayerPoint>>, teams: map<int, seq<TeamPoint>>)
    ensures LinesOf(c, [], players, teams)
  {
    players := map i | i in Ids(c.entries) :: [];
    teams := map i | i in TeamIds(c.members) :: [];
    forall id ensures PlayerLine(c.mode, [], id) == [] && TeamLine(c.mode, [], c.members, id) == [] {
      NoBuckets(c.mode, c.members, id);
    }
  }

  method Start(c: Chart, lastPolledAt: Option<int>) returns (marks: map<int, Marks>, h: History)
    ensures FieldAt(c.entries, marks, None)
    ensures LinesOf(c, [], h.players, h.teams) && h.buckets == [] && h.lastPolledAt == lastPolledAt
  {
    marks := map i | i in Ids(c.entries) :: START;
    var players, teams := StartLines(c);
    h := History(lastPolledAt, [], players, teams);
  }

  method Sweep(c: Chart, axis: Axis, lastPolledAt: Option<int>) returns (h: History)
    requires DistinctEntries(c.entries) && AllTimed(c.entries) && Increasing(axis.times)
    ensures Charts(c, axis, h) && h.lastPolledAt == lastPolledAt
  {
    var marks;
    marks, h := Start(c, lastPolledAt);
    var at: Option<int> := None;
    assert axis.times[..0] == [];
    for n := 0 to |axis.times|
      invariant at == if n == 0 then None else Some(axis.times[n - 1])
      invariant FieldAt(c.entries, marks, at)
      invariant h.buckets == Emitted(Candidates(c, axis.times[..n]), axis.anchors, |axis.times|)
      invariant LinesOf(c, h.buckets, h.players, h.teams) && h.lastPolledAt == lastPolledAt
    {
      var t := axis.times[n];
      var rows;
      marks, rows := AdvanceField(c, marks, at, t);
      at := Some(t);
      EmittedOneMore(c, axis, n);
      h := Record(c, axis, h, BucketOf(rows, c.members, t), n);
    }
    assert axis.times[..|axis.times|] == axis.times;
  }

  lemma EmittedOneMore(c: Chart, axis: Axis, n: nat)
    requires n < |axis.times|
    ensures var before := Emitted(Candidates(c, axis.times[..n]), axis.anchors, |axis.times|);
      var b := BucketAt(c, axis.times[n]);
      Emitted(Candidates(c, axis.times[..n + 1]), axis.anchors, |axis.times|)
        == if Emits(before, b, n, axis.anchors, |axis.times|) then before + [b] else before
  {
    OneMoreCandidate(c, axis.times, n);
  }

  lemma {:induction false} OneMoreCandidate(c: Chart, times: seq<int>, n: nat)
    requires n < |times|
    ensures Candidates(c, times[..n + 1]) == Candidates(c, times[..n]) + [BucketAt(c, times[n])]
    ensures Init(Candidates(c, times[..n + 1])) == Candidates(c, times[..n])
    ensures |Candidates(c, times[..n + 1])| == n + 1
  {
    assert Init(times[..n + 1]) == times[..n];
    CandidatesAt(c, times[..n]);
  }

  lemma {:induction false} CandidatesAt(c: Chart, times: seq<int>)
    ensures |Candidates(c, times)| == |times|
    ensures forall i :: 0 <= i < |times| ==> Candidates(c, times)[i] == BucketAt(c, times[i])
  {
    if |times| > 0 {
      var front, last := Candidates(c, Init(times)), BucketAt(c, Last(times));
      CandidatesAt(c, Init(times));
      forall i | 0 <= i < |times| ensures (front + [last])[i] == BucketAt(c, times[i]) {
        assert i < |times| - 1 ==> Init(times)[i] == times[i];
      }
    }
  }

  // ---- grouping the tables ----

  lemma {:induction false} TpByProfileIs(roster: seq<Entrant>, e: Entrant)
    requires Unique(roster) && e in roster
    ensures e.profile.Some? ==> Get(TpByProfile(roster), e.profile.value) == Some(e.id)
    ensures e.profile.None? ==> e.id !in TpByProfile(roster).Values
  {
  }

  lemma OnlyEntrant(roster: seq<Entrant>, e: Entrant)
    requires Unique(roster) && e in roster
    ensures forall x :: x in roster && x.id == e.id ==> x == e
    ensures forall x :: x in roster && x.profile.Some? && x.profile == e.profile ==> x == e
  {
  }

  lemma LinkedRowsAreDistinct(roster: seq<Entrant>)
    requires Unique(roster)
    ensures OneRowPerProfile(TpByProfile(roster))
  {
  }

  function LiveMaxima(roster: seq<Entrant>): (m: map<int, Option<int>>)
    ensures forall e :: e in roster ==> e.id in m
  {
    if |roster| == 0 then map[]
    else
      SplitLast(roster);
      LiveMaxima(Init(roster))[Last(roster).id := Last(roster).MaxRating()]
  }

  lemma {:induction false} LiveMaximaAt(roster: seq<Entrant>, e: Entrant)
    requires Unique(roster) && e in roster
    ensures LiveMaxima(roster)[e.id] == e.MaxRating()
  {
    SplitLast(roster);
    OnlyEntrant(roster, e);
    if e != Last(roster) {
      assert Last(roster) in roster;
      LiveMaximaAt(Init(roster), e);
    }
  }

  /** What the grouped dictionaries hold for one entrant. */
  function Looked(e: Entrant, got: Gathered, earlier: map<int, int>, seen: Sighted): Series {
    Series(e.live, Listed(got.points, e.id), Get(got.entryOld, e.id), Get(earlier, e.id),
           Get(seen.base, e.id), Listed(seen.points, e.id))
  }

  ghost predicate Linked(q: Query) {
    && (forall g :: g in WindowGames(q) ==> g.profile in TpByProfile(q.roster))
    && (forall g :: g in EarlierGames(q) ==> g.profile in TpByProfile(q.roster))
    && (forall s :: s in Observed(q) ==> s.pair.profile in TpByProfile(q.roster))
    && TpByProfile(q.roster).Values <= LiveMaxima(q.roster).Keys
  }

  lemma QueriesAreLinked(q: Query)
    ensures Linked(q)
  {
  }

  /** The dictionaries of the interleaved scans hold exactly each entrant's own series. */
  lemma LookedIsSeries(q: Query, e: Entrant)
    requires Unique(q.roster) && e in q.roster && Linked(q)
    ensures var tp := TpByProfile(q.roster);
      Looked(e, Gather(WindowGames(q), tp), Carry(EarlierGames(q), tp, LiveMaxima(q.roster)),
             Sight(Observed(q), q.mode, tp, q.start)) == SeriesOf(q, e)
  {
    var tp := TpByProfile(q.roster);
    TpByProfileIs(q.roster, e);
    if e.profile.Some? {
      var p := e.profile.value;
      LinkedRowsAreDistinct(q.roster);
      LiveMaximaAt(q.roster, e);
      GatheredPerProfile(WindowGames(q), tp, p);
      CarriedPerProfile(EarlierGames(q), tp, LiveMaxima(q.roster), p);
      SightedPerProfile(Observed(q), q.mode, tp, q.start, p);
    } else {
      GatheredOnlyLinked(WindowGames(q), tp, e.id);
      CarriedOnlyLinked(EarlierGames(q), tp, LiveMaxima(q.roster), e.id);
      SightedOnlyLinked(Observed(q), q.mode, tp, q.start, e.id);
    }
  }

  method Assemble(roster: seq<Entrant>, got: Gathered, earlier: map<int, int>, seen: Sighted)
    returns (entries: seq<Entry>)
    ensures |entries| == |roster|
    ensures forall i :: 0 <= i < |roster| ==>
      entries[i] == Entry(roster[i].id, roster[i].name, Looked(roster[i], got, earlier, seen))
  {
    entries := [];
    for i := 0 to |roster|
      invariant |entries| == i
      invariant forall j :: 0 <= j < i ==>
        entries[j] == Entry(roster[j].id, roster[j].name, Looked(roster[j], got, earlier, seen))
    {
      entries := entries + [Entry(roster[i].id, roster[i].name, Looked(roster[i], got, earlier, seen))];
    }
  }

  method BuildEntries(q: Query) returns (entries: seq<Entry>)
    requires Unique(q.roster)
    ensures entries == Entries(q)
  {
    QueriesAreLinked(q);
    var tp := TpByProfile(q.roster);
    var points, entryOld := CollectPoints(WindowGames(q), tp);
    var earlier := CollectEarlierPeaks(EarlierGames(q), tp, LiveMaxima(q.roster));
    var base, snaps := CollectObservations(Observed(q), q.mode, tp, q.start);
    entries := Assemble(q.roster, Gathered(points, entryOld), earlier, Sighted(base, snaps));
    forall i | 0 <= i < |q.roster| ensures entries[i] == Entries(q)[i] {
      LookedIsSeries(q, q.roster[i]);
    }
  }

  lemma EntriesAreTimed(q: Query)
    requires Unique(q.roster)
    ensures DistinctEntries(Entries(q)) && AllTimed(Entries(q))
  {
    forall e | e in Entries(q) ensures Timed(e.series.points) && Timed(e.series.snaps) {
      var i :| 0 <= i < |q.roster| && Entries(q)[i] == e;
      SeriesTimed(q, q.roster[i]);
    }
  }

  /** The endpoint. An empty roster, or a tournament with no start date and nothing to chart, answers
      with an empty history. */
  method GetStandingsHistory(q: Query) returns (h: History)
    requires Unique(q.roster)
    ensures |q.roster| == 0 || (q.start.None? && EventTimes(Entries(q)) == []) ==> h == History(None, [], map[], map[])
    ensures |q.roster| > 0 && (q.start.Some? || EventTimes(Entries(q)) != []) ==>
      exists axis :: IsAxis(q.start, EventTimes(Entries(q)), Some(axis)) && Charts(ChartOf(q), axis, h)
    ensures |q.roster| > 0 && EventTimes(Entries(q)) != [] ==> h.lastPolledAt == Some(Greatest(EventTimes(Entries(q))))
    ensures |q.roster| == 0 || EventTimes(Entries(q)) == [] ==> h.lastPolledAt == None
  {
    if |q.roster| == 0 {
      return History(None, [], map[], map[]);
    }
    var entries := BuildEntries(q);
    var events := EventTimes(entries);
    var axis := CandidateTimes(q.start, events);
    if axis.None? {
      return History(None, [], map[], map[]);
    }
    EntriesAreTimed(q);
    h := Sweep(Chart(q.mode, entries, q.members), axis.value, if |events| > 0 then Some(Greatest(events)) else None);
  }
}
