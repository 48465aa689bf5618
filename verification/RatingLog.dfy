/** The rating tables and the stats tick: the live row per (profile, leaderboard), overwritten on
    every poll, and the append-on-change snapshot log beside it. */
module RatingLog {
  import opened Common
  import Nudges
  import Scopes

  datatype Pair = Pair(profile: int, board: int)

  /** What one poll reports for a pair: (max_rating, current_rating). */
  type Reading = (int, Option<int>)

  /** One rating row of a poll; `stats` stands for the columns nothing here reads. */
  datatype Polled = Polled(pair: Pair, maxRating: int, currentRating: Option<int>, stats: seq<int>) {
    function Reading(): Reading {
      (maxRating, currentRating)
    }
  }

  datatype Snapshot = Snapshot(id: int, pair: Pair, maxRating: int, currentRating: Option<int>, observedAt: int) {
    function Reading(): Reading {
      (maxRating, currentRating)
    }
  }

  /** A `player_ratings` row; its current rating is a NOT NULL column. */
  datatype LiveRating = LiveRating(maxRating: int, currentRating: int, stats: seq<int>) {
    function Reading(): Reading {
      (maxRating, Some(currentRating))
    }
  }

  datatype Tables = Tables(log: seq<Snapshot>, live: map<Pair, LiveRating>, nextId: int)

  // ---- queries ----

  function Readings(s: Option<Snapshot>): Option<Reading> {
    if s.None? then None else Some(s.value.Reading())
  }

  predicate Newer(a: Snapshot, b: Snapshot) {
    KeyLe((b.observedAt, b.id), (a.observedAt, a.id))
  }

  /** The pair's row numbered 1 under ORDER BY observed_at DESC, id DESC. */
  function Latest(log: seq<Snapshot>, pair: Pair): (r: Option<Snapshot>)
    ensures r.None? <==> forall s :: s in log ==> s.pair != pair
    ensures r.Some? ==> r.value in log && r.value.pair == pair
    ensures r.Some? ==> forall s :: s in log && s.pair == pair ==>
      s.observedAt < r.value.observedAt || (s.observedAt == r.value.observedAt && s.id <= r.value.id)
  {
    if |log| == 0 then None
    else
      SplitLast(log);
      var before := Latest(Init(log), pair);
      var row := Last(log);
      if row.pair == pair && (before.None? || Newer(row, before.value)) then Some(row) else before
  }

  /** The pair's reading stored last, if any. */
  function Stored(log: seq<Snapshot>, pair: Pair): Option<Reading> {
    Readings(Latest(log, pair))
  }

  /** The rows observed at or before t. */
  function AsOf(log: seq<Snapshot>, t: int): seq<Snapshot> {
    Filter(log, (s: Snapshot) => s.observedAt <= t)
  }

  /** What the log says a pair's reading was at time t. */
  function Replay(log: seq<Snapshot>, pair: Pair, t: int): Option<Reading> {
    Stored(AsOf(log, t), pair)
  }

  /** SELECT max(max_rating) over the pair's rows observed at or before t. */
  function PeakAsOf(log: seq<Snapshot>, pair: Pair, t: int): (r: Option<int>)
    ensures r.None? <==> forall s :: s in log && s.pair == pair ==> s.observedAt > t
    ensures forall s :: s in log && s.pair == pair && s.observedAt <= t ==> s.maxRating <= r.value
    ensures r.Some? ==> exists s :: s in log && s.pair == pair && s.observedAt <= t && s.maxRating == r.value
  {
    if |log| == 0 then None
    else
      SplitLast(log);
      var s := Last(log);
      MaxOpt(PeakAsOf(Init(log), pair, t), if s.pair == pair && s.observedAt <= t then Some(s.maxRating) else None)
  }

  lemma EarlyPeak(log: seq<Snapshot>, pair: Pair, end: int, top: Snapshot)
    requires top in log && top.pair == pair && top.observedAt <= end
    requires forall x :: x in log && x.observedAt <= end ==> x.maxRating <= top.maxRating
    ensures PeakAsOf(log, pair, end) == Some(top.maxRating)
  {
  }

  // ---- the tick ----

  /** The polled rows whose reading differs from the pair's stored one. */
  function Changed(log: seq<Snapshot>, batch: seq<Polled>): seq<Polled> {
    Filter(batch, (r: Polled) => Stored(log, r.pair) != Some(r.Reading()))
  }

  function Stamp(rows: seq<Polled>, now: int, nextId: int): seq<Snapshot> {
    if |rows| == 0 then []
    else
      var r := Last(rows);
      Stamp(Init(rows), now, nextId) + [Snapshot(nextId + |rows| - 1, r.pair, r.maxRating, r.currentRating, now)]
  }

  /** Row i is stamped with the i-th of the next ids and the time. */
  lemma {:induction false} StampedAre(rows: seq<Polled>, now: int, nextId: int)
    ensures |Stamp(rows, now, nextId)| == |rows|
    ensures forall i :: 0 <= i < |rows| ==>
      Stamp(rows, now, nextId)[i]
        == Snapshot(nextId + i, rows[i].pair, rows[i].maxRating, rows[i].currentRating, now)
  {
    if |rows| > 0 {
      StampedAre(Init(rows), now, nextId);
    }
  }

  predicate Storable(batch: seq<Polled>) {
    forall r :: r in batch ==> r.currentRating.Some?
  }

  function Overwritten(live: map<Pair, LiveRating>, batch: seq<Polled>): map<Pair, LiveRating>
    requires Storable(batch)
  {
    if |batch| == 0 then live
    else
      SplitLast(batch);
      var r := Last(batch);
      Overwritten(live, Init(batch))[r.pair := LiveRating(r.maxRating, r.currentRating.value, r.stats)]
  }

  /** One stats tick. A null current rating breaks the NOT NULL column and rolls the whole
      transaction back. */
  function Tick(t: Tables, batch: seq<Polled>, now: int): Tables {
    if Storable(batch) then
      var rows := Changed(t.log, batch);
      Tables(t.log + Stamp(rows, now, t.nextId), Overwritten(t.live, batch), t.nextId + |rows|)
    else t
  }

  /** The tables as the poller holds them, written in place. */
  class RatingStore {
    var log: seq<Snapshot>
    var live: map<Pair, LiveRating>
    var nextId: int

    constructor ()
      ensures State() == Tables([], map[], 1)
    {
      log, live, nextId := [], map[], 1;
    }

    function State(): Tables
      reads this
    {
      Tables(log, live, nextId)
    }

    /** Compares every row with the table as it stood before the call, then appends the different ones. */
    method InsertRatingSnapshots(ratings: seq<Polled>, now: int) returns (appended: nat)
      modifies this`log, this`nextId
      ensures log == old(log) + Stamp(Changed(old(log), ratings), now, old(nextId))
      ensures nextId == old(nextId) + appended && appended == |Changed(old(log), ratings)|
    {
      var rows: seq<Polled> := [];
      for i := 0 to |ratings|
        invariant rows == Changed(log, ratings[..i])
      {
        var r := ratings[i];
        assert Init(ratings[..i + 1]) == ratings[..i];
        if Stored(log, r.pair) != Some(r.Reading()) {
          rows := rows + [r];
        }
      }
      assert ratings[..|ratings|] == ratings;
      log, nextId := log + Stamp(rows, now, nextId), nextId + |rows|;
      appended := |rows|;
    }

    /** INSERT ... ON CONFLICT DO UPDATE; fails on a null current rating. */
    method UpsertPlayerRating(row: Polled) returns (ok: bool)
      modifies this`live
      ensures ok <==> row.currentRating.Some?
      ensures live == if ok
        then old(live)[row.pair := LiveRating(row.maxRating, row.currentRating.value, row.stats)]
        else old(live)
    {
      ok := row.currentRating.Some?;
      if ok {
        live := live[row.pair := LiveRating(row.maxRating, row.currentRating.value, row.stats)];
      }
    }

    /** Overwrites the live rows in batch order, up to a refused row. */
    method UpsertPlayerRatings(ratings: seq<Polled>) returns (ok: bool)
      modifies this`live
      ensures ok <==> Storable(ratings)
      ensures ok ==> live == Overwritten(old(live), ratings)
    {
      ghost var before := live;
      for i := 0 to |ratings|
        invariant Storable(ratings[..i]) && live == Overwritten(before, ratings[..i])
      {
        ok := UpsertPlayerRating(ratings[i]);
        if !ok {
          return false;
        }
        assert Init(ratings[..i + 1]) == ratings[..i];
      }
      assert ratings[..|ratings|] == ratings;
      ok := true;
    }

    /** The transaction of a stats tick; a refused row rolls it back. */
    method StorePlayerStats(ratings: seq<Polled>, now: int) returns (committed: bool)
      modifies this
      ensures committed <==> Storable(ratings)
      ensures State() == Tick(old(State()), ratings, now)
    {
      var before := State();
      var appended := InsertRatingSnapshots(ratings, now);
      committed := UpsertPlayerRatings(ratings);
      if !committed {
        log, live, nextId := before.log, before.live, before.nextId;
      }
    }

    /** One stats cycle over the tracked profiles; answers with the nudge committed with it, scoped over the profiles
        polled. A cycle that tracks nobody does nothing; a refused row rolls everything back, the nudge included. */
    method TickPlayerStats(profiles: set<int>, ratings: seq<Polled>, roster: seq<Scopes.RosterLink>, now: int)
      returns (nudge: Option<Nudges.Nudge>)
      modifies this
      ensures State() == if profiles == {} then old(State()) else Tick(old(State()), ratings, now)
      ensures nudge == if profiles == {} || !Storable(ratings) then None
        else Some(Nudges.Nudge("standings", now, Scopes.ScopeOf(roster, profiles)))
    {
      if profiles == {} {
        return None;
      }
      var committed := StorePlayerStats(ratings, now);
      nudge := if committed then Some(Nudges.Nudge("standings", now, Scopes.ScopeOf(roster, profiles))) else None;
    }
  }

  // ---- one tick ----

  /** The pair's last row in a batch: the one its upserts leave behind. */
  function FinalRow(batch: seq<Polled>, pair: Pair): (r: Option<Polled>)
    ensures r.None? <==> forall x :: x in batch ==> x.pair != pair
    ensures r.Some? ==> r.value in batch && r.value.pair == pair
  {
    if |batch| == 0 then None
    else
      SplitLast(batch);
      if Last(batch).pair == pair then Some(Last(batch)) else FinalRow(Init(batch), pair)
  }

  function FinalReading(batch: seq<Polled>, pair: Pair): Option<Reading> {
    var r := FinalRow(batch, pair);
    if r.None? then None else Some(r.value.Reading())
  }

  function Or<T>(a: Option<T>, b: Option<T>): Option<T> {
    if a.Some? then a else b
  }

  predicate DistinctPairs(batch: seq<Polled>) {
    forall i, j :: 0 <= i < j < |batch| ==> batch[i].pair != batch[j].pair
  }

  /** Every row has a larger id than all rows before it and is observed no earlier. */
  ghost predicate InOrder(log: seq<Snapshot>) {
    |log| > 0 ==>
      && InOrder(Init(log))
      && forall s :: s in Init(log) ==> s.id < Last(log).id && s.observedAt <= Last(log).observedAt
  }

  /** Ids are handed out in order and the clock never runs backwards. */
  ghost predicate Chronological(t: Tables, now: int) {
    && InOrder(t.log)
    && forall s :: s in t.log ==> s.id < t.nextId && s.observedAt <= now
  }

  /** Every row differs from what its pair's latest row was when it was appended. */
  ghost predicate NoRepeats(log: seq<Snapshot>) {
    |log| > 0 ==>
      && NoRepeats(Init(log))
      && Stored(Init(log), Last(log).pair) != Some(Last(log).Reading())
  }

  /** Row i and row j belong to one pair and no row between them does. */
  ghost predicate Neighbours(log: seq<Snapshot>, i: int, j: int) {
    && 0 <= i < j < |log|
    && log[i].pair == log[j].pair
    && forall k :: i < k < j ==> log[k].pair != log[j].pair
  }

  /** The latest log row of the pair equals its live row. */
  ghost predicate InStep(t: Tables, pair: Pair) {
    pair in t.live && Stored(t.log, pair) == Some(t.live[pair].Reading())
  }

  lemma PushLatest(log: seq<Snapshot>, s: Snapshot, pair: Pair)
    requires InOrder(log) && forall x :: x in log ==> x.id < s.id && x.observedAt <= s.observedAt
    ensures InOrder(log + [s])
    ensures Latest(log + [s], pair) == if s.pair == pair then Some(s) else Latest(log, pair)
  {
  }

  /** Appending stamped rows to a log in order keeps it in order, and each pair's latest reading
      becomes that of its last appended row. */
  lemma {:induction false} AppendStamped(t: Tables, rows: seq<Polled>, now: int, pair: Pair)
    requires Chronological(t, now)
    ensures Chronological(t.(log := t.log + Stamp(rows, now, t.nextId), nextId := t.nextId + |rows|), now)
    ensures Stored(t.log + Stamp(rows, now, t.nextId), pair) == Or(FinalReading(rows, pair), Stored(t.log, pair))
  {
    if |rows| == 0 {
      assert t.log + Stamp(rows, now, t.nextId) == t.log;
    } else {
      var front := t.log + Stamp(Init(rows), now, t.nextId);
      var s := Last(Stamp(rows, now, t.nextId));
      assert t.log + Stamp(rows, now, t.nextId) == front + [s];
      AppendStamped(t, Init(rows), now, pair);
      PushLatest(front, s, pair);
    }
  }

  lemma {:induction false} OverwrittenRow(live: map<Pair, LiveRating>, batch: seq<Polled>, pair: Pair)
    requires Storable(batch)
    ensures var r := FinalRow(batch, pair);
      Get(Overwritten(live, batch), pair)
        == if r.Some? then Some(LiveRating(r.value.maxRating, r.value.currentRating.value, r.value.stats))
           else Get(live, pair)
  {
    if |batch| > 0 {
      SplitLast(batch);
      OverwrittenRow(live, Init(batch), pair);
    }
  }

  lemma OverwrittenOnce(live: map<Pair, LiveRating>, row: Polled)
    requires row.currentRating.Some?
    ensures Overwritten(live, [row]) == live[row.pair := LiveRating(row.maxRating, row.currentRating.value, row.stats)]
  {
    assert Init([row]) == [];
  }

  lemma TickChronological(t: Tables, batch: seq<Polled>, now: int)
    requires Chronological(t, now)
    ensures Chronological(Tick(t, batch, now), now)
  {
    if Storable(batch) {
      AppendStamped(t, Changed(t.log, batch), now, Pair(0, 0));
    }
  }

  lemma OnlyRowOfPair(batch: seq<Polled>, a: Polled, b: Polled)
    requires DistinctPairs(batch) && a in batch && b in batch && a.pair == b.pair
    ensures a == b
  {
  }

  /** After a tick the latest reading of a pair is the polled one, or the old one if not polled. */
  lemma TickStored(t: Tables, batch: seq<Polled>, now: int, pair: Pair)
    requires Chronological(t, now) && DistinctPairs(batch) && Storable(batch)
    ensures Stored(Tick(t, batch, now).log, pair) == Or(FinalReading(batch, pair), Stored(t.log, pair))
  {
    var rows := Changed(t.log, batch);
    AppendStamped(t, rows, now, pair);
    if FinalRow(rows, pair).Some? {
      OnlyRowOfPair(batch, FinalRow(rows, pair).value, FinalRow(batch, pair).value);
    } else if FinalRow(batch, pair).Some? {
      assert FinalRow(batch, pair).value !in rows;
    }
  }

  /** A tick brings every polled pair in step and puts no other pair out of step. */
  lemma TickInStep(t: Tables, batch: seq<Polled>, now: int, pair: Pair)
    requires Chronological(t, now) && DistinctPairs(batch) && Storable(batch)
    requires FinalRow(batch, pair).Some? || InStep(t, pair)
    ensures InStep(Tick(t, batch, now), pair)
  {
    OverwrittenRow(t.live, batch, pair);
    TickStored(t, batch, now, pair);
  }

  /** Repeated pairs in one batch: since all rows are compared with the table as it stood before the
      batch, the log ends in step with the live row exactly when the pair's last row is a change or
      none of its rows is. */
  lemma RepeatedPairInStepIff(t: Tables, batch: seq<Polled>, now: int, last: Polled)
    requires Chronological(t, now) && Storable(batch) && FinalRow(batch, last.pair) == Some(last)
    ensures InStep(Tick(t, batch, now), last.pair) <==>
            (|| Stored(t.log, last.pair) != Some(last.Reading())
             || (forall r :: r in batch && r.pair == last.pair ==> Stored(t.log, last.pair) == Some(r.Reading())))
  {
    var rows := Changed(t.log, batch);
    OverwrittenRow(t.live, batch, last.pair);
    AppendStamped(t, rows, now, last.pair);
    if last in rows {
      FinalOfFilter(t.log, batch, last.pair);
    }
  }

  /** If the pair's last polled row is a change, it is the last change of the pair. */
  lemma {:induction false} FinalOfFilter(log: seq<Snapshot>, batch: seq<Polled>, pair: Pair)
    requires FinalRow(batch, pair).Some? && FinalRow(batch, pair).value in Changed(log, batch)
    ensures FinalRow(Changed(log, batch), pair) == FinalRow(batch, pair)
  {
    var r := Last(batch);
    var front := Changed(log, Init(batch));
    if Stored(log, r.pair) != Some(r.Reading()) {
      assert Changed(log, batch) == front + [r];
      assert Init(front + [r]) == front;
    } else {
      assert Changed(log, batch) == front;
    }
    if r.pair != pair {
      FinalOfFilter(log, Init(batch), pair);
    }
  }

  /** A batch naming a pair twice can separate the log from the live row for good: log and live row stand at
      10, then 20 is logged and 10 stays live. */
  lemma RepeatedPairDrifts(pair: Pair, before: Tables)
    requires before == Tables([Snapshot(1, pair, 10, Some(10), 0)], map[pair := LiveRating(10, 10, [])], 2)
    ensures var twice := [Polled(pair, 20, Some(20), []), Polled(pair, 10, Some(10), [])];
      && Chronological(before, 0) && Consistent(before) && Storable(twice)
      && InStep(before, pair) && !InStep(Tick(before, twice, 5), pair)
  {
    var high, low := Polled(pair, 20, Some(20), []), Polled(pair, 10, Some(10), []);
    var twice := [high, low];
    assert Init(twice) == [high];
    assert high in twice;
    assert Init(before.log) == [];
    RepeatedPairInStepIff(before, twice, 5, low);
  }

  lemma {:induction false} NoRepeatsAppend(t: Tables, rows: seq<Polled>, now: int)
    requires Chronological(t, now) && NoRepeats(t.log) && DistinctPairs(rows)
    requires forall r :: r in rows ==> Stored(t.log, r.pair) != Some(r.Reading())
    ensures NoRepeats(t.log + Stamp(rows, now, t.nextId))
  {
    if |rows| == 0 {
      assert t.log + Stamp(rows, now, t.nextId) == t.log;
    } else {
      var front := t.log + Stamp(Init(rows), now, t.nextId);
      var s := Last(Stamp(rows, now, t.nextId));
      assert t.log + Stamp(rows, now, t.nextId) == front + [s];
      NoRepeatsAppend(t, Init(rows), now);
      AppendStamped(t, Init(rows), now, s.pair);
      assert Init(front + [s]) == front;
    }
  }

  lemma {:induction false} ChangedKeepsDistinct(log: seq<Snapshot>, batch: seq<Polled>)
    requires DistinctPairs(batch)
    ensures DistinctPairs(Changed(log, batch))
  {
    if |batch| > 0 {
      SplitLast(batch);
      var front := Changed(log, Init(batch));
      ChangedKeepsDistinct(log, Init(batch));
      forall i | 0 <= i < |front| ensures front[i].pair != Last(batch).pair {
        assert front[i] in front;
        assert front[i] in Init(batch);
      }
    }
  }

  /** A tick never makes two neighbouring rows of a pair equal. */
  lemma TickNoRepeats(t: Tables, batch: seq<Polled>, now: int)
    requires Chronological(t, now) && DistinctPairs(batch) && NoRepeats(t.log)
    ensures NoRepeats(Tick(t, batch, now).log)
  {
    ChangedKeepsDistinct(t.log, batch);
    NoRepeatsAppend(t, Changed(t.log, batch), now);
  }

  lemma {:induction false} LatestIsLast(log: seq<Snapshot>, i: nat)
    requires InOrder(log) && i < |log|
    requires forall k :: i < k < |log| ==> log[k].pair != log[i].pair
    ensures Latest(log, log[i].pair) == Some(log[i])
  {
    if i < |log| - 1 {
      LatestIsLast(Init(log), i);
    }
  }

  /** In a log in order, neighbouring rows of a pair carry different readings. */
  lemma {:induction false} NeighboursDiffer(log: seq<Snapshot>, i: int, j: int)
    requires InOrder(log) && NoRepeats(log) && Neighbours(log, i, j)
    ensures log[i].Reading() != log[j].Reading()
  {
    if j < |log| - 1 {
      NeighboursDiffer(Init(log), i, j);
    } else {
      LatestIsLast(Init(log), i);
    }
  }

  // ---- whole runs ----

  datatype Poll = Poll(at: int, batch: seq<Polled>)

  function Run(t: Tables, polls: seq<Poll>): Tables {
    if |polls| == 0 then t
    else Tick(Run(t, Init(polls)), Last(polls).batch, Last(polls).at)
  }

  /** The time the tables were last written. */
  function Clock(polls: seq<Poll>, since: int): int {
    if |polls| == 0 then since else Last(polls).at
  }

  /** A clock that never runs backwards from `since`. */
  ghost predicate WellTimed(polls: seq<Poll>, since: int) {
    |polls| > 0 ==> WellTimed(Init(polls), since) && Clock(Init(polls), since) <= Last(polls).at
  }

  ghost predicate DistinctBatches(polls: seq<Poll>) {
    forall p :: p in polls ==> DistinctPairs(p.batch)
  }

  predicate Reports(p: Poll, pair: Pair) {
    Storable(p.batch) && FinalRow(p.batch, pair).Some?
  }

  /** What the last committed poll of the pair at or before t reported. */
  function LastPolled(polls: seq<Poll>, pair: Pair, t: int): Option<Reading> {
    if |polls| == 0 then None
    else if Last(polls).at <= t && Reports(Last(polls), pair) then FinalReading(Last(polls).batch, pair)
    else LastPolled(Init(polls), pair, t)
  }

  lemma {:induction false} RunChronological(t: Tables, polls: seq<Poll>, since: int)
    requires Chronological(t, since) && WellTimed(polls, since)
    ensures Chronological(Run(t, polls), Clock(polls, since))
  {
    if |polls| > 0 {
      RunChronological(t, Init(polls), since);
      TickChronological(Run(t, Init(polls)), Last(polls).batch, Last(polls).at);
    }
  }

  lemma DistinctPrefix(polls: seq<Poll>)
    requires |polls| > 0 && DistinctBatches(polls)
    ensures DistinctBatches(Init(polls)) && DistinctPairs(Last(polls).batch)
  {
  }

  /** After any run every pair ever polled has its live row equal to its newest log row. */
  lemma {:induction false} RunInStep(t: Tables, polls: seq<Poll>, since: int, pair: Pair)
    requires Chronological(t, since) && WellTimed(polls, since) && DistinctBatches(polls)
    requires InStep(t, pair) || exists p :: p in polls && Reports(p, pair)
    ensures InStep(Run(t, polls), pair)
  {
    if |polls| > 0 {
      SplitLast(polls);
      DistinctPrefix(polls);
      var p := Last(polls);
      RunChronological(t, Init(polls), since);
      if !Reports(p, pair) {
        RunInStep(t, Init(polls), since, pair);
      }
      if Storable(p.batch) {
        TickInStep(Run(t, Init(polls)), p.batch, p.at, pair);
      }
    }
  }

  /** No run ever records an observation that repeats the pair's observation before it. */
  lemma RunNeighboursDiffer(t: Tables, polls: seq<Poll>, since: int, i: int, j: int)
    requires Chronological(t, since) && WellTimed(polls, since) && DistinctBatches(polls) && NoRepeats(t.log)
    requires Neighbours(Run(t, polls).log, i, j)
    ensures Run(t, polls).log[i].Reading() != Run(t, polls).log[j].Reading()
  {
    RunNoRepeats(t, polls, since);
    RunChronological(t, polls, since);
    NeighboursDiffer(Run(t, polls).log, i, j);
  }

  lemma {:induction false} RunNoRepeats(t: Tables, polls: seq<Poll>, since: int)
    requires Chronological(t, since) && WellTimed(polls, since) && DistinctBatches(polls) && NoRepeats(t.log)
    ensures NoRepeats(Run(t, polls).log)
  {
    if |polls| > 0 {
      DistinctPrefix(polls);
      RunNoRepeats(t, Init(polls), since);
      RunChronological(t, Init(polls), since);
      TickNoRepeats(Run(t, Init(polls)), Last(polls).batch, Last(polls).at);
    }
  }

  /** The log is lossless: as of any time, replaying it gives back what the last poll at or before
      that time reported, also where a rebase lowered it; before the pair's first poll it gives what
      the log already said. */
  lemma {:induction false} ReplayGivesBackThePolls(t: Tables, polls: seq<Poll>, since: int, pair: Pair, at: int)
    requires Chronological(t, since) && WellTimed(polls, since) && DistinctBatches(polls) && since <= at
    ensures Replay(Run(t, polls).log, pair, at) == Or(LastPolled(polls, pair, at), Stored(t.log, pair))
  {
    if |polls| == 0 {
      AsOfAll(t.log, at);
    } else {
      DistinctPrefix(polls);
      ReplayGivesBackThePolls(t, Init(polls), since, pair, at);
      RunChronological(t, Init(polls), since);
      ReplayOnePoll(Run(t, Init(polls)), Last(polls), pair, at);
    }
  }

  /** A poll at or before `at` decides what the log replays for its pairs; any other poll does not. */
  lemma ReplayOnePoll(t: Tables, p: Poll, pair: Pair, at: int)
    requires Chronological(t, p.at) && DistinctPairs(p.batch)
    ensures Replay(Tick(t, p.batch, p.at).log, pair, at)
         == if p.at <= at && Reports(p, pair) then FinalReading(p.batch, pair) else Replay(t.log, pair, at)
  {
    if !Storable(p.batch) {
    } else if p.at <= at {
      TickChronological(t, p.batch, p.at);
      AsOfAll(t.log, at);
      AsOfAll(Tick(t, p.batch, p.at).log, at);
      TickStored(t, p.batch, p.at, pair);
    } else {
      StampedLater(t, Changed(t.log, p.batch), p.at, at);
    }
  }

  lemma {:induction false} StampedLater(t: Tables, rows: seq<Polled>, now: int, at: int)
    requires at < now
    ensures AsOf(t.log + Stamp(rows, now, t.nextId), at) == AsOf(t.log, at)
  {
    if |rows| == 0 {
      assert t.log + Stamp(rows, now, t.nextId) == t.log;
    } else {
      var front := t.log + Stamp(Init(rows), now, t.nextId);
      var s := Last(Stamp(rows, now, t.nextId));
      assert t.log + Stamp(rows, now, t.nextId) == front + [s];
      assert Init(front + [s]) == front;
      StampedLater(t, Init(rows), now, at);
    }
  }

  lemma AsOfAll(log: seq<Snapshot>, at: int)
    requires forall s :: s in log ==> s.observedAt <= at
    ensures AsOf(log, at) == log
  {
    FilterAll(log, (s: Snapshot) => s.observedAt <= at);
  }

  /** Every live row is in step with the log, and every logged pair has a live row. */
  ghost predicate Consistent(t: Tables) {
    && (forall pair :: pair in t.live ==> InStep(t, pair))
    && (forall s :: s in t.log ==> s.pair in t.live)
  }

  /** Runs keep the tables consistent; the empty tables are. */
  lemma {:induction false} RunConsistent(t: Tables, polls: seq<Poll>, since: int)
    requires Chronological(t, since) && WellTimed(polls, since) && DistinctBatches(polls) && Consistent(t)
    ensures Consistent(Run(t, polls))
  {
    if |polls| > 0 {
      DistinctPrefix(polls);
      RunConsistent(t, Init(polls), since);
      RunChronological(t, Init(polls), since);
      if Storable(Last(polls).batch) {
        TickConsistent(Run(t, Init(polls)), Last(polls).batch, Last(polls).at);
      }
    }
  }

  lemma TickConsistent(t: Tables, batch: seq<Polled>, now: int)
    requires Chronological(t, now) && DistinctPairs(batch) && Storable(batch) && Consistent(t)
    ensures Consistent(Tick(t, batch, now))
  {
    var t' := Tick(t, batch, now);
    forall pair | pair in t'.live ensures InStep(t', pair) {
      OverwrittenRow(t.live, batch, pair);
      TickInStep(t, batch, now, pair);
    }
    forall s | s in t'.log ensures s.pair in t'.live {
      OverwrittenRow(t.live, batch, s.pair);
      if s !in t.log {
        StampedFrom(Changed(t.log, batch), now, t.nextId, s);
      }
    }
  }

  /** In step with the log, or recorded nowhere yet: a live row may be older than the log itself. */
  ghost predicate RecordedOrNew(t: Tables, pair: Pair) {
    pair in t.live ==> InStep(t, pair) || Latest(t.log, pair).None?
  }

  /** What a deployment can start recording from: no live row contradicts the log, and every logged pair has a
      live row. */
  ghost predicate Accounted(t: Tables) {
    && (forall pair :: RecordedOrNew(t, pair))
    && (forall s :: s in t.log ==> s.pair in t.live)
  }

  /** Runs keep it, from any live table and an empty log on. */
  lemma {:induction false} RunAccounted(t: Tables, polls: seq<Poll>, since: int)
    requires Chronological(t, since) && WellTimed(polls, since) && DistinctBatches(polls) && Accounted(t)
    ensures Accounted(Run(t, polls))
  {
    if |polls| > 0 {
      DistinctPrefix(polls);
      RunAccounted(t, Init(polls), since);
      RunChronological(t, Init(polls), since);
      if Storable(Last(polls).batch) {
        TickAccounted(Run(t, Init(polls)), Last(polls).batch, Last(polls).at);
      }
    }
  }

  lemma TickAccounted(t: Tables, batch: seq<Polled>, now: int)
    requires Chronological(t, now) && DistinctPairs(batch) && Storable(batch) && Accounted(t)
    ensures Accounted(Tick(t, batch, now))
  {
    var t' := Tick(t, batch, now);
    forall pair ensures RecordedOrNew(t', pair) {
      TickKeepsRecordedOrNew(t, batch, now, pair);
    }
    forall s | s in t'.log ensures s.pair in t'.live {
      OverwrittenRow(t.live, batch, s.pair);
      if s !in t.log {
        StampedFrom(Changed(t.log, batch), now, t.nextId, s);
      }
    }
  }

  lemma TickKeepsRecordedOrNew(t: Tables, batch: seq<Polled>, now: int, pair: Pair)
    requires Chronological(t, now) && DistinctPairs(batch) && Storable(batch) && RecordedOrNew(t, pair)
    ensures RecordedOrNew(Tick(t, batch, now), pair)
  {
    if FinalRow(batch, pair).Some? || InStep(t, pair) {
      TickInStep(t, batch, now, pair);
    } else {
      OverwrittenRow(t.live, batch, pair);
      TickStored(t, batch, now, pair);
    }
  }

  lemma {:induction false} StampedFrom(rows: seq<Polled>, now: int, nextId: int, s: Snapshot)
    requires s in Stamp(rows, now, nextId)
    ensures exists r :: r in rows && r.pair == s.pair
  {
    SplitLast(rows);
    if s in Stamp(Init(rows), now, nextId) {
      StampedFrom(Init(rows), now, nextId, s);
    } else {
      assert Last(rows) in rows;
    }
  }

  // ---- recorded peaks ----

  /** The highest max_rating any committed poll of the pair at or before t reported. */
  function PeakPolled(polls: seq<Poll>, pair: Pair, t: int): Option<int> {
    if |polls| == 0 then None
    else
      var p := Last(polls);
      MaxOpt(PeakPolled(Init(polls), pair, t), if p.at <= t && Storable(p.batch) then PeakIn(p.batch, pair) else None)
  }

  function PeakIn(batch: seq<Polled>, pair: Pair): Option<int> {
    if |batch| == 0 then None
    else MaxOpt(PeakIn(Init(batch), pair), if Last(batch).pair == pair then Some(Last(batch).maxRating) else None)
  }

  /** Recording only changes loses no peak: the highest row observed at or before t is the highest
      value polled at or before t. Here batches may repeat a pair. */
  lemma {:induction false} RecordedPeakIsPolledPeak(t: Tables, polls: seq<Poll>, since: int, pair: Pair, at: int)
    requires Chronological(t, since) && WellTimed(polls, since) && since <= at
    ensures PeakAsOf(Run(t, polls).log, pair, at)
         == MaxOpt(PeakAsOf(t.log, pair, at), PeakPolled(polls, pair, at))
  {
    if |polls| > 0 {
      RecordedPeakIsPolledPeak(t, Init(polls), since, pair, at);
      RunChronological(t, Init(polls), since);
      var p := Last(polls);
      if Storable(p.batch) {
        PeakAfterTick(Run(t, Init(polls)), p, pair, at);
      }
    }
  }

  lemma PeakAfterTick(t: Tables, p: Poll, pair: Pair, at: int)
    requires Chronological(t, p.at) && Storable(p.batch)
    ensures PeakAsOf(Tick(t, p.batch, p.at).log, pair, at)
         == MaxOpt(PeakAsOf(t.log, pair, at), if p.at <= at then PeakIn(p.batch, pair) else None)
  {
    PeakStamped(t, Changed(t.log, p.batch), p.at, pair, at);
    if p.at <= at {
      PeakOfChanged(t, p.batch, p.at, pair, at);
    }
  }

  lemma {:induction false} PeakStamped(t: Tables, rows: seq<Polled>, now: int, pair: Pair, at: int)
    ensures PeakAsOf(t.log + Stamp(rows, now, t.nextId), pair, at)
         == MaxOpt(PeakAsOf(t.log, pair, at), if now <= at then PeakIn(rows, pair) else None)
  {
    if |rows| == 0 {
      assert t.log + Stamp(rows, now, t.nextId) == t.log;
    } else {
      var front := t.log + Stamp(Init(rows), now, t.nextId);
      var s := Last(Stamp(rows, now, t.nextId));
      assert t.log + Stamp(rows, now, t.nextId) == front + [s];
      assert Init(front + [s]) == front;
      PeakStamped(t, Init(rows), now, pair, at);
    }
  }

  lemma StoredInPeak(t: Tables, r: Polled, now: int, at: int)
    requires Chronological(t, now) && now <= at && Stored(t.log, r.pair) == Some(r.Reading())
    ensures AtMost(Some(r.maxRating), PeakAsOf(t.log, r.pair, at))
  {
    assert Latest(t.log, r.pair).value in t.log;
  }

  lemma PeakInOneMore(rows: seq<Polled>, r: Polled, pair: Pair)
    ensures PeakIn(rows + [r], pair) == MaxOpt(PeakIn(rows, pair), if r.pair == pair then Some(r.maxRating) else None)
  {
    assert Init(rows + [r]) == rows;
  }

  /** A row dropped as unchanged equals a stored row, so dropping it lowers no maximum. */
  lemma {:induction false} PeakOfChanged(t: Tables, batch: seq<Polled>, now: int, pair: Pair, at: int)
    requires Chronological(t, now) && now <= at
    ensures MaxOpt(PeakAsOf(t.log, pair, at), PeakIn(Changed(t.log, batch), pair))
         == MaxOpt(PeakAsOf(t.log, pair, at), PeakIn(batch, pair))
  {
    if |batch| > 0 {
      PeakOfChanged(t, Init(batch), now, pair, at);
      var r := Last(batch);
      var front := Changed(t.log, Init(batch));
      SplitLast(batch);
      PeakInOneMore(Init(batch), r, pair);
      ChangedOneMore(t.log, Init(batch), r);
      if Stored(t.log, r.pair) == Some(r.Reading()) {
        StoredInPeak(t, r, now, at);
      } else {
        PeakInOneMore(front, r, pair);
      }
    }
  }

  lemma ChangedOneMore(log: seq<Snapshot>, batch: seq<Polled>, r: Polled)
    ensures Changed(log, batch + [r])
      == if Stored(log, r.pair) == Some(r.Reading()) then Changed(log, batch) else Changed(log, batch) + [r]
  {
    assert Init(batch + [r]) == batch;
  }
}
