/** The refetch signal: a worker commits one version row per event, every instance polls those rows and
    fans what advanced out to bounded queues. */
module Nudges {
  import opened Common

  /** A version row, and the nudge an instance publishes for it. */
  datatype Nudge = Nudge(event: string, at: int, scope: Option<seq<int>>)

  const CAPACITY := 16

  const EVENT_TYPES: set<string> := {"standings", "live", "matches"}

  /** The scope stored on a row: distinct ids in order, or null for "everyone" when there are none. */
  function StoredScope(ids: Option<seq<int>>): (r: Option<seq<int>>)
    ensures r.None? <==> ids.None? || |ids.value| == 0
    ensures r.Some? ==> Increasing(r.value) && |r.value| > 0 && forall x :: x in r.value <==> x in ids.value
  {
    if ids.None? || |ids.value| == 0 then None
    else
      assert ids.value[0] in SortedUnique(ids.value);
      Some(SortedUnique(ids.value))
  }

  // ---- one poll, as values ----

  ghost predicate OneRowPerEvent(rows: seq<Nudge>) {
    forall i, j :: 0 <= i < j < |rows| ==> rows[i].event != rows[j].event
  }

  function Seen(lastSeen: map<string, int>, rows: seq<Nudge>): map<string, int> {
    if |rows| == 0 then lastSeen else Seen(lastSeen, Init(rows))[Last(rows).event := Last(rows).at]
  }

  predicate Advanced(lastSeen: map<string, int>, row: Nudge) {
    row.event !in lastSeen || lastSeen[row.event] < row.at
  }

  /** The rows of a known event that advanced past what was seen before the poll. */
  function Fresh(lastSeen: map<string, int>, rows: seq<Nudge>): seq<Nudge> {
    if |rows| == 0 then []
    else if Advanced(lastSeen, Last(rows)) && Last(rows).event in EVENT_TYPES
    then Fresh(lastSeen, Init(rows)) + [Last(rows)]
    else Fresh(lastSeen, Init(rows))
  }

  function Offer(items: seq<Nudge>, n: Nudge): seq<Nudge> {
    if |items| < CAPACITY then items + [n] else items
  }

  function OfferAll(items: seq<Nudge>, nudges: seq<Nudge>): seq<Nudge> {
    if |nudges| == 0 then items else Offer(OfferAll(items, Init(nudges)), Last(nudges))
  }

  lemma {:induction false} SeenAt(lastSeen: map<string, int>, rows: seq<Nudge>, event: string)
    requires OneRowPerEvent(rows)
    ensures forall i :: 0 <= i < |rows| && rows[i].event == event ==>
      Get(Seen(lastSeen, rows), event) == Some(rows[i].at)
    ensures (forall i :: 0 <= i < |rows| ==> rows[i].event != event) ==>
      Get(Seen(lastSeen, rows), event) == Get(lastSeen, event)
  {
    if |rows| > 0 {
      SeenAt(lastSeen, Init(rows), event);
    }
  }

  // ---- the hub and the poller ----

  /** The version table as the worker writes it, inside the tick's transaction. */
  class NudgeTable {
    var rows: map<string, Nudge>

    constructor ()
      ensures rows == map[]
    {
      rows := map[];
    }

    /** One row per event: inserted the first time, overwritten after that. */
    method EmitNudge(event: string, ids: Option<seq<int>>, now: int)
      modifies this
      ensures rows == old(rows)[event := Nudge(event, now, StoredScope(ids))]
    {
      var scope := StoredScope(ids);
      if event !in rows {
        rows := rows[event := Nudge(event, now, scope)];
      } else {
        rows := rows[event := rows[event].(event := event, at := now, scope := scope)];
      }
    }
  }

  class Subscription {
    var items: seq<Nudge>

    constructor ()
      ensures items == []
    {
      items := [];
    }

    /** Fails on a full queue. */
    method PutNowait(n: Nudge) returns (ok: bool)
      modifies this
      ensures ok <==> |old(items)| < CAPACITY
      ensures items == Offer(old(items), n)
    {
      ok := |items| < CAPACITY;
      if ok {
        items := items + [n];
      }
    }

    /** The oldest nudge, if there is one. */
    method Take() returns (n: Option<Nudge>)
      modifies this
      ensures if old(items) == [] then n.None? && items == []
              else n == Some(old(items)[0]) && items == old(items)[1..]
    {
      n := None;
      if |items| > 0 {
        n, items := Some(items[0]), items[1..];
      }
    }
  }

  class EventHub {
    var subscribers: set<Subscription>

    constructor ()
      ensures subscribers == {}
    {
      subscribers := {};
    }

    method Subscribe() returns (q: Subscription)
      modifies this
      ensures fresh(q) && q.items == [] && subscribers == old(subscribers) + {q}
    {
      q := new Subscription();
      subscribers := subscribers + {q};
    }

    method Unsubscribe(q: Subscription)
      modifies this
      ensures subscribers == old(subscribers) - {q}
    {
      subscribers := subscribers - {q};
    }

    /** Offers the nudge to every subscriber; a full queue drops it. */
    method Publish(n: Nudge)
      modifies subscribers
      ensures forall q :: q in subscribers ==> q.items == Offer(old(q.items), n)
    {
      var rest := subscribers;
      while rest != {}
        invariant rest <= subscribers
        invariant forall q :: q in subscribers ==> q.items == if q in rest then old(q.items) else Offer(old(q.items), n)
        decreases rest
      {
        var q :| q in rest;
        var ok := q.PutNowait(n);
        rest := rest - {q};
      }
    }
  }

  /** One instance's poll loop: what it saw last, and whether it has polled before. */
  class Poller {
    var lastSeen: map<string, int>
    var initialized: bool

    constructor ()
      ensures lastSeen == map[] && !initialized
    {
      lastSeen, initialized := map[], false;
    }

    /** One successful poll: remembers every row, and after the first poll publishes what advanced. */
    method PollOnce(rows: seq<Nudge>, hub: EventHub) returns (published: seq<Nudge>)
      requires OneRowPerEvent(rows)
      modifies this, hub.subscribers
      ensures lastSeen == Seen(old(lastSeen), rows) && initialized
      ensures published == if old(initialized) then Fresh(old(lastSeen), rows) else []
      ensures forall q :: q in hub.subscribers ==> q.items == OfferAll(old(q.items), published)
    {
      published := [];
      for i := 0 to |rows|
        invariant lastSeen == Seen(old(lastSeen), rows[..i]) && initialized == old(initialized)
        invariant published == if initialized then Fresh(old(lastSeen), rows[..i]) else []
        invariant forall q :: q in hub.subscribers ==> q.items == OfferAll(old(q.items), published)
      {
        var row := rows[i];
        assert Init(rows[..i + 1]) == rows[..i];
        SeenAt(old(lastSeen), rows[..i], row.event);
        var previous := Get(lastSeen, row.event);
        lastSeen := lastSeen[row.event := row.at];
        if !initialized {
          continue;
        }
        if (previous.None? || previous.value < row.at) && row.event in EVENT_TYPES {
          hub.Publish(row);
          assert Init(published + [row]) == published;
          published := published + [row];
        }
      }
      assert rows[..|rows|] == rows;
      initialized := true;
    }
  }

  // ---- the protocol ----

  /** A subscriber: how many nudges had been published when it joined, what it has read, what waits in
      its queue, and how many were dropped on it. */
  datatype Queue = Queue(since: nat, taken: seq<Nudge>, items: seq<Nudge>, dropped: nat)

  /** One instance and the table it polls. `committed` and `published` are the whole histories;
      `polledUpTo` commits had happened at the last successful poll, `baselineUpTo` at the first. */
  datatype Sys = Sys(committed: seq<Nudge>, table: map<string, Nudge>, lastSeen: map<string, int>, initialized: bool,
                     baselineUpTo: nat, polledUpTo: nat, published: seq<Nudge>, queues: map<int, Queue>)

  const INITIAL := Sys([], map[], map[], false, 0, 0, [], map[])

  datatype Step =
    | Commit(n: Nudge)
    | Rollback(n: Nudge)
    | Poll(rows: seq<Nudge>)
    | FailedPoll
    | Subscribe(id: int)
    | Unsubscribe(id: int)
    | Read(id: int)

  /** The rows of a poll are the table, in any order. */
  ghost predicate Lists(rows: seq<Nudge>, table: map<string, Nudge>) {
    && OneRowPerEvent(rows)
    && (forall r :: r in rows ==> Get(table, r.event) == Some(r))
    && (forall e :: e in table ==> table[e] in rows && table[e].event == e)
  }

  /** A commit's time is later than the stored one; a queue id is used once. */
  ghost predicate Enabled(s: Sys, step: Step) {
    match step
    case Commit(n) => n.event in s.table ==> s.table[n.event].at < n.at
    case Poll(rows) => Lists(rows, s.table)
    case Subscribe(id) => id !in s.queues
    case _ => true
  }

  function Delivered(q: Queue, n: Nudge): Queue {
    if |q.items| < CAPACITY then q.(items := q.items + [n]) else q.(dropped := q.dropped + 1)
  }

  function DeliveredAll(q: Queue, nudges: seq<Nudge>): Queue {
    if |nudges| == 0 then q else Delivered(DeliveredAll(q, Init(nudges)), Last(nudges))
  }

  function Next(s: Sys, step: Step): Sys {
    match step
    case Commit(n) => s.(committed := s.committed + [n], table := s.table[n.event := n])
    case Rollback(n) => s
    case FailedPoll => s
    case Poll(rows) =>
      var advanced := if s.initialized then Fresh(s.lastSeen, rows) else [];
      s.(lastSeen := Seen(s.lastSeen, rows), initialized := true, polledUpTo := |s.committed|,
         baselineUpTo := if s.initialized then s.baselineUpTo else |s.committed|,
         published := s.published + advanced,
         queues := map id | id in s.queues :: DeliveredAll(s.queues[id], advanced))
    case Subscribe(id) => s.(queues := s.queues[id := Queue(|s.published|, [], [], 0)])
    case Unsubscribe(id) => s.(queues := s.queues - {id})
    case Read(id) =>
      if id in s.queues && |s.queues[id].items| > 0 then
        var q := s.queues[id];
        s.(queues := s.queues[id := q.(taken := q.taken + [q.items[0]], items := q.items[1..])])
      else s
  }

  function RunAll(s: Sys, steps: seq<Step>): Sys {
    if |steps| == 0 then s else Next(RunAll(s, Init(steps)), Last(steps))
  }

  ghost predicate Possible(s: Sys, steps: seq<Step>) {
    |steps| > 0 ==> Possible(s, Init(steps)) && Enabled(RunAll(s, Init(steps)), Last(steps))
  }

  /** The last commit of an event. */
  function LastOf(nudges: seq<Nudge>, event: string): (r: Option<Nudge>)
    ensures r.Some? ==> r.value.event == event && r.value in nudges
    ensures r.None? ==> forall n :: n in nudges ==> n.event != event
  {
    if |nudges| == 0 then None
    else
      SplitLast(nudges);
      if Last(nudges).event == event then Some(Last(nudges)) else LastOf(Init(nudges), event)
  }

  function TimeOf(n: Option<Nudge>): Option<int> {
    if n.None? then None else Some(n.value.at)
  }

  /** The table holds the last commit of every event, and `lastSeen` the times of the commits before the
      last successful poll. */
  ghost predicate Tracks(s: Sys) {
    && s.baselineUpTo <= s.polledUpTo <= |s.committed|
    && (forall e :: Get(s.table, e) == LastOf(s.committed, e))
    && (forall e :: Get(s.lastSeen, e) == TimeOf(LastOf(s.committed[..s.polledUpTo], e)))
    && (!s.initialized ==> s.polledUpTo == 0 && s.published == [])
  }

  lemma {:induction false} LastOfPrefix(nudges: seq<Nudge>, more: seq<Nudge>, event: string)
    ensures LastOf(nudges + more, event)
      == if LastOf(more, event).Some? then LastOf(more, event) else LastOf(nudges, event)
  {
    if |more| == 0 {
      assert nudges + more == nudges;
    } else {
      assert Init(nudges + more) == nudges + Init(more);
      LastOfPrefix(nudges, Init(more), event);
    }
  }

  lemma StepTracks(s: Sys, step: Step)
    requires Tracks(s) && Enabled(s, step)
    ensures Tracks(Next(s, step))
  {
    var s' := Next(s, step);
    match step
    case Commit(n) =>
      assert Init(s'.committed) == s.committed;
      assert s'.committed[..s.polledUpTo] == s.committed[..s.polledUpTo];
    case Poll(rows) =>
      assert s.committed[..|s.committed|] == s.committed;
      forall e ensures Get(s'.lastSeen, e) == TimeOf(LastOf(s.committed, e)) {
        PollSees(s, rows, e);
      }
    case _ =>
  }

  /** A poll leaves every event's last seen time equal to the table's. */
  lemma PollSees(s: Sys, rows: seq<Nudge>, event: string)
    requires Tracks(s) && Lists(rows, s.table)
    ensures Get(Seen(s.lastSeen, rows), event) == TimeOf(Get(s.table, event))
  {
    SeenAt(s.lastSeen, rows, event);
    if event in s.table {
      var i :| 0 <= i < |rows| && rows[i] == s.table[event];
    } else {
      LastOfPrefix(s.committed[..s.polledUpTo], s.committed[s.polledUpTo..], event);
      assert s.committed == s.committed[..s.polledUpTo] + s.committed[s.polledUpTo..];
      forall i | 0 <= i < |rows| ensures rows[i].event != event {
        assert rows[i] in rows;
      }
    }
  }

  lemma {:induction false} RunTracks(steps: seq<Step>)
    requires Possible(INITIAL, steps)
    ensures Tracks(RunAll(INITIAL, steps))
  {
    if |steps| > 0 {
      RunTracks(Init(steps));
      StepTracks(RunAll(INITIAL, Init(steps)), Last(steps));
    }
  }

  // ---- what is published ----

  /** Per event, times strictly increase. */
  ghost predicate Ascending(nudges: seq<Nudge>) {
    |nudges| > 0 ==>
      && Ascending(Init(nudges))
      && forall n :: n in Init(nudges) && n.event == Last(nudges).event ==> n.at < Last(nudges).at
  }

  /** The time an instance last stood at for an event: of its last published nudge, else of the table
      when it first polled. */
  function LastKnown(s: Sys, event: string): Option<int> {
    var n := LastOf(s.published, event);
    TimeOf(if n.Some? then n else LastOf(Upto(s.committed, s.baselineUpTo), event))
  }

  function Upto(nudges: seq<Nudge>, k: nat): seq<Nudge> {
    if k <= |nudges| then nudges[..k] else nudges
  }

  ghost predicate Faithful(s: Sys) {
    && Tracks(s)
    && Ascending(s.committed) && Ascending(s.published)
    && (forall n :: n in s.published ==> n in s.committed && n.event in EVENT_TYPES)
    && (forall n :: n in s.published ==> n.event in s.lastSeen && n.at <= s.lastSeen[n.event])
    && (forall e :: e in EVENT_TYPES ==> Get(s.lastSeen, e) == LastKnown(s, e))
  }

  lemma {:induction false} FreshAre(lastSeen: map<string, int>, rows: seq<Nudge>)
    ensures forall n :: n in Fresh(lastSeen, rows) <==> n in rows && Advanced(lastSeen, n) && n.event in EVENT_TYPES
    ensures OneRowPerEvent(rows) ==> OneRowPerEvent(Fresh(lastSeen, rows))
  {
    if |rows| > 0 {
      SplitLast(rows);
      FreshAre(lastSeen, Init(rows));
      var front := Fresh(lastSeen, Init(rows));
      if OneRowPerEvent(rows) {
        forall i | 0 <= i < |front| ensures front[i].event != Last(rows).event {
          assert front[i] in front;
          assert front[i] in Init(rows);
        }
      }
    }
  }

  lemma {:induction false} AscendingAppend(old_: seq<Nudge>, more: seq<Nudge>)
    requires Ascending(old_) && OneRowPerEvent(more)
    requires forall m, n :: m in old_ && n in more && m.event == n.event ==> m.at < n.at
    ensures Ascending(old_ + more)
  {
    if |more| == 0 {
      assert old_ + more == old_;
    } else {
      assert Init(old_ + more) == old_ + Init(more);
      SplitLast(more);
      AscendingAppend(old_, Init(more));
      forall n | n in Init(more) ensures n.event != Last(more).event {
        var i :| 0 <= i < |more| - 1 && more[i] == n;
      }
    }
  }

  lemma {:induction false} LastIsLatest(nudges: seq<Nudge>, n: Nudge)
    requires Ascending(nudges) && n in nudges
    ensures LastOf(nudges, n.event).Some?
    ensures n.at <= LastOf(nudges, n.event).value.at
    ensures n.at == LastOf(nudges, n.event).value.at ==> n == LastOf(nudges, n.event).value
  {
    SplitLast(nudges);
    if Last(nudges).event == n.event {
    } else {
      LastIsLatest(Init(nudges), n);
    }
  }

  /** A row is newer than what was seen exactly if its commit came after the last poll. */
  lemma AdvancedIff(s: Sys, row: Nudge)
    requires Tracks(s) && Ascending(s.committed) && Get(s.table, row.event) == Some(row)
    ensures Advanced(s.lastSeen, row) <==> LastOf(s.committed[s.polledUpTo..], row.event).Some?
    ensures !Advanced(s.lastSeen, row) ==> Get(s.lastSeen, row.event) == Some(row.at)
    ensures LastOf(s.committed[s.polledUpTo..], row.event).Some? ==>
      LastOf(s.committed[s.polledUpTo..], row.event) == Some(row)
  {
    var before, after := s.committed[..s.polledUpTo], s.committed[s.polledUpTo..];
    assert s.committed == before + after;
    LastOfPrefix(before, after, row.event);
    if LastOf(after, row.event).Some? && row.event in s.lastSeen {
      LaterIsNewer(before, after, LastOf(before, row.event).value, row);
    }
  }

  lemma {:induction false} LaterIsNewer(before: seq<Nudge>, after: seq<Nudge>, m: Nudge, n: Nudge)
    requires Ascending(before + after) && m in before && n in after && m.event == n.event
    ensures m.at < n.at
  {
    assert Init(before + after) == before + Init(after);
    SplitLast(after);
    if n == Last(after) {
      assert m in Init(before + after);
    } else {
      LaterIsNewer(before, Init(after), m, n);
    }
  }

  /** A poll publishes for an event the table's row if it advanced, and nothing else. */
  lemma FreshOf(s: Sys, rows: seq<Nudge>, event: string)
    requires Lists(rows, s.table) && event in EVENT_TYPES
    ensures LastOf(Fresh(s.lastSeen, rows), event)
         == if event in s.table && Advanced(s.lastSeen, s.table[event]) then Some(s.table[event]) else None
  {
    var out := Fresh(s.lastSeen, rows);
    FreshAre(s.lastSeen, rows);
    if LastOf(out, event).Some? {
      assert Get(s.table, event) == LastOf(out, event);
    } else if event in s.table {
      assert s.table[event] in rows;
    }
  }

  /** Between two polls an event that no commit touched is still where it was last seen. */
  lemma UntouchedEvent(s: Sys, event: string)
    requires Tracks(s) && Ascending(s.committed)
    requires event in s.table ==> !Advanced(s.lastSeen, s.table[event])
    ensures TimeOf(Get(s.table, event)) == Get(s.lastSeen, event)
  {
    assert Get(s.table, event) == LastOf(s.committed, event);
    if event in s.table {
      AdvancedIff(s, s.table[event]);
    } else {
      assert s.committed == s.committed[..s.polledUpTo] + s.committed[s.polledUpTo..];
      LastOfPrefix(s.committed[..s.polledUpTo], s.committed[s.polledUpTo..], event);
    }
  }

  /** A poll moves where an instance stands for an event exactly if the event advanced. */
  lemma LastKnownAfterPoll(s: Sys, rows: seq<Nudge>, event: string)
    requires s.initialized && Lists(rows, s.table) && event in EVENT_TYPES
    ensures LastKnown(Next(s, Poll(rows)), event)
         == if event in s.table && Advanced(s.lastSeen, s.table[event]) then Some(s.table[event].at)
            else LastKnown(s, event)
  {
    FreshOf(s, rows, event);
    LastOfPrefix(s.published, Fresh(s.lastSeen, rows), event);
  }

  lemma FirstPollStands(s: Sys, rows: seq<Nudge>, event: string)
    requires Tracks(s) && !s.initialized
    ensures LastKnown(Next(s, Poll(rows)), event) == TimeOf(Get(s.table, event))
  {
    assert Get(s.table, event) == LastOf(s.committed, event);
    assert s.committed[..|s.committed|] == s.committed;
    assert s.published + [] == [];
  }

  /** After a poll every known event stands at its last published or baseline time. */
  lemma PollStands(s: Sys, rows: seq<Nudge>, event: string)
    requires Faithful(s) && Lists(rows, s.table) && event in EVENT_TYPES
    ensures Get(Seen(s.lastSeen, rows), event) == LastKnown(Next(s, Poll(rows)), event)
  {
    PollSees(s, rows, event);
    if s.initialized {
      LastKnownAfterPoll(s, rows, event);
      if event !in s.table || !Advanced(s.lastSeen, s.table[event]) {
        UntouchedEvent(s, event);
      }
    } else {
      FirstPollStands(s, rows, event);
    }
  }

  lemma PollKeepsPublished(s: Sys, rows: seq<Nudge>)
    requires Faithful(s) && Lists(rows, s.table)
    ensures var s' := Next(s, Poll(rows));
      && Ascending(s'.published)
      && (forall n :: n in s'.published ==> n in s'.committed && n.event in EVENT_TYPES)
      && (forall n :: n in s'.published ==> n.event in s'.lastSeen && n.at <= s'.lastSeen[n.event])
  {
    var s' := Next(s, Poll(rows));
    var out := if s.initialized then Fresh(s.lastSeen, rows) else [];
    FreshAre(s.lastSeen, rows);
    AscendingAppend(s.published, out);
    forall n | n in s'.published
      ensures n in s.committed && n.event in EVENT_TYPES
      ensures n.event in s'.lastSeen && n.at <= s'.lastSeen[n.event]
    {
      PollSees(s, rows, n.event);
      assert Get(s.table, n.event) == LastOf(s.committed, n.event);
      if n in out {
        assert Get(s.table, n.event) == Some(n);
      } else {
        LastIsLatest(s.committed, n);
      }
    }
  }

  lemma CommitFaithful(s: Sys, n: Nudge)
    requires Faithful(s) && Enabled(s, Commit(n))
    ensures Faithful(Next(s, Commit(n)))
  {
    var s' := Next(s, Commit(n));
    StepTracks(s, Commit(n));
    assert Init(s'.committed) == s.committed;
    assert s'.committed[..s.baselineUpTo] == s.committed[..s.baselineUpTo];
    assert Get(s.table, n.event) == LastOf(s.committed, n.event);
    forall m | m in s.committed && m.event == n.event ensures m.at < n.at {
      LastIsLatest(s.committed, m);
    }
    forall e | e in EVENT_TYPES ensures Get(s'.lastSeen, e) == LastKnown(s', e) {
      assert Get(s.lastSeen, e) == LastKnown(s, e);
    }
  }

  lemma PollFaithful(s: Sys, rows: seq<Nudge>)
    requires Faithful(s) && Lists(rows, s.table)
    ensures Faithful(Next(s, Poll(rows)))
  {
    StepTracks(s, Poll(rows));
    PollKeepsPublished(s, rows);
    forall e | e in EVENT_TYPES ensures Get(Seen(s.lastSeen, rows), e) == LastKnown(Next(s, Poll(rows)), e) {
      PollStands(s, rows, e);
    }
  }

  lemma StepFaithful(s: Sys, step: Step)
    requires Faithful(s) && Enabled(s, step)
    ensures Faithful(Next(s, step))
  {
    match step
    case Commit(n) => CommitFaithful(s, n);
    case Poll(rows) => PollFaithful(s, rows);
    case _ =>
      forall e | e in EVENT_TYPES ensures LastKnown(Next(s, step), e) == LastKnown(s, e) {
      }
  }

  lemma {:induction false} RunFaithful(steps: seq<Step>)
    requires Possible(INITIAL, steps)
    ensures Faithful(RunAll(INITIAL, steps))
  {
    if |steps| > 0 {
      RunFaithful(Init(steps));
      StepFaithful(RunAll(INITIAL, Init(steps)), Last(steps));
    }
  }

  /** In every run, whatever fails or rolls back, each published nudge is a committed row of a known
      event. */
  lemma PublishedAreCommits(steps: seq<Step>, n: Nudge)
    requires Possible(INITIAL, steps) && n in RunAll(INITIAL, steps).published
    ensures n in RunAll(INITIAL, steps).committed && n.event in {"standings", "live", "matches"}
  {
    RunFaithful(steps);
  }

  /** An instance has its baseline exactly once it has polled successfully. */
  lemma {:induction false} InitializedIff(steps: seq<Step>)
    ensures RunAll(INITIAL, steps).initialized <==> exists i :: 0 <= i < |steps| && steps[i].Poll?
  {
    if |steps| > 0 {
      InitializedIff(Init(steps));
      assert Last(steps) == steps[|steps| - 1];
      assert forall i :: 0 <= i < |steps| - 1 ==> Init(steps)[i] == steps[i];
    }
  }

  /** The first poll of an instance publishes nothing, whatever the table holds. */
  lemma FirstPollIsSilent(steps: seq<Step>, rows: seq<Nudge>)
    requires Possible(INITIAL, steps) && !RunAll(INITIAL, steps).initialized
    ensures Next(RunAll(INITIAL, steps), Poll(rows)).published == []
    ensures Next(RunAll(INITIAL, steps), Poll(rows)).initialized
  {
    RunTracks(steps);
  }

  /** In every run, per event, published times strictly increase. */
  lemma PublishedTimesIncrease(steps: seq<Step>, i: nat, j: nat)
    requires Possible(INITIAL, steps) && i < j < |RunAll(INITIAL, steps).published|
    requires RunAll(INITIAL, steps).published[i].event == RunAll(INITIAL, steps).published[j].event
    ensures RunAll(INITIAL, steps).published[i].at < RunAll(INITIAL, steps).published[j].at
  {
    RunFaithful(steps);
    AscendingAt(RunAll(INITIAL, steps).published, i, j);
  }

  lemma {:induction false} AscendingAt(nudges: seq<Nudge>, i: nat, j: nat)
    requires Ascending(nudges) && i < j < |nudges| && nudges[i].event == nudges[j].event
    ensures nudges[i].at < nudges[j].at
  {
    if j < |nudges| - 1 {
      AscendingAt(Init(nudges), i, j);
    } else {
      assert nudges[i] == Init(nudges)[i];
    }
  }

  /** After any successful poll, every known event's last published or baseline time is the table's. */
  lemma PollCatchesUp(steps: seq<Step>, rows: seq<Nudge>, event: string)
    requires Possible(INITIAL, steps) && Enabled(RunAll(INITIAL, steps), Poll(rows)) && event in EVENT_TYPES
    ensures var s := Next(RunAll(INITIAL, steps), Poll(rows)); LastKnown(s, event) == TimeOf(Get(s.table, event))
  {
    RunFaithful(steps);
    var s := RunAll(INITIAL, steps);
    PollStands(s, rows, event);
    PollSees(s, rows, event);
  }

  // ---- what can be lost ----

  /** A poll publishes, of the commits since the last poll, exactly each known event's last one. */
  lemma PollPublishesLastPending(s: Sys, rows: seq<Nudge>, n: Nudge)
    requires Faithful(s) && s.initialized && Lists(rows, s.table)
    requires n in s.committed[s.polledUpTo..] && n.event in EVENT_TYPES
    ensures n in Fresh(s.lastSeen, rows) <==> LastOf(s.committed[s.polledUpTo..], n.event) == Some(n)
  {
    var before, after := s.committed[..s.polledUpTo], s.committed[s.polledUpTo..];
    assert s.committed == before + after;
    LastOfPrefix(before, after, n.event);
    assert Get(s.table, n.event) == LastOf(s.committed, n.event);
    AdvancedIff(s, s.table[n.event]);
    FreshAre(s.lastSeen, rows);
    assert s.table[n.event] in rows;
    if n in Fresh(s.lastSeen, rows) {
      assert Get(s.table, n.event) == Some(n);
    }
  }

  ghost predicate AtMostOne(nudges: seq<Nudge>, event: string) {
    forall m, n :: m in nudges && n in nudges && m.event == n.event == event ==> m == n
  }

  /** So a poll loses no committed scope of an event exactly when it was committed at most once since
      the last poll. */
  lemma NothingLostIff(s: Sys, rows: seq<Nudge>, event: string)
    requires Faithful(s) && s.initialized && Lists(rows, s.table) && event in EVENT_TYPES
    ensures var pending := s.committed[s.polledUpTo..];
      (forall n :: n in pending && n.event == event ==> n in Fresh(s.lastSeen, rows)) <==> AtMostOne(pending, event)
  {
    var pending := s.committed[s.polledUpTo..];
    forall n | n in pending && n.event == event
      ensures n in Fresh(s.lastSeen, rows) <==> LastOf(pending, event) == Some(n)
    {
      PollPublishesLastPending(s, rows, n);
    }
  }

  /** Two commits of one event between two polls: the first one's scope never goes out. */
  lemma TwoCommitsLoseOne(first: Nudge, second: Nudge)
    requires first == Nudge("live", 1, Some([7])) && second == Nudge("live", 2, Some([8]))
    ensures var s := Next(Next(Next(INITIAL, Poll([])), Commit(first)), Commit(second));
      && s == Sys([first, second], map["live" := second], map[], true, 0, 0, [], map[])
      && Enabled(s, Poll([second]))
      && Next(s, Poll([second])).published == [second]
  {
    var s0 := Next(INITIAL, Poll([]));
    assert s0 == INITIAL.(initialized := true);
    var s := Sys([first, second], map["live" := second], map[], true, 0, 0, [], map[]);
    assert Init([second]) == [];
    assert Fresh(s.lastSeen, [second]) == [second];
  }

  lemma {:induction false} RunConcat(s: Sys, a: seq<Step>, b: seq<Step>)
    ensures RunAll(s, a + b) == RunAll(RunAll(s, a), b)
    ensures Possible(s, a + b) ==> Possible(s, a)
  {
    if |b| == 0 {
      assert a + b == a;
    } else {
      assert Init(a + b) == a + Init(b);
      RunConcat(s, a, Init(b));
    }
  }

  /** No poll succeeds, and nothing else is committed for the event. */
  ghost predicate Meanwhile(steps: seq<Step>, event: string) {
    forall i :: 0 <= i < |steps| ==> !steps[i].Poll? && (steps[i].Commit? ==> steps[i].n.event != event)
  }

  lemma {:induction false} StillPending(s: Sys, steps: seq<Step>, event: string) returns (later: seq<Nudge>)
    requires Meanwhile(steps, event)
    ensures var s' := RunAll(s, steps);
      s'.committed == s.committed + later && s'.polledUpTo == s.polledUpTo && s'.initialized == s.initialized
    ensures LastOf(later, event) == None
  {
    later := [];
    if |steps| > 0 {
      later := StillPending(s, Init(steps), event);
      if Last(steps).Commit? {
        var before := later;
        later := before + [Last(steps).n];
        assert Init(later) == before;
      }
    }
  }

  lemma PendingGoesOut(s: Sys, before: nat, n: Nudge, later: seq<Nudge>, rows: seq<Nudge>)
    requires Faithful(s) && s.initialized && Lists(rows, s.table) && n.event in EVENT_TYPES
    requires s.polledUpTo <= before < |s.committed| && s.committed[before] == n && s.committed[before + 1..] == later
    requires LastOf(later, n.event) == None
    ensures n in Next(s, Poll(rows)).published
  {
    PendingLast(s.committed, s.polledUpTo, before, n, later);
    PollPublishesLastPending(s, rows, n);
  }

  lemma NudgeWaits(steps: seq<Step>, n: Nudge, meanwhile: seq<Step>) returns (later: seq<Nudge>)
    requires RunAll(INITIAL, steps).initialized && Meanwhile(meanwhile, n.event)
    ensures var s0, s := RunAll(INITIAL, steps), RunAll(INITIAL, steps + [Commit(n)] + meanwhile);
      s.initialized && s.polledUpTo == s0.polledUpTo && s.committed == s0.committed + [n] + later
    ensures LastOf(later, n.event) == None
  {
    assert Init(steps + [Commit(n)]) == steps;
    RunConcat(INITIAL, steps + [Commit(n)], meanwhile);
    later := StillPending(RunAll(INITIAL, steps + [Commit(n)]), meanwhile, n.event);
  }

  /** A commit of a worker's event goes out with the instance's next successful poll, unless a later commit of the
      event came first. */
  lemma NudgeGoesOut(steps: seq<Step>, n: Nudge, meanwhile: seq<Step>, rows: seq<Nudge>)
    requires n.event == "standings" || n.event == "live" || n.event == "matches"
    requires Possible(INITIAL, steps + [Commit(n)] + meanwhile + [Poll(rows)])
    requires RunAll(INITIAL, steps).initialized && Meanwhile(meanwhile, n.event)
    ensures n in RunAll(INITIAL, steps + [Commit(n)] + meanwhile + [Poll(rows)]).published
  {
    var waited := steps + [Commit(n)] + meanwhile;
    var later := NudgeWaits(steps, n, meanwhile);
    assert Init(waited + [Poll(rows)]) == waited;
    RunFaithful(waited);
    StepsPossible(steps, [Commit(n)], meanwhile);
    RunTracks(steps);
    PendingGoesOut(RunAll(INITIAL, waited), |RunAll(INITIAL, steps).committed|, n, later, rows);
  }

  lemma StepsPossible(a: seq<Step>, b: seq<Step>, c: seq<Step>)
    requires Possible(INITIAL, a + b + c)
    ensures Possible(INITIAL, a)
  {
    RunConcat(INITIAL, a + b, c);
    RunConcat(INITIAL, a, b);
  }

  lemma PendingLast(committed: seq<Nudge>, from: nat, k: nat, n: Nudge, later: seq<Nudge>)
    requires from <= k < |committed| && committed[k] == n && committed[k + 1..] == later
    requires LastOf(later, n.event) == None
    ensures n in committed[from..] && LastOf(committed[from..], n.event) == Some(n)
  {
    var before := committed[from..k + 1];
    assert committed[from..] == before + later && Last(before) == n;
    LastOfPrefix(before, later, n.event);
  }

  /** Every commit of a known event between the first and the last poll has been published. */
  ghost predicate Complete(s: Sys) {
    s.initialized && s.polledUpTo <= |s.committed| ==>
      forall k :: s.baselineUpTo <= k < s.polledUpTo && s.committed[k].event in EVENT_TYPES ==>
        s.committed[k] in s.published
  }

  /** A poll of each event's single commit since the poll before. */
  ghost predicate Unhurried(s: Sys, step: Step) {
    step.Poll? && s.initialized && s.polledUpTo <= |s.committed| ==>
      forall e :: e in EVENT_TYPES ==> AtMostOne(s.committed[s.polledUpTo..], e)
  }

  ghost predicate UnhurriedRun(steps: seq<Step>) {
    |steps| > 0 ==> UnhurriedRun(Init(steps)) && Unhurried(RunAll(INITIAL, Init(steps)), Last(steps))
  }

  /** In runs where each event is committed at most once between polls no committed scope is lost. */
  lemma {:induction false} UnhurriedRunsLoseNothing(steps: seq<Step>)
    requires Possible(INITIAL, steps) && UnhurriedRun(steps)
    ensures Complete(RunAll(INITIAL, steps))
  {
    if |steps| > 0 {
      UnhurriedRunsLoseNothing(Init(steps));
      RunFaithful(Init(steps));
      StepCompletes(RunAll(INITIAL, Init(steps)), Last(steps));
    }
  }

  lemma StepCompletes(s: Sys, step: Step)
    requires Faithful(s) && Enabled(s, step) && Complete(s) && Unhurried(s, step)
    ensures Complete(Next(s, step))
  {
    if step.Poll? && s.initialized {
      PollCompletes(s, step.rows);
    }
  }

  lemma PollCompletes(s: Sys, rows: seq<Nudge>)
    requires Faithful(s) && s.initialized && Lists(rows, s.table) && Complete(s)
    requires forall e :: e in EVENT_TYPES ==> AtMostOne(s.committed[s.polledUpTo..], e)
    ensures Complete(Next(s, Poll(rows)))
  {
    var s' := Next(s, Poll(rows));
    forall k | s'.baselineUpTo <= k < s'.polledUpTo && s'.committed[k].event in EVENT_TYPES
      ensures s'.committed[k] in s'.published
    {
      if s.polledUpTo <= k {
        var n := s.committed[k];
        assert n == s.committed[s.polledUpTo..][k - s.polledUpTo];
        NothingLostIff(s, rows, n.event);
      }
    }
  }

  // ---- the queues ----

  /** a is what is left of b after deleting some elements. */
  predicate Subsequence(a: seq<Nudge>, b: seq<Nudge>) {
    |a| == 0 || (|b| > 0 && ((Last(a) == Last(b) && Subsequence(Init(a), Init(b))) || Subsequence(a, Init(b))))
  }

  /** What a subscriber read and still holds is an in-order part of what was published since it joined;
      at most a full queue waits, and every nudge is read, waiting or counted as dropped. */
  ghost predicate QueueSound(q: Queue, published: seq<Nudge>) {
    && q.since <= |published| && |q.items| <= CAPACITY
    && Subsequence(q.taken + q.items, published[q.since..])
    && |q.taken| + |q.items| + q.dropped == |published| - q.since
  }

  lemma DeliverOne(q: Queue, published: seq<Nudge>, n: Nudge)
    requires QueueSound(q, published)
    ensures QueueSound(Delivered(q, n), published + [n])
  {
    var seen, seen' := published[q.since..], (published + [n])[q.since..];
    assert seen' == seen + [n] && Init(seen') == seen;
    var held := q.taken + q.items;
    if |q.items| < CAPACITY {
      assert q.taken + (q.items + [n]) == held + [n];
      assert Init(held + [n]) == held;
    }
  }

  lemma {:induction false} DeliverAll(q: Queue, published: seq<Nudge>, nudges: seq<Nudge>)
    requires QueueSound(q, published)
    ensures QueueSound(DeliveredAll(q, nudges), published + nudges)
  {
    if |nudges| == 0 {
      assert published + nudges == published;
    } else {
      DeliverAll(q, published, Init(nudges));
      DeliverOne(DeliveredAll(q, Init(nudges)), published + Init(nudges), Last(nudges));
      assert published + nudges == published + Init(nudges) + [Last(nudges)];
    }
  }

  lemma StepQueueSound(s: Sys, step: Step, id: int)
    requires id in s.queues ==> QueueSound(s.queues[id], s.published)
    requires id in Next(s, step).queues
    ensures QueueSound(Next(s, step).queues[id], Next(s, step).published)
  {
    match step
    case Poll(rows) =>
      DeliverAll(s.queues[id], s.published, if s.initialized then Fresh(s.lastSeen, rows) else []);
    case Read(r) =>
      if r == id && |s.queues[id].items| > 0 {
        var q := s.queues[id];
        assert (q.taken + [q.items[0]]) + q.items[1..] == q.taken + q.items;
      }
    case _ =>
  }

  /** The protocol's queues hold what the hub's queues hold. */
  lemma {:induction false} DeliveryIsOffer(q: Queue, nudges: seq<Nudge>)
    ensures DeliveredAll(q, nudges).items == OfferAll(q.items, nudges)
  {
    if |nudges| > 0 {
      DeliveryIsOffer(q, Init(nudges));
    }
  }

  /** A queue holds 16: of the nudges delivered to it, those that find room wait in order behind what waited, and
      exactly the others are dropped. */
  lemma {:induction false} QueueHolds16(q: Queue, nudges: seq<Nudge>)
    requires |q.items| <= 16
    ensures var room := 16 - |q.items|;
      DeliveredAll(q, nudges)
        == if |nudges| <= room then q.(items := q.items + nudges)
           else q.(items := q.items + nudges[..room], dropped := q.dropped + |nudges| - room)
  {
    if |nudges| > 0 {
      var room := 16 - |q.items|;
      QueueHolds16(q, Init(nudges));
      SplitLast(nudges);
      if |nudges| > room {
        assert Init(nudges)[..room] == nudges[..room];
        if |nudges| == room + 1 {
          assert Init(nudges) == nudges[..room];
        }
      }
    }
  }

  /** In every run a subscriber that reads keeps its order: it gets the oldest waiting nudge. */
  lemma ReadTakesOldest(s: Sys, id: int)
    requires id in s.queues && |s.queues[id].items| > 0
    ensures var q, q' := s.queues[id], Next(s, Read(id)).queues[id];
      q'.taken + q'.items == q.taken + q.items && |q'.taken| == |q.taken| + 1 && q'.dropped == q.dropped
  {
  }

  /** In every run every queue is sound. */
  lemma {:induction false} QueuesSound(steps: seq<Step>, id: int)
    requires id in RunAll(INITIAL, steps).queues
    ensures QueueSound(RunAll(INITIAL, steps).queues[id], RunAll(INITIAL, steps).published)
  {
    if id in RunAll(INITIAL, Init(steps)).queues {
      QueuesSound(Init(steps), id);
    }
    StepQueueSound(RunAll(INITIAL, Init(steps)), Last(steps), id);
  }

  lemma {:induction false} FullLengthIsWhole(a: seq<Nudge>, b: seq<Nudge>)
    requires Subsequence(a, b)
    ensures |a| <= |b|
    ensures |a| == |b| ==> a == b
  {
    if |a| > 0 {
      if Last(a) == Last(b) && Subsequence(Init(a), Init(b)) {
        FullLengthIsWhole(Init(a), Init(b));
        SplitLast(a);
        SplitLast(b);
      } else {
        FullLengthIsWhole(a, Init(b));
      }
    }
  }

  /** A subscriber whose queue never dropped a nudge has exactly what was published since it joined. */
  lemma UndroppedIsWhole(steps: seq<Step>, id: int)
    requires id in RunAll(INITIAL, steps).queues && RunAll(INITIAL, steps).queues[id].dropped == 0
    ensures var q := RunAll(INITIAL, steps).queues[id];
      q.since <= |RunAll(INITIAL, steps).published|
      && q.taken + q.items == RunAll(INITIAL, steps).published[q.since..]
  {
    QueuesSound(steps, id);
    var q := RunAll(INITIAL, steps).queues[id];
    FullLengthIsWhole(q.taken + q.items, RunAll(INITIAL, steps).published[q.since..]);
  }
}
