/** The in-process cache of civilization names: concurrent callers, one lock, a time to live. */
module CivCache {
  import opened Common

  type Names = map<int, string>

  /** 300 seconds; the clock counts microseconds. */
  const UNITS: int := 1_000_000
  const TTL: int := 300 * UNITS

  /** The module's globals: the cached map, and the monotonic time it was stored (0 before the first). */
  datatype Cache = Cache(names: Option<Names>, cachedAt: int)

  /** What a check at time `now` may return. */
  function Held(c: Cache, now: int): Option<Names> {
    if c.names.Some? && now - c.cachedAt < TTL then c.names else None
  }

  /** The stretches of the coroutine between its suspension points. */
  class CivilizationNames {
    var names: Option<Names>
    var cachedAt: int

    constructor ()
      ensures Now() == Cache(None, 0)
    {
      names, cachedAt := None, 0;
    }

    function Now(): Cache
      reads this
    {
      Cache(names, cachedAt)
    }

    /** The check without the lock; None sends the caller to wait for the lock. */
    method FastCheck(now: int) returns (hit: Option<Names>)
      ensures hit == Held(Now(), now)
    {
      var cached := names;
      var age := now - cachedAt;
      if cached.Some? && age < TTL {
        return cached;
      }
      return None;
    }

    /** The check under the lock; None sends the caller to read the table. */
    method LockedCheck(now: int) returns (hit: Option<Names>)
      ensures hit == Held(Now(), now)
    {
      var age := now - cachedAt;
      if names.None? || age >= TTL {
        return None;
      }
      return names;
    }

    method Store(rows: Names, now: int) returns (result: Names)
      modifies this
      ensures Now() == Cache(Some(rows), now) && result == rows
    {
      names := Some(rows);
      cachedAt := now;
      result := rows;
    }
  }

  // ---- concurrent callers ----

  datatype Lock =
    | Free
    | Querying(caller: nat, since: int)
    | Fetched(caller: nat, since: int, rows: Names)

  /** A table read that made it into the cache: what it read, when the read began and when it was stored. */
  datatype Refresh = Refresh(rows: Names, begun: int, stored: int)

  /** A map returned to a caller, and the time of the check that returned it. */
  datatype Answer = Answer(caller: nat, names: Names, at: int)

  datatype Sys = Sys(now: int, table: Names, cache: Cache, waiting: set<nat>, lock: Lock,
                     refreshes: seq<Refresh>, answers: seq<Answer>)

  datatype Step =
    | Tick(elapsed: nat)
    | EditTable(rows: Names)
    | Call(caller: nat)
    | Acquire(caller: nat)
    | Cancel(caller: nat)
    | Read
    | Store
    | Fail

  predicate Enabled(s: Sys, step: Step) {
    match step
    case Call(c) => c !in s.waiting && (s.lock.Free? || s.lock.caller != c)
    case Acquire(c) => s.lock.Free? && c in s.waiting
    case Cancel(c) => c in s.waiting
    case Read => s.lock.Querying?
    case Store => s.lock.Fetched?
    case Fail => !s.lock.Free?
    case _ => true
  }

  function Next(s: Sys, step: Step): Sys
    requires Enabled(s, step)
  {
    match step
    case Tick(elapsed) => s.(now := s.now + elapsed)
    case EditTable(rows) => s.(table := rows)
    case Call(c) =>
      var held := Held(s.cache, s.now);
      if held.Some? then s.(answers := s.answers + [Answer(c, held.value, s.now)])
      else s.(waiting := s.waiting + {c})
    case Acquire(c) =>
      var held := Held(s.cache, s.now);
      var s' := s.(waiting := s.waiting - {c});
      if held.Some? then s'.(answers := s.answers + [Answer(c, held.value, s.now)])
      else s'.(lock := Querying(c, s.now))
    case Cancel(c) => s.(waiting := s.waiting - {c})
    case Read => s.(lock := Fetched(s.lock.caller, s.lock.since, s.table))
    case Store =>
      s.(cache := Cache(Some(s.lock.rows), s.now), lock := Free,
         refreshes := s.refreshes + [Refresh(s.lock.rows, s.lock.since, s.now)],
         answers := s.answers + [Answer(s.lock.caller, s.lock.rows, s.now)])
    case Fail => s.(lock := Free)
  }

  function Start(now: int, table: Names): Sys {
    Sys(now, table, Cache(None, 0), {}, Free, [], [])
  }

  ghost predicate Possible(s: Sys, steps: seq<Step>)
    decreases |steps|, 0
  {
    |steps| > 0 ==> Possible(s, Init(steps)) && Enabled(After(s, Init(steps)), Last(steps))
  }

  ghost function After(s: Sys, steps: seq<Step>): Sys
    requires Possible(s, steps)
    decreases |steps|, 1
  {
    if |steps| == 0 then s else Next(After(s, Init(steps)), Last(steps))
  }

  // ---- what every run keeps ----

  /** The cache holds the newest refresh. */
  ghost predicate HoldsNewest(s: Sys) {
    if |s.refreshes| == 0 then s.cache == Cache(None, 0)
    else
      && s.cache == Cache(Some(Last(s.refreshes).rows), Last(s.refreshes).stored)
      && Last(s.refreshes).stored <= s.now
  }

  /** A read in progress began when nothing fresh was cached. */
  ghost predicate ReadsWhenStale(s: Sys) {
    !s.lock.Free? ==>
      s.lock.since <= s.now && (|s.refreshes| > 0 ==> s.lock.since - Last(s.refreshes).stored >= TTL)
  }

  /** Each refresh began at least one TTL after the one before was stored. */
  ghost predicate SpacedOut(refreshes: seq<Refresh>) {
    |refreshes| > 0 ==>
      && SpacedOut(Init(refreshes))
      && Last(refreshes).begun <= Last(refreshes).stored
      && (|refreshes| > 1 ==> Last(refreshes).begun - Last(Init(refreshes)).stored >= TTL)
  }

  /** The answer is what a refresh stored, less than one TTL before the check. */
  ghost predicate IsFresh(answer: Answer, refreshes: seq<Refresh>) {
    exists i :: 0 <= i < |refreshes| && refreshes[i].rows == answer.names
                && refreshes[i].stored <= answer.at < refreshes[i].stored + 300_000_000
  }

  ghost predicate AllFresh(answers: seq<Answer>, refreshes: seq<Refresh>) {
    forall a :: a in answers ==> IsFresh(a, refreshes)
  }

  ghost predicate Sound(s: Sys) {
    HoldsNewest(s) && ReadsWhenStale(s) && SpacedOut(s.refreshes) && AllFresh(s.answers, s.refreshes)
  }

  lemma MoreRefreshes(answers: seq<Answer>, refreshes: seq<Refresh>, more: Refresh)
    requires AllFresh(answers, refreshes)
    ensures AllFresh(answers, refreshes + [more])
  {
    forall a | a in answers ensures IsFresh(a, refreshes + [more]) {
      var i :| 0 <= i < |refreshes| && refreshes[i].rows == a.names
               && refreshes[i].stored <= a.at < refreshes[i].stored + 300_000_000;
      assert (refreshes + [more])[i] == refreshes[i];
    }
  }

  /** A hit returns the newest refresh. */
  lemma HitIsFresh(s: Sys, caller: nat)
    requires HoldsNewest(s) && Held(s.cache, s.now).Some?
    ensures IsFresh(Answer(caller, Held(s.cache, s.now).value, s.now), s.refreshes)
  {
  }

  lemma StepKeepsSound(s: Sys, step: Step)
    requires Sound(s) && Enabled(s, step)
    ensures Sound(Next(s, step))
  {
    match step
    case Call(c) =>
      if Held(s.cache, s.now).Some? {
        HitIsFresh(s, c);
      }
    case Acquire(c) =>
      if Held(s.cache, s.now).Some? {
        HitIsFresh(s, c);
      }
    case Store =>
      var refresh := Refresh(s.lock.rows, s.lock.since, s.now);
      var refreshes := s.refreshes + [refresh];
      MoreRefreshes(s.answers, s.refreshes, refresh);
      assert Init(refreshes) == s.refreshes;
      assert refreshes[|s.refreshes|] == refresh;
      assert IsFresh(Answer(s.lock.caller, s.lock.rows, s.now), refreshes);
    case _ =>
  }

  lemma {:induction false} RunKeepsSound(now: int, table: Names, steps: seq<Step>)
    requires Possible(Start(now, table), steps)
    ensures Sound(After(Start(now, table), steps))
  {
    if |steps| > 0 {
      RunKeepsSound(now, table, Init(steps));
      StepKeepsSound(After(Start(now, table), Init(steps)), Last(steps));
    }
  }

  lemma {:induction false} SpacedOutAt(refreshes: seq<Refresh>, i: nat, j: nat)
    requires SpacedOut(refreshes) && i < j < |refreshes|
    ensures refreshes[j].begun - refreshes[i].stored >= TTL
    ensures refreshes[j].stored - refreshes[i].stored >= TTL
  {
    if j < |refreshes| - 1 {
      SpacedOutAt(Init(refreshes), i, j);
    } else if i < j - 1 {
      SpacedOutAt(Init(refreshes), i, j - 1);
    }
  }

  /** In every interleaving of callers, with queries that may fail and callers that may be cancelled: any
      two refreshes are stored at least one TTL apart, and the later one's query did not even begin sooner. */
  lemma RefreshesAreRare(now: int, table: Names, steps: seq<Step>, i: nat, j: nat)
    requires Possible(Start(now, table), steps)
    requires i < j < |After(Start(now, table), steps).refreshes|
    ensures var refreshes := After(Start(now, table), steps).refreshes;
      && refreshes[j].stored - refreshes[i].stored >= 300_000_000
      && refreshes[j].begun - refreshes[i].stored >= 300_000_000
  {
    RunKeepsSound(now, table, steps);
    SpacedOutAt(After(Start(now, table), steps).refreshes, i, j);
  }

  /** Every map ever returned was stored by a refresh less than one TTL before the check that returned it. */
  lemma AnswersAreFresh(now: int, table: Names, steps: seq<Step>, answer: Answer)
    requires Possible(Start(now, table), steps)
    requires answer in After(Start(now, table), steps).answers
    ensures IsFresh(answer, After(Start(now, table), steps).refreshes)
  {
    RunKeepsSound(now, table, steps);
  }

  /** At some point of the run, between these two times, the table held these rows. */
  ghost predicate WasTable(s: Sys, steps: seq<Step>, rows: Names, from: int, to: int)
    requires Possible(s, steps)
  {
    || (After(s, steps).table == rows && from <= After(s, steps).now <= to)
    || (|steps| > 0 && WasTable(s, Init(steps), rows, from, to))
  }

  lemma {:induction false} WasTableUntil(s: Sys, steps: seq<Step>, rows: Names, from: int, to: int, later: int)
    requires Possible(s, steps) && WasTable(s, steps, rows, from, to) && to <= later
    ensures WasTable(s, steps, rows, from, later)
  {
    if |steps| > 0 && WasTable(s, Init(steps), rows, from, to) {
      WasTableUntil(s, Init(steps), rows, from, to, later);
    }
  }

  lemma {:induction false} FetchedWasTable(now: int, table: Names, steps: seq<Step>)
    requires Possible(Start(now, table), steps)
    ensures var s := After(Start(now, table), steps);
      s.lock.Fetched? ==> WasTable(Start(now, table), steps, s.lock.rows, s.lock.since, s.now)
  {
    if |steps| > 0 {
      var before := After(Start(now, table), Init(steps));
      FetchedWasTable(now, table, Init(steps));
      RunKeepsSound(now, table, Init(steps));
      if before.lock.Fetched? {
        var s := After(Start(now, table), steps);
        WasTableUntil(Start(now, table), Init(steps), before.lock.rows, before.lock.since, before.now, s.now);
      }
    }
  }

  /** What a refresh stored is what the table held at some time between the start of its query and its
      storing. */
  lemma {:induction false} RefreshesReadTheTable(now: int, table: Names, steps: seq<Step>, i: nat)
    requires Possible(Start(now, table), steps)
    requires i < |After(Start(now, table), steps).refreshes|
    ensures var r := After(Start(now, table), steps).refreshes[i];
      WasTable(Start(now, table), steps, r.rows, r.begun, r.stored)
  {
    var before := After(Start(now, table), Init(steps));
    if i < |before.refreshes| {
      RefreshesReadTheTable(now, table, Init(steps), i);
    } else {
      FetchedWasTable(now, table, Init(steps));
    }
  }

  /** A stampede collapses: whoever gets the lock within one TTL of a refresh is answered without a query. */
  lemma StampedeCollapses(now: int, table: Names, steps: seq<Step>, caller: nat)
    requires Possible(Start(now, table), steps)
    requires var s := After(Start(now, table), steps);
      Enabled(s, Acquire(caller)) && |s.refreshes| > 0 && s.now - Last(s.refreshes).stored < 300_000_000
    ensures var s := After(Start(now, table), steps);
      && Next(s, Acquire(caller)).lock == Free
      && Next(s, Acquire(caller)).answers == s.answers + [Answer(caller, Last(s.refreshes).rows, s.now)]
  {
    RunKeepsSound(now, table, steps);
  }

  lemma OneMoreStep(s: Sys, steps: seq<Step>, step: Step)
    requires Possible(s, steps) && Enabled(After(s, steps), step)
    ensures Possible(s, steps + [step]) && After(s, steps + [step]) == Next(After(s, steps), step)
  {
    assert Init(steps + [step]) == steps;
  }

  lemma CallersWait(s: Sys, a: nat, b: nat) returns (steps: seq<Step>)
    requires s.lock.Free? && s.waiting == {} && Held(s.cache, s.now).None? && a != b
    ensures Possible(s, steps) && After(s, steps) == s.(waiting := {a, b})
  {
    OneMoreStep(s, [], Call(a));
    OneMoreStep(s, [] + [Call(a)], Call(b));
    steps := [] + [Call(a)] + [Call(b)];
  }

  lemma QueryFails(s: Sys, steps: seq<Step>, a: nat) returns (more: seq<Step>)
    requires Possible(s, steps)
    requires var t := After(s, steps); t.lock.Free? && a in t.waiting && Held(t.cache, t.now).None?
    ensures Possible(s, more) && After(s, more) == After(s, steps).(waiting := After(s, steps).waiting - {a})
  {
    OneMoreStep(s, steps, Acquire(a));
    OneMoreStep(s, steps + [Acquire(a)], Fail);
    more := steps + [Acquire(a)] + [Fail];
  }

  lemma QueryStores(s: Sys, steps: seq<Step>, b: nat, rows: Names) returns (more: seq<Step>)
    requires Possible(s, steps)
    requires var t := After(s, steps); t.lock.Free? && b in t.waiting && Held(t.cache, t.now).None?
    ensures Possible(s, more)
    ensures var t := After(s, steps);
      After(s, more)
        == Sys(t.now, rows, Cache(Some(rows), t.now), t.waiting - {b}, Free,
               t.refreshes + [Refresh(rows, t.now, t.now)], t.answers + [Answer(b, rows, t.now)])
  {
    OneMoreStep(s, steps, Acquire(b));
    more := steps + [Acquire(b)];
    OneMoreStep(s, more, EditTable(rows));
    more := more + [EditTable(rows)];
    OneMoreStep(s, more, Read);
    more := more + [Read];
    OneMoreStep(s, more, Store);
    more := more + [Store];
  }

  /** The lock admits one caller at a time, and only one that waits for it; a failure frees it. */
  lemma LockExcludes(s: Sys, caller: nat)
    ensures Enabled(s, Acquire(caller)) ==> s.lock.Free? && caller in s.waiting
    ensures !s.lock.Free? && s.lock.caller == caller ==> !Enabled(s, Call(caller)) && Next(s, Fail).lock.Free?
  {
  }

  /** A query that fails does not block the cache: the next waiting caller reads the table as it is then, and later
      callers are answered from the cache while it is fresh. */
  lemma FailureIsRecovered(now: int, table: Names, edited: Names, age: nat) returns (steps: seq<Step>)
    requires age < 300_000_000
    ensures Possible(Start(now, table), steps)
    ensures After(Start(now, table), steps).answers == [Answer(2, edited, now), Answer(1, edited, now + age)]
    ensures After(Start(now, table), steps).refreshes == [Refresh(edited, now, now)]
  {
    var s := Start(now, table);
    steps := CallersWait(s, 1, 2);
    steps := QueryFails(s, steps, 1);
    steps := QueryStores(s, steps, 2, edited);
    OneMoreStep(s, steps, Tick(age));
    steps := steps + [Tick(age)];
    OneMoreStep(s, steps, Call(1));
    steps := steps + [Call(1)];
  }
}
