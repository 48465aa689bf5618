/** The ranked metric once the rated window has closed: what it is frozen at, and when it can still
    move while both pollers keep running. */
module Freeze {
  import opened Common
  import opened RatingLog
  import M = MatchIngest

  /** The rating tables and the match tables, as of one moment. */
  datatype World = World(ratings: Tables, db: M.Db)

  // ---- what the queries read ----

  /** A match of the ladder that had started by the bound. */
  predicate StartedByBound(m: M.Match, board: int, end: int) {
    m.board == Some(board) && m.startedAt <= end
  }

  predicate RatedRow(db: M.Db, key: (int, int), p: int, board: int, end: int) {
    && key in db.players && key.1 == p && db.players[key].newRating.Some?
    && key.0 in db.matches && StartedByBound(db.matches[key.0], board, end)
  }

  /** The profile's rated started-by-bound games: match id to (start time, rating after it). */
  function Games(db: M.Db, p: int, board: int, end: int): map<int, (int, int)> {
    map key | key in db.players && RatedRow(db, key, p, board, end) ::
      key.0 := (db.matches[key.0].startedAt, db.players[key].newRating.value)
  }

  ghost function Pick(s: set<int>): (x: int)
    requires exists y :: y in s
    ensures x in s
  {
    var x :| x in s;
    x
  }

  /** The highest rating after any of these games. */
  ghost function HighestOf(games: map<int, (int, int)>, ids: set<int>): Option<int>
    requires ids <= games.Keys
  {
    if !exists id :: id in ids then None
    else MaxOpt(Some(games[Pick(ids)].1), HighestOf(games, ids - {Pick(ids)}))
  }

  lemma {:induction false} HighestIs(games: map<int, (int, int)>, ids: set<int>)
    requires ids <= games.Keys
    ensures HighestOf(games, ids).None? <==> forall id :: id !in ids
    ensures forall id :: id in ids ==> games[id].1 <= HighestOf(games, ids).value
    ensures HighestOf(games, ids).Some? ==> exists id :: id in ids && games[id].1 == HighestOf(games, ids).value
  {
    if exists id :: id in ids {
      HighestIs(games, ids - {Pick(ids)});
      assert forall id :: id in ids ==> id == Pick(ids) || id in ids - {Pick(ids)};
    }
  }

  /** The highest settled rating of a started-by-bound game. */
  ghost function InFlight(games: map<int, (int, int)>): Option<int> {
    HighestOf(games, games.Keys)
  }

  lemma NoGamesInFlight(p: int, board: int, end: int)
    ensures InFlight(Games(M.Db(map[], map[], {}), p, board, end)) == None
  {
  }

  predicate StartsLater(games: map<int, (int, int)>, a: int, b: int)
    requires a in games && b in games
  {
    KeyLe((games[b].0, b), (games[a].0, a))
  }

  /** Of these games, the one a listing by (start, id), newest first, begins with. */
  ghost function LastStarted(games: map<int, (int, int)>, ids: set<int>): (r: int)
    requires ids <= games.Keys && exists id :: id in ids
    ensures r in ids
  {
    var id := Pick(ids);
    if !exists k :: k in ids - {id} then id
    else
      var rest := LastStarted(games, ids - {id});
      if StartsLater(games, id, rest) then id else rest
  }

  lemma {:induction false} LastStartedIs(games: map<int, (int, int)>, ids: set<int>)
    requires ids <= games.Keys && exists id :: id in ids
    ensures forall id :: id in ids ==> StartsLater(games, LastStarted(games, ids), id)
  {
    var id := Pick(ids);
    assert forall k :: k in ids ==> k == id || k in ids - {id};
    if exists k :: k in ids - {id} {
      LastStartedIs(games, ids - {id});
    }
  }

  /** The rating after the last started-by-bound game. */
  ghost function FromLog(games: map<int, (int, int)>): Option<int> {
    if exists id :: id in games.Keys then Some(games[LastStarted(games, games.Keys)].1) else None
  }

  /** The rows of a pair that carry a current rating, up to the bound. */
  function CurrentRows(log: seq<Snapshot>, end: int): seq<Snapshot> {
    Filter(log, (s: Snapshot) => s.observedAt <= end && s.currentRating.Some?)
  }

  /** The latest recorded current rating at or before the bound. */
  function CurrentAsOf(log: seq<Snapshot>, pair: Pair, end: int): Option<int> {
    var row := Latest(CurrentRows(log, end), pair);
    if row.None? then None else row.value.currentRating
  }

  // ---- the frozen metrics ----

  function LivePeak(t: Tables, pair: Pair): Option<int> {
    if pair in t.live then Some(t.live[pair].maxRating) else None
  }

  function LiveCurrent(t: Tables, pair: Pair): Option<int> {
    if pair in t.live then Some(t.live[pair].currentRating) else None
  }

  /** The recorded or settled peak as of the bound, before falling back or clamping. */
  ghost function RawPeak(w: World, p: int, board: int, end: int): Option<int> {
    MaxOpt(PeakAsOf(w.ratings.log, Pair(p, board), end), InFlight(Games(w.db, p, board, end)))
  }

  /** The raw peak or the live one, never above the live one. */
  function Settle(raw: Option<int>, live: Option<int>): Option<int> {
    if raw.None? then live
    else if live.Some? && live.value < raw.value then live
    else raw
  }

  ghost function FrozenPeak(w: World, p: int, board: int, end: int): Option<int> {
    Settle(RawPeak(w, p, board, end), LivePeak(w.ratings, Pair(p, board)))
  }

  /** The current rating the log or the observations give as of the bound. */
  ghost function RawCurrent(w: World, p: int, board: int, end: int): Option<int> {
    Or(FromLog(Games(w.db, p, board, end)), CurrentAsOf(w.ratings.log, Pair(p, board), end))
  }

  ghost function FrozenCurrent(w: World, p: int, board: int, end: int): Option<int> {
    Or(RawCurrent(w, p, board, end), LiveCurrent(w.ratings, Pair(p, board)))
  }

  // ---- the folds over the query results ----

  /** What the three queries of the peak freeze return. */
  ghost predicate QueriedPeaks(w: World, board: int, end: int, profiles: seq<int>, live: map<int, int>,
                               snapshots: map<int, int>, inFlight: map<int, int>) {
    forall p :: p in profiles ==>
      && Get(live, p) == LivePeak(w.ratings, Pair(p, board))
      && Get(snapshots, p) == PeakAsOf(w.ratings.log, Pair(p, board), end)
      && Get(inFlight, p) == InFlight(Games(w.db, p, board, end))
  }

  function PeakOf(live: map<int, int>, snapshots: map<int, int>, inFlight: map<int, int>, p: int): Option<int> {
    Settle(MaxOpt(Get(snapshots, p), Get(inFlight, p)), Get(live, p))
  }

  method FoldPeaks(profiles: seq<int>, live: map<int, int>, snapshots: map<int, int>, inFlight: map<int, int>)
    returns (m: map<int, Option<int>>)
    ensures forall i :: 0 <= i < |profiles| ==>
      Get(m, profiles[i]) == Some(PeakOf(live, snapshots, inFlight, profiles[i]))
  {
    m := map[];
    for i := 0 to |profiles|
      invariant forall j :: 0 <= j < i ==> Get(m, profiles[j]) == Some(PeakOf(live, snapshots, inFlight, profiles[j]))
    {
      var p := profiles[i];
      var liveMax, peak, startedByBound := Get(live, p), Get(snapshots, p), Get(inFlight, p);
      if startedByBound.Some? && (peak.None? || startedByBound.value > peak.value) {
        peak := startedByBound;
      }
      if peak.None? {
        peak := liveMax;
      }
      if liveMax.Some? && peak.Some? && peak.value > liveMax.value {
        peak := liveMax;
      }
      m := m[p := peak];
    }
  }

  lemma PeakOfQueries(w: World, board: int, end: int, profiles: seq<int>, live: map<int, int>,
                      snapshots: map<int, int>, inFlight: map<int, int>, p: int)
    requires QueriedPeaks(w, board, end, profiles, live, snapshots, inFlight) && p in profiles
    ensures PeakOf(live, snapshots, inFlight, p) == FrozenPeak(w, p, board, end)
  {
  }

  /** Three queries, one dictionary each: live peaks, recorded peaks, settled peaks. No answer while the
      window is open. */
  method FrozenPeakByProfile(ghost w: World, ghost board: int, end: Option<int>, now: int, profiles: seq<int>,
                             live: map<int, int>, snapshots: map<int, int>, inFlight: map<int, int>)
    returns (peaks: Option<map<int, Option<int>>>)
    requires end.Some? ==> QueriedPeaks(w, board, end.value, profiles, live, snapshots, inFlight)
    ensures peaks.Some? <==> end.Some? && end.value <= now
    ensures peaks.Some? ==> forall i :: 0 <= i < |profiles| ==>
      Get(peaks.value, profiles[i]) == Some(FrozenPeak(w, profiles[i], board, end.value))
  {
    if end.None? || now < end.value {
      return None;
    }
    var m := FoldPeaks(profiles, live, snapshots, inFlight);
    forall i | 0 <= i < |profiles| ensures Get(m, profiles[i]) == Some(FrozenPeak(w, profiles[i], board, end.value)) {
      PeakOfQueries(w, board, end.value, profiles, live, snapshots, inFlight, profiles[i]);
    }
    peaks := Some(m);
  }

  /** What the three queries of the current freeze return. */
  ghost predicate QueriedCurrents(w: World, board: int, end: int, profiles: seq<int>, live: map<int, int>,
                                  fromLog: map<int, int>, fromSnapshots: map<int, int>) {
    forall p :: p in profiles ==>
      && Get(live, p) == LiveCurrent(w.ratings, Pair(p, board))
      && Get(fromLog, p) == FromLog(Games(w.db, p, board, end))
      && Get(fromSnapshots, p) == CurrentAsOf(w.ratings.log, Pair(p, board), end)
  }

  function CurrentOf(live: map<int, int>, fromLog: map<int, int>, fromSnapshots: map<int, int>, p: int): Option<int> {
    Or(Or(Get(fromLog, p), Get(fromSnapshots, p)), Get(live, p))
  }

  method FoldCurrents(profiles: seq<int>, live: map<int, int>, fromLog: map<int, int>, fromSnapshots: map<int, int>)
    returns (m: map<int, Option<int>>)
    ensures forall i :: 0 <= i < |profiles| ==>
      Get(m, profiles[i]) == Some(CurrentOf(live, fromLog, fromSnapshots, profiles[i]))
  {
    m := map[];
    for i := 0 to |profiles|
      invariant forall j :: 0 <= j < i ==>
        Get(m, profiles[j]) == Some(CurrentOf(live, fromLog, fromSnapshots, profiles[j]))
    {
      var current := Get(fromLog, profiles[i]);
      if current.None? {
        current := Get(fromSnapshots, profiles[i]);
      }
      if current.None? {
        current := Get(live, profiles[i]);
      }
      m := m[profiles[i] := current];
    }
  }

  lemma CurrentOfQueries(w: World, board: int, end: int, profiles: seq<int>, live: map<int, int>,
                         fromLog: map<int, int>, fromSnapshots: map<int, int>, p: int)
    requires QueriedCurrents(w, board, end, profiles, live, fromLog, fromSnapshots) && p in profiles
    ensures CurrentOf(live, fromLog, fromSnapshots, p) == FrozenCurrent(w, p, board, end)
  {
  }

  /** Live, from the log, from the observations; the log wins, then the observations. */
  method FrozenCurrentByProfile(ghost w: World, ghost board: int, end: Option<int>, now: int, profiles: seq<int>,
                                live: map<int, int>, fromLog: map<int, int>, fromSnapshots: map<int, int>)
    returns (currents: Option<map<int, Option<int>>>)
    requires end.Some? ==> QueriedCurrents(w, board, end.value, profiles, live, fromLog, fromSnapshots)
    ensures currents.Some? <==> end.Some? && end.value <= now
    ensures currents.Some? ==> forall i :: 0 <= i < |profiles| ==>
      Get(currents.value, profiles[i]) == Some(FrozenCurrent(w, profiles[i], board, end.value))
  {
    if end.None? || now < end.value {
      return None;
    }
    var m := FoldCurrents(profiles, live, fromLog, fromSnapshots);
    forall i | 0 <= i < |profiles|
      ensures Get(m, profiles[i]) == Some(FrozenCurrent(w, profiles[i], board, end.value))
    {
      CurrentOfQueries(w, board, end.value, profiles, live, fromLog, fromSnapshots, profiles[i]);
    }
    currents := Some(m);
  }

  // ---- what the pollers may do after the bound ----

  /** A write that reports nothing new about a started-by-bound game: it may repeat what is stored, or
      concern games that start after the bound or belong to another ladder. */
  predicate Harmless(db: M.Db, w: M.Write, board: int, end: int) {
    match w
    case RecentMatch(id, row) =>
      if id in db.matches && StartedByBound(db.matches[id], board, end)
      then StartedByBound(row, board, end) && row.startedAt == db.matches[id].startedAt
      else !StartedByBound(row, board, end)
    case LiveMatch(id, row) => id in db.matches || !StartedByBound(row, board, end)
    case PlayerRow(id, profile, played) =>
      (id, profile) in db.players || played.newRating.None? || id !in db.matches
      || !StartedByBound(db.matches[id], board, end)
    case LiveLinks(_) => true
  }

  /** A harmless write, or one settling a started-by-bound game late: a match first reported now, or a
      player row first written now. */
  predicate Settling(db: M.Db, w: M.Write, board: int, end: int) {
    match w
    case RecentMatch(id, row) =>
      id in db.matches && StartedByBound(db.matches[id], board, end) ==>
        StartedByBound(row, board, end) && row.startedAt == db.matches[id].startedAt
    case _ => true
  }

  /** The worker's steps after the bound: a stats tick, or one write of a match tick. */
  datatype Step = Stats(at: int, batch: seq<Polled>) | Ingest(write: M.Write)

  function Next(w: World, s: Step): World {
    match s
    case Stats(at, batch) => w.(ratings := Tick(w.ratings, batch, at))
    case Ingest(write) => w.(db := M.Apply(w.db, write))
  }

  function After(w: World, steps: seq<Step>): World {
    if |steps| == 0 then w else Next(After(w, Init(steps)), Last(steps))
  }

  predicate Quiet(w: World, s: Step, board: int, end: int) {
    match s
    case Stats(at, batch) => end < at
    case Ingest(write) => Harmless(w.db, write, board, end)
  }

  ghost predicate QuietRun(w: World, steps: seq<Step>, board: int, end: int) {
    |steps| > 0 ==> QuietRun(w, Init(steps), board, end) && Quiet(After(w, Init(steps)), Last(steps), board, end)
  }

  // ---- what a step leaves alone ----

  lemma HarmlessKeepsRow(db: M.Db, w: M.Write, key: (int, int), p: int, board: int, end: int)
    requires Harmless(db, w, board, end)
    ensures RatedRow(M.Apply(db, w), key, p, board, end) <==> RatedRow(db, key, p, board, end)
    ensures RatedRow(db, key, p, board, end) ==>
      && M.Apply(db, w).matches[key.0].startedAt == db.matches[key.0].startedAt
      && M.Apply(db, w).players[key].newRating == db.players[key].newRating
  {
  }

  lemma GameAt(db: M.Db, p: int, board: int, end: int, id: int)
    ensures Get(Games(db, p, board, end), id)
         == if RatedRow(db, (id, p), p, board, end)
            then Some((db.matches[id].startedAt, db.players[(id, p)].newRating.value)) else None
  {
  }

  lemma HarmlessKeepsGame(db: M.Db, w: M.Write, p: int, board: int, end: int, id: int)
    requires Harmless(db, w, board, end)
    ensures Get(Games(M.Apply(db, w), p, board, end), id) == Get(Games(db, p, board, end), id)
  {
    GameAt(db, p, board, end, id);
    GameAt(M.Apply(db, w), p, board, end, id);
    HarmlessKeepsRow(db, w, (id, p), p, board, end);
  }

  lemma SameEntries<V>(a: map<int, V>, b: map<int, V>)
    requires forall id :: Get(a, id) == Get(b, id)
    ensures a == b
  {
    forall id ensures id in a <==> id in b {
      assert Get(a, id) == Get(b, id);
    }
    forall id | id in a ensures a[id] == b[id] {
      assert Get(a, id) == Get(b, id);
    }
  }

  lemma HarmlessKeepsGames(db: M.Db, w: M.Write, p: int, board: int, end: int)
    requires Harmless(db, w, board, end)
    ensures Games(M.Apply(db, w), p, board, end) == Games(db, p, board, end)
  {
    var games, games' := Games(db, p, board, end), Games(M.Apply(db, w), p, board, end);
    forall id ensures Get(games', id) == Get(games, id) {
      HarmlessKeepsGame(db, w, p, board, end, id);
    }
    SameEntries(games', games);
  }

  lemma {:induction false} LateRowsKeepCurrent(t: Tables, rows: seq<Polled>, now: int, end: int)
    requires end < now
    ensures CurrentRows(t.log + Stamp(rows, now, t.nextId), end) == CurrentRows(t.log, end)
  {
    if |rows| == 0 {
      assert t.log + Stamp(rows, now, t.nextId) == t.log;
    } else {
      var front := t.log + Stamp(Init(rows), now, t.nextId);
      var s := Last(Stamp(rows, now, t.nextId));
      assert t.log + Stamp(rows, now, t.nextId) == front + [s];
      assert Init(front + [s]) == front;
      LateRowsKeepCurrent(t, Init(rows), now, end);
    }
  }

  lemma StatsKeepRaw(t: Tables, batch: seq<Polled>, at: int, pair: Pair, end: int)
    requires end < at
    ensures PeakAsOf(Tick(t, batch, at).log, pair, end) == PeakAsOf(t.log, pair, end)
    ensures CurrentAsOf(Tick(t, batch, at).log, pair, end) == CurrentAsOf(t.log, pair, end)
  {
    if Storable(batch) {
      PeakStamped(t, Changed(t.log, batch), at, pair, end);
      LateRowsKeepCurrent(t, Changed(t.log, batch), at, end);
    }
  }

  /** Post-window polling and play change neither raw value. */
  lemma {:induction false} QuietKeepsRaw(w: World, steps: seq<Step>, p: int, board: int, end: int)
    requires QuietRun(w, steps, board, end)
    ensures RawPeak(After(w, steps), p, board, end) == RawPeak(w, p, board, end)
    ensures RawCurrent(After(w, steps), p, board, end) == RawCurrent(w, p, board, end)
  {
    if |steps| > 0 {
      QuietKeepsRaw(w, Init(steps), p, board, end);
      var before := After(w, Init(steps));
      match Last(steps)
      case Stats(at, batch) => StatsKeepRaw(before.ratings, batch, at, Pair(p, board), end);
      case Ingest(write) => HarmlessKeepsGames(before.db, write, p, board, end);
    }
  }

  // ---- when the freeze holds ----

  /** After any run of post-window stats ticks and ingested later games, the frozen current rating is
      what it was at the close exactly if a started-by-bound game or a pre-bound observation exists, or
      the live current rating is still the same. */
  lemma FrozenCurrentStaysIff(w: World, steps: seq<Step>, p: int, board: int, end: int)
    requires QuietRun(w, steps, board, end)
    ensures FrozenCurrent(After(w, steps), p, board, end) == FrozenCurrent(w, p, board, end) <==>
      (|| RawCurrent(w, p, board, end).Some?
       || LiveCurrent(After(w, steps).ratings, Pair(p, board)) == LiveCurrent(w.ratings, Pair(p, board)))
  {
    QuietKeepsRaw(w, steps, p, board, end);
  }

  /** The live peak does not cut the raw one. */
  predicate Covers(live: Option<int>, raw: int) {
    live.None? || raw <= live.value
  }

  /** The frozen peak is what it was at the close exactly if the live peak is the same as then, or a raw
      peak exists and the live peak covered it then and covers it now. */
  lemma FrozenPeakStaysIff(w: World, steps: seq<Step>, p: int, board: int, end: int)
    requires QuietRun(w, steps, board, end)
    ensures var raw := RawPeak(w, p, board, end);
      var live, live' := LivePeak(w.ratings, Pair(p, board)), LivePeak(After(w, steps).ratings, Pair(p, board));
      FrozenPeak(After(w, steps), p, board, end) == FrozenPeak(w, p, board, end) <==>
        (|| live == live'
         || (raw.Some? && Covers(live, raw.value) && Covers(live', raw.value)))
  {
    QuietKeepsRaw(w, steps, p, board, end);
  }

  /** A rebase below the recorded peak after the close moves the frozen peak. */
  lemma RebaseMovesFrozenPeak(w: World, pair: Pair, row: Polled, end: int)
    requires w == World(Tables([Snapshot(1, pair, 1700, Some(1600), end)], map[pair := LiveRating(1700, 1600, [])], 2),
                        M.Db(map[], map[], {}))
    requires row == Polled(pair, 1650, Some(1600), [])
    ensures Quiet(w, Stats(end + 30, [row]), pair.board, end)
    ensures FrozenPeak(w, pair.profile, pair.board, end) == Some(1700)
    ensures FrozenPeak(Next(w, Stats(end + 30, [row])), pair.profile, pair.board, end) == Some(1650)
  {
  }

  /** The rating of the profile that a write makes count: a player row of a counted match written for the first
      time, or a match that is counted from this write on and whose player row is there already. */
  function Settled(db: M.Db, write: M.Write, p: int, board: int, end: int): Option<int> {
    match write
    case PlayerRow(id, profile, played) =>
      if profile == p && (id, p) !in db.players && id in db.matches && StartedByBound(db.matches[id], board, end)
      then played.newRating else None
    case RecentMatch(id, row) => if Uncounted(db, id, board, end) then RowRating(db, id, row, p, board, end) else None
    case LiveMatch(id, row) => if id !in db.matches then RowRating(db, id, row, p, board, end) else None
    case LiveLinks(_) => None
  }

  predicate Uncounted(db: M.Db, id: int, board: int, end: int) {
    id !in db.matches || !StartedByBound(db.matches[id], board, end)
  }

  function RowRating(db: M.Db, id: int, row: M.Match, p: int, board: int, end: int): Option<int> {
    if StartedByBound(row, board, end) && (id, p) in db.players then db.players[(id, p)].newRating else None
  }

  /** The match a write is about; none for the live links. */
  function Subject(write: M.Write): int {
    if write.LiveLinks? then 0 else write.id
  }

  /** One match before and after a write: counted as before, or counted now with the settled rating. */
  ghost predicate SettlesRow(db: M.Db, db': M.Db, settled: Option<int>, p: int, board: int, end: int, id: int) {
    var before, after := RatedRow(db, (id, p), p, board, end), RatedRow(db', (id, p), p, board, end);
    && (settled.None? ==> after == before)
    && (settled.Some? ==> after && !before && db'.players[(id, p)].newRating == settled)
    && (before ==> after && db'.matches[id].startedAt == db.matches[id].startedAt
                   && db'.players[(id, p)].newRating == db.players[(id, p)].newRating)
  }

  function SettledBy(db: M.Db, write: M.Write, p: int, board: int, end: int, id: int): Option<int> {
    if id == Subject(write) then Settled(db, write, p, board, end) else None
  }

  lemma PlayerRowSettles(db: M.Db, write: M.Write, p: int, board: int, end: int, id: int)
    requires write.PlayerRow? || write.LiveLinks?
    ensures SettlesRow(db, M.Apply(db, write), SettledBy(db, write, p, board, end, id), p, board, end, id)
  {
  }

  lemma MatchSettles(db: M.Db, write: M.Write, p: int, board: int, end: int, id: int)
    requires (write.RecentMatch? || write.LiveMatch?) && Settling(db, write, board, end)
    ensures SettlesRow(db, M.Apply(db, write), SettledBy(db, write, p, board, end, id), p, board, end, id)
  {
  }

  lemma SettledGame(db: M.Db, db': M.Db, settled: Option<int>, p: int, board: int, end: int, id: int)
    requires SettlesRow(db, db', settled, p, board, end, id)
    ensures var before, after := Get(Games(db, p, board, end), id), Get(Games(db', p, board, end), id);
      if settled.None? then after == before else before.None? && after.Some? && after.value.1 == settled.value
  {
    GameAt(db, p, board, end, id);
    GameAt(db', p, board, end, id);
  }

  lemma OneMoreGame(games: map<int, (int, int)>, games': map<int, (int, int)>, id: int, settled: Option<int>)
    requires forall k :: settled.None? || k != id ==> Get(games', k) == Get(games, k)
    requires settled.Some? ==> id !in games && id in games' && games'[id].1 == settled.value
    ensures InFlight(games') == MaxOpt(InFlight(games), settled)
  {
    HighestIs(games, games.Keys);
    HighestIs(games', games'.Keys);
    forall k | k in games ensures k in games' && games'[k] == games[k] {
      assert Get(games', k) == Get(games, k);
    }
    forall k | k in games' && (settled.None? || k != id) ensures k in games && games[k] == games'[k] {
      assert Get(games', k) == Get(games, k);
    }
  }

  /** A late settlement adds its rating to the settled ones and nothing else. */
  lemma SettlementAdds(db: M.Db, write: M.Write, p: int, board: int, end: int)
    requires Settling(db, write, board, end)
    ensures InFlight(Games(M.Apply(db, write), p, board, end))
      == MaxOpt(InFlight(Games(db, p, board, end)), Settled(db, write, p, board, end))
  {
    var games, games' := Games(db, p, board, end), Games(M.Apply(db, write), p, board, end);
    var settled := Settled(db, write, p, board, end);
    forall k
      ensures settled.None? || k != Subject(write) ==> Get(games', k) == Get(games, k)
      ensures settled.Some? && k == Subject(write) ==>
        k !in games && k in games' && games'[k].1 == settled.value
    {
      SettlesGame(db, write, p, board, end, k);
    }
    OneMoreGame(games, games', Subject(write), settled);
  }

  /** What a late settlement does to the frozen peak: the settled rating joins the raw peak. */
  lemma SettledPeak(w: World, write: M.Write, p: int, board: int, end: int)
    requires Settling(w.db, write, board, end)
    ensures FrozenPeak(w.(db := M.Apply(w.db, write)), p, board, end)
      == Settle(MaxOpt(RawPeak(w, p, board, end), Settled(w.db, write, p, board, end)),
                LivePeak(w.ratings, Pair(p, board)))
  {
    SettlementAdds(w.db, write, p, board, end);
  }

  /** A game that started by the bound and settles late raises the frozen peak or leaves it exactly if there was
      a raw peak, or no live one, or nothing is settled for the profile, or the settled rating reaches the live
      peak. */
  lemma LateSettlement(w: World, write: M.Write, p: int, board: int, end: int)
    requires Settling(w.db, write, board, end)
    ensures var live, settled := LivePeak(w.ratings, Pair(p, board)), Settled(w.db, write, p, board, end);
      AtMost(FrozenPeak(w, p, board, end), FrozenPeak(w.(db := M.Apply(w.db, write)), p, board, end))
      <==> (RawPeak(w, p, board, end).Some? || live.None? || settled.None? || live.value <= settled.value)
  {
    SettledPeak(w, write, p, board, end);
  }

  /** Otherwise it lowers it, to the settled rating: here from the live fallback of 1700 to 1500. */
  lemma LateSettlementLowers(p: int, board: int, end: int, m: M.Match, played: M.Played)
    requires StartedByBound(m, board, end) && played.newRating == Some(1500)
    ensures var live := map[Pair(p, board) := LiveRating(1700, 1600, [])];
      var w := World(Tables([], live, 1), M.Db(map[9 := m], map[], {}));
      var write := M.PlayerRow(9, p, played);
      && Settling(w.db, write, board, end)
      && FrozenPeak(w, p, board, end) == Some(1700)
      && FrozenPeak(w.(db := M.Apply(w.db, write)), p, board, end) == Some(1500)
  {
    var w := World(Tables([], map[Pair(p, board) := LiveRating(1700, 1600, [])], 1), M.Db(map[9 := m], map[], {}));
    assert forall id :: id !in Games(w.db, p, board, end);
    assert RawPeak(w, p, board, end) == None;
    SettledPeak(w, M.PlayerRow(9, p, played), p, board, end);
  }

  // ---- late settlements over runs ----

  predicate LateStep(w: World, s: Step, board: int, end: int) {
    match s
    case Stats(at, batch) => end < at
    case Ingest(write) => Settling(w.db, write, board, end)
  }

  /** Post-window ticks, and writes that are harmless or settle a started-by-bound game. */
  ghost predicate LateRun(w: World, steps: seq<Step>, board: int, end: int) {
    |steps| > 0 ==> LateRun(w, Init(steps), board, end) && LateStep(After(w, Init(steps)), Last(steps), board, end)
  }

  function SettledIn(w: World, s: Step, p: int, board: int, end: int): Option<int> {
    if s.Stats? then None else Settled(w.db, s.write, p, board, end)
  }

  /** The highest rating of the profile that settles during the run. */
  function SettledOver(w: World, steps: seq<Step>, p: int, board: int, end: int): Option<int> {
    if |steps| == 0 then None
    else MaxOpt(SettledOver(w, Init(steps), p, board, end),
                SettledIn(After(w, Init(steps)), Last(steps), p, board, end))
  }

  lemma LateStepRaw(w: World, s: Step, p: int, board: int, end: int)
    requires LateStep(w, s, board, end)
    ensures RawPeak(Next(w, s), p, board, end) == MaxOpt(RawPeak(w, p, board, end), SettledIn(w, s, p, board, end))
  {
    match s
    case Stats(at, batch) => StatsKeepRaw(w.ratings, batch, at, Pair(p, board), end);
    case Ingest(write) => SettlementAdds(w.db, write, p, board, end);
  }

  /** The raw peak only rises, by exactly what settles. */
  lemma {:induction false} LateRaw(w: World, steps: seq<Step>, p: int, board: int, end: int)
    requires LateRun(w, steps, board, end)
    ensures RawPeak(After(w, steps), p, board, end)
      == MaxOpt(RawPeak(w, p, board, end), SettledOver(w, steps, p, board, end))
  {
    if |steps| > 0 {
      LateRaw(w, Init(steps), p, board, end);
      LateStepRaw(After(w, Init(steps)), Last(steps), p, board, end);
    }
  }

  /** Over any such run the frozen peak does not fall exactly if there was none, or the live peak does not cut
      below it and it is still reached: by the raw peak of the close, by what settled, or by the live fallback. */
  lemma LateRunKeepsPeakIff(w: World, steps: seq<Step>, p: int, board: int, end: int)
    requires LateRun(w, steps, board, end)
    ensures var frozen, settled := FrozenPeak(w, p, board, end), SettledOver(w, steps, p, board, end);
      var live := LivePeak(After(w, steps).ratings, Pair(p, board));
      AtMost(frozen, FrozenPeak(After(w, steps), p, board, end)) <==>
        (|| frozen.None?
         || ((live.None? || AtMost(frozen, live))
             && (RawPeak(w, p, board, end).Some? || (if settled.Some? then AtMost(frozen, settled) else live.Some?))))
  {
    LateRaw(w, steps, p, board, end);
  }

  /** When the match of a write started. */
  function StartOf(db: M.Db, write: M.Write): int {
    match write
    case PlayerRow(id, _, _) => if id in db.matches then db.matches[id].startedAt else 0
    case RecentMatch(_, row) => row.startedAt
    case LiveMatch(_, row) => row.startedAt
    case LiveLinks(_) => 0
  }

  lemma WrittenStart(db: M.Db, write: M.Write, p: int, board: int, end: int)
    requires Settled(db, write, p, board, end).Some?
    ensures Subject(write) in M.Apply(db, write).matches
    ensures M.Apply(db, write).matches[Subject(write)].startedAt == StartOf(db, write)
  {
  }

  lemma SettledStart(db: M.Db, write: M.Write, p: int, board: int, end: int)
    requires Settling(db, write, board, end) && Settled(db, write, p, board, end).Some?
    ensures Get(Games(M.Apply(db, write), p, board, end), Subject(write))
      == Some((StartOf(db, write), Settled(db, write, p, board, end).value))
  {
    WrittenStart(db, write, p, board, end);
    SettlesGame(db, write, p, board, end, Subject(write));
    StoredStart(M.Apply(db, write), p, board, end, Subject(write));
  }

  lemma StoredStart(db: M.Db, p: int, board: int, end: int, id: int)
    requires id in Games(db, p, board, end)
    ensures id in db.matches && Games(db, p, board, end)[id].0 == db.matches[id].startedAt
  {
    GameAt(db, p, board, end, id);
  }

  lemma LastStartedIsUnique(games: map<int, (int, int)>, id: int)
    requires id in games && forall k :: k in games ==> StartsLater(games, id, k)
    ensures FromLog(games) == Some(games[id].1)
  {
    LastStartedIs(games, games.Keys);
  }

  /** One game more is the last one exactly if it starts later, by (start, id), than the last one so far. */
  lemma OneMoreLast(games: map<int, (int, int)>, games': map<int, (int, int)>, id: int, game: (int, int))
    requires id !in games && games' == games[id := game]
    ensures FromLog(games')
      == if FromLog(games).None? || StartsLater(games', id, LastStarted(games, games.Keys)) then Some(game.1)
         else FromLog(games)
  {
    if FromLog(games).None? {
      LastStartedIsUnique(games', id);
    } else {
      var last := LastStarted(games, games.Keys);
      LastStartedIs(games, games.Keys);
      assert forall k :: k in games ==> StartsLater(games', last, k);
      LastStartedIsUnique(games', if StartsLater(games', id, last) then id else last);
    }
  }

  lemma GamesFollow(games: map<int, (int, int)>, games': map<int, (int, int)>, id: int, start: int,
                    settled: Option<int>)
    requires forall k :: settled.None? || k != id ==> Get(games', k) == Get(games, k)
    requires settled.Some? ==> Get(games', id) == Some((start, settled.value))
    ensures games' == if settled.None? then games else games[id := (start, settled.value)]
  {
    var expected := if settled.None? then games else games[id := (start, settled.value)];
    forall k ensures Get(games', k) == Get(expected, k) {
      assert settled.None? || k != id ==> Get(games', k) == Get(games, k);
    }
    SameEntries(games', expected);
  }

  lemma SettledGames(db: M.Db, write: M.Write, p: int, board: int, end: int)
    requires Settling(db, write, board, end)
    ensures var games, settled := Games(db, p, board, end), Settled(db, write, p, board, end);
      && (settled.Some? ==> Subject(write) !in games)
      && Games(M.Apply(db, write), p, board, end)
         == if settled.None? then games else games[Subject(write) := (StartOf(db, write), settled.value)]
  {
    var games, games' := Games(db, p, board, end), Games(M.Apply(db, write), p, board, end);
    var settled := Settled(db, write, p, board, end);
    forall k ensures settled.None? || k != Subject(write) ==> Get(games', k) == Get(games, k) {
      SettlesGame(db, write, p, board, end, k);
    }
    if settled.Some? {
      SettlesGame(db, write, p, board, end, Subject(write));
      SettledStart(db, write, p, board, end);
    }
    GamesFollow(games, games', Subject(write), StartOf(db, write), settled);
  }

  lemma SettlesGame(db: M.Db, write: M.Write, p: int, board: int, end: int, id: int)
    requires Settling(db, write, board, end)
    ensures var before, after := Get(Games(db, p, board, end), id), Get(Games(M.Apply(db, write), p, board, end), id);
      var settled := SettledBy(db, write, p, board, end, id);
      if settled.None? then after == before else before.None? && after.Some? && after.value.1 == settled.value
  {
    if write.PlayerRow? || write.LiveLinks? {
      PlayerRowSettles(db, write, p, board, end, id);
    } else {
      MatchSettles(db, write, p, board, end, id);
    }
    SettledGame(db, M.Apply(db, write), SettledBy(db, write, p, board, end, id), p, board, end, id);
  }

  /** The settled game is the last started one, by (start, match). */
  ghost predicate SettlesLast(db: M.Db, write: M.Write, p: int, board: int, end: int) {
    && Settled(db, write, p, board, end).Some?
    && forall id, game | id in Games(db, p, board, end) && game == Games(db, p, board, end)[id] ::
         KeyLe((game.0, id), (StartOf(db, write), Subject(write)))
  }

  /** What a late settlement does to the frozen current rating: it becomes the settled one exactly if the settled
      game is the last started one, and else stays. */
  lemma SettledCurrent(w: World, write: M.Write, p: int, board: int, end: int)
    requires Settling(w.db, write, board, end)
    ensures FrozenCurrent(w.(db := M.Apply(w.db, write)), p, board, end)
      == if SettlesLast(w.db, write, p, board, end) then Settled(w.db, write, p, board, end)
         else FrozenCurrent(w, p, board, end)
  {
    var games, settled := Games(w.db, p, board, end), Settled(w.db, write, p, board, end);
    SettledGames(w.db, write, p, board, end);
    if settled.Some? {
      var game := (StartOf(w.db, write), settled.value);
      OneMoreLast(games, games[Subject(write) := game], Subject(write), game);
      LastIsLater(games, Subject(write), game);
    }
  }

  lemma LastIsLater(games: map<int, (int, int)>, id: int, game: (int, int))
    requires id !in games
    ensures (FromLog(games).None? || StartsLater(games[id := game], id, LastStarted(games, games.Keys)))
      <==> forall k | k in games :: KeyLe((games[k].0, k), (game.0, id))
  {
    if FromLog(games).Some? {
      LastStartedIs(games, games.Keys);
    }
  }

  // ---- the freeze against the polls ----

  lemma {:induction false} IdsUnique(log: seq<Snapshot>, a: Snapshot, b: Snapshot)
    requires InOrder(log) && a in log && b in log && a.id == b.id
    ensures a == b
  {
    SplitLast(log);
    if a in Init(log) && b in Init(log) {
      IdsUnique(Init(log), a, b);
    }
  }

  /** If the latest row as of the bound carries a current rating, the rows that carry none do not matter. */
  lemma LatestCarriesCurrent(log: seq<Snapshot>, pair: Pair, end: int)
    requires InOrder(log)
    requires Latest(AsOf(log, end), pair).Some? && Latest(AsOf(log, end), pair).value.currentRating.Some?
    ensures Latest(CurrentRows(log, end), pair) == Latest(AsOf(log, end), pair)
  {
    var row := Latest(AsOf(log, end), pair).value;
    assert row in CurrentRows(log, end);
    var found := Latest(CurrentRows(log, end), pair).value;
    assert found in AsOf(log, end);
    IdsUnique(log, row, found);
  }

  /** Only rows with a current rating are ever committed. */
  lemma {:induction false} PolledCurrent(polls: seq<Poll>, pair: Pair, at: int)
    requires LastPolled(polls, pair, at).Some?
    ensures LastPolled(polls, pair, at).value.1.Some?
  {
    if !(Last(polls).at <= at && Reports(Last(polls), pair)) {
      PolledCurrent(Init(polls), pair, at);
    }
  }

  /** Over any run of polls on both sides of the bound, a profile without a started-by-bound game is
      frozen at the current rating its last poll at or before the bound reported. */
  lemma FrozenCurrentIsLastPolled(t: Tables, polls: seq<Poll>, since: int, db: M.Db, p: int, board: int, end: int)
    requires Chronological(t, since) && WellTimed(polls, since) && DistinctBatches(polls) && since <= end
    requires forall id :: id !in Games(db, p, board, end)
    requires LastPolled(polls, Pair(p, board), end).Some?
    ensures FrozenCurrent(World(Run(t, polls), db), p, board, end) == LastPolled(polls, Pair(p, board), end).value.1
  {
    ReplayGivesBackThePolls(t, polls, since, Pair(p, board), end);
    PolledCurrent(polls, Pair(p, board), end);
    RunChronological(t, polls, since);
    LatestCarriesCurrent(Run(t, polls).log, Pair(p, board), end);
  }

  /** Over any such run from empty tables, the recorded part of the frozen peak is the highest value
      polled at or before the bound, so a pair polled in time never falls back to the live peak. */
  lemma FrozenPeakIsPolledPeak(polls: seq<Poll>, since: int, db: M.Db, p: int, board: int, end: int)
    requires WellTimed(polls, since) && since <= end
    ensures RawPeak(World(Run(Tables([], map[], 1), polls), db), p, board, end)
         == MaxOpt(PeakPolled(polls, Pair(p, board), end), InFlight(Games(db, p, board, end)))
  {
    RecordedPeakIsPolledPeak(Tables([], map[], 1), polls, since, Pair(p, board), end);
  }
}
