/** What a cycle leaves behind, column by column, in terms of the payloads it read. */
module MatchReports {
  import opened Common
  import opened MatchIngest

  // ---- the history cycle ----

  /** The matches of a cycle in the order they are stored; a failed fetch has none. */
  function Reported(fetched: seq<Option<seq<RawMatch>>>): seq<RawMatch> {
    if |fetched| == 0 then []
    else Reported(Init(fetched)) + if Last(fetched).None? then [] else Last(fetched).value
  }

  /** A cycle commits exactly if every reported match has a start time other than 0. */
  lemma {:induction false} CommitsIff(fetched: seq<Option<seq<RawMatch>>>)
    ensures AllStorable(fetched) <==>
      forall raw :: raw in Reported(fetched) ==> raw.startTime.Some? && raw.startTime.value != 0
  {
    if |fetched| > 0 {
      SplitLast(fetched);
      CommitsIff(Init(fetched));
    }
  }

  function LastOf(raws: seq<RawMatch>, id: int): (r: Option<RawMatch>)
    ensures r.Some? ==> r.value in raws && r.value.id == id
  {
    if |raws| == 0 then None
    else
      SplitLast(raws);
      if Last(raws).id == id then Some(Last(raws)) else LastOf(Init(raws), id)
  }

  lemma {:induction false} LastIs(raws: seq<RawMatch>, k: nat)
    requires k < |raws| && forall l :: k < l < |raws| ==> raws[l].id != raws[k].id
    ensures LastOf(raws, raws[k].id) == Some(raws[k])
  {
    if k < |raws| - 1 {
      LastIs(Init(raws), k);
    }
  }

  lemma {:induction false} LastOfConcat(a: seq<RawMatch>, b: seq<RawMatch>, id: int)
    ensures LastOf(a + b, id) == if LastOf(b, id).Some? then LastOf(b, id) else LastOf(a, id)
  {
    if |b| == 0 {
      assert a + b == a;
    } else {
      assert Init(a + b) == a + Init(b);
      LastOfConcat(a, Init(b), id);
    }
  }

  lemma {:induction false} LastRecentConcat(a: seq<Write>, b: seq<Write>, id: int)
    ensures LastRecent(a + b, id) == if LastRecent(b, id).Some? then LastRecent(b, id) else LastRecent(a, id)
  {
    if |b| == 0 {
      assert a + b == a;
    } else {
      assert Init(a + b) == a + Init(b);
      LastRecentConcat(a, Init(b), id);
    }
  }

  lemma {:induction false} NoReports(writes: seq<Write>, id: int)
    requires forall w :: w in writes ==> !w.RecentMatch?
    ensures LastRecent(writes, id) == None
  {
    if |writes| > 0 {
      NoReports(Init(writes), id);
    }
  }

  function RowOf(raw: Option<RawMatch>, boards: map<int, int>, now: int): Option<Match>
    requires raw.Some? ==> FromUnix(raw.value.startTime).Some?
  {
    if raw.None? then None else Some(RecentRow(raw.value, boards, now))
  }

  lemma {:induction false} LastMatchWrite(history: seq<RawMatch>, boards: map<int, int>, now: int, id: int)
    requires Storable(history)
    ensures LastRecent(MatchWrites(history, boards, now), id) == RowOf(LastOf(history, id), boards, now)
  {
    if |history| > 0 {
      var front := MatchWrites(Init(history), boards, now);
      var w := RecentMatch(Last(history).id, RecentRow(Last(history), boards, now));
      SplitLast(history);
      LastMatchWrite(Init(history), boards, now, id);
      assert Init(front + [w]) == front;
    }
  }

  lemma LastHistoryWrite(history: seq<RawMatch>, boards: map<int, int>, now: int, id: int)
    requires Storable(history)
    ensures LastRecent(HistoryWrites(history, boards, now), id) == RowOf(LastOf(history, id), boards, now)
  {
    LastMatchWrite(history, boards, now, id);
    PlayerWritesPaired(history);
    NoReports(PlayerWrites(history), id);
    LastRecentConcat(MatchWrites(history, boards, now), PlayerWrites(history), id);
  }

  lemma {:induction false} LastCycleWrite(fetched: seq<Option<seq<RawMatch>>>, boards: map<int, int>, now: int, id: int)
    requires AllStorable(fetched)
    ensures LastOf(Reported(fetched), id).Some? ==> FromUnix(LastOf(Reported(fetched), id).value.startTime).Some?
    ensures LastRecent(RecentWrites(fetched, boards, now), id) == RowOf(LastOf(Reported(fetched), id), boards, now)
  {
    CommitsIff(fetched);
    if |fetched| > 0 {
      SplitLast(fetched);
      LastCycleWrite(Init(fetched), boards, now, id);
      if Last(fetched).Some? {
        var history := Last(fetched).value;
        LastHistoryWrite(history, boards, now, id);
        LastOfConcat(Reported(Init(fetched)), history, id);
        LastRecentConcat(RecentWrites(Init(fetched), boards, now), HistoryWrites(history, boards, now), id);
      } else {
        assert RecentWrites(fetched, boards, now) == RecentWrites(Init(fetched), boards, now);
        assert Reported(fetched) == Reported(Init(fetched));
      }
    }
  }

  /** Without live writes a match is what its last report made it, or what it was. */
  lemma {:induction false} ReportStands(db: Db, writes: seq<Write>, id: int)
    requires forall w :: w in writes ==> !w.LiveMatch?
    ensures Get(ApplyAll(db, writes).matches, id)
      == if LastRecent(writes, id).Some? then LastRecent(writes, id) else Get(db.matches, id)
  {
    if |writes| > 0 {
      SplitLast(writes);
      ReportStands(db, Init(writes), id);
    }
  }

  lemma {:induction false} NoLiveWrites(fetched: seq<Option<seq<RawMatch>>>, boards: map<int, int>, now: int)
    requires AllStorable(fetched)
    ensures forall w :: w in RecentWrites(fetched, boards, now) ==> !w.LiveMatch?
  {
    if |fetched| > 0 {
      SplitLast(fetched);
      NoLiveWrites(Init(fetched), boards, now);
      if Last(fetched).Some? {
        MatchWritesPaired(Last(fetched).value, boards, now);
        PlayerWritesPaired(Last(fetched).value);
      }
    }
  }

  lemma CycleRow(db: Db, fetched: seq<Option<seq<RawMatch>>>, boards: map<int, int>, now: int, id: int)
    requires AllStorable(fetched)
    ensures LastOf(Reported(fetched), id).Some? ==> FromUnix(LastOf(Reported(fetched), id).value.startTime).Some?
    ensures Get(ApplyAll(db, RecentWrites(fetched, boards, now)).matches, id)
      == if LastOf(Reported(fetched), id).Some? then RowOf(LastOf(Reported(fetched), id), boards, now)
         else Get(db.matches, id)
  {
    NoLiveWrites(fetched, boards, now);
    LastCycleWrite(fetched, boards, now, id);
    ReportStands(db, RecentWrites(fetched, boards, now), id);
  }

  /** After a committed history cycle a reported match is what its last report says: start, completion (0 is none),
      the board its match type maps to, map, description; completed exactly with a completion time. */
  lemma CycleStoresMatch(db: Db, fetched: seq<Option<seq<RawMatch>>>, boards: map<int, int>, now: int, k: nat)
    requires AllStorable(fetched) && k < |Reported(fetched)|
    requires forall l :: k < l < |Reported(fetched)| ==> Reported(fetched)[l].id != Reported(fetched)[k].id
    ensures var raw, db' := Reported(fetched)[k], RunTicks(db, [RecentTick(fetched, boards, now)]);
      && raw.id in db'.matches
      && var m := db'.matches[raw.id];
      && raw.startTime == Some(m.startedAt)
      && m.completedAt == (if raw.completionTime == Some(0) then None else raw.completionTime)
      && m.matchtype == raw.matchtype && m.mapName == raw.mapName && m.description == raw.description
      && m.board == (if raw.matchtype in boards then Some(boards[raw.matchtype]) else None)
      && m.state == (if m.completedAt.Some? then Completed else InProgress) && m.updatedAt == now
  {
    OneTick(db, RecentTick(fetched, boards, now));
    LastIs(Reported(fetched), k);
    CycleRow(db, fetched, boards, now, Reported(fetched)[k].id);
    CommitsIff(fetched);
  }

  lemma OneTick(db: Db, t: Tick)
    ensures RunTicks(db, [t]) == ApplyAll(db, Writes(t))
  {
    assert Init([t]) == [];
  }

  /** A match it does not report stays, and a cycle with a match that cannot be stored changes nothing. */
  lemma CycleLeavesOthers(db: Db, fetched: seq<Option<seq<RawMatch>>>, boards: map<int, int>, now: int, id: int)
    ensures (forall raw :: raw in Reported(fetched) ==> raw.id != id) ==>
      Get(RunTicks(db, [RecentTick(fetched, boards, now)]).matches, id) == Get(db.matches, id)
    ensures (exists raw :: raw in Reported(fetched) && (raw.startTime.None? || raw.startTime.value == 0)) ==>
      RunTicks(db, [RecentTick(fetched, boards, now)]) == db
  {
    OneTick(db, RecentTick(fetched, boards, now));
    CommitsIff(fetched);
    if AllStorable(fetched) {
      CycleRow(db, fetched, boards, now, id);
    }
  }

  // ---- player rows of a history cycle ----

  /** The first result reported for a (match, profile), by match and by result. */
  function FirstIn(results: seq<(int, Played)>, profile: int): Option<Played> {
    if |results| == 0 then None
    else
      var before := FirstIn(Init(results), profile);
      if before.Some? then before else if Last(results).0 == profile then Some(Last(results).1) else None
  }

  function FirstResult(raws: seq<RawMatch>, id: int, profile: int): Option<Played> {
    if |raws| == 0 then None
    else
      var before := FirstResult(Init(raws), id, profile);
      if before.Some? then before else if Last(raws).id == id then FirstIn(Last(raws).results, profile) else None
  }

  lemma {:induction false} FirstPlayedConcat(a: seq<Write>, b: seq<Write>, id: int, p: int)
    ensures FirstPlayed(a + b, id, p)
      == if FirstPlayed(a, id, p).Some? then FirstPlayed(a, id, p) else FirstPlayed(b, id, p)
  {
    if |b| == 0 {
      assert a + b == a;
    } else {
      assert Init(a + b) == a + Init(b);
      FirstPlayedConcat(a, Init(b), id, p);
    }
  }

  lemma {:induction false} FirstResultConcat(a: seq<RawMatch>, b: seq<RawMatch>, id: int, p: int)
    ensures FirstResult(a + b, id, p)
      == if FirstResult(a, id, p).Some? then FirstResult(a, id, p) else FirstResult(b, id, p)
  {
    if |b| == 0 {
      assert a + b == a;
    } else {
      assert Init(a + b) == a + Init(b);
      FirstResultConcat(a, Init(b), id, p);
    }
  }

  lemma {:induction false} NoPlayerRows(writes: seq<Write>, id: int, p: int)
    requires forall w :: w in writes ==> !w.PlayerRow?
    ensures FirstPlayed(writes, id, p) == None
  {
    if |writes| > 0 {
      NoPlayerRows(Init(writes), id, p);
    }
  }

  lemma {:induction false} FirstResultWrite(of: int, results: seq<(int, Played)>, id: int, p: int)
    ensures FirstPlayed(ResultWrites(of, results), id, p) == if of == id then FirstIn(results, p) else None
  {
    if |results| > 0 {
      var front, w := ResultWrites(of, Init(results)), PlayerRow(of, Last(results).0, Last(results).1);
      FirstResultWrite(of, Init(results), id, p);
      assert Init(front + [w]) == front;
    }
  }

  lemma {:induction false} FirstPlayerWrite(history: seq<RawMatch>, id: int, p: int)
    ensures FirstPlayed(PlayerWrites(history), id, p) == FirstResult(history, id, p)
  {
    if |history| > 0 {
      FirstPlayerWrite(Init(history), id, p);
      FirstResultWrite(Last(history).id, Last(history).results, id, p);
      FirstPlayedConcat(PlayerWrites(Init(history)), ResultWrites(Last(history).id, Last(history).results), id, p);
    }
  }

  lemma {:induction false} FirstCycleWrite(fetched: seq<Option<seq<RawMatch>>>, boards: map<int, int>, now: int,
                                           id: int, p: int)
    requires AllStorable(fetched)
    ensures FirstPlayed(RecentWrites(fetched, boards, now), id, p) == FirstResult(Reported(fetched), id, p)
  {
    if |fetched| > 0 {
      SplitLast(fetched);
      FirstCycleWrite(Init(fetched), boards, now, id, p);
      if Last(fetched).Some? {
        var history := Last(fetched).value;
        MatchWritesPaired(history, boards, now);
        NoPlayerRows(MatchWrites(history, boards, now), id, p);
        FirstPlayerWrite(history, id, p);
        FirstPlayedConcat(MatchWrites(history, boards, now), PlayerWrites(history), id, p);
        FirstPlayedConcat(RecentWrites(Init(fetched), boards, now), HistoryWrites(history, boards, now), id, p);
        FirstResultConcat(Reported(Init(fetched)), history, id, p);
      } else {
        assert RecentWrites(fetched, boards, now) == RecentWrites(Init(fetched), boards, now);
        assert Reported(fetched) == Reported(Init(fetched));
      }
    }
  }

  /** Result j of report k is about this player of this match. */
  ghost predicate Reports(raws: seq<RawMatch>, id: int, profile: int, k: int, j: int) {
    0 <= k < |raws| && raws[k].id == id && 0 <= j < |raws[k].results| && raws[k].results[j].0 == profile
  }

  /** Report k, result j come no later than k', j'. */
  predicate NoLater(k: int, j: int, k': int, j': int) {
    k < k' || (k == k' && j <= j')
  }

  lemma {:induction false} FirstInIs(results: seq<(int, Played)>, profile: int, j: nat)
    requires j < |results| && results[j].0 == profile && forall l :: 0 <= l < j ==> results[l].0 != profile
    ensures FirstIn(results, profile) == Some(results[j].1)
  {
    if j < |results| - 1 {
      FirstInIs(Init(results), profile, j);
    } else {
      NoneIn(Init(results), profile);
    }
  }

  lemma {:induction false} NoneIn(results: seq<(int, Played)>, profile: int)
    requires forall l :: 0 <= l < |results| ==> results[l].0 != profile
    ensures FirstIn(results, profile) == None
  {
    if |results| > 0 {
      NoneIn(Init(results), profile);
    }
  }

  lemma {:induction false} FirstResultIs(raws: seq<RawMatch>, id: int, p: int, k: nat, j: nat)
    requires Reports(raws, id, p, k, j)
    requires forall k', j' :: Reports(raws, id, p, k', j') ==> NoLater(k, j, k', j')
    ensures FirstResult(raws, id, p) == Some(raws[k].results[j].1)
  {
    if k < |raws| - 1 {
      assert forall k', j' :: Reports(Init(raws), id, p, k', j') ==> Reports(raws, id, p, k', j');
      FirstResultIs(Init(raws), id, p, k, j);
    } else {
      forall k', j' ensures !Reports(Init(raws), id, p, k', j') {
        assert Reports(Init(raws), id, p, k', j') ==> Reports(raws, id, p, k', j');
      }
      NoResult(Init(raws), id, p);
      forall l | 0 <= l < j ensures raws[k].results[l].0 != p {
        assert !Reports(raws, id, p, k, l);
      }
      FirstInIs(raws[k].results, p, j);
    }
  }

  lemma {:induction false} NoResult(raws: seq<RawMatch>, id: int, p: int)
    requires forall k', j' :: !Reports(raws, id, p, k', j')
    ensures FirstResult(raws, id, p) == None
  {
    if |raws| > 0 {
      forall k', j' ensures !Reports(Init(raws), id, p, k', j') {
        assert Reports(Init(raws), id, p, k', j') ==> Reports(raws, id, p, k', j');
      }
      NoResult(Init(raws), id, p);
      if Last(raws).id == id {
        forall l | 0 <= l < |Last(raws).results| ensures Last(raws).results[l].0 != p {
          assert !Reports(raws, id, p, |raws| - 1, l);
        }
        NoneIn(Last(raws).results, p);
      }
    }
  }

  /** After a committed cycle the row of a reported player is the stored one, else the cycle's first result for that
      player of that match; a player nobody reports has the row stored before, if any. */
  lemma CycleStoresResults(db: Db, fetched: seq<Option<seq<RawMatch>>>, boards: map<int, int>, now: int,
                           id: int, p: int, k: nat, j: nat)
    requires AllStorable(fetched)
    ensures var raws, rows := Reported(fetched), RunTicks(db, [RecentTick(fetched, boards, now)]).players;
      && ((id, p) in db.players ==> Get(rows, (id, p)) == Some(db.players[(id, p)]))
      && ((id, p) !in db.players && Reports(raws, id, p, k, j)
          && (forall k', j' :: Reports(raws, id, p, k', j') ==> NoLater(k, j, k', j')) ==>
            Get(rows, (id, p)) == Some(raws[k].results[j].1))
      && ((forall k', j' :: !Reports(raws, id, p, k', j')) ==> Get(rows, (id, p)) == Get(db.players, (id, p)))
  {
    var raws, writes := Reported(fetched), RecentWrites(fetched, boards, now);
    OneTick(db, RecentTick(fetched, boards, now));
    FirstCycleWrite(fetched, boards, now, id, p);
    FirstPlayerRowStands(db, writes, id, p);
    if Reports(raws, id, p, k, j) && forall k', j' :: Reports(raws, id, p, k', j') ==> NoLater(k, j, k', j') {
      FirstResultIs(raws, id, p, k, j);
    }
    if forall k', j' :: !Reports(raws, id, p, k', j') {
      NoResult(raws, id, p);
    }
  }

  // ---- the live cycle ----

  /** A lobby of this match with a tracked member. */
  ghost predicate Shows(lobby: Lobby, tracked: set<int>, id: int) {
    lobby.id == Some(id) && exists p :: p in lobby.members && p in tracked
  }

  lemma CountsIff(lobby: Lobby, tracked: set<int>, id: int)
    ensures Shows(lobby, tracked, id) <==> Counts(lobby, tracked) && lobby.id == Some(id)
  {
    if Counts(lobby, tracked) {
      var p := Tracked(lobby.members, tracked)[0];
      assert p in Tracked(lobby.members, tracked);
    }
    if Shows(lobby, tracked, id) {
      var p :| p in lobby.members && p in tracked;
      assert p in Tracked(lobby.members, tracked);
    }
  }

  /** A match the table does not have yet takes its first lobby's row; after that only state and update time move, to
      the last lobby's, and nothing once there is a completion time. */
  function Observed(row: Option<Match>, first: Lobby, last: Lobby, now: int): Match {
    var m := if row.None? then LiveRow(first, now) else row.value;
    if m.completedAt.Some? then m else m.(state := LiveRow(last, now).state, updatedAt := now)
  }

  lemma {:induction false} Unobserved(db: Db, lobbies: seq<Lobby>, tracked: set<int>, now: int, id: int)
    requires forall l :: 0 <= l < |lobbies| ==> !Shows(lobbies[l], tracked, id)
    ensures Get(ApplyAll(db, LobbyWrites(lobbies, tracked, now)).matches, id) == Get(db.matches, id)
  {
    if |lobbies| > 0 {
      Unobserved(db, Init(lobbies), tracked, now, id);
      assert !Shows(lobbies[|lobbies| - 1], tracked, id);
      LobbyApplied(db, lobbies, tracked, now);
      if Counts(Last(lobbies), tracked) {
        CountsIff(Last(lobbies), tracked, id);
      }
    }
  }

  lemma LobbyApplied(db: Db, lobbies: seq<Lobby>, tracked: set<int>, now: int)
    requires |lobbies| > 0
    ensures ApplyAll(db, LobbyWrites(lobbies, tracked, now))
      == if Counts(Last(lobbies), tracked)
         then Apply(ApplyAll(db, LobbyWrites(Init(lobbies), tracked, now)),
                    LiveMatch(Last(lobbies).id.value, LiveRow(Last(lobbies), now)))
         else ApplyAll(db, LobbyWrites(Init(lobbies), tracked, now))
  {
    if Counts(Last(lobbies), tracked) {
      var front, w := LobbyWrites(Init(lobbies), tracked, now),
                      LiveMatch(Last(lobbies).id.value, LiveRow(Last(lobbies), now));
      assert Init(front + [w]) == front;
    }
  }

  /** Lobbies i and j are the first and the last of this match. */
  ghost predicate FirstAndLast(lobbies: seq<Lobby>, tracked: set<int>, id: int, i: int, j: int) {
    && 0 <= i <= j < |lobbies| && Shows(lobbies[i], tracked, id) && Shows(lobbies[j], tracked, id)
    && forall l :: 0 <= l < |lobbies| && Shows(lobbies[l], tracked, id) ==> i <= l <= j
  }

  lemma {:induction false} LastShown(lobbies: seq<Lobby>, tracked: set<int>, id: int, i: nat) returns (j: nat)
    requires i < |lobbies| && Shows(lobbies[i], tracked, id)
    ensures i <= j < |lobbies| && Shows(lobbies[j], tracked, id)
    ensures forall l :: j < l < |lobbies| ==> !Shows(lobbies[l], tracked, id)
  {
    if Shows(Last(lobbies), tracked, id) {
      j := |lobbies| - 1;
    } else {
      j := LastShown(Init(lobbies), tracked, id, i);
      assert forall l :: 0 <= l < |lobbies| - 1 ==> Init(lobbies)[l] == lobbies[l];
    }
  }

  lemma {:induction false} ObservedRow(db: Db, lobbies: seq<Lobby>, tracked: set<int>, now: int, id: int,
                                       i: nat, j: nat)
    requires FirstAndLast(lobbies, tracked, id, i, j)
    ensures Get(ApplyAll(db, LobbyWrites(lobbies, tracked, now)).matches, id)
      == Some(Observed(Get(db.matches, id), lobbies[i], lobbies[j], now))
  {
    var front := Init(lobbies);
    LobbyApplied(db, lobbies, tracked, now);
    CountsIff(Last(lobbies), tracked, id);
    assert forall l :: 0 <= l < |front| ==> front[l] == lobbies[l];
    if j < |lobbies| - 1 {
      assert !Shows(lobbies[|lobbies| - 1], tracked, id);
      ObservedRow(db, front, tracked, now, id, i, j);
    } else if i < |lobbies| - 1 {
      var k := LastShown(front, tracked, id, i);
      ObservedRow(db, front, tracked, now, id, i, k);
    } else {
      assert forall l :: 0 <= l < |front| ==> !Shows(lobbies[l], tracked, id);
      Unobserved(db, front, tracked, now, id);
    }
  }

  lemma LiveTickRuns(db: Db, lobbies: seq<Lobby>, tracked: set<int>, now: int)
    requires tracked != {}
    ensures var db', stored := RunTicks(db, [LiveTick(lobbies, tracked, now)]),
                               ApplyAll(db, LobbyWrites(lobbies, tracked, now));
      db'.matches == stored.matches && db'.players == stored.players && db'.live == Links(lobbies, tracked)
  {
    OneTick(db, LiveTick(lobbies, tracked, now));
    assert Init(LiveWrites(lobbies, tracked, now)) == LobbyWrites(lobbies, tracked, now);
  }

  /** After a live cycle a match first seen in it has its first lobby's map, type and description, no board and no
      completion time, its creation time or, without one, the time of the cycle; it is staging exactly if its last
      lobby's state is 0 or missing. */
  lemma LiveStoresMatch(db: Db, lobbies: seq<Lobby>, tracked: set<int>, now: int, id: int, i: nat, j: nat)
    requires FirstAndLast(lobbies, tracked, id, i, j) && id !in db.matches
    ensures var matches := RunTicks(db, [LiveTick(lobbies, tracked, now)]).matches;
      && id in matches
      && var m := matches[id];
      && m.mapName == lobbies[i].mapName && m.matchtype == lobbies[i].matchtype
      && m.description == lobbies[i].description && m.board == None && m.completedAt == None
      && m.startedAt == (if lobbies[i].creationTime.None? || lobbies[i].creationTime.value == 0 then now
                         else lobbies[i].creationTime.value)
      && m.state == (if lobbies[j].state.None? || lobbies[j].state.value == 0 then Staging else InProgress)
      && m.updatedAt == now
  {
    LiveTickRuns(db, lobbies, tracked, now);
    ObservedRow(db, lobbies, tracked, now, id, i, j);
  }

  /** A known match keeps its columns but state and update time, a completed one those too, and so does one that no
      lobby shows; the links are those of the tracked members of the lobbies. */
  lemma LiveKeepsMatch(db: Db, lobbies: seq<Lobby>, tracked: set<int>, now: int, id: int, i: nat, j: nat)
    requires tracked != {}
    ensures var db' := RunTicks(db, [LiveTick(lobbies, tracked, now)]);
      && (id in db.matches && FirstAndLast(lobbies, tracked, id, i, j) ==>
            Get(db'.matches, id)
              == Some(if db.matches[id].completedAt.Some? then db.matches[id]
                      else db.matches[id].(updatedAt := now,
                             state := if lobbies[j].state.None? || lobbies[j].state.value == 0 then Staging
                                      else InProgress)))
      && ((forall l :: 0 <= l < |lobbies| ==> !Shows(lobbies[l], tracked, id)) ==>
            Get(db'.matches, id) == Get(db.matches, id))
      && (forall p :: (id, p) in db'.live <==>
            exists lobby :: lobby in lobbies && lobby.id == Some(id) && p in lobby.members && p in tracked)
  {
    LiveTickRuns(db, lobbies, tracked, now);
    if FirstAndLast(lobbies, tracked, id, i, j) {
      ObservedRow(db, lobbies, tracked, now, id, i, j);
    }
    if forall l :: 0 <= l < |lobbies| ==> !Shows(lobbies[l], tracked, id) {
      Unobserved(db, lobbies, tracked, now, id);
    }
    forall p ensures (id, p) in Links(lobbies, tracked) <==>
                       exists lobby :: lobby in lobbies && lobby.id == Some(id) && p in lobby.members && p in tracked {
      LinksAre(lobbies, tracked, id, p);
    }
  }

  lemma {:induction false} NoPlayersStored(db: Db, lobbies: seq<Lobby>, tracked: set<int>, now: int)
    ensures ApplyAll(db, LobbyWrites(lobbies, tracked, now)).players == db.players
  {
    if |lobbies| > 0 {
      NoPlayersStored(db, Init(lobbies), tracked, now);
      LobbyApplied(db, lobbies, tracked, now);
    }
  }

  /** A live cycle stores no player rows, and one that tracks nobody does nothing. */
  lemma LiveKeepsPlayers(db: Db, lobbies: seq<Lobby>, tracked: set<int>, now: int)
    ensures RunTicks(db, [LiveTick(lobbies, tracked, now)]).players == db.players
    ensures tracked == {} ==> RunTicks(db, [LiveTick(lobbies, tracked, now)]) == db
  {
    OneTick(db, LiveTick(lobbies, tracked, now));
    if tracked != {} {
      LiveTickRuns(db, lobbies, tracked, now);
      NoPlayersStored(db, lobbies, tracked, now);
    }
  }
}
