/** Match ingestion: two pollers writing the same tables under different conflict rules. */
module MatchIngest {
  import opened Common

  datatype MatchState = Staging | InProgress | Completed

  /** A `matches` row. */
  datatype Match = Match(mapName: string, matchtype: int, board: Option<int>, startedAt: int,
                         completedAt: Option<int>, description: Option<string>, state: MatchState, updatedAt: int)

  datatype Outcome = Win | Loss

  /** A `match_players` row. */
  datatype Played = Played(civilization: int, team: int, outcome: Option<Outcome>,
                           oldRating: Option<int>, newRating: Option<int>, xp: int)

  /** Matches by id, player rows by (match, profile), and the links of who is in a live match. */
  datatype Db = Db(matches: map<int, Match>, players: map<(int, int), Played>, live: set<(int, int)>)

  // ---- the four writes ----

  datatype Write =
    | RecentMatch(id: int, row: Match)
    | LiveMatch(id: int, row: Match)
    | PlayerRow(id: int, profile: int, played: Played)
    | LiveLinks(links: set<(int, int)>)

  /** Full overwrite; state only and never on a completed row; insert or skip; replace wholesale. */
  function Apply(db: Db, w: Write): Db {
    match w
    case RecentMatch(id, row) => db.(matches := db.matches[id := row])
    case LiveMatch(id, row) =>
      if id !in db.matches then db.(matches := db.matches[id := row])
      else if db.matches[id].completedAt.Some? then db
      else db.(matches := db.matches[id := db.matches[id].(state := row.state, updatedAt := row.updatedAt)])
    case PlayerRow(id, profile, played) =>
      if (id, profile) in db.players then db else db.(players := db.players[(id, profile) := played])
    case LiveLinks(links) => db.(live := links)
  }

  function ApplyAll(db: Db, writes: seq<Write>): Db {
    if |writes| == 0 then db else Apply(ApplyAll(db, Init(writes)), Last(writes))
  }

  lemma {:induction false} ApplyAllAppend(db: Db, a: seq<Write>, b: seq<Write>)
    ensures ApplyAll(db, a + b) == ApplyAll(ApplyAll(db, a), b)
  {
    if |b| == 0 {
      assert a + b == a;
    } else {
      assert Init(a + b) == a + Init(b);
      ApplyAllAppend(db, a, Init(b));
    }
  }

  // ---- payloads ----

  /** Unix seconds; missing and zero both read as no time. */
  function FromUnix(seconds: Option<int>): Option<int> {
    if seconds == Some(0) then None else seconds
  }

  /** One finished match of a profile's history, with its merged player rows. */
  datatype RawMatch = RawMatch(id: int, mapName: string, matchtype: int, startTime: Option<int>,
                               completionTime: Option<int>, description: Option<string>, results: seq<(int, Played)>)

  /** One lobby: its id if it has one, and the profiles sitting in it. */
  datatype Lobby = Lobby(id: Option<int>, mapName: string, matchtype: int, creationTime: Option<int>,
                         description: Option<string>, state: Option<int>, members: seq<int>)

  /** Only matches with a start time can be stored. */
  function RecentRow(raw: RawMatch, boards: map<int, int>, now: int): Match
    requires FromUnix(raw.startTime).Some?
  {
    var completedAt := FromUnix(raw.completionTime);
    Match(raw.mapName, raw.matchtype, Get(boards, raw.matchtype), FromUnix(raw.startTime).value, completedAt,
          raw.description, if completedAt.Some? then Completed else InProgress, now)
  }

  function LiveRow(lobby: Lobby, now: int): Match {
    Match(lobby.mapName, lobby.matchtype, None, FromUnix(lobby.creationTime).GetOr(now), None, lobby.description,
          if lobby.state.GetOr(0) == 0 then Staging else InProgress, now)
  }

  predicate Storable(history: seq<RawMatch>) {
    forall raw :: raw in history ==> FromUnix(raw.startTime).Some?
  }

  function MatchWrites(history: seq<RawMatch>, boards: map<int, int>, now: int): seq<Write>
    requires Storable(history)
  {
    if |history| == 0 then []
    else
      SplitLast(history);
      var raw := Last(history);
      MatchWrites(Init(history), boards, now) + [RecentMatch(raw.id, RecentRow(raw, boards, now))]
  }

  function ResultWrites(id: int, results: seq<(int, Played)>): seq<Write> {
    if |results| == 0 then []
    else ResultWrites(id, Init(results)) + [PlayerRow(id, Last(results).0, Last(results).1)]
  }

  function PlayerWrites(history: seq<RawMatch>): seq<Write> {
    if |history| == 0 then [] else PlayerWrites(Init(history)) + ResultWrites(Last(history).id, Last(history).results)
  }

  /** All matches of a profile's history, then all their player rows. */
  function HistoryWrites(history: seq<RawMatch>, boards: map<int, int>, now: int): seq<Write>
    requires Storable(history)
  {
    MatchWrites(history, boards, now) + PlayerWrites(history)
  }

  /** The writes of a cycle over the fetched histories; a failed fetch (None) contributes nothing. */
  function RecentWrites(fetched: seq<Option<seq<RawMatch>>>, boards: map<int, int>, now: int): seq<Write>
    requires AllStorable(fetched)
  {
    if |fetched| == 0 then []
    else
      SplitLast(fetched);
      RecentWrites(Init(fetched), boards, now)
        + (if Last(fetched).None? then [] else HistoryWrites(Last(fetched).value, boards, now))
  }

  predicate AllStorable(fetched: seq<Option<seq<RawMatch>>>) {
    forall f :: f in fetched && f.Some? ==> Storable(f.value)
  }

  function Tracked(members: seq<int>, tracked: set<int>): (r: seq<int>)
    ensures forall p :: p in r <==> p in members && p in tracked
  {
    if |members| == 0 then []
    else
      SplitLast(members);
      Tracked(Init(members), tracked) + if Last(members) in tracked then [Last(members)] else []
  }

  /** A lobby counts if it has an id and a tracked member. */
  predicate Counts(lobby: Lobby, tracked: set<int>) {
    Tracked(lobby.members, tracked) != [] && lobby.id.Some?
  }

  function LobbyWrites(lobbies: seq<Lobby>, tracked: set<int>, now: int): seq<Write> {
    if |lobbies| == 0 then []
    else if !Counts(Last(lobbies), tracked) then LobbyWrites(Init(lobbies), tracked, now)
    else LobbyWrites(Init(lobbies), tracked, now)
         + [LiveMatch(Last(lobbies).id.value, LiveRow(Last(lobbies), now))]
  }

  /** Every tracked member of every counted lobby, linked to its match. */
  function Links(lobbies: seq<Lobby>, tracked: set<int>): set<(int, int)> {
    if |lobbies| == 0 then {}
    else if !Counts(Last(lobbies), tracked) then Links(Init(lobbies), tracked)
    else Links(Init(lobbies), tracked)
         + set p | p in Tracked(Last(lobbies).members, tracked) :: (Last(lobbies).id.value, p)
  }

  /** A profile is linked to a match exactly if it is tracked and sits in a lobby of that match. */
  lemma {:induction false} LinksAre(lobbies: seq<Lobby>, tracked: set<int>, id: int, p: int)
    ensures (id, p) in Links(lobbies, tracked) <==>
      exists lobby :: lobby in lobbies && lobby.id == Some(id) && p in lobby.members && p in tracked
  {
    if |lobbies| > 0 {
      SplitLast(lobbies);
      LinksAre(Init(lobbies), tracked, id, p);
      var lobby := Last(lobbies);
      assert p in Tracked(lobby.members, tracked) <==> p in lobby.members && p in tracked;
    }
  }

  function LiveWrites(lobbies: seq<Lobby>, tracked: set<int>, now: int): seq<Write> {
    LobbyWrites(lobbies, tracked, now) + [LiveLinks(Links(lobbies, tracked))]
  }

  // ---- runs of ticks ----

  datatype Tick =
    | RecentTick(fetched: seq<Option<seq<RawMatch>>>, boards: map<int, int>, at: int)
    | LiveTick(lobbies: seq<Lobby>, tracked: set<int>, at: int)

  /** What a committed tick writes; a live tick that tracks nobody does nothing, and a match without a
      start time breaks a NOT NULL column and rolls the whole cycle back. */
  function Writes(t: Tick): seq<Write> {
    match t
    case RecentTick(fetched, boards, at) => if AllStorable(fetched) then RecentWrites(fetched, boards, at) else []
    case LiveTick(lobbies, tracked, at) => if tracked == {} then [] else LiveWrites(lobbies, tracked, at)
  }

  function AllWrites(ticks: seq<Tick>): seq<Write> {
    if |ticks| == 0 then [] else AllWrites(Init(ticks)) + Writes(Last(ticks))
  }

  function RunTicks(db: Db, ticks: seq<Tick>): Db {
    if |ticks| == 0 then db else ApplyAll(RunTicks(db, Init(ticks)), Writes(Last(ticks)))
  }

  lemma {:induction false} RunIsItsWrites(db: Db, ticks: seq<Tick>)
    ensures RunTicks(db, ticks) == ApplyAll(db, AllWrites(ticks))
  {
    if |ticks| > 0 {
      RunIsItsWrites(db, Init(ticks));
      ApplyAllAppend(db, AllWrites(Init(ticks)), Writes(Last(ticks)));
    }
  }

  // ---- completion wins ----

  /** The last authoritative write of a match. */
  function LastRecent(writes: seq<Write>, id: int): Option<Match> {
    if |writes| == 0 then None
    else if Last(writes).RecentMatch? && Last(writes).id == id then Some(Last(writes).row)
    else LastRecent(Init(writes), id)
  }

  /** Equal in every column a live observation may not touch. */
  predicate SameRecord(a: Match, b: Match) {
    a == b.(state := a.state, updatedAt := a.updatedAt)
  }

  /** Once a match has been reported by the history feed, no interleaving of live observations changes
      anything but its state, and if the last report completed it, nothing at all. */
  lemma {:induction false} LastReportStands(db: Db, writes: seq<Write>, id: int)
    requires LastRecent(writes, id).Some?
    ensures var row, last := Get(ApplyAll(db, writes).matches, id), LastRecent(writes, id).value;
      && row.Some? && SameRecord(row.value, last)
      && (last.completedAt.Some? ==> row.value == last)
  {
    if !(Last(writes).RecentMatch? && Last(writes).id == id) {
      LastReportStands(db, Init(writes), id);
    }
  }

  /** The authoritative writes of a run, in order. */
  function Reports(writes: seq<Write>): seq<Write> {
    if |writes| == 0 then []
    else if Last(writes).RecentMatch? then Reports(Init(writes)) + [Last(writes)]
    else Reports(Init(writes))
  }

  lemma {:induction false} LastRecentOfReports(writes: seq<Write>, id: int)
    ensures LastRecent(Reports(writes), id) == LastRecent(writes, id)
  {
    if |writes| > 0 {
      LastRecentOfReports(Init(writes), id);
      if Last(writes).RecentMatch? {
        assert Init(Reports(writes)) == Reports(Init(writes));
      }
    }
  }

  /** Completed rows are confluent: two runs with the same reports in the same order leave the same row
      for every match whose last report completed it, however live ticks fall between them. */
  lemma CompletedRowsConfluent(db: Db, db': Db, a: seq<Tick>, b: seq<Tick>, id: int)
    requires Reports(AllWrites(a)) == Reports(AllWrites(b))
    requires LastRecent(AllWrites(a), id).Some? && LastRecent(AllWrites(a), id).value.completedAt.Some?
    ensures Get(RunTicks(db, a).matches, id) == Get(RunTicks(db', b).matches, id) == LastRecent(AllWrites(a), id)
  {
    RunIsItsWrites(db, a);
    RunIsItsWrites(db', b);
    LastRecentOfReports(AllWrites(a), id);
    LastRecentOfReports(AllWrites(b), id);
    LastReportStands(db, AllWrites(a), id);
    LastReportStands(db', AllWrites(b), id);
  }

  // ---- invariants ----

  ghost predicate Paired(m: Match) {
    m.state.Completed? <==> m.completedAt.Some?
  }

  /** Completion time and completed state come together, and every live link names a stored match. */
  ghost predicate Sound(db: Db) {
    && (forall id :: id in db.matches ==> Paired(db.matches[id]))
    && (forall l :: l in db.live ==> l.0 in db.matches)
  }

  ghost predicate PairedWrite(w: Write) {
    && (w.RecentMatch? ==> Paired(w.row))
    && (w.LiveMatch? ==> Paired(w.row) && !w.row.state.Completed?)
  }

  lemma {:induction false} WritesKeepPairs(db: Db, writes: seq<Write>)
    requires forall id :: id in db.matches ==> Paired(db.matches[id])
    requires forall w :: w in writes ==> PairedWrite(w)
    ensures forall id :: id in ApplyAll(db, writes).matches ==> Paired(ApplyAll(db, writes).matches[id])
    ensures db.matches.Keys <= ApplyAll(db, writes).matches.Keys
  {
    if |writes| > 0 {
      SplitLast(writes);
      WritesKeepPairs(db, Init(writes));
      assert PairedWrite(Last(writes));
    }
  }

  lemma {:induction false} HistoryIsPaired(history: seq<RawMatch>, boards: map<int, int>, now: int)
    requires Storable(history)
    ensures forall w :: w in HistoryWrites(history, boards, now) ==> PairedWrite(w) && !w.LiveLinks?
  {
    MatchWritesPaired(history, boards, now);
    PlayerWritesPaired(history);
  }

  lemma {:induction false} MatchWritesPaired(history: seq<RawMatch>, boards: map<int, int>, now: int)
    requires Storable(history)
    ensures forall w :: w in MatchWrites(history, boards, now) ==> PairedWrite(w) && w.RecentMatch?
  {
    if |history| > 0 {
      SplitLast(history);
      MatchWritesPaired(Init(history), boards, now);
    }
  }

  lemma {:induction false} PlayerWritesPaired(history: seq<RawMatch>)
    ensures forall w :: w in PlayerWrites(history) ==> w.PlayerRow?
  {
    if |history| > 0 {
      PlayerWritesPaired(Init(history));
      ResultWritesPaired(Last(history).id, Last(history).results);
    }
  }

  lemma {:induction false} ResultWritesPaired(id: int, results: seq<(int, Played)>)
    ensures forall w :: w in ResultWrites(id, results) ==> w.PlayerRow?
  {
    if |results| > 0 {
      ResultWritesPaired(id, Init(results));
    }
  }

  lemma {:induction false} RecentIsPaired(fetched: seq<Option<seq<RawMatch>>>, boards: map<int, int>, now: int)
    requires AllStorable(fetched)
    ensures forall w :: w in RecentWrites(fetched, boards, now) ==> PairedWrite(w) && !w.LiveLinks?
  {
    if |fetched| > 0 {
      SplitLast(fetched);
      RecentIsPaired(Init(fetched), boards, now);
      if Last(fetched).Some? {
        HistoryIsPaired(Last(fetched).value, boards, now);
      }
    }
  }

  lemma {:induction false} LobbyWritesPaired(db: Db, lobbies: seq<Lobby>, tracked: set<int>, now: int)
    ensures forall w :: w in LobbyWrites(lobbies, tracked, now) ==> PairedWrite(w) && w.LiveMatch?
    ensures forall l :: l in Links(lobbies, tracked) ==> l.0 in ApplyAll(db, LobbyWrites(lobbies, tracked, now)).matches
    ensures ApplyAll(db, LobbyWrites(lobbies, tracked, now)).live == db.live
  {
    if |lobbies| > 0 {
      var front := LobbyWrites(Init(lobbies), tracked, now);
      LobbyWritesPaired(db, Init(lobbies), tracked, now);
      if Counts(Last(lobbies), tracked) {
        var w := LiveMatch(Last(lobbies).id.value, LiveRow(Last(lobbies), now));
        assert LobbyWrites(lobbies, tracked, now) == front + [w];
        assert Init(front + [w]) == front;
      } else {
        assert LobbyWrites(lobbies, tracked, now) == front;
      }
    }
  }

  lemma {:induction false} NoLinksWritten(db: Db, writes: seq<Write>)
    requires forall w :: w in writes ==> !w.LiveLinks?
    ensures ApplyAll(db, writes).live == db.live
  {
    if |writes| > 0 {
      SplitLast(writes);
      NoLinksWritten(db, Init(writes));
    }
  }

  /** In every run of live and recent ticks, in any order, a match is completed exactly when it has a
      completion time, and every live link names a stored match. */
  lemma {:induction false} RunKeepsSound(db: Db, ticks: seq<Tick>)
    requires Sound(db)
    ensures Sound(RunTicks(db, ticks))
  {
    if |ticks| > 0 {
      RunKeepsSound(db, Init(ticks));
      TickKeepsSound(RunTicks(db, Init(ticks)), Last(ticks));
    }
  }

  lemma TickKeepsSound(db: Db, t: Tick)
    requires Sound(db)
    ensures Sound(ApplyAll(db, Writes(t)))
  {
    match t
    case RecentTick(fetched, boards, at) =>
      if AllStorable(fetched) {
        RecentKeepsSound(db, RecentWrites(fetched, boards, at), fetched, boards, at);
      }
    case LiveTick(lobbies, tracked, at) =>
      if tracked != {} {
        LiveKeepsSound(db, lobbies, tracked, at);
      }
  }

  lemma RecentKeepsSound(db: Db, writes: seq<Write>, fetched: seq<Option<seq<RawMatch>>>, boards: map<int, int>,
                         at: int)
    requires Sound(db) && AllStorable(fetched) && writes == RecentWrites(fetched, boards, at)
    ensures Sound(ApplyAll(db, writes))
  {
    RecentIsPaired(fetched, boards, at);
    WritesKeepPairs(db, writes);
    NoLinksWritten(db, writes);
  }

  lemma LiveKeepsSound(db: Db, lobbies: seq<Lobby>, tracked: set<int>, at: int)
    requires Sound(db)
    ensures Sound(ApplyAll(db, LiveWrites(lobbies, tracked, at)))
  {
    var front := LobbyWrites(lobbies, tracked, at);
    LobbyWritesPaired(db, lobbies, tracked, at);
    WritesKeepPairs(db, front);
    assert Init(LiveWrites(lobbies, tracked, at)) == front;
  }

  // ---- player rows ----

  /** The first player row written for a (match, profile). */
  function FirstPlayed(writes: seq<Write>, id: int, profile: int): Option<Played> {
    if |writes| == 0 then None
    else
      var before := FirstPlayed(Init(writes), id, profile);
      var w := Last(writes);
      if before.Some? then before
      else if w.PlayerRow? && w.id == id && w.profile == profile then Some(w.played) else None
  }

  /** A player row never changes once written: it is the stored one, else the first one written. */
  lemma {:induction false} FirstPlayerRowStands(db: Db, writes: seq<Write>, id: int, profile: int)
    ensures Get(ApplyAll(db, writes).players, (id, profile))
         == if (id, profile) in db.players then Some(db.players[(id, profile)]) else FirstPlayed(writes, id, profile)
  {
    if |writes| > 0 {
      FirstPlayerRowStands(db, Init(writes), id, profile);
    }
  }
}
