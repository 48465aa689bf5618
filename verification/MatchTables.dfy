/** The match tables as the pollers write them in place, and the scope a live tick stamps on its nudge. */
module MatchTables {
  import opened Common
  import opened MatchIngest
  import opened Scopes
  import Nudges

  // ---- the profiles of a tick ----

  /** The profiles on live links. */
  function LiveProfiles(live: set<(int, int)>): set<int> {
    set l | l in live :: l.1
  }

  function FetchedOk(profiles: seq<int>, fetched: seq<Option<seq<RawMatch>>>): set<int>
    requires |profiles| == |fetched|
  {
    set i | 0 <= i < |fetched| && fetched[i].Some? :: profiles[i]
  }

  // ---- the tables ----

  class Tables {
    var matches: map<int, Match>
    var players: map<(int, int), Played>
    var live: set<(int, int)>

    constructor ()
      ensures State() == Db(map[], map[], {})
    {
      matches, players, live := map[], map[], {};
    }

    function State(): Db
      reads this
    {
      Db(matches, players, live)
    }

    method UpsertMatchFromRecent(id: int, row: Match)
      modifies this`matches
      ensures State() == Apply(old(State()), RecentMatch(id, row))
    {
      matches := matches[id := row];
    }

    /** Inserts, or updates the state alone where no completion time is set. */
    method UpsertMatchFromLive(id: int, row: Match)
      modifies this`matches
      ensures State() == Apply(old(State()), LiveMatch(id, row))
    {
      if id !in matches {
        matches := matches[id := row];
      } else if matches[id].completedAt.None? {
        matches := matches[id := matches[id].(state := row.state, updatedAt := row.updatedAt)];
      }
    }

    method UpsertMatchPlayer(id: int, profile: int, played: Played)
      modifies this`players
      ensures State() == Apply(old(State()), PlayerRow(id, profile, played))
    {
      if (id, profile) !in players {
        players := players[(id, profile) := played];
      }
    }

    method ReplaceLiveMatchPlayers(links: set<(int, int)>)
      modifies this`live
      ensures State() == Apply(old(State()), LiveLinks(links))
    {
      live := {};
      live := live + links;
    }

    method StoreLobbies(lobbies: seq<Lobby>, tracked: set<int>, now: int)
      modifies this`matches
      ensures State() == ApplyAll(old(State()), LobbyWrites(lobbies, tracked, now))
    {
      ghost var before := State();
      for i := 0 to |lobbies|
        invariant State() == ApplyAll(before, LobbyWrites(lobbies[..i], tracked, now))
      {
        assert Init(lobbies[..i + 1]) == lobbies[..i];
        if Counts(lobbies[i], tracked) {
          ghost var done := LobbyWrites(lobbies[..i], tracked, now);
          var row := LiveRow(lobbies[i], now);
          UpsertMatchFromLive(lobbies[i].id.value, row);
          ghost var w := MatchIngest.LiveMatch(lobbies[i].id.value, row);
          assert Init(done + [w]) == done;
        }
      }
      assert lobbies[..|lobbies|] == lobbies;
    }

    method StoreLive(lobbies: seq<Lobby>, tracked: set<int>, now: int)
      modifies this
      ensures State() == ApplyAll(old(State()), LiveWrites(lobbies, tracked, now))
    {
      StoreLobbies(lobbies, tracked, now);
      ReplaceLiveMatchPlayers(MatchIngest.Links(lobbies, tracked));
      assert Init(LiveWrites(lobbies, tracked, now)) == LobbyWrites(lobbies, tracked, now);
    }

    /** One live cycle; answers with the nudge it emits, scoped over who was live before or is live now. A cycle
        that tracks nobody does nothing. */
    method TickLiveMatches(lobbies: seq<Lobby>, tracked: set<int>, roster: seq<RosterLink>, now: int)
      returns (nudge: Option<Nudges.Nudge>)
      modifies this
      ensures State() == ApplyAll(old(State()), Writes(LiveTick(lobbies, tracked, now)))
      ensures nudge == if tracked == {} then None
        else Some(Nudges.Nudge("live", now, ScopeOf(roster, LiveProfiles(old(live)) + LiveProfiles(live))))
    {
      if tracked == {} {
        return None;
      }
      var previousLive := LiveProfiles(live);
      StoreLive(lobbies, tracked, now);
      var liveProfiles := LiveProfiles(live);
      nudge := Some(Nudges.Nudge("live", now, ScopeOf(roster, previousLive + liveProfiles)));
    }

    /** Stores one profile's fetched history: all matches, then all player rows. */
    method StoreHistory(history: seq<RawMatch>, boards: map<int, int>, now: int)
      requires Storable(history)
      modifies this
      ensures State() == ApplyAll(old(State()), HistoryWrites(history, boards, now))
    {
      ghost var before := State();
      for i := 0 to |history|
        invariant State() == ApplyAll(before, MatchWrites(history[..i], boards, now))
      {
        assert Init(history[..i + 1]) == history[..i] && history[i] in history;
        ghost var done := MatchWrites(history[..i], boards, now);
        var row := RecentRow(history[i], boards, now);
        UpsertMatchFromRecent(history[i].id, row);
        assert Init(done + [RecentMatch(history[i].id, row)]) == done;
      }
      assert history[..|history|] == history;
      ghost var matched := State();
      for i := 0 to |history|
        invariant State() == ApplyAll(matched, PlayerWrites(history[..i]))
      {
        assert Init(history[..i + 1]) == history[..i];
        StoreResults(history[i].id, history[i].results);
        ApplyAllAppend(matched, PlayerWrites(history[..i]), ResultWrites(history[i].id, history[i].results));
      }
      ApplyAllAppend(before, MatchWrites(history, boards, now), PlayerWrites(history));
    }

    method StoreResults(id: int, results: seq<(int, Played)>)
      modifies this`players
      ensures State() == ApplyAll(old(State()), ResultWrites(id, results))
    {
      ghost var before := State();
      for j := 0 to |results|
        invariant State() == ApplyAll(before, ResultWrites(id, results[..j]))
      {
        assert Init(results[..j + 1]) == results[..j];
        ghost var done := ResultWrites(id, results[..j]);
        UpsertMatchPlayer(id, results[j].0, results[j].1);
        assert Init(done + [PlayerRow(id, results[j].0, results[j].1)]) == done;
      }
      assert results[..|results|] == results;
    }

    lemma RecentOneMore(fetched: seq<Option<seq<RawMatch>>>, i: nat, boards: map<int, int>, now: int)
      requires i < |fetched| && AllStorable(fetched[..i])
      ensures AllStorable(fetched[..i + 1]) <==> (fetched[i].Some? ==> Storable(fetched[i].value))
      ensures AllStorable(fetched[..i + 1]) ==>
        RecentWrites(fetched[..i + 1], boards, now)
          == RecentWrites(fetched[..i], boards, now)
           + if fetched[i].None? then [] else HistoryWrites(fetched[i].value, boards, now)
    {
      assert fetched[..i + 1] == fetched[..i] + [fetched[i]] && Init(fetched[..i + 1]) == fetched[..i];
      assert fetched[i] in fetched[..i + 1];
    }

    method StoreFetched(fetched: seq<Option<seq<RawMatch>>>, boards: map<int, int>, now: int)
      returns (committed: bool)
      modifies this
      ensures committed <==> AllStorable(fetched)
      ensures State() == ApplyAll(old(State()), Writes(RecentTick(fetched, boards, now)))
    {
      var before := State();
      for i := 0 to |fetched|
        invariant AllStorable(fetched[..i])
        invariant State() == ApplyAll(before, RecentWrites(fetched[..i], boards, now))
      {
        RecentOneMore(fetched, i, boards, now);
        ghost var done := RecentWrites(fetched[..i], boards, now);
        if fetched[i].None? {
          assert done + [] == done;
          continue;
        }
        if !Storable(fetched[i].value) {
          assert fetched[i] in fetched;
          matches, players, live := before.matches, before.players, before.live;
          return false;
        }
        StoreHistory(fetched[i].value, boards, now);
        ApplyAllAppend(before, done, HistoryWrites(fetched[i].value, boards, now));
      }
      assert fetched[..|fetched|] == fetched;
      committed := true;
    }

    /** One history cycle over the tracked profiles; answers with the nudge it emits, scoped over the profiles
        whose fetch succeeded. A failed fetch is skipped; a match without a start time rolls everything back. */
    method TickRecentMatches(profiles: seq<int>, fetched: seq<Option<seq<RawMatch>>>, boards: map<int, int>,
                             roster: seq<RosterLink>, now: int)
      returns (nudge: Option<Nudges.Nudge>)
      requires |profiles| == |fetched|
      modifies this
      ensures State() == ApplyAll(old(State()), Writes(RecentTick(fetched, boards, now)))
      ensures nudge == if profiles == [] || !AllStorable(fetched) then None
        else Some(Nudges.Nudge("matches", now, ScopeOf(roster, FetchedOk(profiles, fetched))))
    {
      if |profiles| == 0 {
        return None;
      }
      var committed := StoreFetched(fetched, boards, now);
      if !committed {
        return None;
      }
      nudge := Some(Nudges.Nudge("matches", now, ScopeOf(roster, FetchedOk(profiles, fetched))));
    }
  }

  /** A history cycle's scope names exactly the tournaments whose roster links a profile whose fetch succeeded. */
  lemma HistoryScopeIs(profiles: seq<int>, fetched: seq<Option<seq<RawMatch>>>, roster: seq<RosterLink>, t: int)
    requires |profiles| == |fetched|
    ensures var scope := ScopeOf(roster, FetchedOk(profiles, fetched));
      (scope.Some? && t in scope.value) <==>
        exists l, i :: l in roster && l.tournament == t && 0 <= i < |profiles| && l.profile == Some(profiles[i])
                       && fetched[i].Some?
  {
    TournamentsAre(roster, FetchedOk(profiles, fetched), t);
    if l, i :| l in roster && l.tournament == t && 0 <= i < |profiles| && l.profile == Some(profiles[i])
               && fetched[i].Some? {
      assert profiles[i] in FetchedOk(profiles, fetched);
      assert Scopes.Links(l, FetchedOk(profiles, fetched));
    }
  }

  // ---- a live tick's scope is sound ----

  ghost predicate LiveIn(db: Db, profile: int, id: int) {
    (id, profile) in db.live && id in db.matches && !db.matches[id].state.Completed?
  }

  /** The match a profile is shown in: of its live links the one with the greatest id. */
  ghost predicate ShownIn(db: Db, profile: int, id: Option<int>) {
    if id.None? then forall m :: !LiveIn(db, profile, m)
    else LiveIn(db, profile, id.value) && forall m :: LiveIn(db, profile, m) ==> m <= id.value
  }

  /** If a tick changes the match any entrant of a tournament is shown in, or whether they are in one,
      the stored scope is not null and names that tournament. */
  lemma ScopeCoversChanges(before: Db, after: Db, roster: seq<RosterLink>, l: RosterLink,
                           shown: Option<int>, shown': Option<int>)
    requires l in roster && l.profile.Some?
    requires ShownIn(before, l.profile.value, shown) && ShownIn(after, l.profile.value, shown')
    requires shown != shown'
    ensures var scope := ScopeOf(roster, LiveProfiles(before.live) + LiveProfiles(after.live));
      scope.Some? && l.tournament in scope.value
  {
    var p := l.profile.value;
    if shown.Some? {
      assert (shown.value, p) in before.live;
    } else {
      assert (shown'.value, p) in after.live;
    }
    var profiles := LiveProfiles(before.live) + LiveProfiles(after.live);
    assert Scopes.Links(l, profiles);
    TournamentsAre(roster, profiles, l.tournament);
  }
}
