/** When each management request is accepted, and what it leaves behind, row by row. */
module ManagementEffects {
  import opened Common
  import opened Management
  import opened ManagementSafety

  function Status(db: Db, user: string, tid: int, action: Action): int {
    Handled(db, Manage(user, tid, action)).1
  }

  function Left(db: Db, user: string, tid: int, action: Action): Db {
    Handled(db, Manage(user, tid, action)).0
  }

  /** The caller owns the tournament. */
  predicate Owner(db: Db, user: string, tid: int) {
    tid in db.tournaments && (tid, user) in db.owners
  }

  /** Without the tournament every write answers 404, and to anyone but its owners 403. */
  lemma OnlyOwnersPass(db: Db, user: string, tid: int, action: Action)
    ensures tid !in db.tournaments ==> Handled(db, Manage(user, tid, action)) == (db, 404)
    ensures tid in db.tournaments && (tid, user) !in db.owners ==> Handled(db, Manage(user, tid, action)) == (db, 403)
  {
  }

  // ---- tournaments ----

  predicate LowerOrDigit(c: char) {
    97 <= c as int <= 122 || 48 <= c as int <= 57
  }

  /** A slug is allowed exactly if it is not "current" and has 1 to 64 lower-case letters, digits and hyphens, with
      no hyphen at either end. */
  lemma SlugIff(slug: string)
    ensures SlugAllowed(slug) <==>
      && slug != "current" && 0 < |slug| < 65 && slug[0] != '-' && slug[|slug| - 1] != '-'
      && forall c :: c in slug ==> LowerOrDigit(c) || c == '-'
  {
    if 0 < |slug| < 65 && forall c :: c in slug ==> LowerOrDigit(c) || c == '-' {
      assert forall i :: 0 <= i < |slug| ==> slug[i] in slug;
    }
  }

  /** The ladders the service can rank. */
  predicate RankedBoard(db: Db, board: int) {
    board in {1, 2, 3, 4, 13, 14} && Get(db.boards, board) == Some(true)
  }

  /** The tournaments a user owns. */
  function Owned(db: Db, user: string): set<int> {
    set o | o in db.owners && o.1 == user :: o.0
  }

  lemma OwnedCount(db: Db, user: string)
    ensures |OwnedBy(db, user)| == |Owned(db, user)|
  {
    PairsCount(OwnedBy(db, user), Owned(db, user), user);
  }

  lemma {:induction false} PairsCount(pairs: set<(int, string)>, ids: set<int>, user: string)
    requires forall o :: o in pairs ==> o.1 == user
    requires ids == set o | o in pairs :: o.0
    ensures |pairs| == |ids|
    decreases |pairs|
  {
    if o :| o in pairs {
      var rest := pairs - {o};
      assert o.0 !in (set x | x in rest :: x.0);
      assert ids == (set x | x in rest :: x.0) + {o.0};
      PairsCount(rest, set x | x in rest :: x.0, user);
    } else {
      assert pairs == {} && ids == {};
    }
  }

  /** A creation is accepted exactly for a listed creator of fewer than ten tournaments, a free allowed slug, a window
      in order and a ranked ladder; it leaves the tournament under the next id, owned by its creator, and changes
      nothing else. */
  lemma CreateEffect(db: Db, user: string, t: Tournament)
    ensures var (db', status) := Handled(db, Create(user, t));
      && (status == 201 <==>
            && SlugAllowed(t.slug) && user in db.creators && |Owned(db, user)| < 10
            && (t.start.Some? && t.end.Some? ==> t.start.value <= t.end.value) && RankedBoard(db, t.leaderboard)
            && forall u :: u in db.tournaments ==> db.tournaments[u].slug != t.slug)
      && (status == 201 ==>
            db' == db.(tournaments := db.tournaments[db.nextTournament := t],
                       owners := db.owners + {(db.nextTournament, user)}, nextTournament := db.nextTournament + 1))
      && (status != 201 ==> db' == db)
      && (status == 403 <==> SlugAllowed(t.slug) && user !in db.creators)
      && (status == 409 ==> exists u :: u in db.tournaments && db.tournaments[u].slug == t.slug)
      && status in {201, 403, 409, 422}
  {
    OwnedCount(db, user);
  }

  /** Every tournament of every run was created by a user who was on the list then and owned fewer than ten, on a
      ladder that was ranked then, and under the slug it still has. */
  lemma {:induction false} EveryTournamentCreated(creators: set<string>, boards: map<int, bool>, requests: seq<Request>,
                                                  tid: int)
    returns (k: nat)
    requires tid in After(Empty(creators, boards), requests).tournaments
    ensures k < |requests| && requests[k].Create?
    ensures var db := After(Empty(creators, boards), requests[..k]);
      && tid == db.nextTournament && requests[k].user in db.creators && |Owned(db, requests[k].user)| < 10
      && RankedBoard(db, requests[k].tournament.leaderboard)
      && After(Empty(creators, boards), requests).tournaments[tid].slug == requests[k].tournament.slug
  {
    var front := Init(requests);
    var before := After(Empty(creators, boards), front);
    RunKeepsSound(creators, boards, front);
    var r := Last(requests);
    if r.Create? {
      CreateEffect(before, r.user, r.tournament);
    } else if r.Manage? {
      TournamentKept(before, r.user, r.tid, r.action, tid);
    }
    if tid in before.tournaments {
      assert tid < before.nextTournament;
      k := EveryTournamentCreated(creators, boards, front, tid);
      assert requests[..k] == front[..k];
    } else {
      k := |requests| - 1;
      assert requests[..k] == front;
    }
  }

  /** No request but a creation adds a tournament, and none changes a slug. */
  lemma TournamentKept(db: Db, user: string, tid: int, action: Action, u: int)
    requires u in Left(db, user, tid, action).tournaments
    ensures u in db.tournaments && Left(db, user, tid, action).tournaments[u].slug == db.tournaments[u].slug
  {
    if Owner(db, user, tid) {
      if action.AddPlayer? || action.UpdatePlayer? || action.RemovePlayer? || action.GrantOwner?
         || action.RevokeOwner? {
        RosterActionTournaments(db, tid, action);
      } else if action.CreateTeam? || action.UpdateTeam? || action.DeleteTeam? {
        TeamActionTournaments(db, tid, action);
      } else if action.AddMember? || action.RemoveMember? || action.SetCaptain? || action.ClearCaptain? {
        MemberActionTournaments(db, tid, action);
      }
    }
  }

  lemma RosterActionTournaments(db: Db, tid: int, action: Action)
    requires tid in db.tournaments
    requires action.AddPlayer? || action.UpdatePlayer? || action.RemovePlayer? || action.GrantOwner?
             || action.RevokeOwner?
    ensures Acted(db, tid, action).0.tournaments == db.tournaments
  {
  }

  lemma TeamActionTournaments(db: Db, tid: int, action: Action)
    requires tid in db.tournaments && (action.CreateTeam? || action.UpdateTeam? || action.DeleteTeam?)
    ensures Acted(db, tid, action).0.tournaments == db.tournaments
  {
  }

  lemma MemberActionTournaments(db: Db, tid: int, action: Action)
    requires tid in db.tournaments
    requires action.AddMember? || action.RemoveMember? || action.SetCaptain? || action.ClearCaptain?
    ensures Acted(db, tid, action).0.tournaments == db.tournaments
  {
  }

  /** An update is accepted exactly if a ladder it gives is ranked and the window comes out in order; it sets exactly
      the fields it gives. */
  lemma UpdateEffect(db: Db, user: string, tid: int, p: Patch)
    requires Owner(db, user, tid)
    ensures var t, db' := db.tournaments[tid], Left(db, user, tid, UpdateTournament(p));
      var start, end := if p.start.Some? then p.start.value else t.start, if p.end.Some? then p.end.value else t.end;
      var status := Status(db, user, tid, UpdateTournament(p));
      && (status == 200 <==>
            && (p.leaderboard.Some? ==> RankedBoard(db, p.leaderboard.value))
            && (start.Some? && end.Some? ==> start.value <= end.value))
      && (status == 200 ==>
            && db' == db.(tournaments := db'.tournaments) && db'.tournaments.Keys == db.tournaments.Keys
            && (forall u :: u in db.tournaments && u != tid ==> db'.tournaments[u] == db.tournaments[u])
            && var t' := db'.tournaments[tid];
            && t'.start == start && t'.end == end && t'.slug == t.slug
            && (p.name.Some? ==> t'.name == p.name.value) && (p.name.None? ==> t'.name == t.name)
            && (p.leaderboard.Some? ==> t'.leaderboard == p.leaderboard.value)
            && (p.leaderboard.None? ==> t'.leaderboard == t.leaderboard)
            && (p.rankBy.Some? ==> t'.rankBy == p.rankBy.value) && (p.rankBy.None? ==> t'.rankBy == t.rankBy))
      && (status != 200 ==> status == 422 && db' == db)
  {
  }

  /** A deletion is always accepted and keeps exactly what belongs to other tournaments. */
  lemma DeleteEffect(db: Db, user: string, tid: int)
    requires Owner(db, user, tid)
    ensures var db' := Left(db, user, tid, DeleteTournament);
      && Status(db, user, tid, DeleteTournament) == 204
      && (forall u :: Get(db'.tournaments, u) == if u == tid then None else Get(db.tournaments, u))
      && (forall o :: o in db'.owners <==> o in db.owners && o.0 != tid)
      && (forall e :: Get(db'.roster, e) == if OnRoster(db, tid, e) then None else Get(db.roster, e))
      && (forall u :: Get(db'.teams, u) == if TeamOf(db, tid, u) then None else Get(db.teams, u))
      && (forall m :: m in db'.members ==> m in db.members && db'.members[m] == db.members[m])
      && (forall m :: m in db.members ==>
            (m in db'.members <==> m.0 in db.teams && !TeamOf(db, tid, m.0)
                                   && m.1 in db.roster && !OnRoster(db, tid, m.1)))
  {
  }

  /** The operator's lists are replaced as a whole, and nothing else is. */
  lemma ConfigureEffect(db: Db, creators: set<string>, boards: map<int, bool>)
    ensures Handled(db, Configure(creators, boards)) == (db.(creators := creators, boards := boards), 204)
  {
  }

  // ---- owners ----

  lemma GrantEffect(db: Db, user: string, tid: int, grantee: string)
    requires Owner(db, user, tid)
    ensures Handled(db, Manage(user, tid, GrantOwner(grantee)))
      == if (tid, grantee) in db.owners then (db, 409) else (db.(owners := db.owners + {(tid, grantee)}), 204)
  {
  }

  /** Revoking is accepted exactly for an owner beside whom another one is left. */
  lemma RevokeEffect(db: Db, user: string, tid: int, revoked: string)
    requires Owner(db, user, tid)
    ensures var status := Status(db, user, tid, RevokeOwner(revoked));
      && (status == 204 <==>
            (tid, revoked) in db.owners && exists other :: other != revoked && (tid, other) in db.owners)
      && Left(db, user, tid, RevokeOwner(revoked))
         == (if status == 204 then db.(owners := db.owners - {(tid, revoked)}) else db)
      && ((tid, revoked) !in db.owners ==> status == 404)
      && ((tid, revoked) in db.owners && status != 204 ==> status == 422)
  {
    var holders := OwnersOf(db, tid);
    if (tid, revoked) in db.owners {
      if |holders| > 1 {
        var other := AnotherOwner(db, tid, revoked);
      } else if other :| other != revoked && (tid, other) in db.owners {
        TwoOfThem(holders, (tid, revoked), (tid, other));
      }
    }
  }

  lemma TwoOfThem(s: set<(int, string)>, x: (int, string), y: (int, string))
    requires x in s && y in s && x != y
    ensures |s| > 1
  {
    assert y in s - {x};
    assert |s - {x}| == |s| - 1;
  }

  // ---- roster ----

  /** A row is added exactly while the roster has fewer than a hundred, for a profile nobody on it is linked to and a
      name nobody on it has. */
  lemma AddPlayerEffect(db: Db, user: string, tid: int, name: string, profile: Option<int>)
    requires Owner(db, user, tid)
    ensures var rows := set e | e in db.roster && db.roster[e].tid == tid;
      var status := Status(db, user, tid, AddPlayer(name, profile));
      && (status == 204 <==>
            |rows| < 100 && forall e :: e in rows ==>
              db.roster[e].name != name && (profile.Some? ==> db.roster[e].profile != profile))
      && (status == 204 ==>
            Left(db, user, tid, AddPlayer(name, profile))
              == db.(roster := db.roster[db.nextEntry := Entry(tid, profile, name)], nextEntry := db.nextEntry + 1))
      && (status != 204 ==> Left(db, user, tid, AddPlayer(name, profile)) == db)
      && (status != 204 ==> status == if |rows| >= 100 then 422 else 409)
  {
    assert RosterOf(db, tid) == set e | e in db.roster && db.roster[e].tid == tid;
  }

  /** A link is stored exactly on an unlinked row of the roster, for a profile nobody on it is linked to; an update
      without a link leaves the row. */
  lemma LinkEffect(db: Db, user: string, tid: int, entry: int, link: Option<int>)
    requires Owner(db, user, tid)
    ensures var status := Status(db, user, tid, UpdatePlayer(entry, link));
      var db' := Left(db, user, tid, UpdatePlayer(entry, link));
      && (status == 204 <==>
            && entry in db.roster && db.roster[entry].tid == tid
            && (link.Some? ==>
                  && db.roster[entry].profile.None?
                  && forall e :: e in db.roster && db.roster[e].tid == tid ==> db.roster[e].profile != link))
      && (status == 204 && link.Some? ==>
            db' == db.(roster := db.roster[entry := Entry(tid, link, db.roster[entry].name)]))
      && (status == 204 && link.None? ==> db' == db)
      && (status != 204 ==>
            && db' == db
            && status == if entry !in db.roster || db.roster[entry].tid != tid then 404
                         else if db.roster[entry].profile.Some? then 422 else 409)
  {
  }

  /** Removing a row of the roster takes it and its memberships, and nothing else. */
  lemma RemovePlayerEffect(db: Db, user: string, tid: int, entry: int)
    requires Owner(db, user, tid) && MembersRostered(db.members, db.teams, db.roster)
    ensures var status, db' := Status(db, user, tid, RemovePlayer(entry)), Left(db, user, tid, RemovePlayer(entry));
      && (status == 204 <==> entry in db.roster && db.roster[entry].tid == tid)
      && (status != 204 ==> status == 404 && db' == db)
      && (status == 204 ==>
            && db' == db.(roster := db'.roster, members := db'.members)
            && (forall e :: Get(db'.roster, e) == if e == entry then None else Get(db.roster, e))
            && (forall m :: Get(db'.members, m) == if m.1 == entry then None else Get(db.members, m)))
  {
  }

  // ---- teams ----

  lemma CreateTeamEffect(db: Db, user: string, tid: int, name: string, initials: string)
    requires Owner(db, user, tid)
    ensures Handled(db, Manage(user, tid, CreateTeam(name, initials)))
      == (db.(teams := db.teams[db.nextTeam := Team(tid, name, initials)], nextTeam := db.nextTeam + 1), 201)
  {
  }

  /** A team of the tournament takes exactly the fields given. */
  lemma UpdateTeamEffect(db: Db, user: string, tid: int, team: int, name: Option<string>, initials: Option<string>)
    requires Owner(db, user, tid)
    ensures var action := UpdateTeam(team, name, initials);
      var status, db' := Status(db, user, tid, action), Left(db, user, tid, action);
      && (status == 200 <==> team in db.teams && db.teams[team].tid == tid)
      && (status != 200 ==> status == 404 && db' == db)
      && (status == 200 ==>
            && db' == db.(teams := db'.teams) && db'.teams.Keys == db.teams.Keys
            && (forall u :: u in db.teams && u != team ==> db'.teams[u] == db.teams[u])
            && db'.teams[team].tid == tid
            && (name.Some? ==> db'.teams[team].name == name.value)
            && (name.None? ==> db'.teams[team].name == db.teams[team].name)
            && (initials.Some? ==> db'.teams[team].initials == initials.value)
            && (initials.None? ==> db'.teams[team].initials == db.teams[team].initials))
  {
  }

  /** Deleting a team of the tournament takes it and its memberships, and nothing else. */
  lemma DeleteTeamEffect(db: Db, user: string, tid: int, team: int)
    requires Owner(db, user, tid) && MembersRostered(db.members, db.teams, db.roster)
    ensures var status, db' := Status(db, user, tid, DeleteTeam(team)), Left(db, user, tid, DeleteTeam(team));
      && (status == 204 <==> team in db.teams && db.teams[team].tid == tid)
      && (status != 204 ==> status == 404 && db' == db)
      && (status == 204 ==>
            && db' == db.(teams := db'.teams, members := db'.members)
            && (forall u :: Get(db'.teams, u) == if u == team then None else Get(db.teams, u))
            && (forall m :: Get(db'.members, m) == if m.0 == team then None else Get(db.members, m)))
  {
  }

  /** A member is added, without the captaincy, exactly from the roster to a team of the tournament it is not on. */
  lemma AddMemberEffect(db: Db, user: string, tid: int, team: int, entry: int)
    requires Owner(db, user, tid)
    ensures var status := Status(db, user, tid, AddMember(team, entry));
      var db' := Left(db, user, tid, AddMember(team, entry));
      && (status == 204 <==>
            && team in db.teams && db.teams[team].tid == tid && entry in db.roster && db.roster[entry].tid == tid
            && (team, entry) !in db.members)
      && (status == 204 ==> db' == db.(members := db.members[(team, entry) := false]))
      && (status != 204 ==> db' == db && status == if TeamOf(db, tid, team) && (team, entry) in db.members
                                                     && OnRoster(db, tid, entry) then 409 else 404)
  {
  }

  /** A membership is removed exactly if it is there and the team is the tournament's. */
  lemma RemoveMemberEffect(db: Db, user: string, tid: int, team: int, entry: int)
    requires Owner(db, user, tid)
    ensures var status := Status(db, user, tid, RemoveMember(team, entry));
      var db' := Left(db, user, tid, RemoveMember(team, entry));
      && (status == 204 <==> team in db.teams && db.teams[team].tid == tid && (team, entry) in db.members)
      && (status == 204 ==> db' == db.(members := db.members - {(team, entry)}))
      && (status != 204 ==> db' == db && status == 404)
  {
  }

  /** A captain is named exactly among the members of a team of the tournament: they alone captain it then. */
  lemma SetCaptainEffect(db: Db, user: string, tid: int, team: int, entry: int)
    requires Owner(db, user, tid) && OneCaptain(db.members)
    ensures var status := Status(db, user, tid, SetCaptain(team, entry));
      var db' := Left(db, user, tid, SetCaptain(team, entry));
      && (status == 204 <==> team in db.teams && db.teams[team].tid == tid && (team, entry) in db.members)
      && (status != 204 ==> db' == db && status == 404)
      && (status == 204 ==>
            && db' == db.(members := db'.members) && db'.members.Keys == db.members.Keys
            && forall m :: m in db.members ==>
                 (db'.members[m] <==> if m.0 == team then m.1 == entry else db.members[m]))
  {
  }

  /** Clearing leaves a team of the tournament without a captain and the other teams alone. */
  lemma ClearCaptainEffect(db: Db, user: string, tid: int, team: int)
    requires Owner(db, user, tid)
    ensures var status, db' := Status(db, user, tid, ClearCaptain(team)), Left(db, user, tid, ClearCaptain(team));
      && (status == 204 <==> team in db.teams && db.teams[team].tid == tid)
      && (status != 204 ==> db' == db && status == 404)
      && (status == 204 ==>
            && db' == db.(members := db'.members) && db'.members.Keys == db.members.Keys
            && forall m :: m in db.members ==> (db'.members[m] <==> db.members[m] && m.0 != team))
  {
  }
}
