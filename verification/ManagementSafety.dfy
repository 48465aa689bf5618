/** What every sequence of management requests keeps, refused requests and cascading deletes included. */
module ManagementSafety {
  import opened Common
  import opened Management

  // ---- the invariants, table by table ----

  ghost predicate SlugsRoute(tournaments: map<int, Tournament>) {
    && (forall t :: t in tournaments ==> SlugAllowed(tournaments[t].slug))
    && (forall t, u :: t in tournaments && u in tournaments && tournaments[t].slug == tournaments[u].slug ==> t == u)
  }

  ghost predicate WindowsOk(tournaments: map<int, Tournament>) {
    forall t :: t in tournaments ==> WindowOk(tournaments[t])
  }

  ghost predicate EachOwned(tournaments: set<int>, owners: set<(int, string)>) {
    forall t :: t in tournaments ==> exists user :: (t, user) in owners
  }

  ghost predicate NamesDistinct(roster: map<int, Entry>) {
    forall e, f ::
      e in roster && f in roster && roster[e].tid == roster[f].tid && roster[e].name == roster[f].name ==> e == f
  }

  ghost predicate ProfilesDistinct(roster: map<int, Entry>) {
    forall e, f ::
      (e in roster && f in roster && roster[e].tid == roster[f].tid
       && roster[e].profile.Some? && roster[e].profile == roster[f].profile) ==> e == f
  }

  function RowsOf(roster: map<int, Entry>, tid: int): set<int> {
    set e | e in roster && roster[e].tid == tid
  }

  ghost predicate RostersSmall(roster: map<int, Entry>) {
    forall t :: |RowsOf(roster, t)| <= MAX_ROSTER_ROWS
  }

  /** Members come from their team's own roster. */
  ghost predicate MembersRostered(members: map<(int, int), bool>, teams: map<int, Team>, roster: map<int, Entry>) {
    forall m :: m in members ==> m.0 in teams && m.1 in roster && teams[m.0].tid == roster[m.1].tid
  }

  ghost predicate OneCaptain(members: map<(int, int), bool>) {
    forall m, n :: m in members && n in members && m.0 == n.0 && members[m] && members[n] ==> m == n
  }

  /** The foreign keys to tournaments hold, and the sequences are ahead of every id in use. */
  ghost predicate OwnersRefer(owners: set<(int, string)>, tournaments: set<int>) {
    forall o :: o in owners ==> o.0 in tournaments
  }

  ghost predicate RosterRefers(roster: map<int, Entry>, tournaments: set<int>) {
    forall e :: e in roster ==> roster[e].tid in tournaments
  }

  ghost predicate TeamsRefer(teams: map<int, Team>, tournaments: set<int>) {
    forall t :: t in teams ==> teams[t].tid in tournaments
  }

  ghost predicate Below(ids: set<int>, next: int) {
    forall id :: id in ids ==> id < next
  }

  ghost predicate Sound(db: Db) {
    && SlugsRoute(db.tournaments) && WindowsOk(db.tournaments) && EachOwned(db.tournaments.Keys, db.owners)
    && OwnersRefer(db.owners, db.tournaments.Keys) && RosterRefers(db.roster, db.tournaments.Keys)
    && TeamsRefer(db.teams, db.tournaments.Keys)
    && Below(db.tournaments.Keys, db.nextTournament) && Below(db.roster.Keys, db.nextEntry)
    && Below(db.teams.Keys, db.nextTeam)
    && NamesDistinct(db.roster) && ProfilesDistinct(db.roster) && RostersSmall(db.roster)
    && MembersRostered(db.members, db.teams, db.roster) && OneCaptain(db.members)
  }

  // ---- one request ----

  lemma CreatedSound(db: Db, user: string, t: Tournament)
    requires Sound(db)
    ensures Sound(Created(db, user, t).0)
  {
  }

  lemma UpdatedSound(db: Db, tid: int, p: Patch)
    requires Sound(db) && tid in db.tournaments
    ensures Sound(Updated(db, tid, p).0)
  {
  }

  lemma FewerRows(roster: map<int, Entry>, fewer: map<int, Entry>)
    requires RostersSmall(roster) && (forall e :: e in fewer ==> e in roster && roster[e].tid == fewer[e].tid)
    ensures RostersSmall(fewer)
  {
    forall t ensures |RowsOf(fewer, t)| <= MAX_ROSTER_ROWS {
      assert forall e :: e in RowsOf(fewer, t) ==> e in roster && roster[e].tid == t;
      Subset(RowsOf(fewer, t), RowsOf(roster, t));
    }
  }

  lemma Subset(a: set<int>, b: set<int>)
    requires a <= b
    ensures |a| <= |b|
  {
    assert b == a + (b - a);
    assert |b| == |a| + |b - a|;
  }

  lemma DeletedSound(db: Db, tid: int)
    requires Sound(db)
    ensures Sound(Deleted(db, tid))
  {
    var db' := Deleted(db, tid);
    FewerRows(db.roster, db'.roster);
    forall u | u in db'.tournaments ensures exists user :: (u, user) in db'.owners {
      var user :| (u, user) in db.owners;
      assert (u, user) in db'.owners;
    }
  }

  lemma GrantedSound(db: Db, tid: int, user: string)
    requires Sound(db) && tid in db.tournaments
    ensures Sound(Granted(db, tid, user).0)
  {
  }

  /** The guard of the delete: another owner is left. */
  lemma AnotherOwner(db: Db, tid: int, user: string) returns (other: string)
    requires |OwnersOf(db, tid)| > 1
    ensures other != user && (tid, other) in db.owners
  {
    var rest := OwnersOf(db, tid) - {(tid, user)};
    if rest == {} {
      Subsingle(OwnersOf(db, tid), (tid, user));
    }
    assert exists o :: o in rest;
    var o :| o in rest;
    other := o.1;
  }

  lemma Subsingle(s: set<(int, string)>, x: (int, string))
    requires s - {x} == {}
    ensures |s| <= 1
  {
    if x in s {
      assert s == {x};
    } else {
      assert s == {};
    }
  }

  lemma RevokedSound(db: Db, tid: int, user: string)
    requires Sound(db)
    ensures Sound(Revoked(db, tid, user).0)
  {
    var db' := Revoked(db, tid, user).0;
    if db' != db {
      var other := AnotherOwner(db, tid, user);
      forall u | u in db'.tournaments ensures exists user' :: (u, user') in db'.owners {
        var user' :| (u, user') in db.owners;
        if u == tid {
          assert (u, other) in db'.owners;
        } else {
          assert (u, user') in db'.owners;
        }
      }
    }
  }

  lemma PlayerAddedSound(db: Db, tid: int, name: string, profile: Option<int>)
    requires Sound(db) && tid in db.tournaments
    ensures Sound(PlayerAdded(db, tid, name, profile).0)
  {
    if PlayerAdded(db, tid, name, profile).0 != db {
      assert RowsOf(db.roster, tid) == RosterOf(db, tid);
      OneMoreRow(db.roster, db.nextEntry, Entry(tid, profile, name));
    }
  }

  lemma OneMoreRow(roster: map<int, Entry>, id: int, entry: Entry)
    requires RostersSmall(roster) && id !in roster && |RowsOf(roster, entry.tid)| < MAX_ROSTER_ROWS
    ensures RostersSmall(roster[id := entry])
  {
    var roster' := roster[id := entry];
    forall t ensures |RowsOf(roster', t)| <= MAX_ROSTER_ROWS {
      if t == entry.tid {
        assert RowsOf(roster', t) == RowsOf(roster, t) + {id};
      } else {
        assert RowsOf(roster', t) == RowsOf(roster, t);
      }
    }
  }

  lemma PlayerUpdatedSound(db: Db, tid: int, entry: int, link: Option<int>)
    requires Sound(db)
    ensures Sound(PlayerUpdated(db, tid, entry, link).0)
  {
    var db' := PlayerUpdated(db, tid, entry, link).0;
    if db' != db {
      assert db'.roster.Keys == db.roster.Keys;
      FewerRows(db.roster, db'.roster);
    }
  }

  lemma PlayerRemovedSound(db: Db, tid: int, entry: int)
    requires Sound(db)
    ensures Sound(PlayerRemoved(db, tid, entry).0)
  {
    FewerRows(db.roster, PlayerRemoved(db, tid, entry).0.roster);
  }

  lemma MemberChangesSound(db: Db, tid: int, team: int, entry: int)
    requires Sound(db)
    ensures Sound(MemberAdded(db, tid, team, entry).0)
    ensures Sound(MemberRemoved(db, tid, team, entry).0)
  {
  }

  lemma CaptainChangesSound(db: Db, tid: int, team: int, entry: int)
    requires Sound(db)
    ensures Sound(CaptainSet(db, tid, team, entry).0)
    ensures Sound(CaptainCleared(db, tid, team).0)
  {
  }

  lemma RosterActionKeepsSound(db: Db, tid: int, action: Action)
    requires Sound(db) && tid in db.tournaments
    requires action.AddPlayer? || action.UpdatePlayer? || action.RemovePlayer?
    ensures Sound(Acted(db, tid, action).0)
  {
    match action
    case AddPlayer(name, profile) => PlayerAddedSound(db, tid, name, profile);
    case UpdatePlayer(entry, link) => PlayerUpdatedSound(db, tid, entry, link);
    case RemovePlayer(entry) => PlayerRemovedSound(db, tid, entry);
  }

  lemma OwnerActionKeepsSound(db: Db, tid: int, action: Action)
    requires Sound(db) && tid in db.tournaments
    requires action.UpdateTournament? || action.DeleteTournament? || action.GrantOwner? || action.RevokeOwner?
    ensures Sound(Acted(db, tid, action).0)
  {
    match action
    case UpdateTournament(patch) => UpdatedSound(db, tid, patch);
    case DeleteTournament => DeletedSound(db, tid);
    case GrantOwner(grantee) => GrantedSound(db, tid, grantee);
    case RevokeOwner(revoked) => RevokedSound(db, tid, revoked);
  }

  lemma TeamActionKeepsSound(db: Db, tid: int, action: Action)
    requires Sound(db) && tid in db.tournaments
    requires action.CreateTeam? || action.UpdateTeam? || action.DeleteTeam?
    ensures Sound(Acted(db, tid, action).0)
  {
  }

  lemma MemberActionKeepsSound(db: Db, tid: int, action: Action)
    requires Sound(db) && tid in db.tournaments
    requires action.AddMember? || action.RemoveMember? || action.SetCaptain? || action.ClearCaptain?
    ensures Sound(Acted(db, tid, action).0)
  {
    if action.AddMember? || action.RemoveMember? {
      MemberChangesSound(db, tid, action.team, action.entry);
    } else {
      CaptainActionSound(db, tid, action);
    }
  }

  lemma CaptainActionSound(db: Db, tid: int, action: Action)
    requires Sound(db) && tid in db.tournaments && (action.SetCaptain? || action.ClearCaptain?)
    ensures Sound(Acted(db, tid, action).0)
  {
    CaptainChangesSound(db, tid, action.team, if action.SetCaptain? then action.entry else 0);
  }

  lemma RequestKeepsSound(db: Db, r: Request)
    requires Sound(db)
    ensures Sound(Handled(db, r).0)
  {
    match r
    case Create(user, t) => CreatedSound(db, user, t);
    case Configure(_, _) =>
    case Manage(user, tid, action) =>
      if tid in db.tournaments && (tid, user) in db.owners {
        if action.AddPlayer? || action.UpdatePlayer? || action.RemovePlayer? {
          RosterActionKeepsSound(db, tid, action);
        } else if action.CreateTeam? || action.UpdateTeam? || action.DeleteTeam? {
          TeamActionKeepsSound(db, tid, action);
        } else if action.AddMember? || action.RemoveMember? || action.SetCaptain? || action.ClearCaptain? {
          MemberActionKeepsSound(db, tid, action);
        } else {
          OwnerActionKeepsSound(db, tid, action);
        }
      }
  }

  // ---- every run ----

  function After(db: Db, requests: seq<Request>): Db {
    if |requests| == 0 then db else Handled(After(db, Init(requests)), Last(requests)).0
  }

  lemma {:induction false} RunKeepsSound(creators: set<string>, boards: map<int, bool>, requests: seq<Request>)
    ensures Sound(After(Empty(creators, boards), requests))
  {
    if |requests| == 0 {
      forall t ensures |RowsOf(map[], t)| <= MAX_ROSTER_ROWS {
        assert RowsOf(map[], t) == {};
      }
    } else {
      RunKeepsSound(creators, boards, Init(requests));
      RequestKeepsSound(After(Empty(creators, boards), Init(requests)), Last(requests));
    }
  }

  // ---- links ----

  /** A row known by its id stays the same row: its tournament and name never change, its link once set never
      changes, and an id that is free never comes back. */
  ghost predicate SameRow(db: Db, db': Db, e: int) {
    && e < db'.nextEntry
    && (e in db'.roster ==>
         && e in db.roster && db'.roster[e].tid == db.roster[e].tid && db'.roster[e].name == db.roster[e].name
         && (db.roster[e].profile.Some? ==> db'.roster[e].profile == db.roster[e].profile))
  }

  lemma RosterActionKeepsRow(db: Db, tid: int, action: Action, e: int)
    requires e < db.nextEntry && tid in db.tournaments
    requires action.AddPlayer? || action.UpdatePlayer? || action.RemovePlayer? || action.DeleteTournament?
    ensures SameRow(db, Acted(db, tid, action).0, e)
  {
  }

  lemma RequestKeepsRow(db: Db, r: Request, e: int)
    requires e < db.nextEntry
    ensures SameRow(db, Handled(db, r).0, e)
  {
    if r.Manage? && r.tid in db.tournaments {
      var action := r.action;
      if action.AddPlayer? || action.UpdatePlayer? || action.RemovePlayer? || action.DeleteTournament? {
        RosterActionKeepsRow(db, r.tid, action, e);
      } else {
        assert Acted(db, r.tid, action).0.roster == db.roster;
      }
    }
  }

  /** A roster row's link, once set, is immutable until the row is deleted, over every run of requests. */
  lemma {:induction false} LinkIsImmutable(db: Db, requests: seq<Request>, e: int)
    requires e < db.nextEntry
    ensures SameRow(db, After(db, requests), e)
  {
    if |requests| > 0 {
      LinkIsImmutable(db, Init(requests), e);
      RequestKeepsRow(After(db, Init(requests)), Last(requests), e);
    }
  }

  // ---- refusals and isolation ----

  /** A refused request commits nothing. */
  lemma RefusedChangesNothing(db: Db, r: Request)
    requires Handled(db, r).1 >= 400
    ensures Handled(db, r).0 == db
  {
  }

  /** The request is a write to this tournament by one of its owners. */
  predicate IsOwnerWrite(db: Db, r: Request, tid: int) {
    r.Manage? && r.tid == tid && (tid, r.user) in db.owners
  }

  ghost predicate SameOwners(owners: set<(int, string)>, owners': set<(int, string)>, tid: int) {
    forall user :: (tid, user) in owners <==> (tid, user) in owners'
  }

  ghost predicate SameRoster(roster: map<int, Entry>, roster': map<int, Entry>, tid: int) {
    && (forall e :: e in roster && roster[e].tid == tid ==> Get(roster', e) == Some(roster[e]))
    && (forall e :: e in roster' && roster'[e].tid == tid ==> Get(roster, e) == Some(roster'[e]))
  }

  ghost predicate SameTeams(teams: map<int, Team>, teams': map<int, Team>, tid: int) {
    && (forall t :: t in teams && teams[t].tid == tid ==> Get(teams', t) == Some(teams[t]))
    && (forall t :: t in teams' && teams'[t].tid == tid ==> Get(teams, t) == Some(teams'[t]))
  }

  ghost predicate SameMembers(members: map<(int, int), bool>, members': map<(int, int), bool>,
                              teams: map<int, Team>, tid: int) {
    forall m: (int, int) :: m.0 in teams && teams[m.0].tid == tid ==> Get(members, m) == Get(members', m)
  }

  /** Everything stored about one tournament is the same in both. */
  ghost predicate SameTournament(db: Db, db': Db, tid: int) {
    && Get(db.tournaments, tid) == Get(db'.tournaments, tid)
    && SameOwners(db.owners, db'.owners, tid)
    && SameRoster(db.roster, db'.roster, tid)
    && SameTeams(db.teams, db'.teams, tid)
    && SameMembers(db.members, db'.members, db.teams, tid)
  }

  lemma OwnerActionElsewhere(db: Db, tid: int, action: Action, other: int)
    requires MembersRostered(db.members, db.teams, db.roster)
    requires tid in db.tournaments && other in db.tournaments && other != tid
    requires action.UpdateTournament? || action.DeleteTournament? || action.GrantOwner? || action.RevokeOwner?
    ensures SameTournament(db, Acted(db, tid, action).0, other)
  {
  }

  lemma RosterActionElsewhere(db: Db, tid: int, action: Action, other: int)
    requires MembersRostered(db.members, db.teams, db.roster) && Below(db.roster.Keys, db.nextEntry)
    requires tid in db.tournaments && other in db.tournaments && other != tid
    requires action.AddPlayer? || action.UpdatePlayer? || action.RemovePlayer?
    ensures SameTournament(db, Acted(db, tid, action).0, other)
  {
  }

  lemma TeamActionElsewhere(db: Db, tid: int, action: Action, other: int)
    requires MembersRostered(db.members, db.teams, db.roster) && Below(db.teams.Keys, db.nextTeam)
    requires tid in db.tournaments && other in db.tournaments && other != tid
    requires action.CreateTeam? || action.UpdateTeam? || action.DeleteTeam?
    ensures SameTournament(db, Acted(db, tid, action).0, other)
  {
  }

  lemma MembershipElsewhere(db: Db, tid: int, action: Action, other: int)
    requires tid in db.tournaments && other in db.tournaments && other != tid
    requires action.AddMember? || action.RemoveMember?
    ensures SameTournament(db, Acted(db, tid, action).0, other)
  {
  }

  lemma CaptaincyElsewhere(db: Db, tid: int, action: Action, other: int)
    requires tid in db.tournaments && other in db.tournaments && other != tid
    requires action.SetCaptain? || action.ClearCaptain?
    ensures SameTournament(db, Acted(db, tid, action).0, other)
  {
  }

  lemma MemberActionElsewhere(db: Db, tid: int, action: Action, other: int)
    requires tid in db.tournaments && other in db.tournaments && other != tid
    requires action.AddMember? || action.RemoveMember? || action.SetCaptain? || action.ClearCaptain?
    ensures SameTournament(db, Acted(db, tid, action).0, other)
  {
    if action.AddMember? || action.RemoveMember? {
      MembershipElsewhere(db, tid, action, other);
    } else {
      CaptaincyElsewhere(db, tid, action, other);
    }
  }

  /** Only its owners change a tournament: any other request, to another tournament or by anyone else, leaves
      its row, owners, roster, teams and members as they are. */
  lemma OnlyOwnersChange(db: Db, r: Request, tid: int)
    requires Sound(db) && tid in db.tournaments
    requires !IsOwnerWrite(db, r, tid)
    ensures SameTournament(db, Handled(db, r).0, tid)
  {
    if r.Manage? && r.tid in db.tournaments && (r.tid, r.user) in db.owners {
      var action := r.action;
      if action.AddPlayer? || action.UpdatePlayer? || action.RemovePlayer? {
        RosterActionElsewhere(db, r.tid, action, tid);
      } else if action.CreateTeam? || action.UpdateTeam? || action.DeleteTeam? {
        TeamActionElsewhere(db, r.tid, action, tid);
      } else if action.AddMember? || action.RemoveMember? || action.SetCaptain? || action.ClearCaptain? {
        MemberActionElsewhere(db, r.tid, action, tid);
      } else {
        OwnerActionElsewhere(db, r.tid, action, tid);
      }
    } else if r.Create? {
      CreateElsewhere(db, r.user, r.tournament, tid);
    }
  }

  lemma CreateElsewhere(db: Db, user: string, t: Tournament, other: int)
    requires Below(db.tournaments.Keys, db.nextTournament) && other in db.tournaments
    ensures SameTournament(db, Created(db, user, t).0, other)
  {
  }

  // ---- cascades ----

  /** Deleting a tournament leaves no row that belongs to it, and nothing of the others is touched. */
  lemma DeleteErases(db: Db, tid: int, other: int)
    requires Sound(db) && other in db.tournaments && other != tid
    ensures var db' := Deleted(db, tid);
      && tid !in db'.tournaments && OwnersOf(db', tid) == {} && RosterOf(db', tid) == {}
      && (forall t :: !TeamOf(db', tid, t))
      && (forall m :: m in db'.members ==> m in db.members && db.teams[m.0].tid != tid)
      && SameTournament(db, db', other)
  {
  }

  lemma NothingToErase(db: Db, tid: int)
    requires Sound(db) && tid !in db.tournaments
    ensures RosterWithout(db.roster, tid) == db.roster
    ensures TeamsWithout(db.teams, tid) == db.teams
    ensures Surviving(db.members, db.teams.Keys, db.roster.Keys) == db.members
  {
    assert forall e :: e in db.roster ==> db.roster[e].tid in db.tournaments.Keys;
    assert forall u :: u in db.teams ==> db.teams[u].tid in db.tournaments.Keys;
  }

  /** Deleting a tournament just created gives every table back; only the id sequence has moved on. */
  lemma DeleteUndoesCreate(db: Db, user: string, t: Tournament)
    requires Sound(db) && Created(db, user, t).1 == 201
    ensures Deleted(Created(db, user, t).0, db.nextTournament) == db.(nextTournament := db.nextTournament + 1)
  {
    var id := db.nextTournament;
    assert id !in db.tournaments.Keys;
    NothingToErase(db, id);
    var db' := Created(db, user, t).0;
    assert db'.tournaments - {id} == db.tournaments;
    assert db'.owners - OwnersOf(db', id) == db.owners;
  }

  // ---- captains and teams ----

  /** Naming a captain makes that member the team's only captain and leaves the other teams alone. */
  lemma CaptainIsSet(db: Db, tid: int, team: int, entry: int)
    requires Sound(db) && CaptainSet(db, tid, team, entry).1 == 204
    ensures var members := CaptainSet(db, tid, team, entry).0.members;
      && members.Keys == db.members.Keys
      && (forall m :: m in members && m.0 == team ==> (members[m] <==> m.1 == entry))
      && (forall m :: m in members && m.0 != team ==> members[m] == db.members[m])
  {
  }

  /** A player on at most one team per tournament, as the standings assume. */
  ghost predicate OneTeamEach(members: map<(int, int), bool>) {
    forall m, n :: m in members && n in members && m.1 == n.1 ==> m == n
  }

  predicate OnAnotherTeam(db: Db, team: int, entry: int) {
    exists m :: m in db.members && m.1 == entry && m.0 != team
  }

  /** The handlers do not enforce it: adding a member keeps it exactly if the player is on no other team. */
  lemma OneTeamKeptIff(db: Db, tid: int, team: int, entry: int)
    requires OneTeamEach(db.members) && MemberAdded(db, tid, team, entry).1 == 204
    ensures OneTeamEach(MemberAdded(db, tid, team, entry).0.members) <==> !OnAnotherTeam(db, team, entry)
  {
  }

  // Six accepted requests that put one roster row on two teams.

  const START := Empty({"o"}, map[3 := true])
  const CREATE := Create("o", Tournament("a", "A", 3, PeakRating, None, None))
  const ADD := Manage("o", 1, AddPlayer("p", None))
  const TEAM := Manage("o", 1, CreateTeam("t", "T"))
  const ROSTERED := Db(map[1 := CREATE.tournament], {(1, "o")}, map[1 := Entry(1, None, "p")], map[], map[],
                       2, 2, 1, {"o"}, map[3 := true])

  lemma OnePlayer()
    ensures Handled(START, CREATE).1 == 201 && Handled(Handled(START, CREATE).0, ADD) == (ROSTERED, 204)
  {
  }

  lemma BothTeams()
    ensures var db := Handled(Handled(ROSTERED, TEAM).0, TEAM).0;
      var db' := Handled(Handled(db, Manage("o", 1, AddMember(1, 1))).0, Manage("o", 1, AddMember(2, 1))).0;
      && Handled(ROSTERED, TEAM).1 == 201 && Handled(Handled(ROSTERED, TEAM).0, TEAM).1 == 201
      && Handled(db, Manage("o", 1, AddMember(1, 1))).1 == 204
      && Handled(Handled(db, Manage("o", 1, AddMember(1, 1))).0, Manage("o", 1, AddMember(2, 1)))
         == (db', 204) && db'.members == map[(1, 1) := false, (2, 1) := false]
  {
  }

  /** Every request of the run was answered with a success. */
  predicate AllAccepted(db: Db, requests: seq<Request>) {
    |requests| > 0 ==>
      AllAccepted(db, Init(requests)) && Handled(After(db, Init(requests)), Last(requests)).1 < 400
  }

  lemma AcceptOneMore(db: Db, requests: seq<Request>, r: Request)
    requires AllAccepted(db, requests) && Handled(After(db, requests), r).1 < 400
    ensures AllAccepted(db, requests + [r])
    ensures After(db, requests + [r]) == Handled(After(db, requests), r).0
  {
    assert Init(requests + [r]) == requests;
  }

  lemma TwoTeamsReachable() returns (requests: seq<Request>)
    ensures |requests| == 6 && AllAccepted(START, requests)
    ensures !OneTeamEach(After(START, requests).members)
  {
    OnePlayer();
    BothTeams();
    var first, second := Manage("o", 1, AddMember(1, 1)), Manage("o", 1, AddMember(2, 1));
    AcceptOneMore(START, [], CREATE);
    AcceptOneMore(START, [] + [CREATE], ADD);
    AcceptOneMore(START, [] + [CREATE] + [ADD], TEAM);
    AcceptOneMore(START, [] + [CREATE] + [ADD] + [TEAM], TEAM);
    AcceptOneMore(START, [] + [CREATE] + [ADD] + [TEAM] + [TEAM], first);
    AcceptOneMore(START, [] + [CREATE] + [ADD] + [TEAM] + [TEAM] + [first], second);
    requests := [] + [CREATE] + [ADD] + [TEAM] + [TEAM] + [first] + [second];
    assert (1, 1) in After(START, requests).members && (2, 1) in After(START, requests).members;
  }
}
