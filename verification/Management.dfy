/** The management API: tournaments, their owners, rosters, teams and captains. Each request is one
    transaction over the tables; a refused request commits nothing. */
module Management {
  import opened Common

  datatype RankBy = PeakRating | CurrentRating

  datatype Tournament = Tournament(slug: string, name: string, leaderboard: int, rankBy: RankBy,
                                   start: Option<int>, end: Option<int>)

  /** A roster row; `profile` is its link to a polled identity. */
  datatype Entry = Entry(tid: int, profile: Option<int>, name: string)

  datatype Team = Team(tid: int, name: string, initials: string)

  /** The tables by their keys. A member row is keyed by (team, roster row) and holds the captain flag; the
      next ids are the sequences behind the surrogate keys; `boards` says which leaderboards are ranked. */
  datatype Db = Db(tournaments: map<int, Tournament>, owners: set<(int, string)>, roster: map<int, Entry>,
                   teams: map<int, Team>, members: map<(int, int), bool>,
                   nextTournament: int, nextEntry: int, nextTeam: int,
                   creators: set<string>, boards: map<int, bool>)

  const MAX_ROSTER_ROWS := 100
  const MAX_OWNED := 10
  const SUPPORTED: set<int> := {1, 2, 3, 4, 13, 14}

  // ---- requests ----

  /** A PATCH body: None leaves a field alone; a bound may be set to null. */
  datatype Patch = Patch(name: Option<string>, leaderboard: Option<int>, rankBy: Option<RankBy>,
                         start: Option<Option<int>>, end: Option<Option<int>>)

  datatype Action =
    | UpdateTournament(patch: Patch)
    | DeleteTournament
    | GrantOwner(grantee: string)
    | RevokeOwner(revoked: string)
    | AddPlayer(name: string, profile: Option<int>)
    | UpdatePlayer(entry: int, link: Option<int>)
    | RemovePlayer(entry: int)
    | CreateTeam(teamName: string, initials: string)
    | UpdateTeam(team: int, newName: Option<string>, newInitials: Option<string>)
    | DeleteTeam(team: int)
    | AddMember(team: int, entry: int)
    | RemoveMember(team: int, entry: int)
    | SetCaptain(team: int, entry: int)
    | ClearCaptain(team: int)

  datatype Request =
    | Create(user: string, tournament: Tournament)
    | Manage(user: string, tid: int, action: Action)
    /** The operator edits the creator allowlist; the worker loads leaderboards. */
    | Configure(creators: set<string>, boards: map<int, bool>)

  // ---- queries ----

  function OwnersOf(db: Db, tid: int): set<(int, string)> {
    set o | o in db.owners && o.0 == tid
  }

  function OwnedBy(db: Db, user: string): set<(int, string)> {
    set o | o in db.owners && o.1 == user
  }

  function RosterOf(db: Db, tid: int): set<int> {
    set e | e in db.roster && db.roster[e].tid == tid
  }

  predicate OnRoster(db: Db, tid: int, entry: int) {
    entry in db.roster && db.roster[entry].tid == tid
  }

  predicate TeamOf(db: Db, tid: int, team: int) {
    team in db.teams && db.teams[team].tid == tid
  }

  predicate SlugTaken(db: Db, slug: string) {
    exists t :: t in db.tournaments && db.tournaments[t].slug == slug
  }

  predicate NameTaken(db: Db, tid: int, name: string) {
    exists e :: e in db.roster && db.roster[e].tid == tid && db.roster[e].name == name
  }

  predicate ProfileTaken(db: Db, tid: int, profile: int) {
    exists e :: e in db.roster && db.roster[e].tid == tid && db.roster[e].profile == Some(profile)
  }

  predicate HasCaptain(members: map<(int, int), bool>, team: int) {
    exists m :: m in members && m.0 == team && members[m]
  }

  predicate WindowOk(t: Tournament) {
    t.start.None? || t.end.None? || t.start.value <= t.end.value
  }

  predicate SupportedBoard(db: Db, leaderboard: int) {
    leaderboard in db.boards && db.boards[leaderboard] && leaderboard in SUPPORTED
  }

  predicate SlugChar(c: char) {
    'a' <= c <= 'z' || '0' <= c <= '9'
  }

  /** Lower-case letters, digits and inner hyphens, at most 64 of them, and not the reserved alias. */
  predicate SlugAllowed(slug: string) {
    && 1 <= |slug| <= 64 && SlugChar(slug[0]) && SlugChar(slug[|slug| - 1])
    && (forall i :: 0 <= i < |slug| ==> SlugChar(slug[i]) || slug[i] == '-')
    && slug != "current"
  }

  // ---- cascades ----

  /** Member rows left when these teams and roster rows are gone. */
  function Surviving(members: map<(int, int), bool>, teams: set<int>, entries: set<int>): map<(int, int), bool> {
    map m | m in members && m.0 in teams && m.1 in entries :: members[m]
  }

  function RosterWithout(roster: map<int, Entry>, tid: int): map<int, Entry> {
    map e | e in roster && roster[e].tid != tid :: roster[e]
  }

  function TeamsWithout(teams: map<int, Team>, tid: int): map<int, Team> {
    map t | t in teams && teams[t].tid != tid :: teams[t]
  }

  function NoCaptain(members: map<(int, int), bool>, team: int): map<(int, int), bool> {
    map m | m in members :: members[m] && m.0 != team
  }

  // ---- what each request does: the new tables and the status ----

  function Created(db: Db, user: string, t: Tournament): (Db, int) {
    if !SlugAllowed(t.slug) then (db, 422)
    else if user !in db.creators then (db, 403)
    else if |OwnedBy(db, user)| >= MAX_OWNED then (db, 422)
    else if !WindowOk(t) then (db, 422)
    else if !SupportedBoard(db, t.leaderboard) then (db, 422)
    else if SlugTaken(db, t.slug) then (db, 409)
    else
      var id := db.nextTournament;
      (db.(tournaments := db.tournaments[id := t], owners := db.owners + {(id, user)}, nextTournament := id + 1), 201)
  }

  function Patched(t: Tournament, p: Patch): Tournament {
    Tournament(t.slug, p.name.GetOr(t.name), p.leaderboard.GetOr(t.leaderboard), p.rankBy.GetOr(t.rankBy),
               p.start.GetOr(t.start), p.end.GetOr(t.end))
  }

  function Updated(db: Db, tid: int, p: Patch): (Db, int)
    requires tid in db.tournaments
  {
    var t := Patched(db.tournaments[tid], p);
    if p.leaderboard.Some? && !SupportedBoard(db, p.leaderboard.value) then (db, 422)
    else if !WindowOk(t) then (db, 422)
    else (db.(tournaments := db.tournaments[tid := t]), 200)
  }

  function Deleted(db: Db, tid: int): Db {
    var roster, teams := RosterWithout(db.roster, tid), TeamsWithout(db.teams, tid);
    db.(tournaments := db.tournaments - {tid}, owners := db.owners - OwnersOf(db, tid),
        roster := roster, teams := teams, members := Surviving(db.members, teams.Keys, roster.Keys))
  }

  function Granted(db: Db, tid: int, user: string): (Db, int) {
    if (tid, user) in db.owners then (db, 409) else (db.(owners := db.owners + {(tid, user)}), 204)
  }

  function Revoked(db: Db, tid: int, user: string): (Db, int) {
    if (tid, user) !in db.owners then (db, 404)
    else if |OwnersOf(db, tid)| <= 1 then (db, 422)
    else (db.(owners := db.owners - {(tid, user)}), 204)
  }

  function PlayerAdded(db: Db, tid: int, name: string, profile: Option<int>): (Db, int) {
    if |RosterOf(db, tid)| >= MAX_ROSTER_ROWS then (db, 422)
    else if profile.Some? && ProfileTaken(db, tid, profile.value) then (db, 409)
    else if NameTaken(db, tid, name) then (db, 409)
    else (db.(roster := db.roster[db.nextEntry := Entry(tid, profile, name)], nextEntry := db.nextEntry + 1), 204)
  }

  function PlayerUpdated(db: Db, tid: int, entry: int, link: Option<int>): (Db, int) {
    if !OnRoster(db, tid, entry) then (db, 404)
    else if link.None? then (db, 204)
    else if db.roster[entry].profile.Some? then (db, 422)
    else if ProfileTaken(db, tid, link.value) then (db, 409)
    else (db.(roster := db.roster[entry := db.roster[entry].(profile := link)]), 204)
  }

  function PlayerRemoved(db: Db, tid: int, entry: int): (Db, int) {
    if !OnRoster(db, tid, entry) then (db, 404)
    else
      var roster := db.roster - {entry};
      (db.(roster := roster, members := Surviving(db.members, db.teams.Keys, roster.Keys)), 204)
  }

  function TeamCreated(db: Db, tid: int, name: string, initials: string): (Db, int) {
    (db.(teams := db.teams[db.nextTeam := Team(tid, name, initials)], nextTeam := db.nextTeam + 1), 201)
  }

  function TeamUpdated(db: Db, tid: int, team: int, name: Option<string>, initials: Option<string>): (Db, int) {
    if !TeamOf(db, tid, team) then (db, 404)
    else
      var t := db.teams[team];
      (db.(teams := db.teams[team := Team(tid, name.GetOr(t.name), initials.GetOr(t.initials))]), 200)
  }

  function TeamDeleted(db: Db, tid: int, team: int): (Db, int) {
    if !TeamOf(db, tid, team) then (db, 404)
    else
      var teams := db.teams - {team};
      (db.(teams := teams, members := Surviving(db.members, teams.Keys, db.roster.Keys)), 204)
  }

  function MemberAdded(db: Db, tid: int, team: int, entry: int): (Db, int) {
    if !TeamOf(db, tid, team) then (db, 404)
    else if !OnRoster(db, tid, entry) then (db, 404)
    else if (team, entry) in db.members then (db, 409)
    else (db.(members := db.members[(team, entry) := false]), 204)
  }

  function MemberRemoved(db: Db, tid: int, team: int, entry: int): (Db, int) {
    if !TeamOf(db, tid, team) then (db, 404)
    else if (team, entry) !in db.members then (db, 404)
    else (db.(members := db.members - {(team, entry)}), 204)
  }

  function CaptainSet(db: Db, tid: int, team: int, entry: int): (Db, int) {
    if !TeamOf(db, tid, team) then (db, 404)
    else if (team, entry) !in db.members then (db, 404)
    else if db.members[(team, entry)] then (db, 204)
    else (db.(members := NoCaptain(db.members, team)[(team, entry) := true]), 204)
  }

  function CaptainCleared(db: Db, tid: int, team: int): (Db, int) {
    if !TeamOf(db, tid, team) then (db, 404)
    else if !HasCaptain(db.members, team) then (db, 204)
    else (db.(members := NoCaptain(db.members, team)), 204)
  }

  function Acted(db: Db, tid: int, action: Action): (Db, int)
    requires tid in db.tournaments
  {
    match action
    case UpdateTournament(patch) => Updated(db, tid, patch)
    case DeleteTournament => (Deleted(db, tid), 204)
    case GrantOwner(user) => Granted(db, tid, user)
    case RevokeOwner(user) => Revoked(db, tid, user)
    case AddPlayer(name, profile) => PlayerAdded(db, tid, name, profile)
    case UpdatePlayer(entry, link) => PlayerUpdated(db, tid, entry, link)
    case RemovePlayer(entry) => PlayerRemoved(db, tid, entry)
    case CreateTeam(name, initials) => TeamCreated(db, tid, name, initials)
    case UpdateTeam(team, name, initials) => TeamUpdated(db, tid, team, name, initials)
    case DeleteTeam(team) => TeamDeleted(db, tid, team)
    case AddMember(team, entry) => MemberAdded(db, tid, team, entry)
    case RemoveMember(team, entry) => MemberRemoved(db, tid, team, entry)
    case SetCaptain(team, entry) => CaptainSet(db, tid, team, entry)
    case ClearCaptain(team) => CaptainCleared(db, tid, team)
  }

  /** The gate on every write route, then the handler. */
  function Managed(db: Db, user: string, tid: int, action: Action): (Db, int) {
    if tid !in db.tournaments then (db, 404)
    else if (tid, user) !in db.owners then (db, 403)
    else Acted(db, tid, action)
  }

  function Handled(db: Db, r: Request): (Db, int) {
    match r
    case Create(user, t) => Created(db, user, t)
    case Manage(user, tid, action) => Managed(db, user, tid, action)
    case Configure(creators, boards) => (db.(creators := creators, boards := boards), 204)
  }

  // ---- the handlers ----

  class Database {
    var tournaments: map<int, Tournament>
    var owners: set<(int, string)>
    var roster: map<int, Entry>
    var teams: map<int, Team>
    var members: map<(int, int), bool>
    var nextTournament: int
    var nextEntry: int
    var nextTeam: int
    var creators: set<string>
    var boards: map<int, bool>

    constructor (creators: set<string>, boards: map<int, bool>)
      ensures Now() == Empty(creators, boards)
    {
      tournaments, owners, roster, teams, members := map[], {}, map[], map[], map[];
      nextTournament, nextEntry, nextTeam := 1, 1, 1;
      this.creators, this.boards := creators, boards;
    }

    function Now(): Db
      reads this
    {
      Db(tournaments, owners, roster, teams, members, nextTournament, nextEntry, nextTeam, creators, boards)
    }

    method HandleCreateTournament(user: string, t: Tournament) returns (status: int)
      modifies this
      ensures (Now(), status) == Created(old(Now()), user, t)
    {
      if !SlugAllowed(t.slug) {
        return 422;
      }
      if user !in creators {
        return 403;
      }
      var owned := OwnedBy(Now(), user);
      if |owned| >= MAX_OWNED {
        return 422;
      }
      if t.start.Some? && t.end.Some? && t.start.value > t.end.value {
        return 422;
      }
      if !SupportedBoard(Now(), t.leaderboard) {
        return 422;
      }
      if SlugTaken(Now(), t.slug) {
        return 409;
      }
      var id := nextTournament;
      nextTournament := nextTournament + 1;
      tournaments := tournaments[id := t];
      owners := owners + {(id, user)};
      status := 201;
    }

    method HandleUpdateTournament(tid: int, patch: Patch) returns (status: int)
      requires tid in tournaments
      modifies this
      ensures (Now(), status) == Updated(old(Now()), tid, patch)
    {
      if patch.leaderboard.Some? && !SupportedBoard(Now(), patch.leaderboard.value) {
        return 422;
      }
      var t := tournaments[tid];
      if patch.name.Some? { t := t.(name := patch.name.value); }
      if patch.leaderboard.Some? { t := t.(leaderboard := patch.leaderboard.value); }
      if patch.rankBy.Some? { t := t.(rankBy := patch.rankBy.value); }
      if patch.start.Some? { t := t.(start := patch.start.value); }
      if patch.end.Some? { t := t.(end := patch.end.value); }
      if t.start.Some? && t.end.Some? && t.start.value > t.end.value {
        return 422;
      }
      tournaments := tournaments[tid := t];
      status := 200;
    }

    method HandleDeleteTournament(tid: int) returns (status: int)
      modifies this
      ensures Now() == Deleted(old(Now()), tid) && status == 204
    {
      owners := owners - OwnersOf(Now(), tid);
      roster := map e | e in roster && roster[e].tid != tid :: roster[e];
      teams := map t | t in teams && teams[t].tid != tid :: teams[t];
      members := Surviving(members, teams.Keys, roster.Keys);
      tournaments := tournaments - {tid};
      status := 204;
    }

    method HandleGrantOwner(tid: int, user: string) returns (status: int)
      modifies this
      ensures (Now(), status) == Granted(old(Now()), tid, user)
    {
      if (tid, user) in owners {
        return 409;
      }
      owners := owners + {(tid, user)};
      status := 204;
    }

    method HandleRevokeOwner(tid: int, user: string) returns (status: int)
      modifies this
      ensures (Now(), status) == Revoked(old(Now()), tid, user)
    {
      if (tid, user) !in owners {
        return 404;
      }
      var deleted := 0;
      var holders := OwnersOf(Now(), tid);
      if |holders| > 1 {
        owners := owners - {(tid, user)};
        deleted := 1;
      }
      if deleted == 0 {
        return 422;
      }
      status := 204;
    }

    method HandleAddPlayer(tid: int, name: string, profile: Option<int>) returns (status: int)
      modifies this
      ensures (Now(), status) == PlayerAdded(old(Now()), tid, name, profile)
    {
      var rows := RosterOf(Now(), tid);
      if |rows| >= MAX_ROSTER_ROWS {
        return 422;
      }
      if profile.Some? {
        if ProfileTaken(Now(), tid, profile.value) {
          return 409;
        }
      }
      if NameTaken(Now(), tid, name) {
        return 409;
      }
      roster := roster[nextEntry := Entry(tid, profile, name)];
      nextEntry := nextEntry + 1;
      status := 204;
    }

    method HandleUpdatePlayer(tid: int, entry: int, link: Option<int>) returns (status: int)
      modifies this
      ensures (Now(), status) == PlayerUpdated(old(Now()), tid, entry, link)
    {
      if !OnRoster(Now(), tid, entry) {
        return 404;
      }
      if link.Some? {
        if roster[entry].profile.Some? {
          return 422;
        }
        if ProfileTaken(Now(), tid, link.value) {
          return 409;
        }
        roster := roster[entry := roster[entry].(profile := link)];
      }
      status := 204;
    }

    method HandleRemovePlayer(tid: int, entry: int) returns (status: int)
      modifies this
      ensures (Now(), status) == PlayerRemoved(old(Now()), tid, entry)
    {
      if !OnRoster(Now(), tid, entry) {
        return 404;
      }
      roster := roster - {entry};
      members := Surviving(members, teams.Keys, roster.Keys);
      status := 204;
    }

    method HandleCreateTeam(tid: int, name: string, initials: string) returns (status: int)
      modifies this
      ensures (Now(), status) == TeamCreated(old(Now()), tid, name, initials)
    {
      teams := teams[nextTeam := Team(tid, name, initials)];
      nextTeam := nextTeam + 1;
      status := 201;
    }

    method HandleUpdateTeam(tid: int, team: int, name: Option<string>, initials: Option<string>) returns (status: int)
      modifies this
      ensures (Now(), status) == TeamUpdated(old(Now()), tid, team, name, initials)
    {
      if !TeamOf(Now(), tid, team) {
        return 404;
      }
      var t := teams[team];
      if name.Some? { t := t.(name := name.value); }
      if initials.Some? { t := t.(initials := initials.value); }
      teams := teams[team := t];
      status := 200;
    }

    method HandleDeleteTeam(tid: int, team: int) returns (status: int)
      modifies this
      ensures (Now(), status) == TeamDeleted(old(Now()), tid, team)
    {
      if !TeamOf(Now(), tid, team) {
        return 404;
      }
      teams := teams - {team};
      members := Surviving(members, teams.Keys, roster.Keys);
      status := 204;
    }

    method HandleAddMember(tid: int, team: int, entry: int) returns (status: int)
      modifies this
      ensures (Now(), status) == MemberAdded(old(Now()), tid, team, entry)
    {
      if !TeamOf(Now(), tid, team) || !OnRoster(Now(), tid, entry) {
        return 404;
      }
      if (team, entry) in members {
        return 409;
      }
      members := members[(team, entry) := false];
      status := 204;
    }

    method HandleRemoveMember(tid: int, team: int, entry: int) returns (status: int)
      modifies this
      ensures (Now(), status) == MemberRemoved(old(Now()), tid, team, entry)
    {
      if !TeamOf(Now(), tid, team) || (team, entry) !in members {
        return 404;
      }
      members := members - {(team, entry)};
      status := 204;
    }

    method HandleSetCaptain(tid: int, team: int, entry: int) returns (status: int)
      modifies this
      ensures (Now(), status) == CaptainSet(old(Now()), tid, team, entry)
    {
      if !TeamOf(Now(), tid, team) || (team, entry) !in members {
        return 404;
      }
      if members[(team, entry)] {
        return 204;
      }
      members := map m | m in members :: members[m] && m.0 != team;
      members := members[(team, entry) := true];
      status := 204;
    }

    method HandleClearCaptain(tid: int, team: int) returns (status: int)
      modifies this
      ensures (Now(), status) == CaptainCleared(old(Now()), tid, team)
    {
      if !TeamOf(Now(), tid, team) {
        return 404;
      }
      if !HasCaptain(members, team) {
        return 204;
      }
      members := map m | m in members :: members[m] && m.0 != team;
      status := 204;
    }

    /** A write route: the owner gate, then the handler. */
    method Handle(r: Request) returns (status: int)
      modifies this
      ensures (Now(), status) == Handled(old(Now()), r)
    {
      match r {
        case Create(user, t) => status := HandleCreateTournament(user, t);
        case Configure(creators, boards) =>
          this.creators, this.boards := creators, boards;
          status := 204;
        case Manage(user, tid, action) =>
          if tid !in tournaments {
            return 404;
          }
          if (tid, user) !in owners {
            return 403;
          }
          match action {
            case UpdateTournament(patch) => status := HandleUpdateTournament(tid, patch);
            case DeleteTournament => status := HandleDeleteTournament(tid);
            case GrantOwner(grantee) => status := HandleGrantOwner(tid, grantee);
            case RevokeOwner(revoked) => status := HandleRevokeOwner(tid, revoked);
            case AddPlayer(name, profile) => status := HandleAddPlayer(tid, name, profile);
            case UpdatePlayer(entry, link) => status := HandleUpdatePlayer(tid, entry, link);
            case RemovePlayer(entry) => status := HandleRemovePlayer(tid, entry);
            case CreateTeam(name, initials) => status := HandleCreateTeam(tid, name, initials);
            case UpdateTeam(team, name, initials) => status := HandleUpdateTeam(tid, team, name, initials);
            case DeleteTeam(team) => status := HandleDeleteTeam(tid, team);
            case AddMember(team, entry) => status := HandleAddMember(tid, team, entry);
            case RemoveMember(team, entry) => status := HandleRemoveMember(tid, team, entry);
            case SetCaptain(team, entry) => status := HandleSetCaptain(tid, team, entry);
            case ClearCaptain(team) => status := HandleClearCaptain(tid, team);
          }
      }
    }
  }

  function Empty(creators: set<string>, boards: map<int, bool>): Db {
    Db(map[], {}, map[], map[], map[], 1, 1, 1, creators, boards)
  }
}
