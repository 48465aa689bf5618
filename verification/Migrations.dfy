/** The roster and team migrations: two roster tables merged into one with a surrogate key, team members
    re-keyed onto it, names filled in; and the way back. A revision whose constraint fails aborts and its
    transaction is rolled back. */
module Migrations {
  import opened Common

  // ---- rows; a column a revision does not have is null ----

  datatype PlayerRow = PlayerRow(id: Option<int>, tid: int, profile: Option<int>, name: Option<string>, bag: int)
  datatype HolderRow = HolderRow(tid: int, name: string, bag: int)
  datatype MemberRow = MemberRow(team: int, profile: Option<int>, entry: Option<int>, captain: bool)

  /** `teams` gives each team its tournament and `aliases` each polled profile its alias; the revisions only
      read them. */
  datatype Schema = Schema(players: set<PlayerRow>, holders: set<HolderRow>, members: set<MemberRow>,
                           teams: map<int, int>, aliases: map<int, string>)

  const NAME_LENGTH := 64

  // ---- constraints ----

  predicate UniqueIds(players: set<PlayerRow>) {
    forall p, q | p in players && q in players :: p.id.Some? && (p.id == q.id ==> p == q)
  }

  predicate UniqueProfiles(players: set<PlayerRow>) {
    forall p, q | p in players && q in players :: p.tid == q.tid && p.profile.Some? && p.profile == q.profile ==> p == q
  }

  predicate UniqueNames(players: set<PlayerRow>) {
    forall p, q | p in players && q in players :: p.tid == q.tid && p.name.Some? && p.name == q.name ==> p == q
  }

  predicate NamesFit(players: set<PlayerRow>) {
    forall p | p in players :: p.name.Some? ==> |p.name.value| <= NAME_LENGTH
  }

  /** Exactly one of profile and name is set. */
  predicate Xor(players: set<PlayerRow>) {
    forall p | p in players :: p.profile.None? != p.name.None?
  }

  predicate UniqueHolders(holders: set<HolderRow>) {
    forall h, k | h in holders && k in holders :: h.tid == k.tid && h.name == k.name ==> h == k
  }

  predicate KeyedByProfile(members: set<MemberRow>) {
    forall m, n | m in members && n in members ::
      m.profile.Some? && (m.team == n.team && m.profile == n.profile ==> m == n)
  }

  predicate KeyedByEntry(members: set<MemberRow>) {
    forall m, n | m in members && n in members :: m.entry.Some? && (m.team == n.team && m.entry == n.entry ==> m == n)
  }

  // ---- 75c172c71c39: one roster table ----

  predicate Lower(p: PlayerRow, q: PlayerRow) {
    && p.profile.Some? && q.profile.Some?
    && (p.tid < q.tid || (p.tid == q.tid && p.profile.value < q.profile.value))
  }

  /** ROW_NUMBER() OVER (ORDER BY tournament_id, profile_id). */
  function RowNumber(players: set<PlayerRow>, p: PlayerRow): int {
    |set q | q in players && Lower(q, p)| + 1
  }

  function Numbered(players: set<PlayerRow>): set<PlayerRow> {
    set p | p in players :: p.(id := Some(RowNumber(players, p)))
  }

  /** Where setval leaves the sequence: the largest id, 1 for an empty table. */
  function LastValue(players: set<PlayerRow>): int {
    if players == {} then 1 else |players|
  }

  /** The rows inserted for the placeholders, in whatever order the INSERT visits them. */
  function Inserted(last: int, order: seq<HolderRow>): set<PlayerRow> {
    set i | 0 <= i < |order| :: PlayerRow(Some(last + 1 + i), order[i].tid, None, Some(order[i].name), order[i].bag)
  }

  function Merged(s: Schema, order: seq<HolderRow>): set<PlayerRow> {
    Numbered(s.players) + Inserted(LastValue(s.players), order)
  }

  /** The primary key, the check constraint and the two unique constraints of the merged table. */
  predicate MergedOk(players: set<PlayerRow>) {
    UniqueIds(players) && Xor(players) && UniqueProfiles(players) && UniqueNames(players)
  }

  function Unify(s: Schema, order: seq<HolderRow>): Option<Schema> {
    var players := Merged(s, order);
    if MergedOk(players) then Some(s.(players := players, holders := {})) else None
  }

  function Linked(players: set<PlayerRow>): set<PlayerRow> {
    set p | p in players && p.profile.Some?
  }

  function Unlinked(players: set<PlayerRow>): set<PlayerRow> {
    set p | p in players && p.profile.None?
  }

  function Split(s: Schema): Option<Schema> {
    var linked, unlinked := Linked(s.players), Unlinked(s.players);
    if (forall p | p in unlinked :: p.name.Some?) && UniqueNames(unlinked) && UniqueProfiles(linked)
    then Some(s.(players := set p | p in linked :: p.(id := None, name := None),
                 holders := set p | p in unlinked && p.name.Some? :: HolderRow(p.tid, p.name.value, p.bag)))
    else None
  }

  // ---- f812a0b45583: members learn their roster row ----

  /** The backfill's join. */
  predicate Matches(s: Schema, m: MemberRow, p: PlayerRow) {
    && p in s.players && m.team in s.teams && p.tid == s.teams[m.team]
    && m.profile.Some? && p.profile == m.profile
  }

  /** The join's update of the rows it selects; a row without a match stays as it is. */
  function Backfilled(s: Schema, onlyNull: bool): set<MemberRow> {
    (set m, p | m in s.members && p in s.players && Matches(s, m, p) && (onlyNull ==> m.entry.None?)
       :: m.(entry := p.id))
    + set m | m in s.members && ((onlyNull && m.entry.Some?) || (forall p | p in s.players :: !Matches(s, m, p)))
  }

  function Expand(s: Schema): Schema {
    s.(members := Backfilled(s, false))
  }

  function Unexpand(s: Schema): Schema {
    s.(members := set m | m in s.members :: m.(entry := None))
  }

  // ---- fd4a4e26ec02: the key moves ----

  function Transition(s: Schema): Option<Schema> {
    var members := Backfilled(s, true);
    if KeyedByEntry(members) then Some(s.(members := members)) else None
  }

  function Untransition(s: Schema): Option<Schema> {
    var members := set m | m in s.members && m.profile.Some?;
    if KeyedByProfile(members) then Some(s.(members := members)) else None
  }

  // ---- cb051bd9d638: the old key goes ----

  function Contract(s: Schema): Schema {
    s.(members := set m | m in s.members :: m.(profile := None))
  }

  predicate Rows(s: Schema, m: MemberRow, p: PlayerRow) {
    p in s.players && p.id.Some? && p.id == m.entry && p.profile.Some?
  }

  function Uncontract(s: Schema): Schema {
    s.(members := (set m, p | m in s.members && p in s.players && Rows(s, m, p) :: m.(profile := p.profile))
                  + set m | m in s.members && (forall p | p in s.players :: !Rows(s, m, p)) :: m.(profile := None))
  }

  // ---- 1b4c7991f59a: every row gets a name ----

  function Digit(d: int): char
    requires 0 <= d < 10
  {
    '0' + d as char
  }

  function Decimal(n: nat): string {
    if n < 10 then [Digit(n)] else Decimal(n / 10) + [Digit(n % 10)]
  }

  function Text(n: int): string {
    if n < 0 then "-" + Decimal(-n) else Decimal(n)
  }

  /** The polled alias, or a label made from the profile id. */
  function Label(s: Schema, profile: int): string {
    if profile in s.aliases then s.aliases[profile] else "Player " + Text(profile)
  }

  function Named(s: Schema, p: PlayerRow): PlayerRow {
    if p.profile.Some? && p.name.None? then p.(name := Some(Label(s, p.profile.value))) else p
  }

  function AllNamed(s: Schema): set<PlayerRow> {
    set p | p in s.players :: Named(s, p)
  }

  function FillNames(s: Schema): Option<Schema> {
    if NamesFit(AllNamed(s)) && UniqueNames(AllNamed(s)) then Some(s.(players := AllNamed(s))) else None
  }

  function Unnamed(p: PlayerRow): PlayerRow {
    if p.profile.Some? then p.(name := None) else p
  }

  function UnfillNames(s: Schema): Option<Schema> {
    var players := set p | p in s.players :: Unnamed(p);
    if Xor(players) then Some(s.(players := players)) else None
  }

  // ---- the chains ----

  function Rekey(s: Schema): Option<Schema> {
    var keyed := Transition(Expand(s));
    if keyed.None? then None else Some(Contract(keyed.value))
  }

  function Upgrade(s: Schema, order: seq<HolderRow>): Option<Schema> {
    var unified := Unify(s, order);
    if unified.None? then None
    else
      var rekeyed := Rekey(unified.value);
      if rekeyed.None? then None else FillNames(rekeyed.value)
  }

  function Unrekey(s: Schema): Option<Schema> {
    var keyed := Untransition(Uncontract(s));
    if keyed.None? then None else Some(Unexpand(keyed.value))
  }

  function Downgrade(s: Schema): Option<Schema> {
    var unnamed := UnfillNames(s);
    if unnamed.None? then None
    else
      var members := Unrekey(unnamed.value);
      if members.None? then None else Split(members.value)
  }

  // ---- the schema before the first revision ----

  ghost predicate IsSplit(s: Schema) {
    && (forall p :: p in s.players ==> p.id.None? && p.name.None? && p.profile.Some?)
    && UniqueProfiles(s.players)
    && UniqueHolders(s.holders) && (forall h :: h in s.holders ==> |h.name| <= NAME_LENGTH)
    && (forall m :: m in s.members ==> m.profile.Some? && m.entry.None? && m.team in s.teams)
    && KeyedByProfile(s.members)
  }

  /** Each placeholder once. */
  ghost predicate Visits(order: seq<HolderRow>, holders: set<HolderRow>) {
    && (forall h :: h in holders <==> h in order)
    && (forall i, j :: 0 <= i < j < |order| ==> order[i] != order[j])
  }

  // ---- updates, row by row ----

  /** r is m after the backfill, of every row or only of those without a key. */
  predicate Filled(s: Schema, m: MemberRow, r: MemberRow, onlyNull: bool) {
    if (onlyNull ==> m.entry.None?) && exists p | p in s.players :: Matches(s, m, p)
    then exists p | p in s.players :: Matches(s, m, p) && r == m.(entry := p.id)
    else r == m
  }

  /** r is m with its old key filled in again. */
  predicate Refilled(s: Schema, m: MemberRow, r: MemberRow) {
    if exists p | p in s.players :: Rows(s, m, p)
    then exists p | p in s.players :: Rows(s, m, p) && r == m.(profile := p.profile)
    else r == m.(profile := None)
  }

  lemma ValuesGrow<T>(m: map<T, T>, x: T, y: T)
    requires x !in m
    ensures m[x := y].Values == m.Values + {y} && m[x := y].Keys == m.Keys + {x}
  {
    var more := m[x := y];
    forall v | v in m.Values + {y} ensures v in more.Values {
      if v in m.Values {
        var k :| k in m && m[k] == v;
        assert more[k] == v;
      } else {
        assert more[x] == v;
      }
    }
  }

  lemma FilledIsBackfilled(s: Schema, became: map<MemberRow, MemberRow>, onlyNull: bool)
    requires UniqueProfiles(s.players)
    requires became.Keys == s.members && forall m :: m in became ==> Filled(s, m, became[m], onlyNull)
    ensures became.Values == Backfilled(s, onlyNull)
  {
    forall m, p | m in s.members && p in s.players && Matches(s, m, p) && (onlyNull ==> m.entry.None?)
      ensures became[m] == m.(entry := p.id)
    {
      assert Filled(s, m, became[m], onlyNull);
    }
    forall r | r in Backfilled(s, onlyNull) ensures r in became.Values {
      if m, p :| m in s.members && p in s.players && Matches(s, m, p) && (onlyNull ==> m.entry.None?)
                 && r == m.(entry := p.id) {
        assert became[m] == r;
      } else {
        assert Filled(s, r, became[r], onlyNull);
      }
    }
    forall m | m in became ensures became[m] in Backfilled(s, onlyNull) {
      assert Filled(s, m, became[m], onlyNull);
    }
  }

  lemma RefilledIsUncontract(s: Schema, became: map<MemberRow, MemberRow>)
    requires UniqueIds(s.players)
    requires became.Keys == s.members && forall m :: m in became ==> Refilled(s, m, became[m])
    ensures became.Values == Uncontract(s).members
  {
    forall m, p | m in s.members && p in s.players && Rows(s, m, p) ensures became[m] == m.(profile := p.profile) {
      assert Refilled(s, m, became[m]);
    }
    forall r | r in Uncontract(s).members ensures r in became.Values {
      if m, p :| m in s.members && p in s.players && Rows(s, m, p) && r == m.(profile := p.profile) {
        assert became[m] == r;
      } else {
        var m :| m in s.members && (forall p | p in s.players :: !Rows(s, m, p)) && r == m.(profile := None);
        assert Refilled(s, m, became[m]);
      }
    }
    forall m | m in became ensures became[m] in Uncontract(s).members {
      assert Refilled(s, m, became[m]);
    }
  }

  /** The backfill, row by row: each takes the id of a roster row it matches, or stays as it is. */
  method FillRows(s: Schema, onlyNull: bool)
    returns (updated: set<MemberRow>, ghost became: map<MemberRow, MemberRow>)
    ensures became.Keys == s.members && updated == became.Values
    ensures forall m :: m in became ==> Filled(s, m, became[m], onlyNull)
  {
    var todo := s.members;
    updated, became := {}, map[];
    while todo != {}
      invariant todo !! became.Keys && todo + became.Keys == s.members && updated == became.Values
      invariant forall m :: m in became ==> Filled(s, m, became[m], onlyNull)
      decreases todo
    {
      var m :| m in todo;
      var row := m;
      if !onlyNull || m.entry.None? {
        if p :| p in s.players && Matches(s, m, p) {
          row := m.(entry := p.id);
        }
      }
      ValuesGrow(became, m, row);
      todo, updated, became := todo - {m}, updated + {row}, became[m := row];
    }
  }

  /** The old key's refill, row by row: each takes the profile of its roster row, null if that is unlinked. */
  method RefillRows(s: Schema) returns (updated: set<MemberRow>, ghost became: map<MemberRow, MemberRow>)
    ensures became.Keys == s.members && updated == became.Values
    ensures forall m :: m in became ==> Refilled(s, m, became[m])
  {
    var todo := s.members;
    updated, became := {}, map[];
    while todo != {}
      invariant todo !! became.Keys && todo + became.Keys == s.members && updated == became.Values
      invariant forall m :: m in became ==> Refilled(s, m, became[m])
      decreases todo
    {
      var m :| m in todo;
      var row := m.(profile := None);
      if p :| p in s.players && Rows(s, m, p) {
        row := m.(profile := p.profile);
      }
      ValuesGrow(became, m, row);
      todo, updated, became := todo - {m}, updated + {row}, became[m := row];
    }
  }

  // ---- the revisions, statement by statement ----

  class Database {
    var players: set<PlayerRow>
    var holders: set<HolderRow>
    var members: set<MemberRow>
    const teams: map<int, int>
    const aliases: map<int, string>

    constructor (s: Schema)
      ensures Now() == s
    {
      players, holders, members, teams, aliases := s.players, s.holders, s.members, s.teams, s.aliases;
    }

    function Now(): Schema
      reads this
    {
      Schema(players, holders, members, teams, aliases)
    }

    /** INSERT ... SELECT: each placeholder takes the sequence's next id. */
    method InsertHolders(last: int, order: seq<HolderRow>)
      modifies this
      ensures Now() == old(Now()).(players := old(players) + Inserted(last, order))
    {
      var sequence := last;
      for i := 0 to |order|
        invariant sequence == last + i
        invariant players == old(players) + Inserted(last, order[..i])
        invariant holders == old(holders) && members == old(members)
      {
        InsertedOneMore(last, order, i);
        sequence := sequence + 1;
        players := players + {PlayerRow(Some(sequence), order[i].tid, None, Some(order[i].name), order[i].bag)};
      }
      assert order[..|order|] == order;
    }

    method NumberRows() returns (last: int)
      modifies this
      ensures Now() == old(Now()).(players := Numbered(old(players))) && last == LastValue(old(players))
    {
      last := LastValue(players);
      players := Numbered(players);
    }

    method MoveRows(order: seq<HolderRow>)
      modifies this
      ensures Now() == old(Now()).(players := Merged(old(Now()), order), holders := {})
    {
      var last := NumberRows();
      InsertHolders(last, order);
      holders := {};
    }

    method UpgradeUnify(order: seq<HolderRow>) returns (ok: bool)
      modifies this
      ensures (ok <==> Unify(old(Now()), order).Some?) && Now() == Unify(old(Now()), order).GetOr(old(Now()))
    {
      var oldPlayers, oldHolders := players, holders;
      ghost var before := Now();
      MoveRows(order);
      ghost var after := Now();
      UnifyIs(before, order, after);
      ok := MergedOk(players);
      if !ok {
        players, holders := oldPlayers, oldHolders;
      }
    }

    method DowngradeUnify() returns (ok: bool)
      modifies this
      ensures (ok <==> Split(old(Now())).Some?) && Now() == Split(old(Now())).GetOr(old(Now()))
    {
      var oldPlayers, oldHolders := players, holders;
      var moved := Unlinked(players);
      if !((forall p | p in moved :: p.name.Some?) && UniqueNames(moved)) {
        return false;
      }
      holders := set p | p in moved && p.name.Some? :: HolderRow(p.tid, p.name.value, p.bag);
      players := Linked(players);
      if !UniqueProfiles(players) {
        players, holders := oldPlayers, oldHolders;
        return false;
      }
      players := set p | p in players :: p.(id := None, name := None);
      ok := true;
    }

    /** Where matches are unique, as the merged table's constraint makes them, the update has one outcome. */
    method UpgradeExpand() returns (ghost became: map<MemberRow, MemberRow>)
      modifies `members
      ensures became.Keys == old(members) && members == became.Values
      ensures forall m :: m in became ==> Filled(old(Now()), m, became[m], false)
      ensures UniqueProfiles(players) ==> Now() == Expand(old(Now()))
    {
      var updated;
      updated, became := FillRows(Now(), false);
      if UniqueProfiles(players) {
        FilledIsBackfilled(Now(), became, false);
      }
      members := updated;
    }

    method DowngradeExpand()
      modifies this
      ensures Now() == Unexpand(old(Now()))
    {
      members := set m | m in members :: m.(entry := None);
    }

    /** Fills the keys still null, and keeps the result if the new primary key holds of it. */
    method UpgradeTransition() returns (ok: bool, ghost became: map<MemberRow, MemberRow>)
      modifies `members
      ensures became.Keys == old(members) && (forall m :: m in became ==> Filled(old(Now()), m, became[m], true))
      ensures ok <==> KeyedByEntry(became.Values)
      ensures members == if ok then became.Values else old(members)
      ensures UniqueProfiles(players) ==>
        (ok <==> Transition(old(Now())).Some?) && Now() == Transition(old(Now())).GetOr(old(Now()))
    {
      var updated;
      updated, became := FillRows(Now(), true);
      if UniqueProfiles(players) {
        FilledIsBackfilled(Now(), became, true);
      }
      ok := KeyedByEntry(updated);
      if ok {
        members := updated;
      }
    }

    method DowngradeTransition() returns (ok: bool)
      modifies this
      ensures (ok <==> Untransition(old(Now())).Some?) && Now() == Untransition(old(Now())).GetOr(old(Now()))
    {
      var oldMembers := members;
      members := set m | m in members && m.profile.Some?;
      ok := KeyedByProfile(members);
      if !ok {
        members := oldMembers;
      }
    }

    method UpgradeContract()
      modifies this
      ensures Now() == Contract(old(Now()))
    {
      members := set m | m in members :: m.(profile := None);
    }

    /** Ids are the primary key, so the refill has one outcome. */
    method DowngradeContract() returns (ghost became: map<MemberRow, MemberRow>)
      modifies `members
      ensures became.Keys == old(members) && members == became.Values
      ensures forall m :: m in became ==> Refilled(old(Now()), m, became[m])
      ensures UniqueIds(players) ==> Now() == Uncontract(old(Now()))
    {
      var updated;
      updated, became := RefillRows(Now());
      if UniqueIds(players) {
        RefilledIsUncontract(Now(), became);
      }
      members := updated;
    }

    /** Two updates: polled rows take their alias, then the rows still without a name take a label. */
    method UpgradeNames() returns (ok: bool)
      modifies this
      ensures (ok <==> FillNames(old(Now())).Some?) && Now() == FillNames(old(Now())).GetOr(old(Now()))
    {
      ghost var before := Now();
      var oldPlayers := players;
      players := set p | p in players :: WithAlias(aliases, p);
      players := set p | p in players :: WithLabel(p);
      TwoUpdates(before, players);
      NamesFilled(before, players);
      ok := NamesFit(players) && UniqueNames(players);
      if !ok {
        players := oldPlayers;
      }
    }

    method DowngradeNames() returns (ok: bool)
      modifies this
      ensures (ok <==> UnfillNames(old(Now())).Some?) && Now() == UnfillNames(old(Now())).GetOr(old(Now()))
    {
      var oldPlayers := players;
      players := set p | p in players :: Unnamed(p);
      ok := Xor(players);
      if !ok {
        players := oldPlayers;
      }
    }
  }

  lemma UnifyIs(s: Schema, order: seq<HolderRow>, t: Schema)
    requires t == s.(players := Merged(s, order), holders := {})
    ensures Unify(s, order) == if MergedOk(t.players) then Some(t) else None
  {
  }

  lemma InsertedRow(last: int, order: seq<HolderRow>, r: PlayerRow) returns (i: int)
    requires r in Inserted(last, order)
    ensures 0 <= i < |order|
    ensures r == PlayerRow(Some(last + 1 + i), order[i].tid, None, Some(order[i].name), order[i].bag)
  {
    i :| 0 <= i < |order| && r == PlayerRow(Some(last + 1 + i), order[i].tid, None, Some(order[i].name), order[i].bag);
  }

  lemma InsertedOneMore(last: int, order: seq<HolderRow>, i: nat)
    requires i < |order|
    ensures Inserted(last, order[..i + 1])
      == Inserted(last, order[..i])
         + {PlayerRow(Some(last + i + 1), order[i].tid, None, Some(order[i].name), order[i].bag)}
  {
  }

  lemma NamesFilled(s: Schema, named: set<PlayerRow>)
    requires named == AllNamed(s)
    ensures FillNames(s) == if NamesFit(named) && UniqueNames(named) then Some(s.(players := named)) else None
  {
  }

  function WithAlias(aliases: map<int, string>, p: PlayerRow): PlayerRow {
    if p.profile.Some? && p.profile.value in aliases && p.name.None? then p.(name := Some(aliases[p.profile.value]))
    else p
  }

  function WithLabel(p: PlayerRow): PlayerRow {
    if p.profile.Some? && p.name.None? then p.(name := Some("Player " + Text(p.profile.value))) else p
  }

  lemma TwoUpdates(s: Schema, players: set<PlayerRow>)
    requires players == (set p | p in (set q | q in s.players :: WithAlias(s.aliases, q)) :: WithLabel(p))
    ensures players == AllNamed(s)
  {
    forall p | p in s.players ensures WithLabel(WithAlias(s.aliases, p)) == Named(s, p) && Named(s, p) in players {
      assert WithAlias(s.aliases, p) in (set q | q in s.players :: WithAlias(s.aliases, q));
    }
    forall r | r in players ensures r in AllNamed(s) {
      var p :| p in s.players && r == WithLabel(WithAlias(s.aliases, p));
      assert r == Named(s, p);
    }
  }
}
