/** The migrations preserve meaning: ids are collision-free, teams read the same through the new key, upgrading
    and downgrading is the identity, and exactly when a revision aborts. */
module MigrationResults {
  import opened Common
  import opened Migrations

  // ---- surrogate ids ----

  lemma NumbersGrow(players: set<PlayerRow>, p: PlayerRow, q: PlayerRow)
    requires p in players && Lower(p, q)
    ensures RowNumber(players, p) < RowNumber(players, q)
  {
    var a := set r | r in players && Lower(r, p);
    var b := set r | r in players && Lower(r, q);
    assert p in b && p !in a && a <= b;
    Smaller(a, b, p);
  }

  lemma Smaller<T>(a: set<T>, b: set<T>, x: T)
    requires a <= b && x in b && x !in a
    ensures |a| < |b|
  {
    var rest := b - a;
    assert b == a + rest && x in rest;
    assert |b| == |a| + |rest|;
  }

  lemma NumbersDiffer(players: set<PlayerRow>, p: PlayerRow, q: PlayerRow)
    requires UniqueProfiles(players) && (forall r :: r in players ==> r.profile.Some?)
    requires p in players && q in players && p != q
    ensures RowNumber(players, p) != RowNumber(players, q)
  {
    if Lower(p, q) {
      NumbersGrow(players, p, q);
    } else {
      assert Lower(q, p);
      NumbersGrow(players, q, p);
    }
  }

  /** Row numbers follow the tournament, then the profile. */
  lemma NumbersFollowKeys(players: set<PlayerRow>, p: PlayerRow, q: PlayerRow)
    requires p in players && q in players && p.profile.Some? && q.profile.Some?
    requires p.tid < q.tid || (p.tid == q.tid && p.profile.value < q.profile.value)
    ensures RowNumber(players, p) < RowNumber(players, q)
  {
    NumbersGrow(players, p, q);
  }

  /** Row numbers run from 1 to the number of rows, so every inserted id is new. */
  lemma NumbersInRange(players: set<PlayerRow>, p: PlayerRow)
    requires p in players
    ensures 1 <= RowNumber(players, p) <= LastValue(players)
  {
    var a := set r | r in players && Lower(r, p);
    assert p !in a && a <= players;
    Smaller(a, players, p);
  }

  /** Some row comes after all the others. */
  lemma {:induction false} TopRow(players: set<PlayerRow>) returns (top: PlayerRow)
    requires (exists p :: p in players) && UniqueProfiles(players) && (forall p :: p in players ==> p.profile.Some?)
    ensures top in players && forall q :: q in players && q != top ==> Lower(q, top)
    decreases |players|
  {
    var p :| p in players;
    var rest := players - {p};
    assert forall q :: q in players ==> q == p || q in rest;
    if exists q :: q in rest {
      var best := TopRow(rest);
      top := if Lower(best, p) then p else best;
      forall q | q in players && q != top ensures Lower(q, top) {
        assert q == p || q == best || q in rest;
      }
    } else {
      top := p;
    }
  }

  /** The sequence is set to the largest id in use: no row number exceeds it (NumbersInRange), one meets it. */
  lemma LastValueIsLargest(players: set<PlayerRow>)
    requires (exists p :: p in players) && UniqueProfiles(players) && (forall p :: p in players ==> p.profile.Some?)
    ensures exists r :: r in Numbered(players) && r.id == Some(LastValue(players))
  {
    var top := TopRow(players);
    assert (set q | q in players && Lower(q, top)) == players - {top};
    assert |players - {top}| == |players| - 1;
    assert top.(id := Some(RowNumber(players, top))) in Numbered(players);
  }

  // ---- 75c172c71c39 ----

  lemma NumberedRow(players: set<PlayerRow>, r: PlayerRow) returns (p: PlayerRow)
    requires r in Numbered(players)
    ensures p in players && r == p.(id := Some(RowNumber(players, p))) && 1 <= r.id.value <= LastValue(players)
  {
    p :| p in players && r == p.(id := Some(RowNumber(players, p)));
    NumbersInRange(players, p);
  }

  lemma NewIdsDiffer(s: Schema, order: seq<HolderRow>, a: PlayerRow, b: PlayerRow)
    requires IsSplit(s)
    requires a in Numbered(s.players) + Inserted(LastValue(s.players), order)
    requires b in Numbered(s.players) + Inserted(LastValue(s.players), order)
    requires a.id == b.id
    ensures a == b
  {
    if a in Numbered(s.players) {
      var p := NumberedRow(s.players, a);
      if b in Numbered(s.players) {
        var q := NumberedRow(s.players, b);
        if p != q {
          NumbersDiffer(s.players, p, q);
        }
      }
    } else if b in Numbered(s.players) {
      var q := NumberedRow(s.players, b);
    }
  }

  lemma NewProfilesDiffer(s: Schema, order: seq<HolderRow>, a: PlayerRow, b: PlayerRow)
    requires IsSplit(s)
    requires a in Numbered(s.players) + Inserted(LastValue(s.players), order)
    requires b in Numbered(s.players) + Inserted(LastValue(s.players), order)
    requires a.tid == b.tid && a.profile.Some? && a.profile == b.profile
    ensures a == b
  {
  }

  lemma NewNamesDiffer(s: Schema, order: seq<HolderRow>, a: PlayerRow, b: PlayerRow)
    requires IsSplit(s) && Visits(order, s.holders)
    requires a in Numbered(s.players) + Inserted(LastValue(s.players), order)
    requires b in Numbered(s.players) + Inserted(LastValue(s.players), order)
    requires a.tid == b.tid && a.name.Some? && a.name == b.name
    ensures a == b
  {
  }

  /** The merge never aborts: the new ids are collision-free and every constraint it adds holds. */
  lemma UnifySucceeds(s: Schema, order: seq<HolderRow>)
    requires IsSplit(s) && Visits(order, s.holders)
    ensures Unify(s, order).Some?
  {
    var players := Numbered(s.players) + Inserted(LastValue(s.players), order);
    assert UniqueIds(players) by {
      forall a, b | a in players && b in players && a.id == b.id ensures a == b {
        NewIdsDiffer(s, order, a, b);
      }
    }
    assert UniqueProfiles(players) by {
      forall a, b | a in players && b in players && a.tid == b.tid && a.profile.Some? && a.profile == b.profile
        ensures a == b
      {
        NewProfilesDiffer(s, order, a, b);
      }
    }
    assert UniqueNames(players) by {
      forall a, b | a in players && b in players && a.tid == b.tid && a.name.Some? && a.name == b.name
        ensures a == b
      {
        NewNamesDiffer(s, order, a, b);
      }
    }
  }

  /** Splitting the merged table gives both tables back, whatever ids were handed out. */
  lemma SplitUndoesUnify(s: Schema, order: seq<HolderRow>)
    requires IsSplit(s) && Visits(order, s.holders)
    ensures Unify(s, order).Some? && Split(Unify(s, order).value) == Some(s)
  {
    UnifySucceeds(s, order);
    var u := Unify(s, order).value;
    LinkedAreNumbered(s, order);
    UnlinkedAreInserted(s, order);
    RowsRestored(s.players);
    HoldersRestored(s.holders, LastValue(s.players), order);
  }

  lemma LinkedAreNumbered(s: Schema, order: seq<HolderRow>)
    requires IsSplit(s)
    ensures Linked(Numbered(s.players) + Inserted(LastValue(s.players), order)) == Numbered(s.players)
  {
  }

  lemma UnlinkedAreInserted(s: Schema, order: seq<HolderRow>)
    requires IsSplit(s)
    ensures var inserted := Inserted(LastValue(s.players), order);
      Unlinked(Numbered(s.players) + inserted) == inserted
  {
  }

  lemma RowsRestored(players: set<PlayerRow>)
    requires forall p :: p in players ==> p.id.None? && p.name.None?
    ensures (set p | p in Numbered(players) :: p.(id := None, name := None)) == players
  {
  }

  lemma HoldersRestored(holders: set<HolderRow>, last: int, order: seq<HolderRow>)
    requires Visits(order, holders)
    ensures (set p | p in Inserted(last, order) && p.name.Some? :: HolderRow(p.tid, p.name.value, p.bag)) == holders
  {
    var back := set p | p in Inserted(last, order) && p.name.Some? :: HolderRow(p.tid, p.name.value, p.bag);
    forall h | h in holders ensures h in back {
      var i :| 0 <= i < |order| && order[i] == h;
      var r := PlayerRow(Some(last + 1 + i), order[i].tid, None, Some(order[i].name), order[i].bag);
      assert r in Inserted(last, order);
    }
    forall h | h in back ensures h in holders {
      var p :| p in Inserted(last, order) && p.name.Some? && h == HolderRow(p.tid, p.name.value, p.bag);
      var i := InsertedRow(last, order, p);
      assert order[i] == h;
    }
  }

  // ---- f812a0b45583, fd4a4e26ec02, cb051bd9d638 ----

  /** The member is on the roster of its team's tournament. */
  ghost predicate Rostered(s: Schema, m: MemberRow) {
    exists p :: p in s.players && Matches(s, m, p)
  }

  /** The merged roster with members still on the old key. */
  ghost predicate IsUnified(s: Schema) {
    && UniqueIds(s.players) && UniqueProfiles(s.players) && Xor(s.players)
    && (forall m :: m in s.members ==> m.profile.Some? && m.entry.None?)
    && KeyedByProfile(s.members)
  }

  /** The second backfill has nothing left to do. */
  lemma SecondBackfillIdle(s: Schema)
    requires IsUnified(s)
    ensures Backfilled(Expand(s), true) == Expand(s).members
  {
  }

  lemma ExpandedKeyed(s: Schema, a: MemberRow, b: MemberRow)
    requires IsUnified(s) && (forall m :: m in s.members ==> Rostered(s, m))
    requires a in Expand(s).members && b in Expand(s).members
    ensures a.entry.Some? && a.profile.Some?
    ensures a.team == b.team && (a.entry == b.entry || a.profile == b.profile) ==> a == b
  {
  }

  /** The new key can be required exactly if every member is on the roster of its team's tournament. */
  lemma RekeyIff(s: Schema)
    requires IsUnified(s)
    ensures Rekey(s).Some? <==> forall m :: m in s.members ==> Rostered(s, m)
  {
  }

  lemma ContractUndone(s: Schema)
    requires IsUnified(s) && (forall m :: m in s.members ==> Rostered(s, m))
    ensures Uncontract(Contract(Expand(s))) == Expand(s)
  {
  }

  lemma ExpandUndone(s: Schema)
    requires IsUnified(s)
    ensures Unexpand(Expand(s)) == s
  {
  }

  /** Moving the key there and back gives every membership back. */
  lemma UnrekeyUndoesRekey(s: Schema)
    requires IsUnified(s) && Rekey(s).Some?
    ensures Unrekey(Rekey(s).value) == Some(s)
  {
    RekeyIff(s);
    SecondBackfillIdle(s);
    ContractUndone(s);
    var e := Expand(s);
    forall a, b | a in e.members && b in e.members
      ensures a.profile.Some? && (a.team == b.team && a.profile == b.profile ==> a == b)
    {
      ExpandedKeyed(s, a, b);
    }
    assert (set m | m in e.members && m.profile.Some?) == e.members;
    ExpandUndone(s);
  }

  /** The profile is on the team, by the old key or by the new one. */
  ghost predicate OnTeamByProfile(members: set<MemberRow>, team: int, profile: int, captain: bool) {
    exists m :: m in members && m.team == team && m.profile == Some(profile) && m.captain == captain
  }

  ghost predicate IsEntryOf(players: set<PlayerRow>, entry: Option<int>, profile: int) {
    exists p :: p in players && p.id.Some? && p.id == entry && p.profile == Some(profile)
  }

  ghost predicate OnTeamByEntry(s: Schema, team: int, profile: int, captain: bool) {
    exists m :: m in s.members && m.team == team && m.captain == captain && IsEntryOf(s.players, m.entry, profile)
  }

  /** Who is on which team, and who captains it, reads the same through the new key as through the old. */
  lemma SameTeams(s: Schema, team: int, profile: int, captain: bool)
    requires IsUnified(s) && Rekey(s).Some?
    ensures OnTeamByEntry(Rekey(s).value, team, profile, captain)
      <==> OnTeamByProfile(s.members, team, profile, captain)
  {
  }

  // ---- 1b4c7991f59a ----

  lemma UnfillUndoesFill(s: Schema)
    requires Xor(s.players) && FillNames(s).Some?
    ensures UnfillNames(FillNames(s).value) == Some(s)
  {
    var back := set p | p in AllNamed(s) :: Unnamed(p);
    forall p | p in s.players ensures p in back && Unnamed(Named(s, p)) == p {
      assert Named(s, p) in AllNamed(s);
    }
    forall x | x in back ensures x in s.players {
      var r :| r in AllNamed(s) && x == Unnamed(r);
      var p :| p in s.players && r == Named(s, p);
    }
    assert back == s.players;
  }

  function LabelOf(s: Schema, p: PlayerRow): string {
    Label(s, p.profile.GetOr(0))
  }

  /** The labels the backfill makes fit the column and collide neither with each other nor with a placeholder's
      name in the same tournament. */
  ghost predicate NamesClear(s: Schema) {
    && (forall p :: p in s.players ==> |LabelOf(s, p)| <= 64)
    && (forall p, q :: p in s.players && q in s.players && p.tid == q.tid && LabelOf(s, p) == LabelOf(s, q) ==> p == q)
    && (forall p, h :: p in s.players && h in s.holders && p.tid == h.tid ==> LabelOf(s, p) != h.name)
  }

  /** A row after the merge and the name backfill, from the linked row it comes from. */
  function FromPlayer(s: Schema, p: PlayerRow): PlayerRow {
    p.(id := Some(RowNumber(s.players, p)), name := Some(LabelOf(s, p)))
  }

  lemma PlayerIsNamed(s: Schema, order: seq<HolderRow>, p: PlayerRow)
    requires IsSplit(s) && Visits(order, s.holders) && p in s.players
    ensures Unify(s, order).Some? && FromPlayer(s, p) in AllNamed(Unify(s, order).value)
  {
    UnifySucceeds(s, order);
    var r := p.(id := Some(RowNumber(s.players, p)));
    assert r in Numbered(s.players);
    assert Named(Unify(s, order).value, r) == FromPlayer(s, p);
  }

  lemma HolderIsInserted(last: int, order: seq<HolderRow>, h: HolderRow) returns (r: PlayerRow)
    requires h in order
    ensures r in Inserted(last, order) && r.tid == h.tid && r.name == Some(h.name) && r.profile == None
  {
    var i :| 0 <= i < |order| && order[i] == h;
    r := PlayerRow(Some(last + 1 + i), order[i].tid, None, Some(order[i].name), order[i].bag);
  }

  lemma HolderIsNamed(s: Schema, order: seq<HolderRow>, h: HolderRow) returns (r: PlayerRow)
    requires IsSplit(s) && Visits(order, s.holders) && h in s.holders
    requires Unify(s, order).Some?
    ensures r in AllNamed(Unify(s, order).value)
    ensures r.tid == h.tid && r.name == Some(h.name) && r.profile == None
  {
    var u := Unify(s, order).value;
    r := HolderIsInserted(LastValue(s.players), order, h);
    assert r in u.players && Named(u, r) == r;
  }

  lemma NamedOrigin(s: Schema, order: seq<HolderRow>, r: PlayerRow)
    requires IsSplit(s) && Visits(order, s.holders)
    requires Unify(s, order).Some? && r in AllNamed(Unify(s, order).value)
    ensures (exists p :: p in s.players && r == FromPlayer(s, p)) || r in Inserted(LastValue(s.players), order)
  {
  }

  lemma ClearNamesDiffer(s: Schema, order: seq<HolderRow>, a: PlayerRow, b: PlayerRow)
    requires IsSplit(s) && Visits(order, s.holders) && NamesClear(s)
    requires Unify(s, order).Some?
    requires a in AllNamed(Unify(s, order).value) && b in AllNamed(Unify(s, order).value)
    ensures a.name.Some? && |a.name.value| <= NAME_LENGTH
    ensures a.tid == b.tid && a.name == b.name ==> a == b
  {
    var last := LastValue(s.players);
    NamedOrigin(s, order, a);
    NamedOrigin(s, order, b);
    if a in Inserted(last, order) {
      var i := InsertedRow(last, order, a);
      assert order[i] in s.holders;
      if b in Inserted(last, order) && a.tid == b.tid && a.name == b.name {
        NewNamesDiffer(s, order, a, b);
      }
    } else if b in Inserted(last, order) {
      var j := InsertedRow(last, order, b);
      assert order[j] in s.holders;
    }
  }

  lemma ClearNamesFit(s: Schema, order: seq<HolderRow>)
    requires IsSplit(s) && Visits(order, s.holders) && Unify(s, order).Some? && NamesClear(s)
    ensures FillNames(Unify(s, order).value).Some?
  {
    var named := AllNamed(Unify(s, order).value);
    forall a, b | a in named && b in named
      ensures a.name.Some? && |a.name.value| <= NAME_LENGTH && (a.tid == b.tid && a.name == b.name ==> a == b)
    {
      ClearNamesDiffer(s, order, a, b);
    }
  }

  /** What two labels, or a label and a placeholder's name, must satisfy for the names to go in. */
  lemma LabelsDiffer(s: Schema, order: seq<HolderRow>, p: PlayerRow, q: PlayerRow)
    requires IsSplit(s) && Visits(order, s.holders) && Unify(s, order).Some?
    requires FillNames(Unify(s, order).value).Some? && p in s.players && q in s.players
    ensures |LabelOf(s, p)| <= NAME_LENGTH
    ensures p.tid == q.tid && LabelOf(s, p) == LabelOf(s, q) ==> p == q
  {
    PlayerIsNamed(s, order, p);
    PlayerIsNamed(s, order, q);
    assert p.(id := None, name := None) == FromPlayer(s, p).(id := None, name := None) == p;
    assert q.(id := None, name := None) == FromPlayer(s, q).(id := None, name := None) == q;
  }

  lemma LabelIsNoHolder(s: Schema, order: seq<HolderRow>, p: PlayerRow, h: HolderRow)
    requires IsSplit(s) && Visits(order, s.holders) && Unify(s, order).Some?
    requires FillNames(Unify(s, order).value).Some? && p in s.players && h in s.holders && p.tid == h.tid
    ensures LabelOf(s, p) != h.name
  {
    PlayerIsNamed(s, order, p);
    var r := HolderIsNamed(s, order, h);
  }

  lemma FittingNamesClear(s: Schema, order: seq<HolderRow>)
    requires IsSplit(s) && Visits(order, s.holders) && Unify(s, order).Some?
    requires FillNames(Unify(s, order).value).Some?
    ensures NamesClear(s)
  {
    forall p, q | p in s.players && q in s.players
      ensures |LabelOf(s, p)| <= NAME_LENGTH && (p.tid == q.tid && LabelOf(s, p) == LabelOf(s, q) ==> p == q)
    {
      LabelsDiffer(s, order, p, q);
    }
    forall p, h | p in s.players && h in s.holders && p.tid == h.tid ensures LabelOf(s, p) != h.name {
      LabelIsNoHolder(s, order, p, h);
    }
  }

  /** The name backfill goes through exactly if the labels are clear. */
  lemma NamesIff(s: Schema, order: seq<HolderRow>)
    requires IsSplit(s) && Visits(order, s.holders) && Unify(s, order).Some?
    ensures FillNames(Unify(s, order).value).Some? <==> NamesClear(s)
  {
    if NamesClear(s) {
      ClearNamesFit(s, order);
    }
    if FillNames(Unify(s, order).value).Some? {
      FittingNamesClear(s, order);
    }
  }

  // ---- the whole chain ----

  lemma UnifiedMembers(s: Schema, order: seq<HolderRow>)
    requires IsSplit(s) && Visits(order, s.holders)
    ensures Unify(s, order).Some? && IsUnified(Unify(s, order).value)
    ensures forall m :: m in s.members ==> (Rostered(Unify(s, order).value, m) <==> Rostered(s, m))
  {
    UnifySucceeds(s, order);
    var u := Unify(s, order).value;
    forall m | m in s.members ensures Rostered(u, m) <==> Rostered(s, m) {
      if p :| p in s.players && Matches(s, m, p) {
        var r := p.(id := Some(RowNumber(s.players, p)));
        assert r in u.players && Matches(u, m, r);
      }
      if r :| r in u.players && Matches(u, m, r) {
        var p := NumberedRow(s.players, r);
        assert Matches(s, m, p);
      }
    }
  }

  /** Every team member is on the roster of its team's tournament and the labels are clear. */
  ghost predicate Upgradable(s: Schema) {
    (forall m :: m in s.members ==> Rostered(s, m)) && NamesClear(s)
  }

  /** That is exactly when the upgrade succeeds; the merge itself never stops it, nor does the order in which
      it visits the placeholders. */
  lemma UpgradeIff(s: Schema, order: seq<HolderRow>)
    requires IsSplit(s) && Visits(order, s.holders)
    ensures Upgrade(s, order).Some? <==> Upgradable(s)
  {
    UnifiedMembers(s, order);
    var u := Unify(s, order).value;
    RekeyIff(u);
    NamesIff(s, order);
    if Rekey(u).Some? {
      SameFill(u, Rekey(u).value);
    }
  }

  /** Moving the key does not touch what the name backfill reads. */
  lemma SameFill(s: Schema, t: Schema)
    requires t.players == s.players && t.aliases == s.aliases
    ensures FillNames(t).Some? == FillNames(s).Some?
  {
  }

  lemma UpgradedPlayers(s: Schema, order: seq<HolderRow>)
    requires IsSplit(s) && Visits(order, s.holders) && Upgrade(s, order).Some?
    ensures Unify(s, order).Some?
    ensures Upgrade(s, order).value.players == AllNamed(Unify(s, order).value)
    ensures Upgrade(s, order).value.holders == {} && Upgrade(s, order).value.teams == s.teams
  {
    var u := Unify(s, order).value;
    NamedAlike(u, Rekey(u).value);
  }

  lemma NamedAlike(s: Schema, t: Schema)
    requires t.players == s.players && t.aliases == s.aliases
    ensures AllNamed(t) == AllNamed(s)
  {
  }

  /** The name a linked row gets: the alias of a polled profile, else "Player " and the profile id in decimal. */
  predicate GetsName(s: Schema, profile: int, name: string) {
    if profile in s.aliases then name == s.aliases[profile]
    else
      |name| > 7 && name[..7] == "Player " && IsNumber(name[7..], profile)
  }

  /** These are the digits of n, without a leading zero. */
  predicate IsDecimal(digits: string, n: int) {
    && (forall c :: c in digits ==> '0' <= c <= '9') && |digits| > 0 && (|digits| > 1 ==> digits[0] != '0')
    && Value(digits) == n
  }

  function Value(digits: string): int {
    if |digits| == 0 then 0 else 10 * Value(Init(digits)) + (Last(digits) as int - '0' as int)
  }

  lemma {:induction false} DecimalIs(n: nat)
    ensures IsDecimal(Decimal(n), n)
    ensures n > 0 ==> Decimal(n)[0] != '0'
  {
    if n >= 10 {
      DecimalIs(n / 10);
      assert Init(Decimal(n)) == Decimal(n / 10);
    } else {
      assert Init(Decimal(n)) == [];
    }
  }

  predicate IsNumber(text: string, n: int) {
    |text| > 0 && if n < 0 then text[0] == '-' && IsDecimal(text[1..], -n) else IsDecimal(text, n)
  }

  lemma TextIs(n: int)
    ensures IsNumber(Text(n), n)
  {
    if n < 0 {
      DecimalIs(-n);
      assert Text(n)[1..] == Decimal(-n);
    } else {
      DecimalIs(n);
    }
  }

  lemma LabelIs(s: Schema, profile: int)
    ensures GetsName(s, profile, Label(s, profile))
  {
    if profile !in s.aliases {
      TextIs(profile);
      PrefixedIs("Player ", Text(profile));
    }
  }

  lemma PrefixedIs(prefix: string, text: string)
    ensures (prefix + text)[..|prefix|] == prefix && (prefix + text)[|prefix|..] == text
  {
  }

  /** After the upgrade every linked row is there under its new id with its name, a polled one its alias, and every
      placeholder with its own name and no profile. */
  lemma UpgradeNamesRows(s: Schema, order: seq<HolderRow>)
    requires IsSplit(s) && Visits(order, s.holders) && Upgrade(s, order).Some?
    ensures forall p :: p in s.players ==>
      exists r :: r in Upgrade(s, order).value.players && r.tid == p.tid && r.profile == p.profile && r.bag == p.bag
                  && r.id == Some(RowNumber(s.players, p)) && r.name.Some?
                  && GetsName(s, p.profile.value, r.name.value)
    ensures forall h :: h in s.holders ==>
      exists r :: r in Upgrade(s, order).value.players && r.tid == h.tid && r.profile == None && r.name == Some(h.name)
  {
    UpgradedPlayers(s, order);
    forall p | p in s.players
      ensures exists r :: r in Upgrade(s, order).value.players && r.tid == p.tid && r.profile == p.profile
                          && r.bag == p.bag && r.id == Some(RowNumber(s.players, p)) && r.name.Some?
                          && GetsName(s, p.profile.value, r.name.value)
    {
      PlayerIsNamed(s, order, p);
      LabelIs(s, p.profile.value);
      assert FromPlayer(s, p) in Upgrade(s, order).value.players;
    }
    forall h | h in s.holders
      ensures exists r :: r in Upgrade(s, order).value.players && r.tid == h.tid && r.profile == None
                          && r.name == Some(h.name)
    {
      var r := HolderIsNamed(s, order, h);
    }
  }

  /** Upgrading and downgrading again is the identity on rosters, placeholders and memberships. */
  lemma RoundTrip(s: Schema, order: seq<HolderRow>)
    requires IsSplit(s) && Visits(order, s.holders) && Upgradable(s)
    ensures Upgrade(s, order).Some?
    ensures Downgrade(Upgrade(s, order).value) == Some(s)
  {
    UpgradeIff(s, order);
    UnifiedMembers(s, order);
    var u := Unify(s, order).value;
    UnfillUndoesFill(Rekey(u).value);
    UnrekeyUndoesRekey(u);
    SplitUndoesUnify(s, order);
  }

  lemma NamingKeepsIds(s: Schema)
    requires UniqueIds(s.players)
    ensures UniqueIds(AllNamed(s))
  {
  }

  /** After the upgrade the surrogate ids are collision-free. */
  lemma UpgradeIdsUnique(s: Schema, order: seq<HolderRow>)
    requires IsSplit(s) && Visits(order, s.holders) && Upgradable(s)
    ensures Upgrade(s, order).Some?
    ensures UniqueIds(Upgrade(s, order).value.players)
  {
    UpgradeIff(s, order);
    UnifiedMembers(s, order);
    NamingKeepsIds(Rekey(Unify(s, order).value).value);
  }

  lemma NamingKeepsTeams(s: Schema, t: Schema, team: int, profile: int, captain: bool)
    requires t.players == AllNamed(s) && t.members == s.members
    ensures OnTeamByEntry(t, team, profile, captain) <==> OnTeamByEntry(s, team, profile, captain)
  {
  }

  /** After the upgrade every team, and its captain, reads as before. */
  lemma UpgradeKeepsTeams(s: Schema, order: seq<HolderRow>, team: int, profile: int, captain: bool)
    requires IsSplit(s) && Visits(order, s.holders) && Upgradable(s)
    ensures Upgrade(s, order).Some?
    ensures OnTeamByEntry(Upgrade(s, order).value, team, profile, captain)
      <==> OnTeamByProfile(s.members, team, profile, captain)
  {
    UpgradeIff(s, order);
    UnifiedMembers(s, order);
    var u := Unify(s, order).value;
    SameTeams(u, team, profile, captain);
    NamingKeepsTeams(Rekey(u).value, Upgrade(s, order).value, team, profile, captain);
  }

  // ---- when a revision aborts, for any rows ----

  /** Requiring the new key aborts exactly if some membership ends without it or two of a team share one. */
  lemma TransitionIff(s: Schema)
    ensures Transition(s).Some? <==>
      && (forall m :: m in Backfilled(s, true) ==> m.entry.Some?)
      && (forall m, n :: m in Backfilled(s, true) && n in Backfilled(s, true) && m.team == n.team ==>
            m.entry != n.entry || m == n)
  {
  }

  /** Going back to the old key aborts exactly if two memberships of a team share a profile. */
  lemma UntransitionIff(s: Schema)
    ensures Untransition(s).Some? <==>
      forall m, n :: m in s.members && n in s.members && m.profile.Some? && m.team == n.team ==>
        m.profile != n.profile || m == n
    ensures Untransition(s).Some? ==>
      Untransition(s).value == s.(members := set m | m in s.members && m.profile.Some?)
  {
    var kept := set m | m in s.members && m.profile.Some?;
    assert forall m :: m in kept <==> m in s.members && m.profile.Some?;
  }

  /** Taking the names away aborts exactly if an unlinked row has none. */
  lemma UnfillIff(s: Schema)
    ensures UnfillNames(s).Some? <==> forall p :: p in s.players && p.profile.None? ==> p.name.Some?
  {
    forall p | p in s.players ensures Unnamed(p) in (set q | q in s.players :: Unnamed(q)) {
    }
  }

  /** Splitting aborts exactly if an unlinked row has no name, two of a tournament share one, or two linked rows of a
      tournament share a profile. */
  lemma SplitIff(s: Schema)
    ensures Split(s).Some? <==>
      && (forall p :: p in s.players && p.profile.None? ==> p.name.Some?)
      && (forall p, q :: p in s.players && q in s.players && p.profile.None? && q.profile.None? && p.tid == q.tid ==>
            p.name != q.name || p == q)
      && (forall p, q :: p in s.players && q in s.players && p.profile.Some? && p.tid == q.tid ==>
            p.profile != q.profile || p == q)
  {
    assert forall p :: p in Linked(s.players) <==> p in s.players && p.profile.Some?;
    assert forall p :: p in Unlinked(s.players) <==> p in s.players && p.profile.None?;
  }

  /** The sequence of an empty table stands at 1, so its first placeholder gets id 2. */
  lemma FirstPlaceholder(s: Schema, h: HolderRow)
    requires s.players == {}
    ensures Merged(s, [h]) == {PlayerRow(Some(2), h.tid, None, Some(h.name), h.bag)}
  {
    assert Numbered(s.players) == {};
    var order := [h];
    forall r ensures r in Inserted(1, order) <==> r == PlayerRow(Some(2), h.tid, None, Some(h.name), h.bag) {
      if r == PlayerRow(Some(2), h.tid, None, Some(h.name), h.bag) {
        assert r == PlayerRow(Some(1 + 1 + 0), order[0].tid, None, Some(order[0].name), order[0].bag);
      }
    }
  }

  // ---- downgrading what came later ----

  /** The member's row, on the roster of its team's tournament. */
  ghost predicate HasRow(s: Schema, m: MemberRow) {
    m.team in s.teams && exists p :: p in s.players && p.id == m.entry && p.tid == s.teams[m.team]
  }

  /** The latest schema with any rows written since: everyone named, members on the new key. */
  ghost predicate IsLatest(s: Schema) {
    && UniqueIds(s.players) && UniqueProfiles(s.players) && UniqueNames(s.players)
    && (forall p :: p in s.players ==> p.name.Some?)
    && KeyedByEntry(s.members)
    && (forall m :: m in s.members ==> m.profile.None? && HasRow(s, m))
  }

  /** The downgrade always succeeds. */
  lemma DowngradeSucceeds(s: Schema)
    requires IsLatest(s)
    ensures Downgrade(s).Some?
  {
  }

  lemma UnnamedEntry(s: Schema, entry: Option<int>, profile: int)
    requires UnfillNames(s).Some?
    ensures IsEntryOf(UnfillNames(s).value.players, entry, profile) <==> IsEntryOf(s.players, entry, profile)
  {
    if p :| p in s.players && p.id.Some? && p.id == entry && p.profile == Some(profile) {
      assert Unnamed(p) in UnfillNames(s).value.players;
    }
  }

  lemma UncontractedRow(s: Schema, r: MemberRow) returns (m: MemberRow)
    requires r in Uncontract(s).members
    ensures m in s.members && r.team == m.team && r.entry == m.entry && r.captain == m.captain
    ensures r.profile.Some? ==> IsEntryOf(s.players, m.entry, r.profile.value)
  {
    if m', p :| m' in s.members && p in s.players && Rows(s, m', p) && r == m'.(profile := p.profile) {
      m := m';
    } else {
      m :| m in s.members && r == m.(profile := None);
    }
  }

  lemma LinkedKept(s: Schema, team: int, profile: int, captain: bool)
    requires Downgrade(s).Some? && OnTeamByEntry(s, team, profile, captain)
    ensures OnTeamByProfile(Downgrade(s).value.members, team, profile, captain)
  {
    var t := UnfillNames(s).value;
    var m :| m in s.members && m.team == team && m.captain == captain && IsEntryOf(s.players, m.entry, profile);
    UnnamedEntry(s, m.entry, profile);
    var p :| p in t.players && p.id.Some? && p.id == m.entry && p.profile == Some(profile);
    assert Rows(t, m, p);
    var r := m.(profile := p.profile);
    assert r in Uncontract(t).members && r.(entry := None) in Downgrade(s).value.members;
  }

  lemma KeptLinked(s: Schema, team: int, profile: int, captain: bool)
    requires Downgrade(s).Some? && OnTeamByProfile(Downgrade(s).value.members, team, profile, captain)
    ensures OnTeamByEntry(s, team, profile, captain)
  {
    var t := UnfillNames(s).value;
    var x :| x in Downgrade(s).value.members && x.team == team && x.profile == Some(profile) && x.captain == captain;
    var r :| r in Uncontract(t).members && r.profile.Some? && x == r.(entry := None);
    var m := UncontractedRow(t, r);
    UnnamedEntry(s, m.entry, profile);
  }

  /** What it keeps of the teams: exactly the memberships of linked entrants. */
  lemma DowngradeKeepsLinked(s: Schema, team: int, profile: int, captain: bool)
    requires IsLatest(s)
    ensures Downgrade(s).Some?
    ensures OnTeamByProfile(Downgrade(s).value.members, team, profile, captain)
      <==> OnTeamByEntry(s, team, profile, captain)
  {
    DowngradeSucceeds(s);
    if OnTeamByEntry(s, team, profile, captain) {
      LinkedKept(s, team, profile, captain);
    }
    if OnTeamByProfile(Downgrade(s).value.members, team, profile, captain) {
      KeptLinked(s, team, profile, captain);
    }
  }

  // ---- labels ----

  lemma {:induction false} DecimalDiffers(a: nat, b: nat)
    requires Decimal(a) == Decimal(b)
    ensures a == b
  {
    assert Last(Decimal(a)) == Digit(a % 10) && Last(Decimal(b)) == Digit(b % 10);
    if a >= 10 && b >= 10 {
      assert Init(Decimal(a)) == Decimal(a / 10) && Init(Decimal(b)) == Decimal(b / 10);
      DecimalDiffers(a / 10, b / 10);
    }
  }

  lemma {:induction false} DecimalIsDigits(n: nat)
    ensures |Decimal(n)| > 0 && '0' <= Decimal(n)[0] <= '9'
    ensures n >= 10 ==> |Decimal(n)| > 1
  {
    if n >= 10 {
      DecimalIsDigits(n / 10);
    }
  }

  /** Two unpolled profiles never get the same label. */
  lemma SyntheticLabelsDiffer(s: Schema, a: int, b: int)
    requires a !in s.aliases && b !in s.aliases && a != b
    ensures Label(s, a) != Label(s, b)
  {
    if Label(s, a) == Label(s, b) {
      assert Text(a) == Label(s, a)[7..] && Text(b) == Label(s, b)[7..];
      if a < 0 && b < 0 {
        assert Text(a)[1..] == Decimal(-a) && Text(b)[1..] == Decimal(-b);
        DecimalDiffers(-a, -b);
      } else if a >= 0 && b >= 0 {
        DecimalDiffers(a, b);
      } else {
        DecimalIsDigits(if a < 0 then b else a);
      }
      assert false;
    }
  }
}
