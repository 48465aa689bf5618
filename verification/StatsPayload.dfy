/** Reading the stats payload: which profile a rating row belongs to, and the floor under the peak. */
module StatsPayload {
  import opened Common
  import opened RatingLog

  /** A JSON number that may be missing or null. */
  datatype Field = Absent | Null | Given(value: int)

  /** `members` are profile ids; only the first is read. */
  datatype StatGroup = StatGroup(id: int, members: seq<int>)

  datatype RawStat = RawStat(group: Option<int>, board: int, rating: Field, highest: Field, stats: seq<int>)

  function OrZero(f: Field): int {
    if f.Given? then f.value else 0
  }

  function RatingRow(profile: int, raw: RawStat): Polled {
    var peak := if OrZero(raw.highest) < OrZero(raw.rating) then OrZero(raw.rating) else OrZero(raw.highest);
    Polled(Pair(profile, raw.board), peak, if raw.rating.Null? then None else Some(OrZero(raw.rating)), raw.stats)
  }

  /** The first member of the last non-empty group with this id. */
  function OwnerOf(groups: seq<StatGroup>, id: Option<int>): Option<int> {
    if |groups| == 0 || id.None? then None
    else if Last(groups).id == id.value && |Last(groups).members| > 0 then Some(Last(groups).members[0])
    else OwnerOf(Init(groups), id)
  }

  function RatingRows(groups: seq<StatGroup>, raws: seq<RawStat>): seq<Polled> {
    if |raws| == 0 then []
    else
      var owner := OwnerOf(groups, Last(raws).group);
      RatingRows(groups, Init(raws)) + if owner.None? then [] else [RatingRow(owner.value, Last(raws))]
  }

  method ParsePlayerStats(groups: seq<StatGroup>, raws: seq<RawStat>) returns (ratings: seq<Polled>)
    ensures ratings == RatingRows(groups, raws)
    ensures forall r :: r in ratings ==> Floored(r.maxRating, r.currentRating)
  {
    var profileOf: map<int, int> := map[];
    for i := 0 to |groups|
      invariant forall id :: Get(profileOf, id) == OwnerOf(groups[..i], Some(id))
    {
      assert Init(groups[..i + 1]) == groups[..i];
      if |groups[i].members| > 0 {
        profileOf := profileOf[groups[i].id := groups[i].members[0]];
      }
    }
    assert groups[..|groups|] == groups;
    ratings := [];
    for i := 0 to |raws|
      invariant ratings == RatingRows(groups, raws[..i])
    {
      assert Init(raws[..i + 1]) == raws[..i];
      var group := raws[i].group;
      if group.Some? && group.value in profileOf {
        ratings := ratings + [RatingRow(profileOf[group.value], raws[i])];
      }
    }
    assert raws[..|raws|] == raws;
    RowsFloored(groups, raws);
  }

  // ---- what a payload's rows become ----

  /** Group i is the last one with this id that has members. */
  ghost predicate IsLastGroup(groups: seq<StatGroup>, id: int, i: int) {
    && 0 <= i < |groups| && groups[i].id == id && |groups[i].members| > 0
    && forall j :: i < j < |groups| && groups[j].id == id ==> groups[j].members == []
  }

  /** The profile is the first member of the last group with this id that has any. */
  ghost predicate Owns(groups: seq<StatGroup>, id: Option<int>, profile: int) {
    id.Some? && exists i :: IsLastGroup(groups, id.value, i) && groups[i].members[0] == profile
  }

  lemma {:induction false} OwnerIs(groups: seq<StatGroup>, id: Option<int>, profile: int)
    ensures OwnerOf(groups, id) == Some(profile) <==> Owns(groups, id, profile)
  {
    if |groups| > 0 && id.Some? {
      OwnerIs(Init(groups), id, profile);
      if Last(groups).id == id.value && |Last(groups).members| > 0 {
        assert IsLastGroup(groups, id.value, |groups| - 1);
      } else {
        forall i ensures IsLastGroup(groups, id.value, i) <==> IsLastGroup(Init(groups), id.value, i) {
          LastGroupBefore(groups, id.value, i);
        }
      }
    }
  }

  lemma LastGroupBefore(groups: seq<StatGroup>, id: int, i: int)
    requires |groups| > 0 && (Last(groups).id != id || Last(groups).members == [])
    ensures IsLastGroup(groups, id, i) <==> IsLastGroup(Init(groups), id, i)
  {
    assert forall j :: 0 <= j < |groups| - 1 ==> Init(groups)[j] == groups[j];
  }

  /** The peak is at least both given ratings and one of them, 0 standing in for one that is not given; the current
      rating is the given one, 0 if it is missing and null if it is null. */
  ghost predicate StoredAs(groups: seq<StatGroup>, raw: RawStat, r: Polled) {
    && Owns(groups, raw.group, r.pair.profile) && r.pair.board == raw.board && r.stats == raw.stats
    && (raw.rating.Given? ==> raw.rating.value <= r.maxRating)
    && (raw.highest.Given? ==> raw.highest.value <= r.maxRating)
    && (raw.rating.Given? && raw.highest.Given? ==> r.maxRating in {raw.rating.value, raw.highest.value})
    && (raw.rating.Given? && !raw.highest.Given? ==> 0 <= r.maxRating && r.maxRating in {raw.rating.value, 0})
    && (!raw.rating.Given? && raw.highest.Given? ==> 0 <= r.maxRating && r.maxRating in {raw.highest.value, 0})
    && (!raw.rating.Given? && !raw.highest.Given? ==> r.maxRating == 0)
    && r.currentRating == match raw.rating { case Given(v) => Some(v) case Absent => Some(0) case Null => None }
  }

  lemma RowIsStored(groups: seq<StatGroup>, raw: RawStat, profile: int)
    requires OwnerOf(groups, raw.group) == Some(profile)
    ensures StoredAs(groups, raw, RatingRow(profile, raw))
  {
    OwnerIs(groups, raw.group, profile);
  }

  ghost predicate Owned(groups: seq<StatGroup>, raw: RawStat) {
    exists profile :: Owns(groups, raw.group, profile)
  }

  /** Row i is what stats row from[i] becomes. */
  ghost predicate ComeFrom(groups: seq<StatGroup>, raws: seq<RawStat>, rows: seq<Polled>, from: seq<int>) {
    && |from| == |rows|
    && forall i :: 0 <= i < |from| ==> 0 <= from[i] < |raws| && StoredAs(groups, raws[from[i]], rows[i])
  }

  /** These are the stats rows with an owner, in order. */
  ghost predicate AllOwned(groups: seq<StatGroup>, raws: seq<RawStat>, from: seq<int>) {
    Increasing(from) && forall k :: k in from <==> 0 <= k < |raws| && Owned(groups, raws[k])
  }

  lemma OneMoreFrom(groups: seq<StatGroup>, raws: seq<RawStat>, raw: RawStat, rows: seq<Polled>, from: seq<int>)
    requires ComeFrom(groups, raws, rows, from) && AllOwned(groups, raws, from)
    ensures !Owned(groups, raw) ==>
      ComeFrom(groups, raws + [raw], rows, from) && AllOwned(groups, raws + [raw], from)
    ensures Owned(groups, raw) ==> AllOwned(groups, raws + [raw], from + [|raws|])
    ensures forall r :: StoredAs(groups, raw, r) ==> ComeFrom(groups, raws + [raw], rows + [r], from + [|raws|])
  {
    assert forall i :: 0 <= i < |from| ==> from[i] in from;
    assert forall k :: k in from + [|raws|] <==> k in from || k == |raws|;
  }

  /** A payload's rating rows: each stats row with an owner gives one, in order, and no other row does. */
  lemma {:induction false} RowsAre(groups: seq<StatGroup>, raws: seq<RawStat>) returns (from: seq<int>)
    ensures ComeFrom(groups, raws, RatingRows(groups, raws), from) && AllOwned(groups, raws, from)
  {
    from := [];
    if |raws| > 0 {
      var raw, owner := Last(raws), OwnerOf(groups, Last(raws).group);
      from := RowsAre(groups, Init(raws));
      SplitLast(raws);
      OwnedIff(groups, raw);
      OneMoreFrom(groups, Init(raws), raw, RatingRows(groups, Init(raws)), from);
      if owner.Some? {
        RowIsStored(groups, raw, owner.value);
        from := from + [|raws| - 1];
      } else {
        assert RatingRows(groups, raws) == RatingRows(groups, Init(raws));
      }
    }
  }

  lemma OwnedIff(groups: seq<StatGroup>, raw: RawStat)
    ensures Owned(groups, raw) <==> OwnerOf(groups, raw.group).Some?
  {
    if OwnerOf(groups, raw.group).Some? {
      OwnerIs(groups, raw.group, OwnerOf(groups, raw.group).value);
    }
    if profile :| Owns(groups, raw.group, profile) {
      OwnerIs(groups, raw.group, profile);
    }
  }

  /** A peak is never below the current rating. */
  predicate Floored(peak: int, current: Option<int>) {
    AtMost(current, Some(peak))
  }

  lemma {:induction false} RowsFloored(groups: seq<StatGroup>, raws: seq<RawStat>)
    ensures forall r :: r in RatingRows(groups, raws) ==> Floored(r.maxRating, r.currentRating)
  {
    if |raws| > 0 {
      RowsFloored(groups, Init(raws));
      var owner := OwnerOf(groups, Last(raws).group);
      forall r | r in RatingRows(groups, raws) ensures Floored(r.maxRating, r.currentRating) {
        assert r in RatingRows(groups, Init(raws)) || r == RatingRow(owner.value, Last(raws));
      }
    }
  }

  ghost predicate TablesFloored(t: Tables) {
    && (forall s :: s in t.log ==> Floored(s.maxRating, s.currentRating))
    && (forall k :: k in t.live ==> Floored(t.live[k].maxRating, Some(t.live[k].currentRating)))
  }

  ghost predicate FromPayload(p: Poll) {
    exists groups, raws :: p.batch == RatingRows(groups, raws)
  }

  /** Whatever payloads arrive, no stored peak is ever below the current rating beside it. */
  lemma {:induction false} RunFloored(t: Tables, polls: seq<Poll>)
    requires TablesFloored(t)
    requires forall p :: p in polls ==> FromPayload(p)
    ensures TablesFloored(Run(t, polls))
  {
    if |polls| > 0 {
      SplitLast(polls);
      RunFloored(t, Init(polls));
      assert FromPayload(Last(polls));
      var groups, raws :| Last(polls).batch == RatingRows(groups, raws);
      RowsFloored(groups, raws);
      var before := Run(t, Init(polls));
      if Storable(Last(polls).batch) {
        StampFloored(Changed(before.log, Last(polls).batch), Last(polls).at, before.nextId);
        OverwrittenFloored(before.live, Last(polls).batch);
      }
    }
  }

  lemma {:induction false} StampFloored(rows: seq<Polled>, now: int, nextId: int)
    requires forall r :: r in rows ==> Floored(r.maxRating, r.currentRating)
    ensures forall s :: s in Stamp(rows, now, nextId) ==> Floored(s.maxRating, s.currentRating)
  {
    if |rows| > 0 {
      SplitLast(rows);
      StampFloored(Init(rows), now, nextId);
    }
  }

  lemma {:induction false} OverwrittenFloored(live: map<Pair, LiveRating>, batch: seq<Polled>)
    requires Storable(batch) && forall r :: r in batch ==> Floored(r.maxRating, r.currentRating)
    requires forall k :: k in live ==> Floored(live[k].maxRating, Some(live[k].currentRating))
    ensures forall k :: k in Overwritten(live, batch) ==>
      Floored(Overwritten(live, batch)[k].maxRating, Some(Overwritten(live, batch)[k].currentRating))
  {
    if |batch| > 0 {
      SplitLast(batch);
      OverwrittenFloored(live, Init(batch));
    }
  }
}
