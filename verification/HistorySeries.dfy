/** What the standings history reads: the windowed match log and the recorded observations, grouped
    into one series per entrant. */
module HistorySeries {
  import opened Common
  import opened RatingLog

  datatype Mode = PeakMode | CurrentMode

  /** A visible roster row, left-joined to its live rating on the tournament's leaderboard. */
  datatype Entrant = Entrant(id: int, profile: Option<int>, name: string, live: Option<LiveRating>) {
    function MaxRating(): Option<int> {
      if live.None? then None else Some(live.value.maxRating)
    }
  }

  /** A `match_players` row joined to its match. */
  datatype Game = Game(matchId: int, profile: int, board: Option<int>, startedAt: int, completedAt: Option<int>,
                       oldRating: Option<int>, newRating: Option<int>)

  datatype Point = Point(at: int, rating: int)

  datatype Observation = Observation(profile: int, at: int, id: int, rating: int)

  /** One call of the endpoint against the tables. A member pairs a team id with a roster row id. */
  datatype Query = Query(mode: Mode, board: int, start: Option<int>, end: Option<int>, roster: seq<Entrant>,
                         games: seq<Game>, log: seq<Snapshot>, members: seq<(int, int)>)

  /** {profile: roster row} over the linked rows. */
  function TpByProfile(roster: seq<Entrant>): (m: map<int, int>)
    ensures forall e :: e in roster && e.profile.Some? ==> e.profile.value in m
    ensures forall p :: p in m ==> exists e :: e in roster && e.profile == Some(p) && e.id == m[p]
  {
    if |roster| == 0 then map[]
    else
      SplitLast(roster);
      var e := Last(roster);
      if e.profile.None? then TpByProfile(Init(roster)) else TpByProfile(Init(roster))[e.profile.value := e.id]
  }

  // ---- queries ----

  predicate AtOrAfter(bound: Option<int>, t: int) {
    bound.None? || bound.value <= t
  }

  predicate AtOrBefore(bound: Option<int>, t: int) {
    bound.None? || t <= bound.value
  }

  /** A settled rated game of a linked entrant on the tournament's leaderboard. */
  predicate Rated(q: Query, g: Game) {
    && g.board == Some(q.board) && g.profile in TpByProfile(q.roster)
    && g.completedAt.Some? && g.newRating.Some?
  }

  function ByCompletion(g: Game): (int, int) {
    (g.completedAt.GetOr(0), g.matchId)
  }

  predicate StartedInWindow(q: Query, g: Game) {
    AtOrAfter(q.start, g.startedAt) && AtOrBefore(q.end, g.startedAt)
  }

  /** Rated games started inside the window, oldest completion first. */
  function WindowGames(q: Query): (r: seq<Game>)
    ensures SortedBy(r, ByCompletion)
    ensures forall g :: g in r <==> g in q.games && Rated(q, g) && StartedInWindow(q, g)
  {
    var rows := Filter(q.games, (g: Game) => Rated(q, g) && StartedInWindow(q, g));
    SameElements(OrderBy(rows, ByCompletion), rows);
    OrderBy(rows, ByCompletion)
  }

  /** Rated games started before the window opened, oldest completion first; peak mode only. */
  function EarlierGames(q: Query): (r: seq<Game>)
    ensures SortedBy(r, ByCompletion)
    ensures q.start.Some? && q.mode.PeakMode? ==>
      forall g :: g in r <==> g in q.games && Rated(q, g) && g.startedAt < q.start.value
    ensures q.start.None? || q.mode.CurrentMode? ==> r == []
  {
    if q.start.None? || q.mode.CurrentMode? then []
    else
      var rows := Filter(q.games, (g: Game) => Rated(q, g) && g.startedAt < q.start.value);
      SameElements(OrderBy(rows, ByCompletion), rows);
      OrderBy(rows, ByCompletion)
  }

  function ObservedMetric(mode: Mode, s: Snapshot): Option<int> {
    if mode.PeakMode? then Some(s.maxRating) else s.currentRating
  }

  function ByObservation(s: Snapshot): (int, int) {
    (s.observedAt, s.id)
  }

  predicate Relevant(q: Query, s: Snapshot) {
    && s.pair.board == q.board && s.pair.profile in TpByProfile(q.roster)
    && ObservedMetric(q.mode, s).Some? && AtOrBefore(q.end, s.observedAt)
  }

  /** Recorded observations of the ranked metric up to the end of the window, oldest first. */
  function Observed(q: Query): (r: seq<Snapshot>)
    ensures SortedBy(r, ByObservation)
    ensures forall s :: s in r <==> s in q.log && Relevant(q, s)
  {
    var rows := Filter(q.log, (s: Snapshot) => Relevant(q, s));
    SameElements(OrderBy(rows, ByObservation), rows);
    OrderBy(rows, ByObservation)
  }

  // ---- the queries, column by column ----

  ghost predicate LinkedTo(roster: seq<Entrant>, profile: int) {
    exists e :: e in roster && e.profile == Some(profile)
  }

  lemma InTp(roster: seq<Entrant>, profile: int)
    ensures profile in TpByProfile(roster) <==> LinkedTo(roster, profile)
  {
  }

  /** A game is charted exactly if it is settled and rated, of a linked entrant, on the ladder, and started inside
      the window, both bounds included. */
  lemma WindowGameIff(q: Query, g: Game)
    ensures g in WindowGames(q) <==>
      && g in q.games && LinkedTo(q.roster, g.profile) && g.board == Some(q.board)
      && g.completedAt.Some? && g.newRating.Some?
      && (q.start.Some? ==> q.start.value <= g.startedAt) && (q.end.Some? ==> g.startedAt <= q.end.value)
  {
    InTp(q.roster, g.profile);
  }

  /** It can be carried in exactly if such a game started before the window, in peak mode. */
  lemma EarlierGameIff(q: Query, g: Game)
    ensures g in EarlierGames(q) <==>
      && g in q.games && LinkedTo(q.roster, g.profile) && g.board == Some(q.board)
      && g.completedAt.Some? && g.newRating.Some?
      && q.mode.PeakMode? && q.start.Some? && g.startedAt < q.start.value
  {
    InTp(q.roster, g.profile);
    if q.start.Some? && q.mode.PeakMode? {
      assert g in EarlierGames(q) <==> g in q.games && Rated(q, g) && g.startedAt < q.start.value;
    }
  }

  /** An observation is read exactly if it is of a linked entrant's pair, up to the end, and in current mode carries
      a current rating. */
  lemma ObservedIff(q: Query, s: Snapshot)
    ensures s in Observed(q) <==>
      && s in q.log && LinkedTo(q.roster, s.pair.profile) && s.pair.board == q.board
      && (q.mode.CurrentMode? ==> s.currentRating.Some?) && (q.end.Some? ==> s.observedAt <= q.end.value)
  {
    InTp(q.roster, s.pair.profile);
  }

  /** Games come by completion time, then by match id; observations by time, then by id. */
  lemma QueriesInOrder(q: Query, i: nat, j: nat)
    requires i < j
    ensures j < |WindowGames(q)| ==>
      var a, b := WindowGames(q)[i], WindowGames(q)[j];
      && a.completedAt.Some? && b.completedAt.Some?
      && (a.completedAt.value < b.completedAt.value
          || (a.completedAt == b.completedAt && a.matchId <= b.matchId))
    ensures j < |EarlierGames(q)| ==>
      var a, b := EarlierGames(q)[i], EarlierGames(q)[j];
      && a.completedAt.Some? && b.completedAt.Some?
      && (a.completedAt.value < b.completedAt.value
          || (a.completedAt == b.completedAt && a.matchId <= b.matchId))
    ensures j < |Observed(q)| ==>
      var a, b := Observed(q)[i], Observed(q)[j];
      a.observedAt < b.observedAt || (a.observedAt == b.observedAt && a.id <= b.id)
  {
    WindowInOrder(q, WindowGames(q), i, j);
    if j < |EarlierGames(q)| {
      EarlierInOrder(q, EarlierGames(q), i, j);
    }
    if j < |Observed(q)| {
      assert KeyLe(ByObservation(Observed(q)[i]), ByObservation(Observed(q)[j]));
    }
  }

  lemma WindowInOrder(q: Query, rows: seq<Game>, i: nat, j: nat)
    requires rows == WindowGames(q) && i < j
    ensures j < |rows| ==>
      && rows[i].completedAt.Some? && rows[j].completedAt.Some?
      && (rows[i].completedAt.value < rows[j].completedAt.value
          || (rows[i].completedAt == rows[j].completedAt && rows[i].matchId <= rows[j].matchId))
  {
    if j < |rows| {
      assert rows[i] in rows && rows[j] in rows;
      assert KeyLe(ByCompletion(rows[i]), ByCompletion(rows[j]));
    }
  }

  lemma EarlierInOrder(q: Query, rows: seq<Game>, i: nat, j: nat)
    requires rows == EarlierGames(q) && i < j < |rows|
    ensures rows[i].completedAt.Some? && rows[j].completedAt.Some?
    ensures rows[i].completedAt.value < rows[j].completedAt.value
      || (rows[i].completedAt == rows[j].completedAt && rows[i].matchId <= rows[j].matchId)
  {
    assert rows[i] in rows && rows[j] in rows;
    assert KeyLe(ByCompletion(rows[i]), ByCompletion(rows[j]));
  }

  // ---- one profile's share of a query result ----

  function PointsOf(rows: seq<Game>, profile: int): seq<Point> {
    if |rows| == 0 then []
    else if Last(rows).profile != profile then PointsOf(Init(rows), profile)
    else PointsOf(Init(rows), profile) + [Point(Last(rows).completedAt.GetOr(0), Last(rows).newRating.GetOr(0))]
  }

  /** The old rating on the profile's first row. */
  function EntryRating(rows: seq<Game>, profile: int): Option<int> {
    if |rows| == 0 then None
    else if PointsOf(Init(rows), profile) == [] && Last(rows).profile == profile then Last(rows).oldRating
    else EntryRating(Init(rows), profile)
  }

  function ObservationsOf(rows: seq<Snapshot>, profile: int, mode: Mode): seq<Point> {
    if |rows| == 0 then []
    else if Last(rows).pair.profile != profile then ObservationsOf(Init(rows), profile, mode)
    else ObservationsOf(Init(rows), profile, mode)
         + [Point(Last(rows).observedAt, ObservedMetric(mode, Last(rows)).GetOr(0))]
  }

  /** The rating a row proves its player held. */
  function Held(g: Game): int {
    var before := g.oldRating.GetOr(0);
    if before < g.newRating.GetOr(0) then g.newRating.GetOr(0) else before
  }

  /** A row of the profile showing a rating above today's reported peak. */
  predicate Rebased(g: Game, profile: int, cap: Option<int>) {
    g.profile == profile && cap.Some? && cap.value < Held(g)
  }

  /** How many rows lie up to and including the profile's last rebased one. */
  function RebasedPrefix(rows: seq<Game>, profile: int, cap: Option<int>): (n: nat)
    ensures n <= |rows|
    ensures n > 0 ==> Rebased(rows[n - 1], profile, cap)
    ensures forall i :: n <= i < |rows| ==> !Rebased(rows[i], profile, cap)
  {
    if |rows| == 0 then 0
    else if Rebased(Last(rows), profile, cap) then |rows|
    else RebasedPrefix(Init(rows), profile, cap)
  }

  /** The highest rating held over the profile's rows. */
  function MaxHeld(rows: seq<Game>, profile: int): (r: Option<int>)
    ensures r.None? <==> forall g :: g in rows ==> g.profile != profile
    ensures forall g :: g in rows && g.profile == profile ==> Held(g) <= r.value
    ensures r.Some? ==> exists g :: g in rows && g.profile == profile && Held(g) == r.value
  {
    if |rows| == 0 then None
    else
      SplitLast(rows);
      MaxOpt(MaxHeld(Init(rows), profile), if Last(rows).profile == profile then Some(Held(Last(rows))) else None)
  }

  /** The rebase-aware carried-in peak: the highest rating held after the last rebased row. */
  function CarriedIn(rows: seq<Game>, profile: int, cap: Option<int>): Option<int> {
    MaxHeld(rows[RebasedPrefix(rows, profile, cap)..], profile)
  }

  /** The rating held entering the window is the old rating of the profile's first row. */
  lemma {:induction false} EntryIs(rows: seq<Game>, profile: int, i: nat)
    requires i < |rows| && rows[i].profile == profile && forall k :: 0 <= k < i ==> rows[k].profile != profile
    ensures EntryRating(rows, profile) == rows[i].oldRating
  {
    if i < |rows| - 1 {
      EntryIs(Init(rows), profile, i);
      NoPointsBefore(Init(rows), profile, i);
    } else {
      NoPointsOf(Init(rows), profile);
    }
  }

  lemma {:induction false} NoPointsOf(rows: seq<Game>, profile: int)
    requires forall g :: g in rows ==> g.profile != profile
    ensures PointsOf(rows, profile) == []
  {
    if |rows| > 0 {
      NoPointsOf(Init(rows), profile);
    }
  }

  lemma {:induction false} NoPointsBefore(rows: seq<Game>, profile: int, i: nat)
    requires i < |rows| && rows[i].profile == profile
    ensures PointsOf(rows, profile) != []
  {
    if i < |rows| - 1 {
      NoPointsBefore(Init(rows), profile, i);
    }
  }

  /** A game before or after which the player stood above the cap; a missing old rating counts as 0. */
  predicate ShowsAbove(g: Game, profile: int, cap: Option<int>) {
    && g.profile == profile && g.newRating.Some? && cap.Some?
    && (g.newRating.value > cap.value || g.oldRating.GetOr(0) > cap.value)
  }

  lemma ShowsIsRebased(g: Game, profile: int, cap: Option<int>)
    requires g.newRating.Some?
    ensures ShowsAbove(g, profile, cap) <==> Rebased(g, profile, cap)
  {
  }

  /** The rows after the profile's last row that shows a rating above the cap. */
  lemma AfterLastAbove(rows: seq<Game>, profile: int, cap: Option<int>, n: nat)
    requires forall g :: g in rows ==> g.newRating.Some?
    requires n <= |rows| && (n > 0 ==> ShowsAbove(rows[n - 1], profile, cap))
    requires forall i :: n <= i < |rows| ==> !ShowsAbove(rows[i], profile, cap)
    ensures RebasedPrefix(rows, profile, cap) == n
  {
    forall i | 0 <= i < |rows| ensures ShowsAbove(rows[i], profile, cap) <==> Rebased(rows[i], profile, cap) {
      assert rows[i] in rows;
      ShowsIsRebased(rows[i], profile, cap);
    }
  }

  lemma HeldIs(g: Game)
    requires g.newRating.Some?
    ensures g.newRating.value <= Held(g) && g.oldRating.GetOr(0) <= Held(g)
    ensures g.newRating == Some(Held(g)) || g.oldRating.GetOr(0) == Held(g)
  {
  }

  /** The carried-in rating, over old and new ratings: the highest shown by the rows of the profile after its last
      row that shows one above the cap; none if no row follows that one. */
  lemma CarriedIs(rows: seq<Game>, profile: int, cap: Option<int>, n: nat)
    requires forall g :: g in rows ==> g.newRating.Some?
    requires n <= |rows| && (n > 0 ==> ShowsAbove(rows[n - 1], profile, cap))
    requires forall i :: n <= i < |rows| ==> !ShowsAbove(rows[i], profile, cap)
    ensures var v := CarriedIn(rows, profile, cap);
      && (v.None? <==> forall g :: g in rows[n..] ==> g.profile != profile)
      && (forall g :: g in rows[n..] && g.profile == profile ==>
            g.newRating.Some? && g.newRating.value <= v.value && g.oldRating.GetOr(0) <= v.value)
      && (v.Some? ==> exists g :: g in rows[n..] && g.profile == profile
                        && (g.newRating == v || g.oldRating.GetOr(0) == v.value))
  {
    AfterLastAbove(rows, profile, cap, n);
    var v := CarriedIn(rows, profile, cap);
    forall g | g in rows[n..] && g.profile == profile
      ensures g.newRating.Some? && g.newRating.value <= v.value && g.oldRating.GetOr(0) <= v.value
    {
      HeldIs(g);
    }
    if v.Some? {
      var g :| g in rows[n..] && g.profile == profile && Held(g) == v.value;
      HeldIs(g);
    }
  }

  /** A carried-in rating never exceeds the live peak. */
  lemma CarriedInIsCapped(rows: seq<Game>, profile: int, cap: Option<int>)
    requires cap.Some?
    ensures AtMost(CarriedIn(rows, profile, cap), cap)
  {
  }

  // ---- the grouping loops, one pass over the interleaved rows of all entrants ----

  ghost predicate OneRowPerProfile(tpByProfile: map<int, int>) {
    forall p, p' :: p in tpByProfile && p' in tpByProfile && p != p' ==> tpByProfile[p] != tpByProfile[p']
  }

  function Listed<V>(m: map<int, seq<V>>, id: int): seq<V> {
    if id in m then m[id] else []
  }

  /** The points and entry ratings gathered from the rows so far, keyed by roster row. */
  datatype Gathered = Gathered(points: map<int, seq<Point>>, entryOld: map<int, int>)

  function GatherGame(acc: Gathered, g: Game, tp: int): Gathered {
    Gathered(acc.points[tp := Listed(acc.points, tp) + [Point(g.completedAt.GetOr(0), g.newRating.GetOr(0))]],
             if tp !in acc.points && g.oldRating.Some? then acc.entryOld[tp := g.oldRating.value] else acc.entryOld)
  }

  function Gather(rows: seq<Game>, tpByProfile: map<int, int>): Gathered
    requires forall g :: g in rows ==> g.profile in tpByProfile
  {
    if |rows| == 0 then Gathered(map[], map[])
    else
      SplitLast(rows);
      GatherGame(Gather(Init(rows), tpByProfile), Last(rows), tpByProfile[Last(rows).profile])
  }

  method CollectPoints(rows: seq<Game>, tpByProfile: map<int, int>)
    returns (points: map<int, seq<Point>>, entryOld: map<int, int>)
    requires forall g :: g in rows ==> g.profile in tpByProfile
    ensures Gathered(points, entryOld) == Gather(rows, tpByProfile)
  {
    points, entryOld := map[], map[];
    for i := 0 to |rows|
      invariant Gathered(points, entryOld) == Gather(rows[..i], tpByProfile)
    {
      var g := rows[i];
      assert Init(rows[..i + 1]) == rows[..i] && g in rows;
      var tp := tpByProfile[g.profile];
      if tp !in points && g.oldRating.Some? {
        entryOld := entryOld[tp := g.oldRating.value];
      }
      points := points[tp := Listed(points, tp) + [Point(g.completedAt.GetOr(0), g.newRating.GetOr(0))]];
    }
    assert rows[..|rows|] == rows;
  }

  /** One pass over everybody's rows gives each entrant exactly their own rows in order, and the old
      rating of their own first row. */
  lemma {:induction false} GatheredPerProfile(rows: seq<Game>, tpByProfile: map<int, int>, p: int)
    requires OneRowPerProfile(tpByProfile) && p in tpByProfile
    requires forall g :: g in rows ==> g.profile in tpByProfile
    ensures var acc := Gather(rows, tpByProfile);
      && Listed(acc.points, tpByProfile[p]) == PointsOf(rows, p)
      && (tpByProfile[p] in acc.points <==> PointsOf(rows, p) != [])
      && Get(acc.entryOld, tpByProfile[p]) == EntryRating(rows, p)
      && (PointsOf(rows, p) == [] ==> EntryRating(rows, p) == None)
  {
    if |rows| > 0 {
      SplitLast(rows);
      GatheredPerProfile(Init(rows), tpByProfile, p);
    }
  }

  /** Nothing is gathered for a row that no profile maps to. */
  lemma {:induction false} GatheredOnlyLinked(rows: seq<Game>, tpByProfile: map<int, int>, tp: int)
    requires forall g :: g in rows ==> g.profile in tpByProfile
    requires tp !in tpByProfile.Values
    ensures tp !in Gather(rows, tpByProfile).points && tp !in Gather(rows, tpByProfile).entryOld
  {
    if |rows| > 0 {
      SplitLast(rows);
      GatheredOnlyLinked(Init(rows), tpByProfile, tp);
    }
  }

  function CarryGame(peaks: map<int, int>, g: Game, tp: int, cap: Option<int>): map<int, int> {
    if cap.Some? && Held(g) > cap.value then peaks - {tp}
    else peaks[tp := if tp !in peaks || peaks[tp] < Held(g) then Held(g) else peaks[tp]]
  }

  function Carry(rows: seq<Game>, tpByProfile: map<int, int>, curMax: map<int, Option<int>>): map<int, int>
    requires tpByProfile.Values <= curMax.Keys && forall g :: g in rows ==> g.profile in tpByProfile
  {
    if |rows| == 0 then map[]
    else
      SplitLast(rows);
      var tp := tpByProfile[Last(rows).profile];
      CarryGame(Carry(Init(rows), tpByProfile, curMax), Last(rows), tp, curMax[tp])
  }

  /** The rebase-aware fold over everybody's earlier games: a rating above the live peak drops what
      its entrant carried so far. */
  method CollectEarlierPeaks(rows: seq<Game>, tpByProfile: map<int, int>, curMax: map<int, Option<int>>)
    returns (peaks: map<int, int>)
    requires tpByProfile.Values <= curMax.Keys && forall g :: g in rows ==> g.profile in tpByProfile
    ensures peaks == Carry(rows, tpByProfile, curMax)
  {
    peaks := map[];
    for i := 0 to |rows|
      invariant peaks == Carry(rows[..i], tpByProfile, curMax)
    {
      var g := rows[i];
      assert Init(rows[..i + 1]) == rows[..i] && g in rows;
      var tp := tpByProfile[g.profile];
      if curMax[tp].Some? && Held(g) > curMax[tp].value {
        peaks := peaks - {tp};
        continue;
      }
      peaks := peaks[tp := if tp !in peaks || peaks[tp] < Held(g) then Held(g) else peaks[tp]];
    }
    assert rows[..|rows|] == rows;
  }

  lemma CarriedOneMore(rows: seq<Game>, g: Game, profile: int, cap: Option<int>)
    ensures CarriedIn(rows + [g], profile, cap)
         == if Rebased(g, profile, cap) then None
            else if g.profile == profile then MaxOpt(CarriedIn(rows, profile, cap), Some(Held(g)))
            else CarriedIn(rows, profile, cap)
  {
    var more := rows + [g];
    assert Init(more) == rows;
    if !Rebased(g, profile, cap) {
      var n := RebasedPrefix(rows, profile, cap);
      assert more[n..] == rows[n..] + [g];
      assert Init(more[n..]) == rows[n..];
    } else {
      assert more[|more|..] == [];
    }
  }

  lemma CarryAt(peaks: map<int, int>, g: Game, tp: int, cap: Option<int>, id: int)
    ensures Get(CarryGame(peaks, g, tp, cap), id)
      == if id != tp then Get(peaks, id)
         else if cap.Some? && cap.value < Held(g) then None
         else MaxOpt(Get(peaks, id), Some(Held(g)))
  {
  }

  /** The interleaved fold gives each entrant the highest rating held over their own rows after their
      last row above the live peak, or nothing if there is no such row. */
  lemma {:induction false} CarriedPerProfile(rows: seq<Game>, tpByProfile: map<int, int>,
                                             curMax: map<int, Option<int>>, p: int)
    requires OneRowPerProfile(tpByProfile) && p in tpByProfile && tpByProfile.Values <= curMax.Keys
    requires forall g :: g in rows ==> g.profile in tpByProfile
    ensures Get(Carry(rows, tpByProfile, curMax), tpByProfile[p]) == CarriedIn(rows, p, curMax[tpByProfile[p]])
  {
    if |rows| > 0 {
      SplitLast(rows);
      CarriedPerProfile(Init(rows), tpByProfile, curMax, p);
      var tp := tpByProfile[Last(rows).profile];
      CarryAt(Carry(Init(rows), tpByProfile, curMax), Last(rows), tp, curMax[tp], tpByProfile[p]);
      CarriedOneMore(Init(rows), Last(rows), p, curMax[tpByProfile[p]]);
    }
  }

  lemma {:induction false} CarriedOnlyLinked(rows: seq<Game>, tpByProfile: map<int, int>,
                                             curMax: map<int, Option<int>>, tp: int)
    requires tpByProfile.Values <= curMax.Keys && forall g :: g in rows ==> g.profile in tpByProfile
    requires tp !in tpByProfile.Values
    ensures tp !in Carry(rows, tpByProfile, curMax)
  {
    if |rows| > 0 {
      SplitLast(rows);
      CarriedOnlyLinked(Init(rows), tpByProfile, curMax, tp);
    }
  }

  /** Observations at or before the start: the last one wins as the carried-in value. */
  function BaseOf(points: seq<Point>, start: Option<int>): Option<int> {
    if start.None? || |points| == 0 then None
    else if Last(points).at <= start.value then Some(Last(points).rating)
    else BaseOf(Init(points), start)
  }

  function AfterStart(points: seq<Point>, start: Option<int>): seq<Point> {
    if |points| == 0 then []
    else if start.Some? && Last(points).at <= start.value then AfterStart(Init(points), start)
    else AfterStart(Init(points), start) + [Last(points)]
  }

  datatype Sighted = Sighted(base: map<int, int>, points: map<int, seq<Point>>)

  function SightOne(acc: Sighted, seen: Point, tp: int, start: Option<int>): Sighted {
    if start.Some? && seen.at <= start.value then acc.(base := acc.base[tp := seen.rating])
    else acc.(points := acc.points[tp := Listed(acc.points, tp) + [seen]])
  }

  function Sight(rows: seq<Snapshot>, mode: Mode, tpByProfile: map<int, int>, start: Option<int>): Sighted
    requires forall s :: s in rows ==> s.pair.profile in tpByProfile
  {
    if |rows| == 0 then Sighted(map[], map[])
    else
      SplitLast(rows);
      var s := Last(rows);
      SightOne(Sight(Init(rows), mode, tpByProfile, start), Point(s.observedAt, ObservedMetric(mode, s).GetOr(0)),
               tpByProfile[s.pair.profile], start)
  }

  method CollectObservations(rows: seq<Snapshot>, mode: Mode, tpByProfile: map<int, int>, start: Option<int>)
    returns (base: map<int, int>, points: map<int, seq<Point>>)
    requires forall s :: s in rows ==> s.pair.profile in tpByProfile
    ensures Sighted(base, points) == Sight(rows, mode, tpByProfile, start)
  {
    base, points := map[], map[];
    for i := 0 to |rows|
      invariant Sighted(base, points) == Sight(rows[..i], mode, tpByProfile, start)
    {
      var s := rows[i];
      assert Init(rows[..i + 1]) == rows[..i] && s in rows;
      var tp := tpByProfile[s.pair.profile];
      if start.Some? && s.observedAt <= start.value {
        base := base[tp := ObservedMetric(mode, s).GetOr(0)];
      } else {
        points := points[tp := Listed(points, tp) + [Point(s.observedAt, ObservedMetric(mode, s).GetOr(0))]];
      }
    }
    assert rows[..|rows|] == rows;
  }

  lemma SplitOneMore(points: seq<Point>, x: Point, start: Option<int>)
    ensures BaseOf(points + [x], start)
         == if start.Some? && x.at <= start.value then Some(x.rating) else BaseOf(points, start)
    ensures AfterStart(points + [x], start)
         == if start.Some? && x.at <= start.value then AfterStart(points, start) else AfterStart(points, start) + [x]
  {
  }

  /** What has been sighted so far for one roster row, given its own observations so far. */
  ghost predicate SightedAs(acc: Sighted, tp: int, own: seq<Point>, start: Option<int>) {
    && Get(acc.base, tp) == BaseOf(own, start)
    && Listed(acc.points, tp) == AfterStart(own, start)
    && (tp in acc.points <==> AfterStart(own, start) != [])
  }

  lemma SightOneMore(acc: Sighted, tp: int, own: seq<Point>, x: Point, of: int, start: Option<int>)
    requires SightedAs(acc, tp, own, start)
    ensures SightedAs(SightOne(acc, x, of, start), tp, if of == tp then own + [x] else own, start)
  {
    SplitOneMore(own, x, start);
  }

  /** Each entrant gets the latest of their own observations at or before the start, and their own
      later ones in order. */
  lemma {:induction false} SightedPerProfile(rows: seq<Snapshot>, mode: Mode, tpByProfile: map<int, int>,
                                             start: Option<int>, p: int)
    requires OneRowPerProfile(tpByProfile) && p in tpByProfile
    requires forall s :: s in rows ==> s.pair.profile in tpByProfile
    ensures SightedAs(Sight(rows, mode, tpByProfile, start), tpByProfile[p], ObservationsOf(rows, p, mode), start)
  {
    if |rows| > 0 {
      var s := Last(rows);
      SplitLast(rows);
      SightedPerProfile(Init(rows), mode, tpByProfile, start, p);
      SightOneMore(Sight(Init(rows), mode, tpByProfile, start), tpByProfile[p], ObservationsOf(Init(rows), p, mode),
                   Point(s.observedAt, ObservedMetric(mode, s).GetOr(0)), tpByProfile[s.pair.profile], start);
    }
  }

  lemma {:induction false} SightedOnlyLinked(rows: seq<Snapshot>, mode: Mode, tpByProfile: map<int, int>,
                                             start: Option<int>, tp: int)
    requires tp !in tpByProfile.Values && forall s :: s in rows ==> s.pair.profile in tpByProfile
    ensures var acc := Sight(rows, mode, tpByProfile, start); tp !in acc.base && tp !in acc.points
  {
    if |rows| > 0 {
      SplitLast(rows);
      SightedOnlyLinked(Init(rows), mode, tpByProfile, start, tp);
    }
  }

  // ---- one entrant's series ----

  datatype Series = Series(live: Option<LiveRating>, points: seq<Point>, entryOld: Option<int>,
                           earlierPeak: Option<int>, snapBase: Option<int>, snaps: seq<Point>)

  /** Everything the sweep reads about an entrant, said of that entrant's own rows alone. */
  function SeriesOf(q: Query, e: Entrant): Series {
    if e.profile.None? then Series(e.live, [], None, None, None, [])
    else
      var p := e.profile.value;
      var seen := ObservationsOf(Observed(q), p, q.mode);
      var max := if e.live.None? then None else Some(e.live.value.maxRating);
      Series(e.live, PointsOf(WindowGames(q), p), EntryRating(WindowGames(q), p),
             CarriedIn(EarlierGames(q), p, max), BaseOf(seen, q.start), AfterStart(seen, q.start))
  }

  /** Oldest first. */
  ghost predicate Timed(points: seq<Point>) {
    forall i, j :: 0 <= i < j < |points| ==> points[i].at <= points[j].at
  }

  lemma {:induction false} PointsTimed(rows: seq<Game>, p: int)
    requires SortedBy(rows, ByCompletion)
    ensures Timed(PointsOf(rows, p))
    ensures forall x :: x in PointsOf(rows, p) ==> exists g :: g in rows && x.at == g.completedAt.GetOr(0)
  {
    if |rows| > 0 {
      SplitLast(rows);
      PointsTimed(Init(rows), p);
      var last := Last(rows);
      forall x | x in PointsOf(Init(rows), p) ensures x.at <= last.completedAt.GetOr(0) {
        var g :| g in Init(rows) && x.at == g.completedAt.GetOr(0);
        assert KeyLe(ByCompletion(g), ByCompletion(last));
      }
    }
  }

  lemma {:induction false} ObservationsTimed(rows: seq<Snapshot>, p: int, mode: Mode)
    requires SortedBy(rows, ByObservation)
    ensures Timed(ObservationsOf(rows, p, mode))
    ensures forall x :: x in ObservationsOf(rows, p, mode) ==> exists s :: s in rows && x.at == s.observedAt
  {
    if |rows| > 0 {
      SplitLast(rows);
      ObservationsTimed(Init(rows), p, mode);
      var last := Last(rows);
      forall x | x in ObservationsOf(Init(rows), p, mode) ensures x.at <= last.observedAt {
        var s :| s in Init(rows) && x.at == s.observedAt;
        assert KeyLe(ByObservation(s), ByObservation(last));
      }
    }
  }

  lemma {:induction false} AfterStartTimed(points: seq<Point>, start: Option<int>)
    requires Timed(points)
    ensures Timed(AfterStart(points, start))
    ensures forall x :: x in AfterStart(points, start) ==> x in points && !(start.Some? && x.at <= start.value)
  {
    if |points| > 0 {
      SplitLast(points);
      AfterStartTimed(Init(points), start);
    }
  }

  lemma SeriesTimed(q: Query, e: Entrant)
    ensures Timed(SeriesOf(q, e).points) && Timed(SeriesOf(q, e).snaps)
  {
    if e.profile.Some? {
      PointsTimed(WindowGames(q), e.profile.value);
      ObservationsTimed(Observed(q), e.profile.value, q.mode);
      AfterStartTimed(ObservationsOf(Observed(q), e.profile.value, q.mode), q.start);
    }
  }
}
