/** An entrant's record in a tournament window: counts, current streak, longest win run. */
module WinRun {
  import opened Common

  datatype Outcome = Win | Loss

  /** One finished game of the entrant; the games of a window come newest first. */
  datatype Game = Game(outcome: Outcome, startedAt: int, completedAt: Option<int>, newRating: Option<int>)

  ghost predicate AllWins(games: seq<Game>, from: int, to: int) {
    0 <= from <= to <= |games| && forall i :: from <= i < to ==> games[i].outcome == Win
  }

  /** The longest run of consecutive wins anywhere, and of the equally long ones the most recent. */
  ghost predicate IsPeakRun(games: seq<Game>, from: int, length: int) {
    && AllWins(games, from, from + length)
    && (forall i, j :: AllWins(games, i, j) ==> j - i <= length && (j - i == length ==> from <= i))
  }

  method LongestWinRun(games: seq<Game>) returns (length: nat, start: Option<int>, end: Option<int>)
    ensures exists from :: IsPeakRun(games, from, length)
    ensures length == 0 ==> start == None && end == None
    ensures length > 0 ==>
      forall from :: IsPeakRun(games, from, length) ==>
        end == games[from].completedAt && start == games[from + length - 1].completedAt
  {
    length, start, end := 0, None, None;
    var run: nat := 0;
    var runEnd: Option<int> := None;
    ghost var from := 0;
    for k := 0 to |games|
      invariant run <= k && AllWins(games, k - run, k)
      invariant run < k ==> games[k - run - 1].outcome != Win
      invariant run > 0 ==> runEnd == games[k - run].completedAt
      invariant run <= length && from + length <= k && AllWins(games, from, from + length)
      invariant length == 0 ==> from == 0 && start == None && end == None
      invariant length > 0 ==> end == games[from].completedAt && start == games[from + length - 1].completedAt
      invariant forall i, j :: AllWins(games, i, j) && j <= k ==> j - i <= length && (j - i == length ==> from <= i)
    {
      var game := games[k];
      if game.outcome != Win {
        run := 0;
      } else {
        if run == 0 {
          runEnd := game.completedAt;
        }
        run := run + 1;
        if run > length {
          length, start, end := run, game.completedAt, runEnd;
          from := k + 1 - run;
        }
      }
    }
    assert IsPeakRun(games, from, length);
    forall other | IsPeakRun(games, other, length) ensures other == from {
      PeakRunUnique(games, from, length, other, length);
    }
  }

  lemma PeakRunUnique(games: seq<Game>, from: int, length: int, from': int, length': int)
    requires IsPeakRun(games, from, length) && IsPeakRun(games, from', length')
    ensures from == from' && length == length'
  {
  }

  // ---- the record ----

  datatype Record = Record(played: nat, wins: nat, losses: int, streak: int, longest: nat,
                           peakRating: Option<int>, lastMatchAt: Option<int>)

  const NO_GAMES := Record(0, 0, 0, 0, 0, None, None)

  function Count(games: seq<Game>, outcome: Outcome): (n: nat)
    ensures n <= |games|
  {
    if |games| == 0 then 0
    else if Last(games).outcome == outcome then Count(Init(games), outcome) + 1
    else Count(Init(games), outcome)
  }

  /** The newest `n` games share one outcome and the next one differs. */
  ghost predicate IsLeadingRun(games: seq<Game>, n: int) {
    && 0 < n <= |games|
    && (forall i :: 0 <= i < n ==> games[i].outcome == games[0].outcome)
    && (n < |games| ==> games[n].outcome != games[0].outcome)
  }

  /** The highest rating after any of the games. */
  ghost predicate IsPeakRating(games: seq<Game>, peak: Option<int>) {
    && (forall i :: 0 <= i < |games| ==> AtMost(games[i].newRating, peak))
    && (peak.Some? ==> exists i :: 0 <= i < |games| && games[i].newRating == peak)
  }

  ghost predicate IsRecord(games: seq<Game>, r: Record) {
    if |games| == 0 then r == NO_GAMES
    else
      && r.played == |games| && r.wins == Count(games, Win) && r.losses == Count(games, Loss)
      && IsLeadingRun(games, if r.streak > 0 then r.streak else -r.streak)
      && (r.streak > 0 <==> games[0].outcome == Win)
      && (exists from :: IsPeakRun(games, from, r.longest))
      && IsPeakRating(games, r.peakRating)
      && r.lastMatchAt == Some(games[0].startedAt)
  }

  lemma {:induction false} CountsAddUp(games: seq<Game>)
    ensures Count(games, Win) + Count(games, Loss) == |games|
  {
    if |games| > 0 {
      CountsAddUp(Init(games));
    }
  }

  method CountWins(games: seq<Game>) returns (wins: nat)
    ensures wins == Count(games, Win)
  {
    wins := 0;
    for i := 0 to |games|
      invariant wins == Count(games[..i], Win)
    {
      assert Init(games[..i + 1]) == games[..i];
      if games[i].outcome == Win {
        wins := wins + 1;
      }
    }
    assert games[..|games|] == games;
  }

  method PeakRating(games: seq<Game>) returns (peak: Option<int>)
    ensures IsPeakRating(games, peak)
  {
    peak := None;
    for i := 0 to |games|
      invariant IsPeakRating(games[..i], peak)
    {
      ghost var before := peak;
      peak := MaxOpt(peak, games[i].newRating);
      ghost var seen := games[..i + 1];
      if peak.Some? {
        if peak == games[i].newRating {
          assert seen[i].newRating == peak;
        } else {
          ghost var at :| 0 <= at < i && games[..i][at].newRating == before;
          assert seen[at].newRating == peak;
        }
      }
      forall j | 0 <= j < |seen| ensures AtMost(seen[j].newRating, peak) {
        if j < i {
          assert AtMost(games[..i][j].newRating, before);
        }
      }
    }
    assert games[..|games|] == games;
  }

  method RecordOf(games: seq<Game>) returns (r: Record)
    ensures IsRecord(games, r)
  {
    if |games| == 0 {
      return NO_GAMES;
    }
    var wins := CountWins(games);
    CountsAddUp(games);
    var lead := games[0].outcome;
    var run := 0;
    while run < |games| && games[run].outcome == lead
      invariant run <= |games|
      invariant forall i :: 0 <= i < run ==> games[i].outcome == lead
    {
      run := run + 1;
    }
    var longest, start, end := LongestWinRun(games);
    var peak := PeakRating(games);
    r := Record(|games|, wins, |games| - wins, if lead == Win then run else -run, longest, peak,
                Some(games[0].startedAt));
  }

  // ---- what every record satisfies ----

  /** The run of wins the oldest games end with. */
  function OldestRun(games: seq<Game>): (n: nat)
    ensures n <= |games|
    ensures forall i :: |games| - n <= i < |games| ==> games[i].outcome == Win
  {
    if |games| == 0 || Last(games).outcome != Win then 0 else OldestRun(Init(games)) + 1
  }

  ghost predicate NoRunLonger(games: seq<Game>, longest: nat) {
    forall i, j :: AllWins(games, i, j) ==> j - i <= longest
  }

  lemma ShorterRuns(games: seq<Game>, longest: nat)
    requires |games| > 0 && NoRunLonger(games, longest)
    ensures NoRunLonger(Init(games), longest)
  {
    forall i, j | AllWins(Init(games), i, j) ensures j - i <= longest {
      assert AllWins(games, i, j);
    }
  }

  lemma OneMore(longest: nat, losses: nat)
    ensures longest * (losses + 1) == longest * losses + longest
  {
  }

  /** Between two losses lie at most `longest` wins. */
  lemma {:induction false} WinsBetweenLosses(games: seq<Game>, longest: nat)
    requires NoRunLonger(games, longest)
    ensures Count(games, Win) <= longest * Count(games, Loss) + OldestRun(games)
    ensures OldestRun(games) <= longest
  {
    assert AllWins(games, |games| - OldestRun(games), |games|);
    if |games| > 0 {
      ShorterRuns(games, longest);
      WinsBetweenLosses(Init(games), longest);
      OneMore(longest, Count(Init(games), Loss));
    }
  }

  lemma {:induction false} RunIsCounted(games: seq<Game>, outcome: Outcome, from: int, to: int)
    requires 0 <= from <= to <= |games|
    requires forall i :: from <= i < to ==> games[i].outcome == outcome
    ensures to - from <= Count(games, outcome)
  {
    if from < to == |games| {
      RunIsCounted(Init(games), outcome, from, to - 1);
    } else if to < |games| {
      RunIsCounted(Init(games), outcome, from, to);
    }
  }

  /** The numbers of a record are consistent: every game is won or lost, a win streak is a win run, a losing
      streak is made of losses, and by the pigeonhole principle the wins fit between the losses. */
  lemma RecordsAreConsistent(games: seq<Game>, r: Record)
    requires IsRecord(games, r)
    ensures r.wins + r.losses == r.played
    ensures r.streak <= r.longest
    ensures -r.streak <= r.losses
    ensures r.longest <= r.wins
    ensures r.wins <= r.longest * (r.losses + 1)
  {
    if |games| > 0 {
      CountsAddUp(games);
      var from :| IsPeakRun(games, from, r.longest);
      RunIsCounted(games, Win, from, from + r.longest);
      if r.streak > 0 {
        assert AllWins(games, 0, r.streak);
      } else {
        RunIsCounted(games, Loss, 0, -r.streak);
      }
      WinsBetweenLosses(games, r.longest);
      OneMore(r.longest, r.losses);
    }
  }
}
