/** Which tournaments a polling tick could affect: the scope stamped on its nudge. */
module Scopes {
  import opened Common
  import Nudges

  /** A roster row as the poller reads it: tournament and, if linked, profile. */
  datatype RosterLink = RosterLink(tournament: int, profile: Option<int>)

  predicate Links(l: RosterLink, profiles: set<int>) {
    l.profile.Some? && l.profile.value in profiles
  }

  function Rostered(roster: seq<RosterLink>, profiles: set<int>): seq<int> {
    if |roster| == 0 then []
    else if Links(Last(roster), profiles) then Rostered(Init(roster), profiles) + [Last(roster).tournament]
    else Rostered(Init(roster), profiles)
  }

  /** The tournaments whose rosters contain any of the profiles, distinct and in order. */
  function TournamentsFor(roster: seq<RosterLink>, profiles: set<int>): seq<int> {
    SortedUnique(Rostered(roster, profiles))
  }

  lemma {:induction false} TournamentsAre(roster: seq<RosterLink>, profiles: set<int>, t: int)
    ensures t in TournamentsFor(roster, profiles) <==>
      exists l :: l in roster && l.tournament == t && Links(l, profiles)
  {
    if |roster| > 0 {
      SplitLast(roster);
      TournamentsAre(Init(roster), profiles, t);
    }
  }

  /** The scope as stored on the nudge's row. */
  function ScopeOf(roster: seq<RosterLink>, profiles: set<int>): Option<seq<int>> {
    Nudges.StoredScope(Some(TournamentsFor(roster, profiles)))
  }

  /** The nudge a stats, live or history tick emits reaches every instance that polls: once committed it goes out with
      the next successful poll, unless a later commit of its event came first, and it names every tournament whose
      roster links one of the tick's profiles. */
  lemma TickNudgeGoesOut(roster: seq<RosterLink>, profiles: set<int>, event: string, at: int, t: int,
                         steps: seq<Nudges.Step>, meanwhile: seq<Nudges.Step>, rows: seq<Nudges.Nudge>)
    requires event == "standings" || event == "live" || event == "matches"
    requires Nudges.RunAll(Nudges.INITIAL, steps).initialized && Nudges.Meanwhile(meanwhile, event)
    requires var n := Nudges.Nudge(event, at, ScopeOf(roster, profiles));
      Nudges.Possible(Nudges.INITIAL, steps + [Nudges.Commit(n)] + meanwhile + [Nudges.Poll(rows)])
    ensures var n := Nudges.Nudge(event, at, ScopeOf(roster, profiles));
      n in Nudges.RunAll(Nudges.INITIAL, steps + [Nudges.Commit(n)] + meanwhile + [Nudges.Poll(rows)]).published
    ensures (exists l :: l in roster && l.tournament == t && l.profile.Some? && l.profile.value in profiles)
      <==> (ScopeOf(roster, profiles).Some? && t in ScopeOf(roster, profiles).value)
  {
    Nudges.NudgeGoesOut(steps, Nudges.Nudge(event, at, ScopeOf(roster, profiles)), meanwhile, rows);
    TournamentsAre(roster, profiles, t);
    if l :| l in roster && l.tournament == t && l.profile.Some? && l.profile.value in profiles {
      assert Links(l, profiles);
    }
  }
}
