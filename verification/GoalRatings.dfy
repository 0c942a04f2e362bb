/** The Dixon-Coles pass: running goal statistics, read before a batch and updated after it. */
module GoalRatings {
  import opened Chronology
  import opened DixonColes
  import opened Elo
  import opened Sums

  datatype GoalStats = GoalStats(scored: int, conceded: int, matches: nat)

  /** The statistics per team and the league's goals per team-match. */
  datatype Tally = Tally(stats: map<TeamId, GoalStats>, goals: int, samples: nat)

  const NO_GOALS := GoalStats(0, 0, 0)

  function StatsOf(s: map<TeamId, GoalStats>, t: TeamId): GoalStats { if t in s then s[t] else NO_GOALS }

  function LeagueAverage(s: Tally): (r: real)
    ensures r >= 0.2
  {
    var mean := if s.samples != 0 then s.goals as real / s.samples as real else 1.35;
    if mean > 0.2 then mean else 0.2
  }

  /** Log-ratio of a team's goals per match to the league's; 0 for a team without matches. */
  function Strength(log: real -> real, goals: int, matches: nat, average: real): real
    requires average > 0.0
  {
    if matches == 0 then 0.0 else log((goals as real / matches as real + 0.3) / average)
  }

  function AttackOf(log: real -> real, s: Tally, t: TeamId): real {
    Strength(log, StatsOf(s.stats, t).scored, StatsOf(s.stats, t).matches, LeagueAverage(s))
  }

  function DefenceOf(log: real -> real, s: Tally, t: TeamId): real {
    Strength(log, StatsOf(s.stats, t).conceded, StatsOf(s.stats, t).matches, LeagueAverage(s))
  }

  /** The probabilities of a pairing, from the strengths of the two sides alone. */
  function Predicted(exp: PositiveFn, log: real -> real, s: Tally, f: Fixture): Probs {
    PreMatch(exp, exp(AttackOf(log, s, f.home) - DefenceOf(log, s, f.away) + HOME_ADVANTAGE),
             exp(AttackOf(log, s, f.away) - DefenceOf(log, s, f.home)), RHO)
  }

  function Played(s: map<TeamId, GoalStats>, t: TeamId, scored: int, conceded: int): map<TeamId, GoalStats> {
    var g := StatsOf(s, t);
    s[t := GoalStats(g.scored + scored, g.conceded + conceded, g.matches + 1)]
  }

  function Counted(s: Tally, f: Fixture): Tally {
    var (h, a) := FinishedScores(f);
    Tally(Played(Played(s.stats, f.home, h, a), f.away, a, h), s.goals + h + a, s.samples + 2)
  }

  function CountedAll(s: Tally, batch: seq<Fixture>): Tally {
    if batch == [] then s else Counted(CountedAll(s, batch[..|batch| - 1]), batch[|batch| - 1])
  }

  function GoalPass(exp: PositiveFn, log: real -> real): Pass<Tally, Probs> {
    Pass(Tally(map[], 0, 0),
         (s: Tally, f: Fixture) => Predicted(exp, log, s, f),
         (s: Tally, batch: seq<Fixture>) => CountedAll(s, batch))
  }

  // ---- the loop ---------------------------------------------------------------------------------

  /** `_run_dixon_coles`. */
  method RunDixonColes(exp: PositiveFn, log: real -> real, fixtures: seq<Fixture>)
                       returns (preds: map<FixtureId, Probs>)
    requires DistinctIds(fixtures)
    ensures Prequential(GoalPass(exp, log), fixtures, preds)
  {
    var tally := Tally(map[], 0, 0);
    preds := map[];
    var batches := Batches(fixtures);
    ghost var m := GoalPass(exp, log);
    BatchesDistinct(fixtures);
    for k := 0 to |batches|
      invariant tally == FoldAll(m, m.init, batches[..k])
      invariant PrequentialSoFar(m, batches, k, 0, preds)
    {
      BatchRecorded(m, batches, k, preds);
      FoldOneMore(m, m.init, batches, k);
      preds := PredictBatch(exp, log, tally, preds, batches[k]);
      tally := CountBatch(tally, batches[k]);
    }
    assert batches[..|batches|] == batches;
    PrequentialDone(m, fixtures, preds);
  }

  /** `params` holds the strengths, from `s`, of every team of the batch that has played. */
  ghost predicate Holds(log: real -> real, s: Tally, params: Params, teams: set<TeamId>) {
    && params.homeAdvantage == HOME_ADVANTAGE && params.rho == RHO
    && forall t :: t in teams ==>
         StrengthOf(params.attack, t) == AttackOf(log, s, t) && StrengthOf(params.defence, t) == DefenceOf(log, s, t)
  }

  /** The fitted parameters predict a pairing of theirs as the statistics do. */
  lemma FittedPredicts(exp: PositiveFn, log: real -> real, s: Tally, params: Params, teams: set<TeamId>, f: Fixture)
    requires Holds(log, s, params, teams) && f.home in teams && f.away in teams
    ensures var goals := ExpectedGoals(exp, params, f.home, f.away);
      PreMatch(exp, goals.0, goals.1, params.rho) == Predicted(exp, log, s, f)
  {
    hide PreMatch, AttackOf, DefenceOf;
  }

  method PredictBatch(exp: PositiveFn, log: real -> real, s: Tally, before: map<FixtureId, Probs>, batch: seq<Fixture>)
      returns (preds: map<FixtureId, Probs>)
    ensures preds == Recorded(GoalPass(exp, log), s, before, batch)
  {
    hide PreMatch, AttackOf, DefenceOf, Predicted, ExpectedGoals, Holds;
    ghost var m := GoalPass(exp, log);
    var params := FitBatch(log, s, TeamsIn(batch));
    preds := before;
    for i := 0 to |batch|
      invariant preds == Recorded(m, s, before, batch[..i])
    {
      assert batch[i] in batch;
      var p := Predict1x2(exp, params, batch[i].home, batch[i].away);
      FittedPredicts(exp, log, s, params, TeamsIn(batch), batch[i]);
      preds := preds[batch[i].id := p];
      RecordedOneMore(m, s, before, batch, i);
    }
    assert batch[..|batch|] == batch;
  }

  method FitBatch(log: real -> real, s: Tally, teams: set<TeamId>) returns (params: Params)
    ensures Holds(log, s, params, teams)
  {
    var average := LeagueAverage(s);
    var attack: map<TeamId, real>, defence: map<TeamId, real> := map[], map[];
    var todo := teams;
    while todo != {}
      invariant todo <= teams
      invariant attack.Keys <= teams - todo && defence.Keys <= teams - todo
      invariant forall t :: t in teams - todo ==>
        StrengthOf(attack, t) == AttackOf(log, s, t) && StrengthOf(defence, t) == DefenceOf(log, s, t)
      decreases |todo|
    {
      var team :| team in todo;
      todo := todo - {team};
      var st := StatsOf(s.stats, team);
      if st.matches != 0 {
        attack := attack[team := log((st.scored as real / st.matches as real + 0.3) / average)];
        defence := defence[team := log((st.conceded as real / st.matches as real + 0.3) / average)];
      }
    }
    params := Params(attack, defence, HOME_ADVANTAGE, RHO);
  }

  method CountBatch(s: Tally, batch: seq<Fixture>) returns (r: Tally)
    ensures r == CountedAll(s, batch)
  {
    var stats, goals, samples := s.stats, s.goals, s.samples;
    for i := 0 to |batch|
      invariant Tally(stats, goals, samples) == CountedAll(s, batch[..i])
    {
      var (ftHome, ftAway) := FinishedScores(batch[i]);
      stats := Played(stats, batch[i].home, ftHome, ftAway);
      stats := Played(stats, batch[i].away, ftAway, ftHome);
      goals := goals + ftHome + ftAway;
      samples := samples + 2;
      assert batch[..i + 1][..i] == batch[..i];
    }
    assert batch[..|batch|] == batch;
    r := Tally(stats, goals, samples);
  }

  // ---- no leakage -------------------------------------------------------------------------------

  /** A prediction depends on the pairing and on the results before kickoff, and on nothing else in the list. */
  lemma {:induction false} NoLeakage(exp: PositiveFn, log: real -> real, fs: seq<Fixture>, gs: seq<Fixture>,
                                     f: Fixture, g: Fixture,
                                     preds: map<FixtureId, Probs>, preds': map<FixtureId, Probs>)
    requires DistinctIds(fs) && f in fs && g in gs
    requires f.kickoff == g.kickoff && f.home == g.home && f.away == g.away
    requires multiset(Earlier(fs, f.kickoff)) == multiset(Earlier(gs, f.kickoff))
    requires Prequential(GoalPass(exp, log), fs, preds) && Prequential(GoalPass(exp, log), gs, preds')
    ensures f.id in preds && g.id in preds' && preds[f.id] == preds'[g.id]
  {
    hide Predicted, CountedAll;
    OnlyThePastMatters(GoalPass(exp, log), fs, gs, f.kickoff);
    SamePairing(exp, log, StateBefore(GoalPass(exp, log), fs, f.kickoff), f, g);
  }

  lemma SamePairing(exp: PositiveFn, log: real -> real, s: Tally, f: Fixture, g: Fixture)
    requires f.home == g.home && f.away == g.away
    ensures Predicted(exp, log, s, f) == Predicted(exp, log, s, g)
  {}
}
