/**
 The feature table: a second walk over the same batches, with its own team state.

 Each row is read from the state before its batch; then the batch is folded in. The theorems
 say that a row's features depend only on the fixture and on strictly earlier fixtures, and
 that its rating columns are exactly the ratings the separate Elo and Glicko-2 passes use.
 */
module Features {
  import opened Options
  import opened Chronology
  import opened Sums
  import Elo
  import E = EloRatings
  import G = GlickoRatings

  const DEFAULT_LEAGUE_XG := 1.35
  const RECENT: nat := 5
  const DAY: Instant := 86_400_000_000 // microseconds

  datatype TeamState = TeamState(elo: real, glicko: G.Player, recentPoints: seq<int>, recentXg: seq<real>,
    lastDate: Option<Instant>)

  const NEW_TEAM := TeamState(Elo.DEFAULT_RATING, G.NEWCOMER, [], [], None)

  /** Shot counts of a fixture, as far as they are known. */
  datatype Shots = Shots(home: Option<int>, homeOnTarget: Option<int>, away: Option<int>, awayOnTarget: Option<int>)

  type Teams = map<TeamId, TeamState>
  type LeagueXg = map<LeagueId, (real, nat)>

  datatype State = State(teams: Teams, leagueXg: LeagueXg)

  datatype Row = Row(id: FixtureId, kickoff: Instant, outcome: int, values: Values)

  datatype Values = Values(eloHome: real, eloAway: real, eloDiff: real, glickoHome: real, glickoAway: real,
                           glickoRdHome: real, glickoRdAway: real, formHome: real, formAway: real,
                           restDaysHome: int, restDaysAway: int, rollingXgHome: real, rollingXgAway: real)

  /** The models both walks use: `10^x` and the Glicko-2 update. */
  datatype Models = Models(pow10: PositiveFn, update: G.UpdateFn)

  // ---- one row ----------------------------------------------------------------------------------

  function TeamOf(teams: Teams, t: TeamId): TeamState { if t in teams then teams[t] else NEW_TEAM }

  function Label(ftHome: int, ftAway: int): int { if ftHome > ftAway then 0 else if ftHome == ftAway then 1 else 2 }

  function Total(s: seq<int>): int { if s == [] then 0 else Total(s[..|s| - 1]) + s[|s| - 1] }

  function TotalXg(s: seq<real>): real { if s == [] then 0.0 else TotalXg(s[..|s| - 1]) + s[|s| - 1] }

  function Form(points: seq<int>): real { Total(points) as real / (if |points| > 1 then |points| else 1) as real }

  function Rolling(values: seq<real>, leagueMean: real): real {
    if values == [] then leagueMean else TotalXg(values) / |values| as real
  }

  function RestDays(last: Option<Instant>, kickoff: Instant): int {
    if last.None? then 7 else (kickoff - last.value) / DAY
  }

  function LeaguePrior(x: LeagueXg, league: LeagueId): real {
    if league in x && x[league].1 != 0 then x[league].0 / x[league].1 as real else DEFAULT_LEAGUE_XG
  }

  function ValuesOf(s: State, f: Fixture): Values {
    var h, a, prior := TeamOf(s.teams, f.home), TeamOf(s.teams, f.away), LeaguePrior(s.leagueXg, f.league);
    Values(h.elo, a.elo, h.elo - a.elo, h.glicko.rating, a.glicko.rating, h.glicko.rd, a.glicko.rd,
           Form(h.recentPoints), Form(a.recentPoints), RestDays(h.lastDate, f.kickoff), RestDays(a.lastDate, f.kickoff),
           Rolling(h.recentXg, prior), Rolling(a.recentXg, prior))
  }

  function RowOf(s: State, f: Fixture): Row {
    Row(f.id, f.kickoff, Label(FinishedScores(f).0, FinishedScores(f).1), ValuesOf(s, f))
  }

  // ---- one batch --------------------------------------------------------------------------------

  /** Reading a team's state creates it. */
  function Touched(teams: Teams, t: TeamId): Teams { if t in teams then teams else teams[t := NEW_TEAM] }

  function TouchedAll(teams: Teams, batch: seq<Fixture>): Teams {
    if batch == [] then teams
    else
      var f := batch[|batch| - 1];
      Touched(Touched(TouchedAll(teams, batch[..|batch| - 1]), f.home), f.away)
  }

  /** A deque of the last five. */
  function Appended<T>(s: seq<T>, x: T): (r: seq<T>)
    ensures |s| <= RECENT ==> |r| <= RECENT
    ensures r != [] && r[|r| - 1] == x
  {
    var t := s + [x];
    if |t| > RECENT then t[|t| - RECENT..] else t
  }

  function Points(scored: int, conceded: int): int { if scored > conceded then 3 else if scored == conceded then 1
    else 0 }

  function Count(x: Option<int>): int { if x.Some? then x.value else 0 }

  /** Approximate xG from shot counts. */
  function ApproximateXg(shots: int, onTarget: int): real {
    (if shots - onTarget > 0 then shots - onTarget else 0) as real * 0.09 + onTarget as real * 0.20
  }

  function AddXg(x: LeagueXg, league: LeagueId, xg: real): LeagueXg {
    var (total, count) := if league in x then x[league] else (0.0, 0);
    x[league := (total + xg, count + 1)]
  }

  /** One side's shots, if known, into its recent xG and its league's mean. */
  function WithShots(s: State, t: TeamId, league: LeagueId, shots: Option<int>, onTarget: Option<int>): State
    requires t in s.teams
  {
    if shots.None? then s
    else
      var xg := ApproximateXg(shots.value, Count(onTarget));
      State(s.teams[t := s.teams[t].(recentXg := Appended(s.teams[t].recentXg, xg))], AddXg(s.leagueXg, league, xg))
  }

  function WithPoints(teams: Teams, t: TeamId, points: int): Teams
    requires t in teams
  {
    teams[t := teams[t].(recentPoints := Appended(teams[t].recentPoints, points))]
  }

  function Dated(teams: Teams, t: TeamId, kickoff: Instant): Teams
    requires t in teams
  {
    teams[t := teams[t].(lastDate := Some(kickoff))]
  }

  /** The ratings are as they were. */
  ghost predicate SameRatings(a: Teams, b: Teams) {
    b.Keys == a.Keys && forall t :: t in a ==> b[t].elo == a[t].elo && b[t].glicko == a[t].glicko
  }

  function WithBothPoints(s: State, f: Fixture): (r: State)
    requires f.home in s.teams && f.away in s.teams
    ensures SameRatings(s.teams, r.teams)
  {
    var (h, a) := FinishedScores(f);
    s.(teams := WithPoints(WithPoints(s.teams, f.home, Points(h, a)), f.away, Points(a, h)))
  }

  function WithBothShots(s: State, f: Fixture, shots: Option<Shots>): (r: State)
    requires f.home in s.teams && f.away in s.teams
    ensures SameRatings(s.teams, r.teams)
  {
    if shots.None? then s
    else
      var x := shots.value;
      WithShots(WithShots(s, f.home, f.league, x.home, x.homeOnTarget), f.away, f.league, x.away, x.awayOnTarget)
  }

  function DatedBoth(teams: Teams, f: Fixture): (r: Teams)
    requires f.home in teams && f.away in teams
    ensures SameRatings(teams, r)
  {
    Dated(Dated(teams, f.home, f.kickoff), f.away, f.kickoff)
  }

  /** Everything a fixture changes at once: points, xG and date; ratings wait for the whole batch. */
  function Noted(s: State, f: Fixture, shots: Option<Shots>): (r: State)
    requires f.home in s.teams && f.away in s.teams
    ensures SameRatings(s.teams, r.teams)
  {
    var r := WithBothShots(WithBothPoints(s, f), f, shots);
    r.(teams := DatedBoth(r.teams, f))
  }

  function NotedAll(s: State, batch: seq<Fixture>, stats: map<FixtureId, Shots>): (r: State)
    requires forall f :: f in batch ==> f.home in s.teams && f.away in s.teams
    ensures SameRatings(s.teams, r.teams)
  {
    if batch == [] then s
    else
      var f := batch[|batch| - 1];
      Noted(NotedAll(s, batch[..|batch| - 1], stats), f, Lookup(stats, f.id))
  }

  function EloOf(teams: Teams): E.Ratings { map t | t in teams :: teams[t].elo }

  function GlickoOf(teams: Teams): G.Players { map t | t in teams :: teams[t].glicko }

  /** Elo after the batch: each changed team's rating before it, plus its change. */
  function WithElo(teams: Teams, before: E.Ratings, deltas: E.Ratings): Teams {
    map t | t in teams :: if t in deltas then teams[t].(elo := E.RatingOf(before, t) + deltas[t]) else teams[t]
  }

  /** Glicko-2 after the batch: each team with results updated once from its state before it. */
  function WithGlicko(update: G.UpdateFn, teams: Teams, before: G.Players, results: G.Results): Teams {
    map t | t in teams :: if t in results then teams[t].(glicko := update(G.PlayerOf(before, t), results[t]))
      else teams[t]
  }

  lemma {:induction false} TouchedHas(teams: Teams, batch: seq<Fixture>)
    ensures teams.Keys <= TouchedAll(teams, batch).Keys
    ensures forall f :: f in batch ==> f.home in TouchedAll(teams, batch) && f.away in TouchedAll(teams, batch)
    ensures forall t :: TeamOf(TouchedAll(teams, batch), t) == TeamOf(teams, t)
  {
    if batch != [] { TouchedHas(teams, batch[..|batch| - 1]); }
  }

  function Advanced(m: Models, s: State, batch: seq<Fixture>, stats: map<FixtureId, Shots>): State
    requires forall f :: f in batch ==> f.home in s.teams && f.away in s.teams
  {
    var noted := NotedAll(s, batch, stats);
    var rated := WithElo(noted.teams, EloOf(s.teams), E.Changes(Elo.STANDARD, m.pow10, EloOf(s.teams), batch));
    noted.(teams := WithGlicko(m.update, rated, GlickoOf(s.teams), G.BatchResults(GlickoOf(s.teams), batch)))
  }

  function Folded(m: Models, s: State, batch: seq<Fixture>, stats: map<FixtureId, Shots>): State {
    TouchedHas(s.teams, batch);
    Advanced(m, s.(teams := TouchedAll(s.teams, batch)), batch, stats)
  }

  function FeaturePass(m: Models, stats: map<FixtureId, Shots>): Pass<State, Row> {
    Pass(State(map[], map[]),
         (s: State, f: Fixture) => RowOf(s, f),
         (s: State, batch: seq<Fixture>) => Folded(m, s, batch, stats))
  }

  // ---- the walk ---------------------------------------------------------------------------------

  /** The dictionaries the walk keeps: team state, and approximate xG per league. */
  class Walk {
    var teams: Teams
    var leagueXg: LeagueXg

    constructor ()
      ensures teams == map[] && leagueXg == map[]
    {
      teams, leagueXg := map[], map[];
    }

    function Value(): State
      reads this
    {
      State(teams, leagueXg)
    }

    /** `_feature_row`: reading the two teams creates them. */
    method FeatureRow(fx: Fixture) returns (row: Row)
      modifies `teams
      ensures teams == Touched(Touched(old(teams), fx.home), fx.away)
      ensures row == RowOf(old(Value()), fx)
    {
      teams := Touched(teams, fx.home);
      var hs := teams[fx.home];
      teams := Touched(teams, fx.away);
      var as_ := teams[fx.away];
      var prior := LeaguePrior(leagueXg, fx.league);
      row := Row(fx.id, fx.kickoff, Label(FinishedScores(fx).0, FinishedScores(fx).1),
                 Values(hs.elo, as_.elo, hs.elo - as_.elo, hs.glicko.rating, as_.glicko.rating, hs.glicko.rd,
                   as_.glicko.rd,
                        Form(hs.recentPoints), Form(as_.recentPoints),
                        RestDays(hs.lastDate, fx.kickoff), RestDays(as_.lastDate, fx.kickoff),
                        Rolling(hs.recentXg, prior), Rolling(as_.recentXg, prior)));
    }

    /** One fixture's points, xG and date. */
    method Note(fx: Fixture, shots: Option<Shots>)
      requires fx.home in teams && fx.away in teams
      modifies this
      ensures Value() == Noted(old(Value()), fx, shots)
    {
      var (ftHome, ftAway) := FinishedScores(fx);
      teams := WithPoints(teams, fx.home, Points(ftHome, ftAway));
      teams := WithPoints(teams, fx.away, Points(ftAway, ftHome));
      if shots.Some? {
        var st := shots.value;
        AddShots(fx.home, fx.league, st.home, st.homeOnTarget);
        AddShots(fx.away, fx.league, st.away, st.awayOnTarget);
      }
      teams := Dated(teams, fx.home, fx.kickoff);
      teams := Dated(teams, fx.away, fx.kickoff);
    }

    method AddShots(team: TeamId, league: LeagueId, shots: Option<int>, onTarget: Option<int>)
      requires team in teams
      modifies this
      ensures Value() == WithShots(old(Value()), team, league, shots, onTarget)
    {
      if shots.Some? {
        var xg := ApproximateXg(shots.value, Count(onTarget));
        teams := teams[team := teams[team].(recentXg := Appended(teams[team].recentXg, xg))];
        leagueXg := AddXg(leagueXg, league, xg);
      }
    }

    /** `_advance_batch`: both rating changes from the ratings before the batch, applied after it. */
    method AdvanceBatch(m: Models, batch: seq<Fixture>, stats: map<FixtureId, Shots>)
      requires forall f :: f in batch ==> f.home in teams && f.away in teams
      modifies this
      ensures Value() == Advanced(m, old(Value()), batch, stats)
    {
      var eloBefore, glickoBefore := EloOf(teams), GlickoOf(teams);
      var deltas, results := CollectBatch(m, batch, stats, eloBefore, glickoBefore);
      ApplyElo(eloBefore, deltas);
      ApplyGlicko(m.update, glickoBefore, results);
    }

    method CollectBatch(m: Models, batch: seq<Fixture>, stats: map<FixtureId, Shots>, eloBefore: E.Ratings,
                        glickoBefore: G.Players)
        returns (deltas: E.Ratings, results: G.Results)
      requires forall f :: f in batch ==> f.home in teams && f.away in teams
      modifies this
      ensures Value() == NotedAll(old(Value()), batch, stats)
      ensures deltas == E.Changes(Elo.STANDARD, m.pow10, eloBefore, batch)
      ensures results == G.BatchResults(glickoBefore, batch)
    {
      hide Elo.Update, Elo.Delta, E.Gain, Noted;
      ghost var gain := E.Gain(Elo.STANDARD, m.pow10, eloBefore);
      deltas, results := map[], map[];
      for i := 0 to |batch|
        invariant Value() == NotedAll(old(Value()), batch[..i], stats)
        invariant deltas == E.Shifts(gain, batch[..i])
        invariant results == G.BatchResults(glickoBefore, batch[..i])
      {
        var fx := batch[i];
        deltas, results := CollectOne(m.pow10, fx, Lookup(stats, fx.id), eloBefore, glickoBefore, deltas, results);
        E.OneMoreShift(gain, batch, i);
        assert batch[..i + 1][..i] == batch[..i];
      }
      assert batch[..|batch|] == batch;
    }

    /** One fixture of the batch: its rating change, its results, and everything that is not a rating. */
    method CollectOne(pow10: PositiveFn, fx: Fixture, shots: Option<Shots>, eloBefore: E.Ratings,
                      glickoBefore: G.Players,
                      changes: E.Ratings, listed: G.Results) returns (deltas: E.Ratings, results: G.Results)
      requires fx.home in teams && fx.away in teams
      modifies this
      ensures Value() == Noted(old(Value()), fx, shots)
      ensures var gain := E.Gain(Elo.STANDARD, pow10, eloBefore)(fx);
              deltas == E.Credited(E.Credited(changes, fx.home, gain), fx.away, -gain)
      ensures results == G.ListedBoth(glickoBefore, listed, fx)
    {
      hide Elo.Update, Elo.Delta, E.Gain, Noted;
      var rh, ra := E.RatingOf(eloBefore, fx.home), E.RatingOf(eloBefore, fx.away);
      var after := Elo.Update(Elo.STANDARD, pow10, rh, ra, FinishedScores(fx).0, FinishedScores(fx).1);
      E.UpdateMovesGain(Elo.STANDARD, pow10, eloBefore, fx);
      deltas := E.Credited(changes, fx.home, after.0 - rh);
      deltas := E.Credited(deltas, fx.away, after.1 - ra);
      results := CollectGlicko(glickoBefore, listed, fx);
      Note(fx, shots);
    }

    method ApplyElo(before: E.Ratings, deltas: E.Ratings)
      modifies `teams
      ensures teams == WithElo(old(teams), before, deltas)
    {
      var todo := teams.Keys * deltas.Keys;
      while todo != {}
        invariant todo <= old(teams).Keys * deltas.Keys && teams.Keys == old(teams).Keys
        invariant forall t :: t in teams ==>
          teams[t] == if t in todo then old(teams)[t] else WithElo(old(teams), before, deltas)[t]
        decreases |todo|
      {
        var team :| team in todo;
        teams := teams[team := teams[team].(elo := E.RatingOf(before, team) + deltas[team])];
        todo := todo - {team};
      }
    }

    method ApplyGlicko(update: G.UpdateFn, before: G.Players, results: G.Results)
      modifies `teams
      ensures teams == WithGlicko(update, old(teams), before, results)
    {
      var todo := teams.Keys * results.Keys;
      while todo != {}
        invariant todo <= old(teams).Keys * results.Keys && teams.Keys == old(teams).Keys
        invariant forall t :: t in teams ==>
          teams[t] == if t in todo then old(teams)[t] else WithGlicko(update, old(teams), before, results)[t]
        decreases |todo|
      {
        var team :| team in todo;
        teams := teams[team := teams[team].(glicko := update(G.PlayerOf(before, team), results[team]))];
        todo := todo - {team};
      }
    }
  }

  method CollectGlicko(before: G.Players, listed: G.Results, fx: Fixture) returns (results: G.Results)
    ensures results == G.ListedBoth(before, listed, fx)
  {
    var gh, ga := G.PlayerOf(before, fx.home), G.PlayerOf(before, fx.away);
    var (ftHome, ftAway) := FinishedScores(fx);
    var homeScore := if ftHome > ftAway then 1.0 else if ftHome == ftAway then 0.5 else 0.0;
    results := G.Listed(listed, fx.home, G.MatchResult(ga.rating, ga.rd, homeScore));
    results := G.Listed(results, fx.away, G.MatchResult(gh.rating, gh.rd, 1.0 - homeScore));
  }

  /** The rows of a batch, all read before any of its results. */
  method ListBatch(walk: Walk, batch: seq<Fixture>) returns (records: seq<Row>)
    modifies walk`teams
    ensures walk.teams == TouchedAll(old(walk.teams), batch)
    ensures |records| == |batch| && forall i :: 0 <= i < |batch| ==> records[i] == RowOf(old(walk.Value()), batch[i])
  {
    records := [];
    for i := 0 to |batch|
      invariant walk.teams == TouchedAll(old(walk.teams), batch[..i])
      invariant |records| == i && forall j :: 0 <= j < i ==> records[j] == RowOf(old(walk.Value()), batch[j])
    {
      TouchedHas(old(walk.teams), batch[..i]);
      SameRow(old(walk.Value()), walk.Value(), batch[i]);
      var row := walk.FeatureRow(batch[i]);
      records := records + [row];
      assert batch[..i + 1][..i] == batch[..i];
    }
    assert batch[..|batch|] == batch;
  }

  /** A row depends on the state through what `TeamOf` returns. */
  lemma SameRow(s: State, s': State, f: Fixture)
    requires s'.leagueXg == s.leagueXg && forall t :: TeamOf(s'.teams, t) == TeamOf(s.teams, t)
    ensures RowOf(s', f) == RowOf(s, f)
  {}

  /** `build_feature_table`, from the finished fixtures and their shot counts. */
  method BuildFeatureTable(m: Models, rows: seq<Fixture>, stats: map<FixtureId, Shots>) returns (records: seq<Row>)
    ensures Chronology.Listed(FeaturePass(m, stats), rows, Chronological(rows), records)
    ensures |records| == |rows| && forall i :: 0 <= i < |records| ==>
      var f := Chronological(rows)[i];
      var home := if f.ftHome.Some? then f.ftHome.value else 0;
      var away := if f.ftAway.Some? then f.ftAway.value else 0;
      && records[i].id == f.id && records[i].kickoff == f.kickoff
      && records[i].outcome == (if home > away then 0 else if home < away then 2 else 1)
  {
    hide ValuesOf, Advanced, StateBefore;
    ghost var p := FeaturePass(m, stats);
    var walk := new Walk();
    records := [];
    var batches := Batches(rows);
    for k := 0 to |batches|
      invariant fresh(walk)
      invariant walk.Value() == FoldAll(p, p.init, batches[..k])
      invariant Chronology.Listed(p, rows, Flat(batches[..k]), records)
    {
      TouchedHas(walk.teams, batches[k]);
      FoldOneMore(p, p.init, batches, k);
      var listed := ListBatch(walk, batches[k]);
      ListedBatch(p, rows, k, records, listed);
      records := records + listed;
      walk.AdvanceBatch(m, batches[k], stats);
    }
    assert batches[..|batches|] == batches;
    FlatGroup(Chronological(rows));
    RowsAreLabelled(m, stats, rows, records);
    hide *;
  }

  /** Row `i` is of the fixture at place `i`, in chronological order; a home win is labelled 0, a draw 1, an away win 2,
      a score not there counting as 0. */
  lemma {:induction false} RowsAreLabelled(m: Models, stats: map<FixtureId, Shots>, fs: seq<Fixture>, records: seq<Row>)
    requires Chronology.Listed(FeaturePass(m, stats), fs, Chronological(fs), records)
    ensures |records| == |Chronological(fs)| == |fs|
    ensures forall i :: 0 <= i < |records| ==>
      var f := Chronological(fs)[i];
      var home := if f.ftHome.Some? then f.ftHome.value else 0;
      var away := if f.ftAway.Some? then f.ftAway.value else 0;
      && records[i].id == f.id && records[i].kickoff == f.kickoff
      && records[i].outcome == (if home > away then 0 else if home < away then 2 else 1)
  {
    hide ValuesOf, StateBefore;
    ChronologicalSorts(fs);
    assert |multiset(Chronological(fs))| == |multiset(fs)|;
  }

  // ---- agreement with the rating passes -----------------------------------------------------------

  /** The walk's ratings of every team, rated or not, are those of the two passes. */
  ghost predicate Agrees(s: State, r: E.Ratings, p: G.Players) {
    forall t :: TeamOf(s.teams, t).elo == E.RatingOf(r, t) && TeamOf(s.teams, t).glicko == G.PlayerOf(p, t)
  }

  lemma {:induction false} ResultsAgree(p: G.Players, q: G.Players, batch: seq<Fixture>)
    requires forall t :: G.PlayerOf(p, t) == G.PlayerOf(q, t)
    ensures G.BatchResults(p, batch) == G.BatchResults(q, batch)
  {
    if batch != [] { ResultsAgree(p, q, batch[..|batch| - 1]); }
  }

  lemma {:induction false} ChangesAgree(pow10: PositiveFn, r: E.Ratings, q: E.Ratings, batch: seq<Fixture>)
    requires forall t :: E.RatingOf(r, t) == E.RatingOf(q, t)
    ensures E.Changes(Elo.STANDARD, pow10, r, batch) == E.Changes(Elo.STANDARD, pow10, q, batch)
  {
    hide Elo.Delta;
    E.ShiftsSame(E.Gain(Elo.STANDARD, pow10, r), E.Gain(Elo.STANDARD, pow10, q), batch);
  }

  lemma {:induction false} ChangedTeams(pow10: PositiveFn, r: E.Ratings, p: G.Players, batch: seq<Fixture>, t: TeamId)
    ensures t in E.Changes(Elo.STANDARD, pow10, r, batch) || t in G.BatchResults(p, batch) ==>
      exists f :: f in batch && (f.home == t || f.away == t)
  {
    hide E.Gain;
    if batch != [] {
      var last := |batch| - 1;
      ChangedTeams(pow10, r, p, batch[..last], t);
      assert batch[last] in batch;
      assert forall f :: f in batch[..last] ==> f in batch;
    }
  }

  /** After the same batch, they still agree. */
  lemma {:induction false} AdvanceAgrees(m: Models, s: State, r: E.Ratings, p: G.Players, batch: seq<Fixture>,
                                         stats: map<FixtureId, Shots>)
    requires Agrees(s, r, p)
    ensures Agrees(Folded(m, s, batch, stats), E.Folded(Elo.STANDARD, m.pow10, r, batch), G.Period(m.update, p, batch))
  {
    TouchedHas(s.teams, batch);
    var touched := s.(teams := TouchedAll(s.teams, batch));
    ChangesAgree(m.pow10, EloOf(touched.teams), r, batch);
    ResultsAgree(GlickoOf(touched.teams), p, batch);
    forall t ensures TeamOf(Folded(m, s, batch, stats).teams, t).elo ==
      E.RatingOf(E.Folded(Elo.STANDARD, m.pow10, r, batch), t)
      ensures TeamOf(Folded(m, s, batch, stats).teams, t).glicko == G.PlayerOf(G.Period(m.update, p, batch), t)
    {
      TeamAgrees(m, touched, r, p, batch, stats, t);
    }
  }

  lemma {:induction false} TeamAgrees(m: Models, s: State, r: E.Ratings, p: G.Players, batch: seq<Fixture>,
                                      stats: map<FixtureId, Shots>, t: TeamId)
    requires Agrees(s, r, p) && forall f :: f in batch ==> f.home in s.teams && f.away in s.teams
    requires E.Changes(Elo.STANDARD, m.pow10, EloOf(s.teams), batch) == E.Changes(Elo.STANDARD, m.pow10, r, batch)
    requires G.BatchResults(GlickoOf(s.teams), batch) == G.BatchResults(p, batch)
    ensures TeamOf(Advanced(m, s, batch, stats).teams, t).elo ==
      E.RatingOf(E.Folded(Elo.STANDARD, m.pow10, r, batch), t)
    ensures TeamOf(Advanced(m, s, batch, stats).teams, t).glicko == G.PlayerOf(G.Period(m.update, p, batch), t)
  {
    hide E.Changes, NotedAll, G.BatchResults;
    ChangedTeams(m.pow10, r, p, batch, t);
    assert E.RatingOf(EloOf(s.teams), t) == E.RatingOf(r, t);
    assert G.PlayerOf(GlickoOf(s.teams), t) == G.PlayerOf(p, t);
  }

  lemma {:induction false} WalksAgree(m: Models, stats: map<FixtureId, Shots>, s: State, r: E.Ratings, p: G.Players,
                                      batches: seq<seq<Fixture>>)
    requires Agrees(s, r, p)
    ensures Agrees(FoldAll(FeaturePass(m, stats), s, batches), FoldAll(E.EloPass(Elo.STANDARD, m.pow10), r, batches),
                   FoldAll(G.GlickoPass(m.update, m.pow10), p, batches))
    decreases |batches|
  {
    hide Folded, E.Folded, G.Period;
    if batches != [] {
      AdvanceAgrees(m, s, r, p, batches[0], stats);
      WalksAgree(m, stats, Folded(m, s, batches[0], stats), E.Folded(Elo.STANDARD, m.pow10, r, batches[0]),
                 G.Period(m.update, p, batches[0]), batches[1..]);
    }
  }

  /** For every history and every Glicko-2 update: the rating columns of a row are the pre-match ratings of
      the Elo and Glicko-2 passes. */
  lemma {:induction false} RatingColumnsAgree(m: Models, stats: map<FixtureId, Shots>, fs: seq<Fixture>, f: Fixture)
    ensures var v := ValuesOf(StateBefore(FeaturePass(m, stats), fs, f.kickoff), f);
      var ratings := StateBefore(E.EloPass(Elo.STANDARD, m.pow10), fs, f.kickoff);
      var players := StateBefore(G.GlickoPass(m.update, m.pow10), fs, f.kickoff);
      && v.eloHome == E.RatingOf(ratings, f.home) && v.eloAway == E.RatingOf(ratings, f.away)
      && v.eloDiff == v.eloHome - v.eloAway
      && v.glickoHome == G.PlayerOf(players, f.home).rating && v.glickoRdHome == G.PlayerOf(players, f.home).rd
      && v.glickoAway == G.PlayerOf(players, f.away).rating && v.glickoRdAway == G.PlayerOf(players, f.away).rd
  {
    hide Folded, E.Folded, G.Period, Form, Rolling, RestDays, LeaguePrior;
    WalksAgree(m, stats, State(map[], map[]), map[], map[], Batches(Earlier(fs, f.kickoff)));
  }

  /** So the passes' probabilities can be recomputed from the row. */
  lemma {:induction false} TableAgreesWithPasses(m: Models, stats: map<FixtureId, Shots>, fs: seq<Fixture>,
                                                 records: seq<Row>,
      elo: map<FixtureId, Elo.Probs>, glicko: map<FixtureId, Elo.Probs>, i: nat)
    requires Chronology.Listed(FeaturePass(m, stats), fs, Chronological(fs), records) && i < |records|
    requires Prequential(E.EloPass(Elo.STANDARD, m.pow10), fs, elo)
      && Prequential(G.GlickoPass(m.update, m.pow10), fs, glicko)
    ensures var v := records[i].values; var id := records[i].id;
      && id in elo && elo[id] == Elo.Prob1x2(Elo.STANDARD, m.pow10, v.eloHome, v.eloAway)
      && id in glicko && glicko[id] == Elo.Prob1x2(G.SPLITTER, m.pow10, v.glickoHome, v.glickoAway)
  {
    hide Elo.Prob1x2, ValuesOf, StateBefore;
    var f := Chronological(fs)[i];
    ChronologicalSorts(fs);
    SameElements(Chronological(fs), fs);
    assert f in fs;
    RatingColumnsAgree(m, stats, fs, f);
  }

  // ---- no leakage -------------------------------------------------------------------------------

  lemma {:induction false} NotedSame(s: State, batch: seq<Fixture>, stats: map<FixtureId, Shots>,
                                     stats': map<FixtureId, Shots>)
    requires forall f :: f in batch ==> f.home in s.teams && f.away in s.teams
    requires forall f :: f in batch ==> Lookup(stats, f.id) == Lookup(stats', f.id)
    ensures NotedAll(s, batch, stats) == NotedAll(s, batch, stats')
  {
    hide Noted;
    if batch != [] {
      var last := |batch| - 1;
      assert batch[last] in batch;
      NotedSame(s, batch[..last], stats, stats');
    }
  }

  lemma {:induction false} FoldedSame(m: Models, s: State, batch: seq<Fixture>, stats: map<FixtureId, Shots>,
                                      stats': map<FixtureId, Shots>)
    requires forall f :: f in batch ==> Lookup(stats, f.id) == Lookup(stats', f.id)
    ensures Folded(m, s, batch, stats) == Folded(m, s, batch, stats')
  {
    TouchedHas(s.teams, batch);
    NotedSame(s.(teams := TouchedAll(s.teams, batch)), batch, stats, stats');
  }

  lemma {:induction false} WalkSame(m: Models, s: State, batches: seq<seq<Fixture>>, stats: map<FixtureId, Shots>,
                                    stats': map<FixtureId, Shots>)
    requires forall k, f :: 0 <= k < |batches| && f in batches[k] ==> Lookup(stats, f.id) == Lookup(stats', f.id)
    ensures FoldAll(FeaturePass(m, stats), s, batches) == FoldAll(FeaturePass(m, stats'), s, batches)
    decreases |batches|
  {
    hide Folded;
    if batches != [] {
      assert forall f :: f in batches[0] ==> Lookup(stats, f.id) == Lookup(stats', f.id);
      FoldedSame(m, s, batches[0], stats, stats');
      WalkSame(m, Folded(m, s, batches[0], stats), batches[1..], stats, stats');
    }
  }

  /** A row's features depend on the pairing, the league and the kickoff, and on the results and shots of
      strictly earlier fixtures: on no later or simultaneous result, and not on the order of the input. */
  lemma {:induction false} NoLeakage(m: Models, stats: map<FixtureId, Shots>, stats': map<FixtureId, Shots>,
                                     fs: seq<Fixture>, gs: seq<Fixture>,
                                     f: Fixture, g: Fixture)
    requires DistinctIds(fs) && f.kickoff == g.kickoff && f.home == g.home && f.away == g.away && f.league == g.league
    requires multiset(Earlier(fs, f.kickoff)) == multiset(Earlier(gs, f.kickoff))
    requires forall e :: e in fs && e.kickoff < f.kickoff ==> Lookup(stats, e.id) == Lookup(stats', e.id)
    ensures ValuesOf(StateBefore(FeaturePass(m, stats), fs, f.kickoff), f) ==
      ValuesOf(StateBefore(FeaturePass(m, stats'), gs, f.kickoff), g)
  {
    hide Folded;
    var past := Earlier(fs, f.kickoff);
    OnlyThePastMatters(FeaturePass(m, stats'), fs, gs, f.kickoff);
    EarlierHas(fs, f.kickoff);
    ChronologicalSorts(past);
    SameElements(Chronological(past), past);
    forall k, e | 0 <= k < |Batches(past)| && e in Batches(past)[k]
      ensures Lookup(stats, e.id) == Lookup(stats', e.id) {
      StateAtBatch(FeaturePass(m, stats), past, k, e);
    }
    WalkSame(m, State(map[], map[]), Batches(past), stats, stats');
  }
}
