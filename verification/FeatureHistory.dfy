/**
 What the running state of the feature walk and of the goal statistics amounts to: totals and
 last-fives over the strictly earlier matches, in chronological order.
 */
module FeatureHistory {
  import opened Options
  import opened Chronology
  import opened Sums
  import F = Features
  import D = GoalRatings
  import opened Elo

  type Stats = map<FixtureId, F.Shots>

  // ---- histories ----------------------------------------------------------------------------------

  /** What `each` gives for each fixture, one after the other. */
  function Collect<T>(done: seq<Fixture>, each: Fixture -> seq<T>): seq<T> {
    if done == [] then [] else Collect(done[..|done| - 1], each) + each(done[|done| - 1])
  }

  function LastFive<T>(s: seq<T>): seq<T> { if |s| > 5 then s[|s| - 5..] else s }

  /** Appending to the last five and keeping five is keeping the last five of the whole. */
  lemma {:induction false} LastFiveGrows<T>(s: seq<T>, x: T)
    ensures F.Appended(LastFive(s), x) == LastFive(s + [x])
  {}

  /** What the side that scored `a` earns against the one that scored `b`: three for a win, one for a draw. */
  function Earned(a: int, b: int): int { (if a > b then 3 else 0) + (if a == b then 1 else 0) }

  /** The points of `team`, as home and as away side. */
  function PointsIn(team: TeamId): Fixture -> seq<int> {
    (f: Fixture) =>
      (if f.home == team then [Earned(FinishedScores(f).0, FinishedScores(f).1)] else [])
      + (if f.away == team then [Earned(FinishedScores(f).1, FinishedScores(f).0)] else [])
  }

  /** The approximate xG, if the shots are known: 0.2 for each on target, 0.09 for each other one. */
  function Known(shots: Option<int>, onTarget: Option<int>): seq<real> {
    if shots.None? then []
    else
      var on := if onTarget.Some? then onTarget.value else 0;
      var off := if shots.value > on then shots.value - on else 0;
      [0.2 * on as real + 0.09 * off as real]
  }

  lemma KnownIs(shots: Option<int>, onTarget: Option<int>)
    ensures Known(shots, onTarget) ==
      if shots.Some? then [F.ApproximateXg(shots.value, F.Count(onTarget))] else []
  {}

  lemma EarnedIs(a: int, b: int)
    ensures Earned(a, b) == F.Points(a, b)
  {}

  /** The sum of a list, from the front. */
  function Added(s: seq<real>): real { if s == [] then 0.0 else s[0] + Added(s[1..]) }

  lemma {:induction false} AddedLast(s: seq<real>, x: real)
    ensures Added(s + [x]) == Added(s) + x
  {
    if s == [] { assert [] + [x] == [x] && [x][1..] == []; }
    else { AddedLast(s[1..], x); assert (s + [x])[1..] == s[1..] + [x]; }
  }

  lemma {:induction false} TotalXgIs(s: seq<real>)
    ensures F.TotalXg(s) == Added(s)
  {
    if s != [] {
      TotalXgIs(s[..|s| - 1]);
      AddedLast(s[..|s| - 1], s[|s| - 1]);
      assert s == s[..|s| - 1] + [s[|s| - 1]];
    }
  }

  function Reals(s: seq<int>): (r: seq<real>)
    ensures |r| == |s|
  {
    seq(|s|, i requires 0 <= i < |s| => s[i] as real)
  }

  lemma {:induction false} TotalIs(s: seq<int>)
    ensures F.Total(s) as real == Added(Reals(s))
  {
    if s != [] {
      var last := |s| - 1;
      TotalIs(s[..last]);
      AddedLast(Reals(s[..last]), s[last] as real);
      assert Reals(s) == Reals(s[..last]) + [s[last] as real];
    }
  }

  /** `x` is the mean of `s`. */
  predicate IsMean(x: real, s: seq<real>) { s != [] && x * |s| as real == Added(s) }

  lemma {:induction false} FormIs(points: seq<int>)
    ensures if points == [] then F.Form(points) == 0.0 else IsMean(F.Form(points), Reals(points))
  {
    TotalIs(points);
  }

  lemma {:induction false} RollingIs(xg: seq<real>, prior: real)
    ensures if xg == [] then F.Rolling(xg, prior) == prior else IsMean(F.Rolling(xg, prior), xg)
  {
    TotalXgIs(xg);
  }

  /** `days` whole days lie between two instants in microseconds. */
  predicate WholeDays(days: int, from: Instant, until: Instant) {
    days * 86_400_000_000 <= until - from < (days + 1) * 86_400_000_000
  }

  lemma RestDaysAre(last: Option<Instant>, kickoff: Instant)
    ensures if last.None? then F.RestDays(last, kickoff) == 7
            else WholeDays(F.RestDays(last, kickoff), last.value, kickoff)
  {}

  /** The approximate xG of `team`, where its shots are known. */
  function XgIn(stats: Stats, team: TeamId): Fixture -> seq<real> {
    (f: Fixture) =>
      if f.id !in stats then []
      else (if f.home == team then Known(stats[f.id].home, stats[f.id].homeOnTarget) else [])
           + (if f.away == team then Known(stats[f.id].away, stats[f.id].awayOnTarget) else [])
  }

  function KickoffIn(team: TeamId): Fixture -> seq<Instant> {
    (f: Fixture) => if f.home == team || f.away == team then [f.kickoff] else []
  }

  function Newest(s: seq<Instant>): Option<Instant> { if s == [] then None else Some(s[|s| - 1]) }

  /** The state of `team` after `done`: last-five points and xG, and the last kickoff. */
  ghost predicate Remembers(s: F.State, stats: Stats, done: seq<Fixture>, team: TeamId) {
    var x := F.TeamOf(s.teams, team);
    && x.recentPoints == LastFive(Collect(done, PointsIn(team)))
    && x.recentXg == LastFive(Collect(done, XgIn(stats, team)))
    && x.lastDate == Newest(Collect(done, KickoffIn(team)))
  }

  // ---- one fixture ----------------------------------------------------------------------------------

  lemma {:induction false} SidePoints(teams: F.Teams, side: TeamId, points: int, team: TeamId, all: seq<int>)
    requires side in teams && F.TeamOf(teams, team).recentPoints == LastFive(all)
    ensures var r := F.WithPoints(teams, side, points);
      && F.TeamOf(r, team) ==
         F.TeamOf(teams, team).(recentPoints := LastFive(all + if side == team then [points] else []))
      && r.Keys == teams.Keys
  {
    LastFiveGrows(all, points);
    assert all + [] == all;
  }

  lemma {:induction false} PointsNoted(s: F.State, f: Fixture, team: TeamId, all: seq<int>)
    requires f.home in s.teams && f.away in s.teams && F.TeamOf(s.teams, team).recentPoints == LastFive(all)
    ensures var r := F.WithBothPoints(s, f);
      && F.TeamOf(r.teams, team) == F.TeamOf(s.teams, team).(recentPoints := LastFive(all + PointsIn(team)(f)))
      && r.leagueXg == s.leagueXg && r.teams.Keys == s.teams.Keys
  {
    hide F.WithPoints;
    var (h, a) := FinishedScores(f);
    var home := if f.home == team then [F.Points(h, a)] else [];
    EarnedIs(h, a);
    EarnedIs(a, h);
    SidePoints(s.teams, f.home, F.Points(h, a), team, all);
    SidePoints(F.WithPoints(s.teams, f.home, F.Points(h, a)), f.away, F.Points(a, h), team, all + home);
    assert all + PointsIn(team)(f) == (all + home) + (if f.away == team then [F.Points(a, h)] else []);
  }

  lemma {:induction false} SideShots(s: F.State, side: TeamId, league: LeagueId, shots: Option<int>,
                                     onTarget: Option<int>, team: TeamId, all: seq<real>)
    requires side in s.teams && F.TeamOf(s.teams, team).recentXg == LastFive(all)
    ensures var r := F.WithShots(s, side, league, shots, onTarget);
      && F.TeamOf(r.teams, team) ==
         F.TeamOf(s.teams, team).(recentXg := LastFive(all + if side == team then Known(shots, onTarget) else []))
      && r.teams.Keys == s.teams.Keys
  {
    KnownIs(shots, onTarget);
    if shots.Some? { LastFiveGrows(all, F.ApproximateXg(shots.value, F.Count(onTarget))); }
    assert all + [] == all;
  }

  lemma {:induction false} ShotsNoted(s: F.State, f: Fixture, stats: Stats, team: TeamId, all: seq<real>)
    requires f.home in s.teams && f.away in s.teams && F.TeamOf(s.teams, team).recentXg == LastFive(all)
    ensures var r := F.WithBothShots(s, f, Lookup(stats, f.id));
      && F.TeamOf(r.teams, team) == F.TeamOf(s.teams, team).(recentXg := LastFive(all + XgIn(stats, team)(f)))
      && r.teams.Keys == s.teams.Keys
  {
    hide F.WithShots;
    if f.id in stats {
      var x := stats[f.id];
      var home := if f.home == team then Known(x.home, x.homeOnTarget) else [];
      SideShots(s, f.home, f.league, x.home, x.homeOnTarget, team, all);
      SideShots(F.WithShots(s, f.home, f.league, x.home, x.homeOnTarget), f.away, f.league, x.away, x.awayOnTarget,
        team, all + home);
      assert all + XgIn(stats, team)(f) == all + home + if f.away == team then Known(x.away, x.awayOnTarget) else [];
    } else {
      assert all + [] == all;
    }
  }

  lemma {:induction false} NotedRemembers(s: F.State, f: Fixture, stats: Stats, done: seq<Fixture>, team: TeamId)
    requires f.home in s.teams && f.away in s.teams && Remembers(s, stats, done, team)
    ensures Remembers(F.Noted(s, f, Lookup(stats, f.id)), stats, done + [f], team)
  {
    hide F.WithBothPoints, F.WithBothShots;
    var points := F.WithBothPoints(s, f);
    PointsNoted(s, f, team, Collect(done, PointsIn(team)));
    ShotsNoted(points, f, stats, team, Collect(done, XgIn(stats, team)));
    assert (done + [f])[..|done|] == done;
  }

  /** The known xG of both sides, in matches of `league`. */
  function LeagueXgIn(stats: Stats, league: LeagueId): Fixture -> seq<real> {
    (f: Fixture) =>
      if f.id !in stats || f.league != league then []
      else Known(stats[f.id].home, stats[f.id].homeOnTarget) + Known(stats[f.id].away, stats[f.id].awayOnTarget)
  }

  function LeagueOf(x: F.LeagueXg, league: LeagueId): (real, nat) { if league in x then x[league] else (0.0, 0) }

  /** The running sum and count of `league` are those of `all`. */
  ghost predicate RunningMean(x: F.LeagueXg, league: LeagueId, all: seq<real>) {
    LeagueOf(x, league) == (F.TotalXg(all), |all|)
  }

  lemma {:induction false} AddMean(x: F.LeagueXg, league: LeagueId, xg: real, l: LeagueId, all: seq<real>)
    requires RunningMean(x, l, all)
    ensures RunningMean(F.AddXg(x, league, xg), l, all + if league == l then [xg] else [])
  {
    assert all + [] == all;
    assert (all + [xg])[..|all|] == all;
  }

  lemma {:induction false} SideMean(s: F.State, side: TeamId, league: LeagueId, shots: Option<int>,
                                    onTarget: Option<int>, l: LeagueId, all: seq<real>)
    requires side in s.teams && RunningMean(s.leagueXg, l, all)
    ensures RunningMean(F.WithShots(s, side, league, shots, onTarget).leagueXg, l, all + if league == l
      then Known(shots, onTarget) else [])
    ensures F.WithShots(s, side, league, shots, onTarget).teams.Keys == s.teams.Keys
  {
    KnownIs(shots, onTarget);
    hide F.ApproximateXg, RunningMean, F.AddXg, Known;
    assert all + [] == all;
    if shots.Some? { AddMean(s.leagueXg, league, F.ApproximateXg(shots.value, F.Count(onTarget)), l, all); }
  }

  lemma {:induction false} BothMean(s: F.State, f: Fixture, stats: Stats, l: LeagueId, all: seq<real>)
    requires f.home in s.teams && f.away in s.teams && RunningMean(s.leagueXg, l, all)
    ensures RunningMean(F.WithBothShots(s, f, Lookup(stats, f.id)).leagueXg, l, all + LeagueXgIn(stats, l)(f))
  {
    hide F.WithShots, RunningMean;
    if f.id in stats {
      var x := stats[f.id];
      var home := if f.league == l then Known(x.home, x.homeOnTarget) else [];
      SideMean(s, f.home, f.league, x.home, x.homeOnTarget, l, all);
      SideMean(F.WithShots(s, f.home, f.league, x.home, x.homeOnTarget), f.away, f.league, x.away, x.awayOnTarget, l,
        all + home);
      assert all + LeagueXgIn(stats, l)(f) == all + home + if f.league == l then Known(x.away, x.awayOnTarget) else [];
    } else {
      assert all + [] == all;
    }
  }

  lemma {:induction false} LeagueNoted(s: F.State, f: Fixture, stats: Stats, done: seq<Fixture>, l: LeagueId)
    requires f.home in s.teams && f.away in s.teams && RunningMean(s.leagueXg, l, Collect(done, LeagueXgIn(stats, l)))
    ensures RunningMean(F.Noted(s, f, Lookup(stats, f.id)).leagueXg, l, Collect(done + [f], LeagueXgIn(stats, l)))
  {
    hide F.WithBothShots, RunningMean, LeagueXgIn;
    assert (done + [f])[..|done|] == done;
    BothMean(F.WithBothPoints(s, f), f, stats, l, Collect(done, LeagueXgIn(stats, l)));
  }

  lemma {:induction false} BatchMean(s: F.State, batch: seq<Fixture>, stats: Stats, done: seq<Fixture>, l: LeagueId)
    requires (forall f :: f in batch ==> f.home in s.teams && f.away in s.teams)
      && RunningMean(s.leagueXg, l, Collect(done, LeagueXgIn(stats, l)))
    ensures RunningMean(F.NotedAll(s, batch, stats).leagueXg, l, Collect(done + batch, LeagueXgIn(stats, l)))
  {
    hide F.Noted, RunningMean, Collect;
    if batch == [] {
      assert done + batch == done;
    } else {
      var last := |batch| - 1;
      assert batch[last] in batch;
      BatchMean(s, batch[..last], stats, done, l);
      LeagueNoted(F.NotedAll(s, batch[..last], stats), batch[last], stats, done + batch[..last], l);
      assert done + batch[..last] + [batch[last]] == done + batch;
    }
  }

  lemma {:induction false} FoldedMean(m: F.Models, s: F.State, batch: seq<Fixture>, stats: Stats, done: seq<Fixture>,
                                      l: LeagueId)
    requires RunningMean(s.leagueXg, l, Collect(done, LeagueXgIn(stats, l)))
    ensures RunningMean(F.Folded(m, s, batch, stats).leagueXg, l, Collect(done + batch, LeagueXgIn(stats, l)))
  {
    hide F.NotedAll, RunningMean, Collect;
    F.TouchedHas(s.teams, batch);
    BatchMean(s.(teams := F.TouchedAll(s.teams, batch)), batch, stats, done, l);
  }

  lemma {:induction false} WalkMean(m: F.Models, stats: Stats, s: F.State, batches: seq<seq<Fixture>>,
                                    done: seq<Fixture>, l: LeagueId)
    requires RunningMean(s.leagueXg, l, Collect(done, LeagueXgIn(stats, l)))
    ensures RunningMean(FoldAll(F.FeaturePass(m, stats), s, batches).leagueXg, l,
      Collect(done + Flat(batches), LeagueXgIn(stats, l)))
    decreases |batches|
  {
    hide F.Folded, RunningMean, Flat, Collect;
    if batches == [] {
      FlatNone();
      assert done + Flat(batches) == done;
    } else {
      FoldedMean(m, s, batches[0], stats, done, l);
      WalkMean(m, stats, F.Folded(m, s, batches[0], stats), batches[1..], done + batches[0], l);
      FlatFront(batches[0], batches[1..]);
      assert [batches[0]] + batches[1..] == batches;
      assert done + batches[0] + Flat(batches[1..]) == done + (batches[0] + Flat(batches[1..]));
    }
  }

  /** The prior of a league is the mean of the known xG of its strictly earlier matches, or else 1.35. */
  lemma {:induction false} PriorIsTheLeagueMean(m: F.Models, stats: Stats, fs: seq<Fixture>, t: Instant, l: LeagueId)
    ensures var prior := F.LeaguePrior(StateBefore(F.FeaturePass(m, stats), fs, t).leagueXg, l);
      var known := Collect(Chronological(Earlier(fs, t)), LeagueXgIn(stats, l));
      if known == [] then prior == 1.35 else IsMean(prior, known)
  {
    hide F.Folded, IsMean;
    var past := Earlier(fs, t);
    assert RunningMean(map[], l, Collect([], LeagueXgIn(stats, l)));
    WalkMean(m, stats, F.State(map[], map[]), Batches(past), [], l);
    FlatGroup(Chronological(past));
    assert [] + Chronological(past) == Chronological(past);
    RollingIs(Collect(Chronological(past), LeagueXgIn(stats, l)), 1.35);
  }

  // ---- all of them ----------------------------------------------------------------------------------

  lemma {:induction false} BatchRemembers(s: F.State, batch: seq<Fixture>, stats: Stats, done: seq<Fixture>,
                                          team: TeamId)
    requires (forall f :: f in batch ==> f.home in s.teams && f.away in s.teams) && Remembers(s, stats, done, team)
    ensures Remembers(F.NotedAll(s, batch, stats), stats, done + batch, team)
  {
    hide F.Noted, Remembers;
    if batch == [] {
      assert done + batch == done;
    } else {
      var last := |batch| - 1;
      assert batch[last] in batch;
      BatchRemembers(s, batch[..last], stats, done, team);
      NotedRemembers(F.NotedAll(s, batch[..last], stats), batch[last], stats, done + batch[..last], team);
      assert done + batch[..last] + [batch[last]] == done + batch;
    }
  }

  lemma {:induction false} FoldedRemembers(m: F.Models, s: F.State, batch: seq<Fixture>, stats: Stats,
                                           done: seq<Fixture>, team: TeamId)
    requires Remembers(s, stats, done, team)
    ensures Remembers(F.Folded(m, s, batch, stats), stats, done + batch, team)
  {
    hide F.NotedAll;
    F.TouchedHas(s.teams, batch);
    var touched := s.(teams := F.TouchedAll(s.teams, batch));
    BatchRemembers(touched, batch, stats, done, team);
    AdvancedRemembers(m, touched, batch, stats, done + batch, team);
  }

  lemma {:induction false} AdvancedRemembers(m: F.Models, s: F.State, batch: seq<Fixture>, stats: Stats,
                                             done: seq<Fixture>, team: TeamId)
    requires (forall f :: f in batch ==> f.home in s.teams && f.away in s.teams)
      && Remembers(F.NotedAll(s, batch, stats), stats, done, team)
    ensures Remembers(F.Advanced(m, s, batch, stats), stats, done, team)
  {
    hide F.NotedAll, F.EloOf, F.GlickoOf;
  }

  lemma {:induction false} WalkRemembers(m: F.Models, stats: Stats, s: F.State, batches: seq<seq<Fixture>>,
                                         done: seq<Fixture>, team: TeamId)
    requires Remembers(s, stats, done, team)
    ensures Remembers(FoldAll(F.FeaturePass(m, stats), s, batches), stats, done + Flat(batches), team)
    decreases |batches|
  {
    hide F.Folded, Remembers, Flat;
    if batches == [] {
      FlatNone();
      assert done + Flat(batches) == done;
    } else {
      FoldedRemembers(m, s, batches[0], stats, done, team);
      WalkRemembers(m, stats, F.Folded(m, s, batches[0], stats), batches[1..], done + batches[0], team);
      FlatFront(batches[0], batches[1..]);
      assert [batches[0]] + batches[1..] == batches;
      assert done + batches[0] + Flat(batches[1..]) == done + (batches[0] + Flat(batches[1..]));
    }
  }

  /** What a row says of `team`, against its strictly earlier matches in chronological order: form is the mean of the
      last five results, rolling xG that of the last five known values or else the prior, and rest the whole days since
      the last kickoff; without any match, 0 and 7. */
  ghost predicate ReadsThePast(form: real, rest: int, xg: real, past: seq<Fixture>, stats: Stats, team: TeamId,
                               kickoff: Instant, prior: real)
  {
    var points, known := LastFive(Collect(past, PointsIn(team))), LastFive(Collect(past, XgIn(stats, team)));
    var last := Newest(Collect(past, KickoffIn(team)));
    && (if points == [] then form == 0.0 else IsMean(form, Reals(points)))
    && (if known == [] then xg == prior else IsMean(xg, known))
    && (if last.None? then rest == 7 else WholeDays(rest, last.value, kickoff))
  }

  lemma {:induction false} ReadOff(s: F.State, past: seq<Fixture>, stats: Stats, team: TeamId, kickoff: Instant,
                                   prior: real)
    requires Remembers(s, stats, past, team)
    ensures var x := F.TeamOf(s.teams, team);
      ReadsThePast(F.Form(x.recentPoints), F.RestDays(x.lastDate, kickoff), F.Rolling(x.recentXg, prior), past, stats,
        team, kickoff, prior)
  {
    hide F.Form, F.Rolling, F.RestDays, IsMean, WholeDays, Collect;
    var x := F.TeamOf(s.teams, team);
    FormIs(x.recentPoints);
    RollingIs(x.recentXg, prior);
    RestDaysAre(x.lastDate, kickoff);
  }

  lemma {:induction false} RowsRememberTheRecentPast(m: F.Models, stats: Stats, fs: seq<Fixture>, f: Fixture)
    ensures var past := Chronological(Earlier(fs, f.kickoff));
      var s := StateBefore(F.FeaturePass(m, stats), fs, f.kickoff);
      var v := F.ValuesOf(s, f); var prior := F.LeaguePrior(s.leagueXg, f.league);
      && ReadsThePast(v.formHome, v.restDaysHome, v.rollingXgHome, past, stats, f.home, f.kickoff, prior)
      && ReadsThePast(v.formAway, v.restDaysAway, v.rollingXgAway, past, stats, f.away, f.kickoff, prior)
  {
    hide F.Form, F.Rolling, F.RestDays, F.LeaguePrior, F.Folded, Collect, ReadsThePast;
    var s := StateBefore(F.FeaturePass(m, stats), fs, f.kickoff);
    var past := Chronological(Earlier(fs, f.kickoff));
    Remembered(m, stats, fs, f.kickoff, f.home);
    Remembered(m, stats, fs, f.kickoff, f.away);
    ReadOff(s, past, stats, f.home, f.kickoff, F.LeaguePrior(s.leagueXg, f.league));
    ReadOff(s, past, stats, f.away, f.kickoff, F.LeaguePrior(s.leagueXg, f.league));
  }

  lemma {:induction false} Remembered(m: F.Models, stats: Stats, fs: seq<Fixture>, t: Instant, team: TeamId)
    ensures Remembers(StateBefore(F.FeaturePass(m, stats), fs, t), stats, Chronological(Earlier(fs, t)), team)
  {
    hide F.Folded, Collect, Remembers;
    var past := Earlier(fs, t);
    StartRemembers(stats, team);
    WalkRemembers(m, stats, F.State(map[], map[]), Batches(past), [], team);
    FlatGroup(Chronological(past));
    assert [] + Chronological(past) == Chronological(past);
  }

  lemma StartRemembers(stats: Stats, team: TeamId)
    ensures Remembers(F.State(map[], map[]), stats, [], team)
  {}

  // ---- goals ----------------------------------------------------------------------------------------

  function SumOf(done: seq<Fixture>, each: Fixture -> int): int {
    if done == [] then 0 else SumOf(done[..|done| - 1], each) + each(done[|done| - 1])
  }

  function ScoredBy(team: TeamId): Fixture -> int {
    (f: Fixture) => (if f.home == team then FinishedScores(f).0 else 0) + (if f.away == team then FinishedScores(f).1
      else 0)
  }

  function ConcededBy(team: TeamId): Fixture -> int {
    (f: Fixture) => (if f.home == team then FinishedScores(f).1 else 0) + (if f.away == team then FinishedScores(f).0
      else 0)
  }

  function PlayedBy(team: TeamId): Fixture -> int {
    (f: Fixture) => (if f.home == team then 1 else 0) + (if f.away == team then 1 else 0)
  }

  function GoalsIn(): Fixture -> int { (f: Fixture) => FinishedScores(f).0 + FinishedScores(f).1 }

  /** The statistics of `team` are totals over `done`. */
  ghost predicate TeamTotals(s: map<TeamId, D.GoalStats>, done: seq<Fixture>, team: TeamId) {
    var g := D.StatsOf(s, team);
    && g.scored == SumOf(done, ScoredBy(team)) && g.conceded == SumOf(done, ConcededBy(team))
       && g.matches == SumOf(done, PlayedBy(team))
  }

  ghost predicate Totals(s: D.Tally, done: seq<Fixture>) {
    && (forall team :: TeamTotals(s.stats, done, team))
    && s.goals == SumOf(done, GoalsIn()) && s.samples == 2 * |done|
  }

  lemma {:induction false} CountedTeam(s: D.Tally, f: Fixture, done: seq<Fixture>, team: TeamId)
    requires TeamTotals(s.stats, done, team)
    ensures TeamTotals(D.Counted(s, f).stats, done + [f], team)
  {
    assert (done + [f])[..|done|] == done;
  }

  lemma {:induction false} CountedTotals(s: D.Tally, f: Fixture, done: seq<Fixture>)
    requires Totals(s, done)
    ensures Totals(D.Counted(s, f), done + [f])
  {
    hide TeamTotals;
    assert (done + [f])[..|done|] == done;
    forall team ensures TeamTotals(D.Counted(s, f).stats, done + [f], team) { CountedTeam(s, f, done, team); }
  }

  lemma {:induction false} BatchTotals(s: D.Tally, batch: seq<Fixture>, done: seq<Fixture>)
    requires Totals(s, done)
    ensures Totals(D.CountedAll(s, batch), done + batch)
  {
    hide Totals, D.Counted;
    if batch == [] {
      assert done + batch == done;
    } else {
      var last := |batch| - 1;
      BatchTotals(s, batch[..last], done);
      CountedTotals(D.CountedAll(s, batch[..last]), batch[last], done + batch[..last]);
      assert done + batch[..last] + [batch[last]] == done + batch;
    }
  }

  lemma {:induction false} WalkTotals(exp: PositiveFn, log: real -> real, s: D.Tally, batches: seq<seq<Fixture>>,
                                      done: seq<Fixture>)
    requires Totals(s, done)
    ensures Totals(FoldAll(D.GoalPass(exp, log), s, batches), done + Flat(batches))
    decreases |batches|
  {
    hide Totals, Flat, D.CountedAll, D.Predicted;
    if batches == [] {
      FlatNone();
      assert done + Flat(batches) == done;
    } else {
      BatchTotals(s, batches[0], done);
      WalkTotals(exp, log, D.CountedAll(s, batches[0]), batches[1..], done + batches[0]);
      FlatFront(batches[0], batches[1..]);
      assert [batches[0]] + batches[1..] == batches;
      assert done + batches[0] + Flat(batches[1..]) == done + (batches[0] + Flat(batches[1..]));
    }
  }

  /** The Dixon-Coles strengths before a kickoff come from the goal totals of the strictly earlier matches. */
  lemma {:induction false} StrengthsComeFromEarlierTotals(exp: PositiveFn, log: real -> real, fs: seq<Fixture>,
                                                          t: Instant)
    ensures Totals(StateBefore(D.GoalPass(exp, log), fs, t), Chronological(Earlier(fs, t)))
  {
    hide D.CountedAll, D.Predicted;
    var past := Earlier(fs, t);
    assert Totals(D.Tally(map[], 0, 0), []);
    WalkTotals(exp, log, D.Tally(map[], 0, 0), Batches(past), []);
    FlatGroup(Chronological(past));
    assert [] + Chronological(past) == Chronological(past);
  }
}
