/**
 What the Dixon-Coles pass makes of a team's goals, in closed form, and the laws of the score
 matrix behind it.

 `log` and `exp` enter through what they are used for: `exp` turns sums into products and undoes
 `log`. The fitted defence grows with the goals a team has conceded, and the expected goals of
 its opponents fall with it: a team that conceded more is expected to concede less.
 */
module GoalRates {
  import opened Reals
  import opened Sums
  import opened Chronology
  import opened DixonColes
  import opened Elo
  import D = GoalRatings

  // ---- the distribution of goals ------------------------------------------------------------------

  /** The goal counts are Poisson: each is `lam / (k + 1)` times as likely as the one before. */
  lemma {:induction false} PmfSteps(exp: PositiveFn, k: nat, lam: real)
    ensures Pmf(exp, 0, lam) == exp(-lam)
    ensures Pmf(exp, k + 1, lam) * (k + 1) as real == lam * Pmf(exp, k, lam)
  {
    assert Pow(lam, 0) == 1.0 && Factorial(0) == 1;
    var e, p, f := exp(-lam), Pow(lam, k), Factorial(k) as real;
    assert Pow(lam, k + 1) == lam * p;
    assert Factorial(k + 1) as real == (k + 1) as real * f by { assert Factorial(k + 1) == (k + 1) * Factorial(k); }
    Cancels(e, p, lam, f, (k + 1) as real);
  }

  lemma Cancels(e: real, p: real, lam: real, f: real, n: real)
    requires f > 0.0 && n > 0.0
    ensures n * f > 0.0 && (e * (lam * p) / (n * f)) * n == lam * (e * p / f)
  {
    NonNegative(n, f);
    assert n * f > 0.0;
    var q := e * p / f;
    assert q * f == e * p;
    assert e * (lam * p) == lam * (e * p);
    assert lam * (e * p) == (lam * q) * f;
    Undone(lam * q, f, n);
  }

  lemma Undone(x: real, f: real, n: real)
    requires f > 0.0 && n > 0.0 && n * f > 0.0
    ensures ((x * f) / (n * f)) * n == x
  {
    var y := (x * f) / (n * f);
    assert y * (n * f) == x * f;
    assert (y * n) * f == y * (n * f);
    assert (y * n - x) * f == 0.0;
    if y * n != x { Nonzero(y * n - x, f); }
  }

  lemma Nonzero(x: real, y: real)
    requires x != 0.0 && y > 0.0
    ensures x * y != 0.0
  {}

  // ---- exchanging the sides -----------------------------------------------------------------------

  lemma {:induction false} RowIsColumn(m: Matrix, t: Matrix, i: nat, n: nat)
    requires forall p: nat, q: nat :: t(p, q) == m(q, p)
    ensures RowSum(t, i, n) == ColumnSum(m, i, n)
    decreases n
  {
    if n > 0 { RowIsColumn(m, t, i, n - 1); }
  }

  /** The first `rows` rows are the first `n` columns, cut at `rows`. */
  function Columns(m: Matrix, rows: nat, n: nat): real {
    if n == 0 then 0.0 else Columns(m, rows, n - 1) + ColumnSum(m, n - 1, rows)
  }

  lemma {:induction false} ColumnsGrow(m: Matrix, rows: nat, n: nat)
    ensures Columns(m, rows + 1, n) == Columns(m, rows, n) + RowSum(m, rows, n)
    decreases n
  {
    if n > 0 { ColumnsGrow(m, rows, n - 1); }
  }

  lemma {:induction false} NoColumns(m: Matrix, n: nat)
    ensures Columns(m, 0, n) == 0.0
    decreases n
  {
    if n > 0 { NoColumns(m, n - 1); }
  }

  lemma {:induction false} BlockIsColumns(m: Matrix, rows: nat, n: nat)
    ensures Block(m, rows, n) == Columns(m, rows, n)
    decreases rows
  {
    if rows == 0 { NoColumns(m, n); }
    else {
      BlockIsColumns(m, rows - 1, n);
      ColumnsGrow(m, rows - 1, n);
    }
  }

  lemma {:induction false} TransposedBlock(m: Matrix, t: Matrix, rows: nat, n: nat)
    requires forall p: nat, q: nat :: t(p, q) == m(q, p)
    ensures Block(t, rows, n) == Columns(m, n, rows)
    decreases rows
  {
    if rows > 0 {
      TransposedBlock(m, t, rows - 1, n);
      RowIsColumn(m, t, rows - 1, n);
    }
  }

  lemma {:induction false} TransposedMass(m: Matrix, t: Matrix, n: nat)
    requires forall p: nat, q: nat :: t(p, q) == m(q, p)
    ensures Mass(t, n) == Mass(m, n)
  {
    TransposedBlock(m, t, n, n);
    BlockIsColumns(m, n, n);
  }

  lemma {:induction false} CellsExchange(exp: PositiveFn, lam: real, mu: real, rho: real, i: nat, j: nat)
    ensures Outer(exp, mu, lam)(i, j) == Outer(exp, lam, mu)(j, i)
    ensures Corrected(exp, mu, lam, rho)(i, j) == Corrected(exp, lam, mu, rho)(j, i)
  {
    hide Pmf;
    assert Tau(i, j, mu, lam, rho) == Tau(j, i, lam, mu, rho);
  }

  /** Exchanging the two rates exchanges the sides: the matrix is transposed, the home and away probabilities change
      places, and the draw and every total keep theirs. */
  lemma {:induction false} SidesExchange(exp: PositiveFn, lam: real, mu: real, rho: real, maxGoals: nat)
    requires HasMass(exp, lam, mu, maxGoals)
    ensures HasMass(exp, mu, lam, maxGoals)
    ensures forall i: nat, j: nat ::
      Scores(exp, mu, lam, rho, maxGoals)(i, j) == Scores(exp, lam, mu, rho, maxGoals)(j, i)
    ensures var p := OneXTwoOf(Scores(exp, lam, mu, rho, maxGoals), maxGoals + 1);
      OneXTwoOf(Scores(exp, mu, lam, rho, maxGoals), maxGoals + 1) == Probs(p.away, p.draw, p.home)
  {
    var n := maxGoals + 1;
    forall i: nat, j: nat
      ensures Outer(exp, mu, lam)(i, j) == Outer(exp, lam, mu)(j, i)
      ensures Corrected(exp, mu, lam, rho)(i, j) == Corrected(exp, lam, mu, rho)(j, i)
    {
      CellsExchange(exp, lam, mu, rho, i, j);
    }
    TransposedMass(Outer(exp, lam, mu), Outer(exp, mu, lam), n);
    hide Outer, Corrected;
    ExchangedOutcomes(Scores(exp, lam, mu, rho, maxGoals), Scores(exp, mu, lam, rho, maxGoals), n);
  }

  lemma {:induction false} ExchangedOutcomes(m: Matrix, t: Matrix, n: nat)
    requires forall p: nat, q: nat :: t(p, q) == m(q, p)
    ensures var p := OneXTwoOf(m, n); OneXTwoOf(t, n) == Probs(p.away, p.draw, p.home)
  {
    hide Mass;
    TransposedMass(Where(m, (i: nat, j: nat) => 0 + i < 0 + j), Where(t, (i: nat, j: nat) => 0 + i > 0 + j), n);
    TransposedMass(Where(m, (i: nat, j: nat) => 0 + i == 0 + j), Where(t, (i: nat, j: nat) => 0 + i == 0 + j), n);
    TransposedMass(Where(m, (i: nat, j: nat) => 0 + i > 0 + j), Where(t, (i: nat, j: nat) => 0 + i < 0 + j), n);
  }

  /** A total that hits a whole line counts as under. */
  lemma {:induction false} WholeLinesFallUnder(m: Matrix, n: nat, line: int)
    ensures DixonColes.Over(m, n, line as real) == DixonColes.Over(m, n, line as real + 0.5)
    ensures Under(m, n, line as real) == Under(m, n, line as real + 0.5)
  {
    BlockSame(Where(m, (i: nat, j: nat) => (i + j) as real > line as real),
              Where(m, (i: nat, j: nat) => (i + j) as real > line as real + 0.5), n, n);
    BlockSame(Where(m, (i: nat, j: nat) => (i + j) as real <= line as real),
              Where(m, (i: nat, j: nat) => (i + j) as real <= line as real + 0.5), n, n);
  }

  // ---- the rates ----------------------------------------------------------------------------------

  /** What `exp` and `log` are used for. */
  ghost predicate AreInverse(exp: PositiveFn, log: real -> real) {
    && (forall x, y, z :: x + y == z ==> exp(z) == exp(x) * exp(y))
    && (forall x :: x > 0.0 ==> exp(log(x)) == x)
  }

  /** `a` times `b` is `c` times `d`. */
  predicate Balanced(a: real, b: real, c: real, d: real) { a * b == c * d }

  /** The time left scales a rate: as much of it remains as of the match, and after it nothing. */
  lemma LeftIsProportional(rate: real, minute: int, matchMinutes: nat)
    requires matchMinutes > 0
    ensures Left(rate, minute, matchMinutes) * matchMinutes as real ==
      if minute < matchMinutes then rate * (matchMinutes - minute) as real else 0.0
  {
    var left := (if matchMinutes - minute > 0 then matchMinutes - minute else 0) as real;
    var m := matchMinutes as real;
    assert (left / m) * m == left;
    assert (rate * (left / m)) * m == rate * ((left / m) * m);
  }

  /** The home advantage multiplies the home rate alone; a side's attack multiplies its own rate alone, and its defence
      divides the other's. */
  lemma {:induction false} RatesByStrength(exp: PositiveFn, log: real -> real, p: Params, home: Team, away: Team)
    requires AreInverse(exp, log)
    ensures var r := ExpectedGoals(exp, p, home, away);
      && Balanced(r.0, exp(StrengthOf(p.defence, away)), exp(StrengthOf(p.attack, home)), exp(p.homeAdvantage))
      && Balanced(r.1, exp(StrengthOf(p.defence, home)), exp(StrengthOf(p.attack, away)), 1.0)
  {
    hide AreInverse;
    var ah, aa := StrengthOf(p.attack, home), StrengthOf(p.attack, away);
    var dh, da := StrengthOf(p.defence, home), StrengthOf(p.defence, away);
    Splits(exp, log, ah - da + p.homeAdvantage, da, ah + p.homeAdvantage);
    Splits(exp, log, ah, p.homeAdvantage, ah + p.homeAdvantage);
    Splits(exp, log, aa - dh, dh, aa);
  }

  lemma Splits(exp: PositiveFn, log: real -> real, x: real, y: real, z: real)
    requires AreInverse(exp, log) && x + y == z
    ensures exp(z) == exp(x) * exp(y)
  {}

  function Mean(goals: int, matches: nat): (m: real)
    requires matches > 0 && goals >= 0
    ensures m >= 0.0
  {
    goals as real / matches as real
  }

  /** Goals per match, with 0.3 added; a team without matches counts as the league average. */
  function PerMatch(goals: int, matches: nat, average: real): (r: real)
    requires goals >= 0 && average > 0.0
    ensures r > 0.0
  {
    if matches == 0 then average else Mean(goals, matches) + 0.3
  }

  predicate NoNegatives(g: D.GoalStats) { g.scored >= 0 && g.conceded >= 0 }

  /** The league average: 1.35 goals before the first match, and never below 0.2. */
  lemma AverageIs(s: D.Tally)
    ensures s.samples == 0 ==> D.LeagueAverage(s) == 1.35
    ensures s.samples > 0 && 5 * s.goals > s.samples ==> D.LeagueAverage(s) * s.samples as real == s.goals as real
    ensures s.samples > 0 && 5 * s.goals <= s.samples ==> D.LeagueAverage(s) == 0.2
  {
    if s.samples > 0 { MeanFloor(s.goals as real / s.samples as real, s.goals as real, s.samples as real); }
  }

  lemma MeanFloor(mean: real, goals: real, n: real)
    requires n > 0.0 && mean == goals / n
    ensures mean * n == goals
    ensures mean > 0.2 <==> 5.0 * goals > n
  {
    assert mean * n == goals;
    if mean <= 0.2 { KeepsOrder(0.2, mean, n); } else { Grows(0.2, mean, n); }
  }

  lemma Grows(a: real, b: real, n: real)
    requires a < b && n > 0.0
    ensures a * n < b * n
  {
    Elo.Positive(b - a, n);
    assert (b - a) * n == b * n - a * n;
  }

  /** The expected goals of either side are its own goals per match against those its opponent has conceded, and for the
      home side times `exp(0.25)`. Where both have played, the league average cancels. */
  lemma {:induction false} RatesFromGoals(exp: PositiveFn, log: real -> real, s: D.Tally, params: Params, home: Team,
                                          away: Team)
    requires AreInverse(exp, log) && D.Holds(log, s, params, {home, away})
    requires NoNegatives(D.StatsOf(s.stats, home)) && NoNegatives(D.StatsOf(s.stats, away))
    ensures var r := ExpectedGoals(exp, params, home, away); var average := D.LeagueAverage(s);
      var h, a := D.StatsOf(s.stats, home), D.StatsOf(s.stats, away);
      && params.homeAdvantage == 0.25
      && Balanced(r.0, PerMatch(a.conceded, a.matches, average), PerMatch(h.scored, h.matches, average),
           exp(params.homeAdvantage))
      && Balanced(r.1, PerMatch(h.conceded, h.matches, average), PerMatch(a.scored, a.matches, average), 1.0)
  {
    hide AreInverse, PerMatch, ExpectedGoals, Balanced;
    var average := D.LeagueAverage(s);
    FittedIs(exp, log, s, params, {home, away}, home);
    FittedIs(exp, log, s, params, {home, away}, away);
    RatesByStrength(exp, log, params, home, away);
    var r := ExpectedGoals(exp, params, home, away);
    var h, a := D.StatsOf(s.stats, home), D.StatsOf(s.stats, away);
    hide *;
    AverageCancels(r.0, exp(StrengthOf(params.defence, away)), exp(StrengthOf(params.attack, home)),
      exp(params.homeAdvantage), PerMatch(a.conceded, a.matches, average), PerMatch(h.scored, h.matches, average),
      average);
    AverageCancels(r.1, exp(StrengthOf(params.defence, home)), exp(StrengthOf(params.attack, away)), 1.0,
      PerMatch(h.conceded, h.matches, average), PerMatch(a.scored, a.matches, average), average);
  }

  lemma {:induction false} FittedIs(exp: PositiveFn, log: real -> real, s: D.Tally, params: Params, teams: set<Team>,
                                    t: Team)
    requires AreInverse(exp, log) && D.Holds(log, s, params, teams) && t in teams && NoNegatives(D.StatsOf(s.stats, t))
    ensures params.homeAdvantage == 0.25
    ensures var g := D.StatsOf(s.stats, t); var average := D.LeagueAverage(s);
      && exp(StrengthOf(params.attack, t)) == PerMatch(g.scored, g.matches, average) / average
      && exp(StrengthOf(params.defence, t)) == PerMatch(g.conceded, g.matches, average) / average
  {
    hide AreInverse, D.Strength, D.LeagueAverage, PerMatch;
    var g := D.StatsOf(s.stats, t);
    StrengthIs(exp, log, g.scored, g.matches, D.LeagueAverage(s));
    StrengthIs(exp, log, g.conceded, g.matches, D.LeagueAverage(s));
  }

  lemma StrengthIs(exp: PositiveFn, log: real -> real, goals: int, matches: nat, average: real)
    requires AreInverse(exp, log) && average > 0.0 && goals >= 0
    ensures exp(D.Strength(log, goals, matches, average)) == PerMatch(goals, matches, average) / average
  {
    if matches == 0 {
      Whole(average);
      ExpOfZero(exp, log);
    } else {
      assert (Mean(goals, matches) + 0.3) / average > 0.0;
    }
  }

  lemma ExpOfZero(exp: PositiveFn, log: real -> real)
    requires AreInverse(exp, log)
    ensures exp(0.0) == 1.0
  {
    Splits(exp, log, 0.0, 0.0, 0.0);
    hide AreInverse;
    var e: real := exp(0.0);
    assert e * e == e && e > 0.0;
    assert (e - 1.0) * e == 0.0;
    if e != 1.0 { Nonzero(e - 1.0, e); }
  }

  lemma AverageCancels(r: real, defence: real, attack: real, x: real, conceded: real, scored: real, average: real)
    requires average > 0.0 && Balanced(r, defence, attack, x)
    requires defence == conceded / average && attack == scored / average
    ensures Balanced(r, conceded, scored, x)
  {
    assert defence * average == conceded && attack * average == scored;
    assert (r * defence) * average == r * (defence * average);
    assert (attack * x) * average == (attack * average) * x;
  }

  lemma LessOfMore(r: real, r': real, c: real, c': real, x: real, y: real)
    requires Balanced(r, c, x, y) && Balanced(r', c', x, y) && 0.0 < c < c' && r > 0.0
    ensures r' < r
  {
    if r' >= r { Larger(r, r', c, c'); }
  }

  lemma Larger(r: real, r': real, c: real, c': real)
    requires r' >= r > 0.0 && c' > c > 0.0
    ensures r' * c' > r * c
  {
    NonNegative(r' - r, c');
    Elo.Positive(r, c' - c);
    assert r' * c' == (r' - r) * c' + r * (c' - c) + r * c;
  }

  /** So the more a team has conceded, the fewer goals its opponent is expected to score: of two histories that differ
      in that alone, the one in which the away side has conceded more gives the home side the lower rate. */
  lemma {:induction false} ConcedingMoreLowersTheRate(exp: PositiveFn, log: real -> real, s: D.Tally, s': D.Tally,
                                                      p: Params, p': Params, home: Team, away: Team)
    requires AreInverse(exp, log) && D.Holds(log, s, p, {home, away}) && D.Holds(log, s', p', {home, away})
    requires var h, a, a' := D.StatsOf(s.stats, home), D.StatsOf(s.stats, away), D.StatsOf(s'.stats, away);
      && D.StatsOf(s'.stats, home) == h && NoNegatives(h) && NoNegatives(a) && h.matches > 0 && a.matches > 0
      && a' == a.(conceded := a'.conceded) && a.conceded < a'.conceded
    ensures ExpectedGoals(exp, p', home, away).0 < ExpectedGoals(exp, p, home, away).0
  {
    hide AreInverse, D.Holds, ExpectedGoals, Mean, Balanced;
    var h, a, a' := D.StatsOf(s.stats, home), D.StatsOf(s.stats, away), D.StatsOf(s'.stats, away);
    RatesFromGoals(exp, log, s, p, home, away);
    RatesFromGoals(exp, log, s', p', home, away);
    var r, r' := ExpectedGoals(exp, p, home, away).0, ExpectedGoals(exp, p', home, away).0;
    MoreIsMore(a.conceded, a'.conceded, a.matches);
    LessOfMore(r, r', Mean(a.conceded, a.matches) + 0.3, Mean(a'.conceded, a.matches) + 0.3,
      Mean(h.scored, h.matches) + 0.3, exp(p.homeAdvantage));
  }

  lemma MoreIsMore(x: int, y: int, n: nat)
    requires 0 <= x < y && n > 0
    ensures Mean(x, n) < Mean(y, n)
  {
    assert Mean(x, n) * n as real == x as real && Mean(y, n) * n as real == y as real;
    if Mean(x, n) >= Mean(y, n) { KeepsOrder(Mean(x, n), Mean(y, n), n as real); }
  }

  lemma KeepsOrder(a: real, b: real, n: real)
    requires a >= b && n > 0.0
    ensures a * n >= b * n
  {
    NonNegative(a - b, n);
    assert (a - b) * n == a * n - b * n;
  }

  /** So it is with the predictions of the pass: they are the 1X2 of these two rates. */
  lemma {:induction false} PassUsesTheseRates(exp: PositiveFn, log: real -> real, fs: seq<Fixture>,
                                              preds: map<FixtureId, Probs>, f: Fixture)
      returns (home: Positive, away: Positive)
    requires AreInverse(exp, log) && f in fs && Prequential(D.GoalPass(exp, log), fs, preds)
    requires var s := StateBefore(D.GoalPass(exp, log), fs, f.kickoff);
      NoNegatives(D.StatsOf(s.stats, f.home)) && NoNegatives(D.StatsOf(s.stats, f.away))
    ensures HasMass(exp, home, away, 10)
    ensures f.id in preds && preds[f.id] == OneXTwoOf(Scores(exp, home, away, -0.05, 10), 11)
    ensures var s := StateBefore(D.GoalPass(exp, log), fs, f.kickoff); var average := D.LeagueAverage(s);
      var h, a := D.StatsOf(s.stats, f.home), D.StatsOf(s.stats, f.away);
      && Balanced(home, PerMatch(a.conceded, a.matches, average), PerMatch(h.scored, h.matches, average), exp(0.25))
      && Balanced(away, PerMatch(h.conceded, h.matches, average), PerMatch(a.scored, a.matches, average), 1.0)
  {
    hide PreMatch, StateBefore, AreInverse, D.AttackOf, D.DefenceOf, Balanced, PerMatch, D.LeagueAverage;
    var s := StateBefore(D.GoalPass(exp, log), fs, f.kickoff);
    var params := Params(map t | t in {f.home, f.away} :: D.AttackOf(log, s, t),
                         map t | t in {f.home, f.away} :: D.DefenceOf(log, s, t), HOME_ADVANTAGE, RHO);
    var goals := ExpectedGoals(exp, params, f.home, f.away);
    assert D.Holds(log, s, params, {f.home, f.away});
    D.FittedPredicts(exp, log, s, params, {f.home, f.away}, f);
    RatesFromGoals(exp, log, s, params, f.home, f.away);
    home, away := goals.0, goals.1;
    MarketOf(exp, home, away);
  }

  lemma MarketOf(exp: PositiveFn, lam: Positive, mu: Positive)
    ensures HasMass(exp, lam, mu, 10) && PreMatch(exp, lam, mu, RHO) == OneXTwoOf(Scores(exp, lam, mu, -0.05, 10), 11)
  {
    RatesHaveMass(exp, lam, mu, 10);
    hide HasMass, OneXTwoOf, Scores;
  }

  // ---- the correction -----------------------------------------------------------------------------

  /** What the low-score correction moves: `rho` times the chance of 1-1 goes from each of 0-0 and 1-1 to each of 1-0
      and 0-1, and nothing else changes. With the fitted, negative `rho` the two level scores gain. */
  lemma {:induction false} CorrectionMoves(exp: PositiveFn, lam: real, mu: real, rho: real, i: nat, j: nat)
    ensures var moved := rho * Outer(exp, lam, mu)(1, 1);
      Corrected(exp, lam, mu, rho)(i, j) - Outer(exp, lam, mu)(i, j) ==
        if i > 1 || j > 1 then 0.0 else if i == j then -moved else moved
  {
    if i <= 1 && j <= 1 { LowScoreMoves(exp, lam, mu, rho, i, j); }
  }

  lemma {:induction false} LowScoreMoves(exp: PositiveFn, lam: real, mu: real, rho: real, i: nat, j: nat)
    requires i <= 1 && j <= 1
    ensures var moved := rho * Outer(exp, lam, mu)(1, 1);
      Corrected(exp, lam, mu, rho)(i, j) - Outer(exp, lam, mu)(i, j) == if i == j then -moved else moved
  {
    PmfFirst(exp, lam);
    PmfFirst(exp, mu);
    hide Pmf;
    MovesOfCells(Pmf(exp, 0, lam), Pmf(exp, 0, mu), lam, mu, rho);
  }

  lemma MovesOfCells(h: real, a: real, lam: real, mu: real, rho: real)
    ensures var p := (lam * h) * (mu * a);
      && h * a * (1.0 - lam * mu * rho) - h * a == -(rho * p)
      && h * (mu * a) * (1.0 + lam * rho) - h * (mu * a) == rho * p
      && (lam * h) * a * (1.0 + mu * rho) - (lam * h) * a == rho * p
      && p * (1.0 - rho) - p == -(rho * p)
  {
    var p := (lam * h) * (mu * a);
    Move(h * a, -(lam * mu * rho), -(rho * p));
    Move(h * (mu * a), lam * rho, rho * p);
    Move((lam * h) * a, mu * rho, rho * p);
    Move(p, -rho, -(rho * p));
  }

  lemma Move(cell: real, factor: real, moved: real)
    requires cell * factor == moved
    ensures cell * (1.0 + factor) - cell == moved
  {}
}
