/** Football-adapted Elo over exact reals; `pow10` stands for `x => 10^x`. */
module Elo {
  import opened Reals
  import opened Sums

  type NonZero = x: real | x != 0.0 witness 1.0

  datatype EloConfig = EloConfig(k: real, homeAdvantage: real, scale: NonZero, drawScale: real)

  const DEFAULT_RATING := 1500.0
  const STANDARD := EloConfig(20.0, 65.0, 400.0, 0.28)

  datatype Probs = Probs(home: real, draw: real, away: real)

  predicate IsDistribution(p: Probs) {
    p.home >= 0.0 && p.draw >= 0.0 && p.away >= 0.0 && p.home + p.draw + p.away == 1.0
  }

  function Abs(x: real): real { if x < 0.0 then -x else x }

  function GoalDifferenceMultiplier(diff: int): real {
    var gd := if diff < 0 then -diff else diff;
    if gd <= 1 then 1.0 else if gd == 2 then 1.5 else (11.0 + gd as real) / 8.0
  }

  function ExpectedHome(c: EloConfig, pow10: PositiveFn, home: real, away: real): (e: real)
    ensures 0.0 < e < 1.0
  {
    var diff := home + c.homeAdvantage - away;
    var p := pow10(-diff / c.scale);
    InverseBelowOne(p);
    1.0 / (1.0 + p)
  }

  lemma InverseBelowOne(p: real)
    requires p > 0.0
    ensures 0.0 < 1.0 / (1.0 + p) < 1.0
  {}

  function Score(homeGoals: int, awayGoals: int): real {
    if homeGoals > awayGoals then 1.0 else if homeGoals < awayGoals then 0.0 else 0.5
  }

  /** What the home side gains and the away side loses. */
  function Delta(c: EloConfig, pow10: PositiveFn, home: real, away: real, homeGoals: int, awayGoals: int): real {
    c.k * GoalDifferenceMultiplier(homeGoals - awayGoals) * (Score(homeGoals, awayGoals) - ExpectedHome(c, pow10,
      home, away))
  }

  function Update(c: EloConfig, pow10: PositiveFn, home: real, away: real, homeGoals: int,
                  awayGoals: int): (r: (real, real))
    ensures r.0 + r.1 == home + away
  {
    var delta := Delta(c, pow10, home, away, homeGoals, awayGoals);
    (home + delta, away - delta)
  }

  function Prob1x2(c: EloConfig, pow10: PositiveFn, home: real, away: real): Probs {
    var e := ExpectedHome(c, pow10, home, away);
    var draw := c.drawScale * (1.0 - Abs(2.0 * e - 1.0));
    Probs((1.0 - draw) * e, draw, (1.0 - draw) * (1.0 - e))
  }

  lemma DrawShare(scale: real, peak: real)
    requires 0.0 <= scale <= 1.0 && 0.0 <= peak <= 1.0
    ensures 0.0 <= scale * peak <= 1.0
  {
    NonNegative(scale, peak);
    NonNegative(scale, 1.0 - peak);
    assert scale * (1.0 - peak) == scale - scale * peak;
  }

  lemma SplitsOne(draw: real, e: real)
    requires 0.0 <= draw <= 1.0 && 0.0 < e < 1.0
    ensures (1.0 - draw) * e >= 0.0 && (1.0 - draw) * (1.0 - e) >= 0.0
    ensures (1.0 - draw) * e + draw + (1.0 - draw) * (1.0 - e) == 1.0
  {
    NonNegative(1.0 - draw, e);
    NonNegative(1.0 - draw, 1.0 - e);
    assert (1.0 - draw) * e + (1.0 - draw) * (1.0 - e) == (1.0 - draw) * (e + (1.0 - e));
  }

  /** The split of the expectation is a distribution, whatever the ratings. */
  lemma Prob1x2IsDistribution(c: EloConfig, pow10: PositiveFn, home: real, away: real)
    requires 0.0 <= c.drawScale <= 1.0
    ensures IsDistribution(Prob1x2(c, pow10, home, away))
  {
    var e := ExpectedHome(c, pow10, home, away);
    DrawShare(c.drawScale, 1.0 - Abs(2.0 * e - 1.0));
    SplitsOne(c.drawScale * (1.0 - Abs(2.0 * e - 1.0)), e);
  }

  // ---- what the probabilities say of the ratings ---------------------------------------------------

  ghost predicate Increasing(pow10: PositiveFn) {
    forall x, y :: x < y ==> pow10(x) < pow10(y)
  }

  /** What `10^x` is used for. */
  ghost predicate IsPower(pow10: PositiveFn) {
    pow10(0.0) == 1.0 && Increasing(pow10) && forall x, y :: x + y == 0.0 ==> pow10(x) * pow10(y) == 1.0
  }

  lemma Expectations(p: real)
    requires p > 0.0
    ensures (1.0 / (1.0 + p)) * p == 1.0 - 1.0 / (1.0 + p)
    ensures 1.0 - Abs(2.0 * (1.0 / (1.0 + p)) - 1.0) == (if p < 1.0 then 2.0 * p else 2.0) / (1.0 + p)
  {
    var e := 1.0 / (1.0 + p);
    assert e * (1.0 + p) == 1.0;
    assert 2.0 * e - 1.0 == (1.0 - p) / (1.0 + p);
  }

  lemma Shrinks(k: real, e: real, p: real, r: real)
    requires e * p == r
    ensures (k * e) * p == k * r
  {}

  /** The odds of a home win against an away win are the power of the lead, and the draw is `drawScale` times twice
      the smaller of the two expectations: with the sum of 1, this fixes all three. */
  lemma {:induction false} SplitByTheLead(c: EloConfig, pow10: PositiveFn, home: real, away: real)
    ensures var r := Prob1x2(c, pow10, home, away); var p := pow10(-(home + c.homeAdvantage - away) / c.scale);
      && r.home * p == r.away
      && r.draw * (1.0 + p) == c.drawScale * (if p < 1.0 then 2.0 * p else 2.0)
      && r.home + r.draw + r.away == 1.0
  {
    var diff := home + c.homeAdvantage - away;
    var p := pow10(-diff / c.scale);
    Expectations(p);
    var e := 1.0 / (1.0 + p);
    var draw := c.drawScale * (1.0 - Abs(2.0 * e - 1.0));
    Shrinks(1.0 - draw, e, p, 1.0 - e);
    Shrinks(c.drawScale, (if p < 1.0 then 2.0 * p else 2.0) / (1.0 + p), 1.0 + p, if p < 1.0 then 2.0 * p else 2.0);
    assert (1.0 - draw) * e + (1.0 - draw) * (1.0 - e) == (1.0 - draw) * (e + (1.0 - e));
  }

  lemma {:induction false} PowerOfLead(c: EloConfig, pow10: PositiveFn, d: real)
    requires IsPower(pow10) && c.scale > 0.0
    ensures pow10(-d / c.scale) < 1.0 <==> d > 0.0
    ensures pow10(-d / c.scale) == 1.0 <==> d == 0.0
    ensures pow10(d / c.scale) * pow10(-d / c.scale) == 1.0
  {
    var x := -d / c.scale;
    assert x * c.scale == -d;
    if d > 0.0 { assert x < 0.0 by { if x >= 0.0 { NonNegative(x, c.scale); } } assert pow10(x) < pow10(0.0); }
    else if d < 0.0 { assert x > 0.0 by { if -x >= 0.0 { NonNegative(-x, c.scale); } } assert pow10(0.0) < pow10(x); }
    assert -x == d / c.scale by { assert (-x) * c.scale == d; assert (d / c.scale) * c.scale == d; }
    assert pow10(x) * pow10(-x) == 1.0;
  }

  lemma LessThan(h: real, p: real)
    requires h > 0.0 && p > 0.0
    ensures h > h * p <==> p < 1.0
    ensures h == h * p <==> p == 1.0
  {
    if p < 1.0 { Positive(h, 1.0 - p); assert h * (1.0 - p) == h - h * p; }
    if p > 1.0 { Positive(h, p - 1.0); assert h * (p - 1.0) == h * p - h; }
  }

  lemma HomeCanWin(c: EloConfig, pow10: PositiveFn, home: real, away: real)
    requires 0.0 <= c.drawScale < 1.0
    ensures Prob1x2(c, pow10, home, away).home > 0.0
  {
    var e := ExpectedHome(c, pow10, home, away);
    var peak := 1.0 - Abs(2.0 * e - 1.0);
    DrawShare(c.drawScale, peak);
    assert c.drawScale * peak < 1.0 by {
      NonNegative(c.drawScale, 1.0 - peak);
      assert c.drawScale * (1.0 - peak) == c.drawScale - c.drawScale * peak;
    }
    Positive(1.0 - c.drawScale * peak, e);
  }

  /** The side that leads, home advantage included, is the likelier winner. */
  lemma {:induction false} FavouriteIsLikelier(c: EloConfig, pow10: PositiveFn, home: real, away: real)
    requires IsPower(pow10) && c.scale > 0.0 && 0.0 <= c.drawScale < 1.0
    ensures var r := Prob1x2(c, pow10, home, away);
      && (r.home > r.away <==> home + c.homeAdvantage > away)
      && (r.home == r.away <==> home + c.homeAdvantage == away)
  {
    var d := home + c.homeAdvantage - away;
    SplitByTheLead(c, pow10, home, away);
    HomeCanWin(c, pow10, home, away);
    PowerOfLead(c, pow10, d);
    hide *;
    LessThan(Prob1x2(c, pow10, home, away).home, pow10(-d / c.scale));
  }

  lemma {:induction false} DrawBelowPeak(scale: real, draw: real, p: real)
    requires scale > 0.0 && p > 0.0 && draw * (1.0 + p) == scale * (if p < 1.0 then 2.0 * p else 2.0)
    ensures draw <= scale && (draw == scale <==> p == 1.0)
  {
    var gap := if p < 1.0 then 1.0 - p else p - 1.0;
    assert (scale - draw) * (1.0 + p) == scale * gap;
    if p != 1.0 {
      Positive(scale, gap);
      if scale - draw <= 0.0 { NonNegative(draw - scale, 1.0 + p); }
    }
  }

  /** A draw is likeliest, at `drawScale`, between sides that are level, home advantage included. */
  lemma {:induction false} DrawPeaksWhenLevel(c: EloConfig, pow10: PositiveFn, home: real, away: real)
    requires IsPower(pow10) && c.scale > 0.0 && 0.0 < c.drawScale
    ensures Prob1x2(c, pow10, home, away).draw <= c.drawScale
    ensures Prob1x2(c, pow10, home, away).draw == c.drawScale <==> home + c.homeAdvantage == away
  {
    var d := home + c.homeAdvantage - away;
    SplitByTheLead(c, pow10, home, away);
    PowerOfLead(c, pow10, d);
    DrawBelowPeak(c.drawScale, Prob1x2(c, pow10, home, away).draw, pow10(-d / c.scale));
  }

  /** Both together, for the probabilities of a rating pass. */
  lemma {:induction false} OddsByTheLead(c: EloConfig, pow10: PositiveFn, home: real, away: real, r: Probs)
    requires IsPower(pow10) && c.scale > 0.0 && 0.0 < c.drawScale < 1.0 && r == Prob1x2(c, pow10, home, away)
    ensures var lead := home + c.homeAdvantage - away;
      && (r.home > r.away <==> lead > 0.0) && r.home * pow10(-lead / c.scale) == r.away
      && r.draw <= c.drawScale && (r.draw == c.drawScale <==> lead == 0.0)
  {
    SplitByTheLead(c, pow10, home, away);
    FavouriteIsLikelier(c, pow10, home, away);
    DrawPeaksWhenLevel(c, pow10, home, away);
    hide *;
  }

  /** `away` is to `home` as `p` is to 1. */
  predicate InRatio(home: real, away: real, p: real) { away == home * p }

  /** ... with the standard scale and draw share, at any home advantage. */
  lemma {:induction false} StandardOdds(advantage: real, pow10: PositiveFn, home: real, away: real, r: Probs,
                                        lead: real)
    requires IsPower(pow10) && r == Prob1x2(STANDARD.(homeAdvantage := advantage), pow10, home, away)
    requires lead == home + advantage - away
    ensures (r.home > r.away <==> lead > 0.0) && InRatio(r.home, r.away, pow10(-lead / 400.0))
    ensures r.draw <= 0.28 && (r.draw == 0.28 <==> lead == 0.0)
  {
    OddsByTheLead(STANDARD.(homeAdvantage := advantage), pow10, home, away, r);
    hide Prob1x2, IsPower;
  }

  lemma ExpectationsExchange(p: real, q: real)
    requires p > 0.0 && q > 0.0 && p * q == 1.0
    ensures 1.0 / (1.0 + p) == 1.0 - 1.0 / (1.0 + q)
  {
    assert (1.0 + p) * q == q + 1.0;
    assert (1.0 / (1.0 + p)) * (1.0 + p) == 1.0;
    Shrinks(q, 1.0 / (1.0 + p), 1.0 + p, 1.0);
    assert (1.0 / (1.0 + p)) * (1.0 + q) == q;
  }

  /** The same lead the other way round exchanges the two sides and leaves the draw. */
  lemma {:induction false} SidesExchange(c: EloConfig, pow10: PositiveFn, home: real, away: real, home': real,
                                         away': real)
    requires IsPower(pow10) && c.scale > 0.0
    requires home' + c.homeAdvantage - away' == -(home + c.homeAdvantage - away)
    ensures var r, r' := Prob1x2(c, pow10, home, away), Prob1x2(c, pow10, home', away');
      r'.home == r.away && r'.away == r.home && r'.draw == r.draw
  {
    var d := home + c.homeAdvantage - away;
    PowerOfLead(c, pow10, d);
    LeadPower(c, pow10, home, away);
    LeadPower(c, pow10, home', away');
    hide ExpectedHome;
    ExpectationsExchange(pow10(-d / c.scale), pow10(d / c.scale));
    ExpectationSplits(c, pow10, home, away, home', away');
  }

  lemma LeadPower(c: EloConfig, pow10: PositiveFn, home: real, away: real)
    ensures ExpectedHome(c, pow10, home, away) == 1.0 / (1.0 + pow10(-(home + c.homeAdvantage - away) / c.scale))
  {}

  lemma ExpectationSplits(c: EloConfig, pow10: PositiveFn, home: real, away: real, home': real, away': real)
    requires ExpectedHome(c, pow10, home', away') == 1.0 - ExpectedHome(c, pow10, home, away)
    ensures var r, r' := Prob1x2(c, pow10, home, away), Prob1x2(c, pow10, home', away');
      r'.home == r.away && r'.away == r.home && r'.draw == r.draw
  {
    hide ExpectedHome;
    var e := ExpectedHome(c, pow10, home, away);
    assert 2.0 * (1.0 - e) - 1.0 == -(2.0 * e - 1.0);
  }

  lemma Positive(x: real, y: real)
    requires x > 0.0 && y > 0.0
    ensures x * y > 0.0
  {}

  /** With a positive `k`, rating moves from the loser to the winner. */
  lemma WinnerGains(c: EloConfig, pow10: PositiveFn, home: real, away: real, homeGoals: int, awayGoals: int)
    requires c.k > 0.0 && homeGoals != awayGoals
    ensures homeGoals > awayGoals <==> Delta(c, pow10, home, away, homeGoals, awayGoals) > 0.0
    ensures homeGoals < awayGoals <==> Delta(c, pow10, home, away, homeGoals, awayGoals) < 0.0
  {
    var k := c.k * GoalDifferenceMultiplier(homeGoals - awayGoals);
    Positive(c.k, GoalDifferenceMultiplier(homeGoals - awayGoals));
    Gain(k, ExpectedHome(c, pow10, home, away));
  }

  /** A win by one goal moves `k` times what the expectation left open; by two goals half as much again; by three
      three quarters more, and each further goal an eighth. A defeat moves the same, off what was expected. */
  lemma {:induction false} MarginOfVictory(c: EloConfig, pow10: PositiveFn, home: real, away: real, loser: int,
                                           margin: nat)
    requires margin > 0
    ensures var e := ExpectedHome(c, pow10, home, away);
      var share := if margin == 1 then 1.0 else if margin == 2 then 1.5 else 1.75 + (margin - 3) as real / 8.0;
      && Delta(c, pow10, home, away, loser + margin, loser) == share * (c.k * (1.0 - e))
      && Delta(c, pow10, home, away, loser, loser + margin) == -(share * (c.k * e))
  {
    hide ExpectedHome;
    var e := ExpectedHome(c, pow10, home, away);
    var share := if margin == 1 then 1.0 else if margin == 2 then 1.5 else 1.75 + (margin - 3) as real / 8.0;
    assert GoalDifferenceMultiplier(margin) == share == GoalDifferenceMultiplier(0 - margin as int) by {
      if margin > 2 { assert (11.0 + margin as real) / 8.0 == 1.75 + (margin - 3) as real / 8.0; }
    }
    assert Delta(c, pow10, home, away, loser + margin, loser) == (c.k * share) * (1.0 - e);
    assert Delta(c, pow10, home, away, loser, loser + margin) == (c.k * share) * (0.0 - e);
    Regroup(c.k, share, 1.0 - e);
    Regroup(c.k, share, e);
    Regroup(c.k, share, 0.0 - e);
    assert c.k * (0.0 - e) == -(c.k * e);
  }

  lemma Regroup(k: real, share: real, x: real)
    ensures (k * share) * x == share * (k * x)
  {}

  /** A draw moves rating to the side that was not the favourite. */
  lemma {:induction false} DrawFavoursTheUnderdog(c: EloConfig, pow10: PositiveFn, home: real, away: real, goals: int)
    requires IsPower(pow10) && c.scale > 0.0 && c.k > 0.0
    ensures Delta(c, pow10, home, away, goals, goals) > 0.0 <==> home + c.homeAdvantage < away
    ensures Delta(c, pow10, home, away, goals, goals) == 0.0 <==> home + c.homeAdvantage == away
  {
    var d := home + c.homeAdvantage - away;
    PowerOfLead(c, pow10, d);
    LeadPower(c, pow10, home, away);
    var p := pow10(-d / c.scale);
    var e := ExpectedHome(c, pow10, home, away);
    assert e * (1.0 + p) == 1.0;
    hide ExpectedHome;
    assert Delta(c, pow10, home, away, goals, goals) == c.k * (0.5 - e);
    HalfIsLevel(e, p);
    if e < 0.5 { Positive(c.k, 0.5 - e); }
    if e > 0.5 { Positive(c.k, e - 0.5); assert c.k * (0.5 - e) == -(c.k * (e - 0.5)); }
  }

  lemma HalfIsLevel(e: real, p: real)
    requires p > 0.0 && e * (1.0 + p) == 1.0
    ensures (e < 0.5 <==> p > 1.0) && (e == 0.5 <==> p == 1.0)
  {
    assert (0.5 - e) * (1.0 + p) == (p - 1.0) / 2.0;
    if e < 0.5 { Positive(0.5 - e, 1.0 + p); }
    if e > 0.5 { Positive(e - 0.5, 1.0 + p); assert (e - 0.5) * (1.0 + p) == -((0.5 - e) * (1.0 + p)); }
  }

  lemma Gain(k: real, e: real)
    requires k > 0.0 && 0.0 < e < 1.0
    ensures k * (1.0 - e) > 0.0 && k * (0.0 - e) < 0.0
  {
    Positive(k, 1.0 - e);
    Positive(k, e);
    assert k * (0.0 - e) == -(k * e);
  }
}
