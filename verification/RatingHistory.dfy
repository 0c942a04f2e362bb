/**
 The rating passes against the matches behind them: what a result moves, where teams start, and
 which results a rating period hands to the Glicko-2 update.
 */
module RatingHistory {
  import opened Chronology
  import opened Elo
  import opened Sums
  import E = EloRatings
  import G = GlickoRatings
  import H = FeatureHistory

  // ---- what a result moves ------------------------------------------------------------------------

  /** With the standard configuration: a one-goal win moves 20 points times what the expectation left open, a draw what
      it is off one half, and a wider win in proportion. */
  lemma {:induction false} StandardGain(pow10: PositiveFn, r: E.Ratings, f: Fixture)
    ensures var e := ExpectedHome(STANDARD, pow10, E.RatingOf(r, f.home), E.RatingOf(r, f.away));
      var (home, away) := FinishedScores(f); var gain := E.Gain(STANDARD, pow10, r)(f);
      && (home == away ==> gain == 20.0 * (0.5 - e))
      && (home == away + 1 ==> gain == 20.0 * (1.0 - e))
      && (home == away + 2 ==> gain == 1.5 * (20.0 * (1.0 - e)))
      && (away == home + 1 ==> gain == -(20.0 * e))
  {
    var (home, away) := FinishedScores(f);
    var rh, ra := E.RatingOf(r, f.home), E.RatingOf(r, f.away);
    if home > away && home - away <= 2 { MarginOfVictory(STANDARD, pow10, rh, ra, away, home - away); }
    if away == home + 1 { MarginOfVictory(STANDARD, pow10, rh, ra, home, 1); }
    hide ExpectedHome;
  }

  /** After a batch, a rating is the one before it, plus what the team's home matches gave it, minus what its away
      matches moved to their home sides - all from the ratings before the batch. */
  lemma {:induction false} RatingAfterBatch(c: EloConfig, pow10: PositiveFn, r: E.Ratings, batch: seq<Fixture>,
                                            t: TeamId)
    ensures E.RatingOf(E.Folded(c, pow10, r, batch), t) == E.RatingOf(r, t) + SumSeq(batch, Won(c, pow10, r, t))
  {
    var gain := E.Gain(c, pow10, r);
    E.ShiftsAreShares(gain, batch, t);
    E.ShiftsKeys(gain, batch);
    SameSum(batch, E.ShareFn(gain, t), Won(c, pow10, r, t));
    hide E.Shifts, E.Gain;
  }

  /** What team `t` wins in a match. */
  function Won(c: EloConfig, pow10: PositiveFn, r: E.Ratings, t: TeamId): Fixture -> real {
    (f: Fixture) =>
      var moved := E.Gain(c, pow10, r)(f);
      (if f.home == t then moved else 0.0) + (if f.away == t then -moved else 0.0)
  }

  lemma {:induction false} SameSum(batch: seq<Fixture>, a: Fixture -> real, b: Fixture -> real)
    requires forall f :: a(f) == b(f)
    ensures SumSeq(batch, a) == SumSeq(batch, b)
  {
    if batch != [] { SameSum(batch[..|batch| - 1], a, b); }
  }

  /** After a single match the winner's rating is higher than before and the loser's lower, by as much. */
  lemma {:induction false} WinnersRise(c: EloConfig, pow10: PositiveFn, r: E.Ratings, f: Fixture)
    requires c.k > 0.0 && f.home != f.away
    ensures var (home, away) := FinishedScores(f); var r' := E.Folded(c, pow10, r, [f]);
      && (home > away ==> E.RatingOf(r', f.home) > E.RatingOf(r, f.home))
      && (home < away ==> E.RatingOf(r', f.home) < E.RatingOf(r, f.home))
      && E.RatingOf(r', f.home) + E.RatingOf(r', f.away) == E.RatingOf(r, f.home) + E.RatingOf(r, f.away)
  {
    var (home, away) := FinishedScores(f);
    RatingAfterBatch(c, pow10, r, [f], f.home);
    RatingAfterBatch(c, pow10, r, [f], f.away);
    OneTerm(f, Won(c, pow10, r, f.home));
    OneTerm(f, Won(c, pow10, r, f.away));
    if home != away { WinnerGains(c, pow10, E.RatingOf(r, f.home), E.RatingOf(r, f.away), home, away); }
    hide E.Folded, Delta;
  }

  lemma OneTerm(f: Fixture, each: Fixture -> real)
    ensures SumSeq([f], each) == each(f)
  {
    assert [f][..0] == [];
    assert SumSeq([f][..0], each) == 0.0;
  }

  // ---- where teams start --------------------------------------------------------------------------

  predicate Plays(f: Fixture, t: TeamId) { f.home == t || f.away == t }

  lemma {:induction false} OnlyPlayersAreRated(c: EloConfig, pow10: PositiveFn, r: E.Ratings, batch: seq<Fixture>,
                                               t: TeamId)
    requires forall f :: f in batch ==> !Plays(f, t)
    ensures E.RatingOf(E.Folded(c, pow10, r, batch), t) == E.RatingOf(r, t)
  {
    E.ShiftsKeys(E.Gain(c, pow10, r), batch);
    hide E.Shifts, E.Gain;
    assert t !in TeamsIn(batch);
  }

  lemma {:induction false} UntouchedByElo(c: EloConfig, pow10: PositiveFn, r: E.Ratings, batches: seq<seq<Fixture>>,
                                          t: TeamId)
    requires forall k, f :: 0 <= k < |batches| && f in batches[k] ==> !Plays(f, t)
    ensures E.RatingOf(FoldAll(E.EloPass(c, pow10), r, batches), t) == E.RatingOf(r, t)
    decreases |batches|
  {
    hide E.Folded;
    if batches != [] {
      assert forall f :: f in batches[0] ==> !Plays(f, t);
      OnlyPlayersAreRated(c, pow10, r, batches[0], t);
      UntouchedByElo(c, pow10, E.Folded(c, pow10, r, batches[0]), batches[1..], t);
    }
  }

  lemma {:induction false} OnlyPlayersHaveResults(p: G.Players, batch: seq<Fixture>, t: TeamId)
    requires forall f :: f in batch ==> !Plays(f, t)
    ensures t !in G.BatchResults(p, batch)
  {
    if batch != [] {
      var last := |batch| - 1;
      assert batch[last] in batch;
      OnlyPlayersHaveResults(p, batch[..last], t);
    }
  }

  lemma {:induction false} UntouchedByGlicko(update: G.UpdateFn, pow10: PositiveFn, p: G.Players,
                                             batches: seq<seq<Fixture>>, t: TeamId)
    requires forall k, f :: 0 <= k < |batches| && f in batches[k] ==> !Plays(f, t)
    ensures G.PlayerOf(FoldAll(G.GlickoPass(update, pow10), p, batches), t) == G.PlayerOf(p, t)
    decreases |batches|
  {
    if batches != [] {
      assert forall f :: f in batches[0] ==> !Plays(f, t);
      OnlyPlayersHaveResults(p, batches[0], t);
      hide G.BatchResults;
      UntouchedByGlicko(update, pow10, G.Period(update, p, batches[0]), batches[1..], t);
    }
  }

  lemma {:induction false} EarlierBatches(fs: seq<Fixture>, t: Instant, k: nat, f: Fixture)
    requires k < |Batches(Earlier(fs, t))| && f in Batches(Earlier(fs, t))[k]
    ensures f in fs && f.kickoff < t
  {
    var past := Earlier(fs, t);
    ChronologicalSorts(past);
    GroupEarlier(Chronological(past), k);
    SameElements(Chronological(past), past);
    EarlierHas(fs, t);
  }

  /** A team without an earlier match enters at 1500, and for Glicko-2 with deviation 350 and volatility 0.06. */
  lemma {:induction false} NewTeamsStartLevel(update: G.UpdateFn, pow10: PositiveFn, fs: seq<Fixture>, t: Instant,
                                              team: TeamId)
    requires forall f :: f in fs && f.kickoff < t ==> f.home != team && f.away != team
    ensures E.RatingOf(StateBefore(E.EloPass(STANDARD, pow10), fs, t), team) == 1500.0
    ensures G.PlayerOf(StateBefore(G.GlickoPass(update, pow10), fs, t), team) == G.Player(1500.0, 350.0, 0.06)
  {
    var batches := Batches(Earlier(fs, t));
    forall k, f | 0 <= k < |batches| && f in batches[k] ensures !Plays(f, team) { EarlierBatches(fs, t, k, f); }
    UntouchedByElo(STANDARD, pow10, map[], batches, team);
    UntouchedByGlicko(update, pow10, map[], batches, team);
  }

  // ---- a rating period ----------------------------------------------------------------------------

  /** What a match of `t` says: the opponent as it was before the period, and 1 for a win, 0.5 for a draw. */
  function ResultIn(p: G.Players, t: TeamId): Fixture -> seq<G.MatchResult> {
    (f: Fixture) =>
      var (home, away) := FinishedScores(f);
      (if f.home == t then [Against(G.PlayerOf(p, f.away), home, away)] else [])
      + (if f.away == t then [Against(G.PlayerOf(p, f.home), away, home)] else [])
  }

  function Against(opponent: G.Player, scored: int, conceded: int): G.MatchResult {
    G.MatchResult(opponent.rating, opponent.rd,
                  (if scored > conceded then 1.0 else 0.0) + (if scored == conceded then 0.5 else 0.0))
  }

  /** The update of a team gets one result for each of its matches in the period, in their order. */
  lemma {:induction false} PeriodResults(p: G.Players, batch: seq<Fixture>, t: TeamId)
    ensures G.ResultsOf(G.BatchResults(p, batch), t) == H.Collect(batch, ResultIn(p, t))
    ensures t in G.BatchResults(p, batch) <==> exists f :: f in batch && Plays(f, t)
  {
    if batch != [] {
      var last := |batch| - 1;
      var f, rest := batch[last], G.BatchResults(p, batch[..last]);
      PeriodResults(p, batch[..last], t);
      assert f in batch && forall g :: g in batch <==> g in batch[..last] || g == f;
      BothSidesListed(p, rest, f, t);
      hide G.ListedBoth, ResultIn;
    }
  }

  lemma {:induction false} BothSidesListed(p: G.Players, r: G.Results, f: Fixture, t: TeamId)
    ensures G.ResultsOf(G.ListedBoth(p, r, f), t) == G.ResultsOf(r, t) + ResultIn(p, t)(f)
    ensures t in G.ListedBoth(p, r, f) <==> t in r || Plays(f, t)
  {
    AgainstIs(p, f);
    hide G.HomeResult, G.AwayResult, Against, FinishedScores, G.PlayerOf;
    var once := G.Listed(r, f.home, G.HomeResult(p, f));
    OneListed(r, f.home, G.HomeResult(p, f), t);
    OneListed(once, f.away, G.AwayResult(p, f), t);
  }

  lemma AgainstIs(p: G.Players, f: Fixture)
    ensures var (home, away) := FinishedScores(f);
      && G.HomeResult(p, f) == Against(G.PlayerOf(p, f.away), home, away)
      && G.AwayResult(p, f) == Against(G.PlayerOf(p, f.home), away, home)
  {}

  lemma OneListed(r: G.Results, side: TeamId, m: G.MatchResult, t: TeamId)
    ensures G.ResultsOf(G.Listed(r, side, m), t) == G.ResultsOf(r, t) + if side == t then [m] else []
    ensures t in G.Listed(r, side, m) <==> t in r || side == t
  {}

  /** So after a period a team that played is its update by exactly these results, and any other is as before. */
  lemma {:induction false} PeriodUpdates(update: G.UpdateFn, p: G.Players, batch: seq<Fixture>, t: TeamId)
    ensures G.PlayerOf(G.Period(update, p, batch), t) ==
      if exists f :: f in batch && (f.home == t || f.away == t)
      then update(G.PlayerOf(p, t), H.Collect(batch, ResultIn(p, t))) else G.PlayerOf(p, t)
  {
    PeriodResults(p, batch, t);
    assert (exists f :: f in batch && Plays(f, t)) <==> exists f :: f in batch && (f.home == t || f.away == t) by {
      if f :| f in batch && (f.home == t || f.away == t) { assert Plays(f, t); }
    }
    hide G.BatchResults, ResultIn, H.Collect;
  }
}
