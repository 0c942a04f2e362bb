/** The Elo pass: ratings before each batch, the batch's changes, and the probabilities they give. */
module EloRatings {
  import opened Chronology
  import opened Elo
  import opened Sums

  type Ratings = map<TeamId, real>

  function RatingOf(r: Ratings, t: TeamId): real { if t in r then r[t] else DEFAULT_RATING }

  function ChangeOf(d: Ratings, t: TeamId): real { if t in d then d[t] else 0.0 }

  function Credited(d: Ratings, t: TeamId, x: real): Ratings { d[t := ChangeOf(d, t) + x] }

  /** What the home side of a fixture gains, and the away side loses, from the ratings `r`. */
  function Gain(c: EloConfig, pow10: PositiveFn, r: Ratings): Fixture -> real {
    (f: Fixture) => Delta(c, pow10, RatingOf(r, f.home), RatingOf(r, f.away), FinishedScores(f).0, FinishedScores(f).1)
  }

  /** The summed changes of a batch, given what each fixture moves from its away to its home side. */
  function Shifts(gain: Fixture -> real, batch: seq<Fixture>): Ratings {
    if batch == [] then map[]
    else
      var f := batch[|batch| - 1];
      Credited(Credited(Shifts(gain, batch[..|batch| - 1]), f.home, gain(f)), f.away, -gain(f))
  }

  /** The rating changes of a batch, all from the ratings before it. */
  function Changes(c: EloConfig, pow10: PositiveFn, r: Ratings, batch: seq<Fixture>): Ratings {
    Shifts(Gain(c, pow10, r), batch)
  }

  function Applied(r: Ratings, d: Ratings): Ratings {
    map t | t in r.Keys + d.Keys :: RatingOf(r, t) + ChangeOf(d, t)
  }

  function Folded(c: EloConfig, pow10: PositiveFn, r: Ratings, batch: seq<Fixture>): Ratings {
    Applied(r, Changes(c, pow10, r, batch))
  }

  function EloPass(c: EloConfig, pow10: PositiveFn): Pass<Ratings, Probs> {
    Pass(map[],
         (r: Ratings, f: Fixture) => Prob1x2(c, pow10, RatingOf(r, f.home), RatingOf(r, f.away)),
         (r: Ratings, batch: seq<Fixture>) => Folded(c, pow10, r, batch))
  }

  lemma UpdateMovesGain(c: EloConfig, pow10: PositiveFn, r: Ratings, f: Fixture)
    ensures var rh := RatingOf(r, f.home); var ra := RatingOf(r, f.away);
            var after := Update(c, pow10, rh, ra, FinishedScores(f).0, FinishedScores(f).1);
            after.0 - rh == Gain(c, pow10, r)(f) && after.1 - ra == -Gain(c, pow10, r)(f)
  {}

  lemma {:induction false} OneMoreShift(gain: Fixture -> real, batch: seq<Fixture>, i: nat)
    requires i < |batch|
    ensures Shifts(gain, batch[..i + 1]) ==
            Credited(Credited(Shifts(gain, batch[..i]), batch[i].home, gain(batch[i])), batch[i].away, -gain(batch[i]))
  {
    assert batch[..i + 1][..i] == batch[..i];
  }

  // ---- the loop ---------------------------------------------------------------------------------

  /** `_run_elo`. */
  method RunElo(pow10: PositiveFn, fixtures: seq<Fixture>) returns (preds: map<FixtureId, Probs>)
    requires DistinctIds(fixtures)
    ensures Prequential(EloPass(STANDARD, pow10), fixtures, preds)
    ensures IsPower(pow10) ==> forall f :: f in fixtures ==>
      var before := StateBefore(EloPass(STANDARD, pow10), fixtures, f.kickoff);
      && f.id in preds
      && (preds[f.id].home > preds[f.id].away <==> RatingOf(before, f.home) + 65.0 > RatingOf(before, f.away))
  {
    var ratings: Ratings := map[];
    preds := map[];
    var batches := Batches(fixtures);
    ghost var m := EloPass(STANDARD, pow10);
    BatchesDistinct(fixtures);
    for k := 0 to |batches|
      invariant ratings == FoldAll(m, m.init, batches[..k])
      invariant PrequentialSoFar(m, batches, k, 0, preds)
    {
      BatchRecorded(m, batches, k, preds);
      FoldOneMore(m, m.init, batches, k);
      var deltas;
      preds, deltas := RunBatch(pow10, ratings, preds, batches[k]);
      ratings := Apply(ratings, deltas);
    }
    assert batches[..|batches|] == batches;
    PrequentialDone(m, fixtures, preds);
    if IsPower(pow10) { forall f | f in fixtures { FavouriteInThePass(pow10, fixtures, preds, f); } }
  }

  lemma PredictedFromBefore(pow10: PositiveFn, fs: seq<Fixture>, preds: map<FixtureId, Probs>, f: Fixture)
    requires f in fs && Prequential(EloPass(STANDARD, pow10), fs, preds)
    ensures var before := StateBefore(EloPass(STANDARD, pow10), fs, f.kickoff);
      f.id in preds && preds[f.id] == Prob1x2(STANDARD.(homeAdvantage := 65.0), pow10, RatingOf(before, f.home),
        RatingOf(before, f.away))
  {
    assert STANDARD == STANDARD.(homeAdvantage := 65.0);
    hide Prob1x2, StateBefore;
  }

  /** The odds the pass gives a fixture: home against away by the ratings before kickoff, 65 points for the home side;
      a draw is likeliest between level sides, at 0.28. */
  lemma {:induction false} FavouriteInThePass(pow10: PositiveFn, fs: seq<Fixture>, preds: map<FixtureId, Probs>,
                                              f: Fixture)
    requires IsPower(pow10) && f in fs && Prequential(EloPass(STANDARD, pow10), fs, preds)
    ensures var before := StateBefore(EloPass(STANDARD, pow10), fs, f.kickoff);
      var lead := RatingOf(before, f.home) + 65.0 - RatingOf(before, f.away);
      && f.id in preds
      && (preds[f.id].home > preds[f.id].away <==> lead > 0.0)
      && InRatio(preds[f.id].home, preds[f.id].away, pow10(-lead / 400.0))
      && preds[f.id].draw <= 0.28 && (preds[f.id].draw == 0.28 <==> lead == 0.0)
  {
    var before := StateBefore(EloPass(STANDARD, pow10), fs, f.kickoff);
    PredictedFromBefore(pow10, fs, preds, f);
    var lead := RatingOf(before, f.home) + 65.0 - RatingOf(before, f.away);
    hide *;
    StandardOdds(65.0, pow10, RatingOf(before, f.home), RatingOf(before, f.away), preds[f.id], lead);
  }

  /** The loop over one batch: predictions from the ratings before it, and the changes it makes. */
  method RunBatch(pow10: PositiveFn, ratings: Ratings, before: map<FixtureId, Probs>, batch: seq<Fixture>)
      returns (preds: map<FixtureId, Probs>, deltas: Ratings)
    ensures preds == Recorded(EloPass(STANDARD, pow10), ratings, before, batch)
    ensures deltas == Changes(STANDARD, pow10, ratings, batch)
  {
    hide Delta, Prob1x2, Gain, Update;
    preds := before;
    deltas := map[];
    ghost var m := EloPass(STANDARD, pow10);
    ghost var gain := Gain(STANDARD, pow10, ratings);
    for i := 0 to |batch|
      invariant preds == Recorded(m, ratings, before, batch[..i])
      invariant deltas == Shifts(gain, batch[..i])
    {
      var fx := batch[i];
      var rh, ra := RatingOf(ratings, fx.home), RatingOf(ratings, fx.away);
      preds := preds[fx.id := Prob1x2(STANDARD, pow10, rh, ra)];
      var after := Update(STANDARD, pow10, rh, ra, FinishedScores(fx).0, FinishedScores(fx).1);
      deltas := Credited(deltas, fx.home, after.0 - rh);
      deltas := Credited(deltas, fx.away, after.1 - ra);
      UpdateMovesGain(STANDARD, pow10, ratings, fx);
      RecordedOneMore(m, ratings, before, batch, i);
      OneMoreShift(gain, batch, i);
    }
    assert batch[..|batch|] == batch;
  }

  /** The changes are applied team by team, in whatever order the dictionary yields them. */
  method Apply(r: Ratings, deltas: Ratings) returns (ratings: Ratings)
    ensures ratings == Applied(r, deltas)
  {
    hide Applied;
    ratings := r;
    var todo := deltas.Keys;
    while todo != {}
      invariant todo <= deltas.Keys
      invariant forall t :: t in ratings <==> t in r || (t in deltas && t !in todo)
      invariant forall t :: t in ratings ==>
        ratings[t] == if t in todo then r[t] else RatingOf(r, t) + ChangeOf(deltas, t)
      decreases |todo|
    {
      var team :| team in todo;
      ratings := ratings[team := RatingOf(ratings, team) + deltas[team]];
      todo := todo - {team};
    }
    AppliedIs(r, deltas, ratings);
  }

  lemma AppliedIs(r: Ratings, d: Ratings, x: Ratings)
    requires forall t :: t in x <==> t in r || t in d
    requires forall t :: t in x ==> x[t] == RatingOf(r, t) + ChangeOf(d, t)
    ensures x == Applied(r, d)
  {
    assert x.Keys == Applied(r, d).Keys;
  }

  // ---- no leakage -------------------------------------------------------------------------------

  /** A prediction depends on the pairing and on the results before kickoff, and on nothing else in the list. */
  lemma {:induction false} NoLeakage(c: EloConfig, pow10: PositiveFn, fs: seq<Fixture>, gs: seq<Fixture>, f: Fixture,
                                     g: Fixture,
                                     preds: map<FixtureId, Probs>, preds': map<FixtureId, Probs>)
    requires DistinctIds(fs) && f in fs && g in gs
    requires f.kickoff == g.kickoff && f.home == g.home && f.away == g.away
    requires multiset(Earlier(fs, f.kickoff)) == multiset(Earlier(gs, f.kickoff))
    requires Prequential(EloPass(c, pow10), fs, preds) && Prequential(EloPass(c, pow10), gs, preds')
    ensures f.id in preds && g.id in preds' && preds[f.id] == preds'[g.id]
  {
    OnlyThePastMatters(EloPass(c, pow10), fs, gs, f.kickoff);
  }

  // ---- conservation -----------------------------------------------------------------------------

  lemma {:induction false} ShiftsKeys(gain: Fixture -> real, batch: seq<Fixture>)
    ensures Shifts(gain, batch).Keys == TeamsIn(batch)
  {
    if batch != [] {
      var last := |batch| - 1;
      ShiftsKeys(gain, batch[..last]);
      TeamsOneMore(batch);
    }
  }

  lemma {:induction false} TeamsOneMore(batch: seq<Fixture>)
    requires batch != []
    ensures TeamsIn(batch) == TeamsIn(batch[..|batch| - 1]) + {batch[|batch| - 1].home, batch[|batch| - 1].away}
  {
    assert batch == batch[..|batch| - 1] + [batch[|batch| - 1]];
  }

  ghost function ChangeFn(d: Ratings): TeamId -> real { (t: TeamId) => ChangeOf(d, t) }

  ghost function RatingFn(r: Ratings): TeamId -> real { (t: TeamId) => RatingOf(r, t) }

  lemma {:induction false} ShiftsCancel(gain: Fixture -> real, batch: seq<Fixture>, s: set<TeamId>)
    requires TeamsIn(batch) <= s
    ensures SumOver(s, ChangeFn(Shifts(gain, batch))) == 0.0
  {
    var d' := Shifts(gain, batch);
    if batch == [] {
      SumConst(s, ChangeFn(d'), 0.0);
    } else {
      var f := batch[|batch| - 1];
      TeamsOneMore(batch);
      var d := Shifts(gain, batch[..|batch| - 1]);
      ShiftsCancel(gain, batch[..|batch| - 1], s);
      var half := Credited(d, f.home, gain(f));
      SumRaise(s, ChangeFn(d), ChangeFn(half), f.home, gain(f));
      SumRaise(s, ChangeFn(half), ChangeFn(d'), f.away, -gain(f));
    }
  }

  /** The ratings of the rated teams sum to 1500 for each of them. */
  ghost predicate Conserved(r: Ratings) {
    SumOver(r.Keys, RatingFn(r)) == 1500.0 * |r.Keys| as real
  }

  lemma {:induction false} AppliedConserves(r: Ratings, d: Ratings)
    requires Conserved(r) && SumOver(r.Keys + d.Keys, ChangeFn(d)) == 0.0
    ensures Conserved(Applied(r, d))
  {
    var r' := Applied(r, d);
    assert r'.Keys == r.Keys + d.Keys;
    SumAdd(r'.Keys, RatingFn(r), ChangeFn(d), RatingFn(r'));
    Wider(r, r'.Keys);
  }

  lemma {:induction false} FoldConserves(c: EloConfig, pow10: PositiveFn, r: Ratings, batch: seq<Fixture>)
    requires Conserved(r)
    ensures Conserved(Folded(c, pow10, r, batch))
  {
    var gain := Gain(c, pow10, r);
    ShiftsKeys(gain, batch);
    ShiftsCancel(gain, batch, r.Keys + Changes(c, pow10, r, batch).Keys);
    AppliedConserves(r, Changes(c, pow10, r, batch));
  }

  /** Counting in unrated teams at the default rating keeps the average. */
  lemma {:induction false} Wider(r: Ratings, s: set<TeamId>)
    requires Conserved(r) && r.Keys <= s
    ensures SumOver(s, RatingFn(r)) == 1500.0 * |s| as real
    decreases |s|
  {
    if s != r.Keys {
      var x :| x in s && x !in r;
      SumPick(s, x, RatingFn(r));
      Wider(r, s - {x});
      assert |s| == |s - {x}| + 1;
    }
  }

  /** After any history, in any grouping, no rating has been created or lost. */
  lemma {:induction false} RatingsAreConserved(c: EloConfig, pow10: PositiveFn, r: Ratings, batches: seq<seq<Fixture>>)
    requires Conserved(r)
    ensures Conserved(FoldAll(EloPass(c, pow10), r, batches))
    decreases |batches|
  {
    if batches != [] {
      FoldConserves(c, pow10, r, batches[0]);
      RatingsAreConserved(c, pow10, Folded(c, pow10, r, batches[0]), batches[1..]);
    }
  }

  lemma {:induction false} RatingsBeforeKickoffAreConserved(c: EloConfig, pow10: PositiveFn, fs: seq<Fixture>,
                                                            t: Instant)
    ensures Conserved(StateBefore(EloPass(c, pow10), fs, t))
  {
    var none: Ratings := map[];
    SumConst(none.Keys, RatingFn(none), DEFAULT_RATING);
    assert Conserved(none);
    RatingsAreConserved(c, pow10, none, Batches(Earlier(fs, t)));
  }

  lemma {:induction false} ShiftsSame(gain: Fixture -> real, gain': Fixture -> real, batch: seq<Fixture>)
    requires forall f :: f in batch ==> gain(f) == gain'(f)
    ensures Shifts(gain, batch) == Shifts(gain', batch)
  {
    if batch != [] { ShiftsSame(gain, gain', batch[..|batch| - 1]); }
  }

  // ---- the order inside a batch -----------------------------------------------------------------

  /** What one fixture adds to the change of team `t`. */
  function ShareFn(gain: Fixture -> real, t: TeamId): Fixture -> real {
    (f: Fixture) => (if f.home == t then gain(f) else 0.0) - (if f.away == t then gain(f) else 0.0)
  }

  lemma {:induction false} ShiftsAreShares(gain: Fixture -> real, batch: seq<Fixture>, t: TeamId)
    ensures ChangeOf(Shifts(gain, batch), t) == SumSeq(batch, ShareFn(gain, t))
  {
    if batch != [] { ShiftsAreShares(gain, batch[..|batch| - 1], t); }
  }

  lemma {:induction false} ShiftsPermuted(gain: Fixture -> real, p: seq<Fixture>, q: seq<Fixture>)
    requires multiset(p) == multiset(q)
    ensures Shifts(gain, p) == Shifts(gain, q)
  {
    ShiftsKeys(gain, p);
    ShiftsKeys(gain, q);
    SameElements(p, q);
    assert TeamsIn(p) == TeamsIn(q);
    forall t ensures ChangeOf(Shifts(gain, p), t) == ChangeOf(Shifts(gain, q), t) {
      ShiftsAreShares(gain, p, t);
      ShiftsAreShares(gain, q, t);
      SumSeqPermuted(p, q, ShareFn(gain, t));
    }
    forall t | t in TeamsIn(p) ensures Shifts(gain, p)[t] == Shifts(gain, q)[t] {
      assert ChangeOf(Shifts(gain, p), t) == ChangeOf(Shifts(gain, q), t);
    }
  }

  /** Same-kickoff fixtures in another order, even of the same team, change every rating alike. */
  lemma {:induction false} BatchOrderIsIrrelevant(c: EloConfig, pow10: PositiveFn, r: Ratings, p: seq<Fixture>,
                                                  q: seq<Fixture>)
    requires multiset(p) == multiset(q)
    ensures Folded(c, pow10, r, p) == Folded(c, pow10, r, q)
  {
    ShiftsPermuted(Gain(c, pow10, r), p, q);
  }

  lemma {:induction false} LaterRatingsIgnoreBatchOrder(c: EloConfig, pow10: PositiveFn, r: Ratings,
                                                        ps: seq<seq<Fixture>>, qs: seq<seq<Fixture>>)
    requires |ps| == |qs| && forall k :: 0 <= k < |ps| ==> multiset(ps[k]) == multiset(qs[k])
    ensures FoldAll(EloPass(c, pow10), r, ps) == FoldAll(EloPass(c, pow10), r, qs)
    decreases |ps|
  {
    if ps != [] {
      BatchOrderIsIrrelevant(c, pow10, r, ps[0], qs[0]);
      LaterRatingsIgnoreBatchOrder(c, pow10, Folded(c, pow10, r, ps[0]), ps[1..], qs[1..]);
    }
  }
}
