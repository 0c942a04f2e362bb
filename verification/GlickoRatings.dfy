/** The Glicko-2 pass. One batch is one rating period; the update of a player is a parameter. */
module GlickoRatings {
  import opened Chronology
  import opened Elo
  import opened Sums

  datatype Player = Player(rating: real, rd: real, volatility: real)
  datatype MatchResult = MatchResult(opponentRating: real, opponentRd: real, score: real)

  const NEWCOMER := Player(1500.0, 350.0, 0.06)
  const SPLITTER := STANDARD.(homeAdvantage := 30.0)

  type Players = map<TeamId, Player>
  type Results = map<TeamId, seq<MatchResult>>
  type UpdateFn = (Player, seq<MatchResult>) -> Player

  function PlayerOf(p: Players, t: TeamId): Player { if t in p then p[t] else NEWCOMER }

  function ResultsOf(r: Results, t: TeamId): seq<MatchResult> { if t in r then r[t] else [] }

  function Listed(r: Results, t: TeamId, m: MatchResult): Results { r[t := ResultsOf(r, t) + [m]] }

  /** What fixture `f` gives its home and its away side, both against the opponent before the batch. */
  function HomeResult(p: Players, f: Fixture): MatchResult {
    MatchResult(PlayerOf(p, f.away).rating, PlayerOf(p, f.away).rd, Score(FinishedScores(f).0, FinishedScores(f).1))
  }

  function AwayResult(p: Players, f: Fixture): MatchResult {
    MatchResult(PlayerOf(p, f.home).rating, PlayerOf(p, f.home).rd,
      1.0 - Score(FinishedScores(f).0, FinishedScores(f).1))
  }

  function ListedBoth(p: Players, r: Results, f: Fixture): Results {
    Listed(Listed(r, f.home, HomeResult(p, f)), f.away, AwayResult(p, f))
  }

  function BatchResults(p: Players, batch: seq<Fixture>): Results {
    if batch == [] then map[] else ListedBoth(p, BatchResults(p, batch[..|batch| - 1]), batch[|batch| - 1])
  }

  function PlayerAfter(update: UpdateFn, p: Players, r: Results, t: TeamId): Player {
    if t in r then update(PlayerOf(p, t), r[t]) else PlayerOf(p, t)
  }

  /** Every team of the batch updated once, with all of its results. */
  function Updated(update: UpdateFn, p: Players, r: Results): Players {
    map t | t in p.Keys + r.Keys :: PlayerAfter(update, p, r, t)
  }

  function Period(update: UpdateFn, p: Players, batch: seq<Fixture>): Players {
    Updated(update, p, BatchResults(p, batch))
  }

  function GlickoPass(update: UpdateFn, pow10: PositiveFn): Pass<Players, Probs> {
    Pass(map[],
         (p: Players, f: Fixture) => Prob1x2(SPLITTER, pow10, PlayerOf(p, f.home).rating, PlayerOf(p, f.away).rating),
         (p: Players, batch: seq<Fixture>) => Period(update, p, batch))
  }

  // ---- the loop ---------------------------------------------------------------------------------

  /** `_run_glicko`. */
  method RunGlicko(update: UpdateFn, pow10: PositiveFn, fixtures: seq<Fixture>) returns (preds: map<FixtureId, Probs>)
    requires DistinctIds(fixtures)
    ensures Prequential(GlickoPass(update, pow10), fixtures, preds)
    ensures IsPower(pow10) ==> forall f :: f in fixtures ==>
      var before := StateBefore(GlickoPass(update, pow10), fixtures, f.kickoff);
      && f.id in preds
      && (preds[f.id].home > preds[f.id].away <==>
            PlayerOf(before, f.home).rating + 30.0 > PlayerOf(before, f.away).rating)
  {
    var players: Players := map[];
    preds := map[];
    var batches := Batches(fixtures);
    ghost var m := GlickoPass(update, pow10);
    BatchesDistinct(fixtures);
    for k := 0 to |batches|
      invariant players == FoldAll(m, m.init, batches[..k])
      invariant PrequentialSoFar(m, batches, k, 0, preds)
    {
      BatchRecorded(m, batches, k, preds);
      FoldOneMore(m, m.init, batches, k);
      var results;
      preds, results := RunBatch(update, pow10, players, preds, batches[k]);
      players := Update(update, players, results);
    }
    assert batches[..|batches|] == batches;
    PrequentialDone(m, fixtures, preds);
    if IsPower(pow10) { forall f | f in fixtures { FavouriteInThePass(update, pow10, fixtures, preds, f); } }
  }

  lemma PredictedFromBefore(update: UpdateFn, pow10: PositiveFn, fs: seq<Fixture>, preds: map<FixtureId, Probs>,
                            f: Fixture)
    requires f in fs && Prequential(GlickoPass(update, pow10), fs, preds)
    ensures var before := StateBefore(GlickoPass(update, pow10), fs, f.kickoff);
      f.id in preds && preds[f.id] ==
        Prob1x2(STANDARD.(homeAdvantage := 30.0), pow10, PlayerOf(before, f.home).rating,
          PlayerOf(before, f.away).rating)
  {
    assert SPLITTER == STANDARD.(homeAdvantage := 30.0);
    hide Prob1x2, StateBefore;
  }

  /** The odds the pass gives a fixture: home against away by the ratings before kickoff, 30 points for the home side;
      a draw is likeliest between level sides, at 0.28. */
  lemma {:induction false} FavouriteInThePass(update: UpdateFn, pow10: PositiveFn, fs: seq<Fixture>,
                                              preds: map<FixtureId, Probs>, f: Fixture)
    requires IsPower(pow10) && f in fs && Prequential(GlickoPass(update, pow10), fs, preds)
    ensures var before := StateBefore(GlickoPass(update, pow10), fs, f.kickoff);
      var lead := PlayerOf(before, f.home).rating + 30.0 - PlayerOf(before, f.away).rating;
      && f.id in preds
      && (preds[f.id].home > preds[f.id].away <==> lead > 0.0)
      && InRatio(preds[f.id].home, preds[f.id].away, pow10(-lead / 400.0))
      && preds[f.id].draw <= 0.28 && (preds[f.id].draw == 0.28 <==> lead == 0.0)
  {
    var before := StateBefore(GlickoPass(update, pow10), fs, f.kickoff);
    PredictedFromBefore(update, pow10, fs, preds, f);
    var lead := PlayerOf(before, f.home).rating + 30.0 - PlayerOf(before, f.away).rating;
    hide *;
    StandardOdds(30.0, pow10, PlayerOf(before, f.home).rating, PlayerOf(before, f.away).rating, preds[f.id], lead);
  }

  lemma BothListed(p: Players, r: Results, f: Fixture, score: real)
    requires score == Score(FinishedScores(f).0, FinishedScores(f).1)
    ensures var h, a := PlayerOf(p, f.home), PlayerOf(p, f.away);
      ListedBoth(p, r, f) == Listed(Listed(r, f.home, MatchResult(a.rating, a.rd, score)), f.away,
                                    MatchResult(h.rating, h.rd, 1.0 - score))
  {}

  /** The loop over one batch: predictions from the players before it, and the results it collects. */
  method RunBatch(update: UpdateFn, pow10: PositiveFn, players: Players, before: map<FixtureId, Probs>,
                  batch: seq<Fixture>)
      returns (preds: map<FixtureId, Probs>, results: Results)
    ensures preds == Recorded(GlickoPass(update, pow10), players, before, batch)
    ensures results == BatchResults(players, batch)
  {
    hide Prob1x2, ListedBoth;
    preds := before;
    results := map[];
    ghost var m := GlickoPass(update, pow10);
    for i := 0 to |batch|
      invariant preds == Recorded(m, players, before, batch[..i])
      invariant results == BatchResults(players, batch[..i])
    {
      var fx := batch[i];
      var ph, pa := PlayerOf(players, fx.home), PlayerOf(players, fx.away);
      preds := preds[fx.id := Prob1x2(SPLITTER, pow10, ph.rating, pa.rating)];
      var (ftHome, ftAway) := FinishedScores(fx);
      var hs := if ftHome > ftAway then 1.0 else if ftHome == ftAway then 0.5 else 0.0;
      BothListed(players, results, fx, hs);
      results := Listed(results, fx.home, MatchResult(pa.rating, pa.rd, hs));
      results := Listed(results, fx.away, MatchResult(ph.rating, ph.rd, 1.0 - hs));
      RecordedOneMore(m, players, before, batch, i);
      assert batch[..i + 1][..i] == batch[..i];
    }
    assert batch[..|batch|] == batch;
  }

  method Update(update: UpdateFn, before: Players, results: Results) returns (players: Players)
    ensures players == Updated(update, before, results)
  {
    hide Updated;
    players := before;
    var todo := results.Keys;
    while todo != {}
      invariant todo <= results.Keys
      invariant forall t :: t in players <==> t in before || (t in results && t !in todo)
      invariant forall t :: t in players ==>
        players[t] == if t in todo then before[t] else PlayerAfter(update, before, results, t)
      decreases |todo|
    {
      var team :| team in todo;
      players := players[team := update(PlayerOf(players, team), results[team])];
      todo := todo - {team};
    }
    UpdatedIs(update, before, results, players);
  }

  lemma UpdatedIs(update: UpdateFn, p: Players, r: Results, x: Players)
    requires forall t :: t in x <==> t in p || t in r
    requires forall t :: t in x ==> x[t] == PlayerAfter(update, p, r, t)
    ensures x == Updated(update, p, r)
  {
    assert x.Keys == Updated(update, p, r).Keys;
  }

  // ---- no leakage -------------------------------------------------------------------------------

  /** A prediction depends on the pairing and on the results before kickoff, and on nothing else in the list. */
  lemma {:induction false} NoLeakage(update: UpdateFn, pow10: PositiveFn, fs: seq<Fixture>, gs: seq<Fixture>,
                                     f: Fixture, g: Fixture,
                                     preds: map<FixtureId, Probs>, preds': map<FixtureId, Probs>)
    requires DistinctIds(fs) && f in fs && g in gs
    requires f.kickoff == g.kickoff && f.home == g.home && f.away == g.away
    requires multiset(Earlier(fs, f.kickoff)) == multiset(Earlier(gs, f.kickoff))
    requires Prequential(GlickoPass(update, pow10), fs, preds) && Prequential(GlickoPass(update, pow10), gs, preds')
    ensures f.id in preds && g.id in preds' && preds[f.id] == preds'[g.id]
  {
    OnlyThePastMatters(GlickoPass(update, pow10), fs, gs, f.kickoff);
  }

  // ---- the order inside a batch -----------------------------------------------------------------

  /** An update that does not look at the order of the results. */
  ghost predicate OrderBlind(update: UpdateFn) {
    forall p, a, b :: multiset(a) == multiset(b) ==> update(p, a) == update(p, b)
  }

  /** The results fixture `f` gives team `t`. */
  function Given(p: Players, f: Fixture, t: TeamId): seq<MatchResult> {
    (if f.home == t then [HomeResult(p, f)] else []) + (if f.away == t then [AwayResult(p, f)] else [])
  }

  lemma {:induction false} ResultsOneMore(p: Players, batch: seq<Fixture>, t: TeamId)
    requires batch != []
    ensures var last := |batch| - 1;
      ResultsOf(BatchResults(p, batch), t) == ResultsOf(BatchResults(p, batch[..last]), t) + Given(p, batch[last], t)
    ensures t in BatchResults(p, batch) <==>
      t in BatchResults(p, batch[..|batch| - 1]) || Given(p, batch[|batch| - 1], t) != []
  {}

  /** `r` has one more fixture's results for `t` than `q`. */
  ghost predicate OneMore(p: Players, q: Results, r: Results, f: Fixture, t: TeamId) {
    && multiset(ResultsOf(r, t)) == multiset(ResultsOf(q, t)) + multiset(Given(p, f, t))
    && (t in r <==> t in q || Given(p, f, t) != [])
  }

  lemma {:induction false} ResultsWithout(p: Players, batch: seq<Fixture>, i: nat, t: TeamId)
    requires i < |batch|
    ensures OneMore(p, BatchResults(p, batch[..i] + batch[i + 1..]), BatchResults(p, batch), batch[i], t)
    decreases |batch|
  {
    hide BatchResults, Given, ResultsOf;
    var last := |batch| - 1;
    var rest := batch[..i] + batch[i + 1..];
    ResultsOneMore(p, batch, t);
    if i == last {
      assert rest == batch[..last];
    } else {
      ResultsWithout(p, batch[..last], i, t);
      assert rest[..last - 1] == batch[..last][..i] + batch[..last][i + 1..];
      assert rest[last - 1] == batch[last];
      ResultsOneMore(p, rest, t);
      Swapped(p, BatchResults(p, rest[..last - 1]), BatchResults(p, batch[..last]), batch[i], batch[last],
        BatchResults(p, rest), BatchResults(p, batch), t);
    }
  }

  /** Adding `g` after `f`, or not having added `f` at all. */
  lemma {:induction false} Swapped(p: Players, q: Results, qf: Results, f: Fixture, g: Fixture, qg: Results,
                                   qfg: Results, t: TeamId)
    requires OneMore(p, q, qf, f, t)
    requires ResultsOf(qg, t) == ResultsOf(q, t) + Given(p, g, t) && (t in qg <==> t in q || Given(p, g, t) != [])
    requires ResultsOf(qfg, t) == ResultsOf(qf, t) + Given(p, g, t) && (t in qfg <==> t in qf || Given(p, g, t) != [])
    ensures OneMore(p, qg, qfg, f, t)
  {
    hide Given;
  }

  lemma {:induction false} ResultsPermuted(p: Players, a: seq<Fixture>, b: seq<Fixture>, t: TeamId)
    requires multiset(a) == multiset(b)
    ensures multiset(ResultsOf(BatchResults(p, a), t)) == multiset(ResultsOf(BatchResults(p, b), t))
    ensures t in BatchResults(p, a) <==> t in BatchResults(p, b)
    decreases |a|
  {
    PermutedLength(a, b);
    if a != [] {
      var last := |a| - 1;
      var i :| 0 <= i < |b| && b[i] == a[last];
      RemoveAt(a, last);
      RemoveAt(b, i);
      assert a[..last] + a[last + 1..] == a[..last];
      ResultsPermuted(p, a[..last], b[..i] + b[i + 1..], t);
      ResultsOneMore(p, a, t);
      ResultsWithout(p, b, i, t);
    }
  }

  /** Same-kickoff fixtures in another order update every player alike, if the update is blind to order. */
  lemma {:induction false} BatchOrderIsIrrelevant(update: UpdateFn, p: Players, a: seq<Fixture>, b: seq<Fixture>)
    requires OrderBlind(update) && multiset(a) == multiset(b)
    ensures Period(update, p, a) == Period(update, p, b)
  {
    forall t ensures t in BatchResults(p, a) <==> t in BatchResults(p, b) { ResultsPermuted(p, a, b, t); }
    forall t | t in BatchResults(p, a)
      ensures update(PlayerOf(p, t), BatchResults(p, a)[t]) == update(PlayerOf(p, t), BatchResults(p, b)[t]) {
      ResultsPermuted(p, a, b, t);
    }
  }
}
