/**
 The whole training path: finished fixtures in, consensus predictions out. Changing scores and
 shots at or after an instant changes no prediction for a fixture of that instant.
 */
module EndToEnd {
  import opened Options
  import opened Chronology
  import opened Sums
  import Elo
  import E = EloRatings
  import G = GlickoRatings
  import D = GoalRatings
  import F = Features
  import C = ConsensusTraining

  /** What is left abstract: the functions the passes use, and the learners. */
  datatype Setup<!M> = Setup(models: F.Models, exp: PositiveFn, log: real -> real, learners: C.Learners<F.Values, M>)

  /** The outputs of the four passes on one list of fixtures. */
  datatype Walked = Walked(records: seq<F.Row>, bases: C.Bases)

  ghost predicate IsWalked<M>(s: Setup<M>, fs: seq<Fixture>, stats: map<FixtureId, F.Shots>, w: Walked) {
    && Listed(F.FeaturePass(s.models, stats), fs, Chronological(fs), w.records)
    && Prequential(E.EloPass(Elo.STANDARD, s.models.pow10), fs, w.bases.elo)
    && Prequential(G.GlickoPass(s.models.update, s.models.pow10), fs, w.bases.glicko)
    && Prequential(D.GoalPass(s.exp, s.log), fs, w.bases.dixonColes)
  }

  /** The feature table as columns. */
  function TableOf(records: seq<F.Row>): (d: C.Table<F.Values>)
    ensures C.Shaped(d)
  {
    C.Table(seq(|records|, i requires 0 <= i < |records| => records[i].kickoff),
            seq(|records|, i requires 0 <= i < |records| => records[i].id),
            seq(|records|, i requires 0 <= i < |records| => records[i].values),
            seq(|records|, i requires 0 <= i < |records| => records[i].outcome))
  }

  /** The part of `run_training` that leads to the consensus predictions. */
  method Train<M>(s: Setup<M>, fs: seq<Fixture>, stats: map<FixtureId, F.Shots>) returns (w: Walked, o: C.Outcome)
    requires DistinctIds(fs)
    ensures IsWalked(s, fs, stats, w) && o == C.Consensus(s.learners, TableOf(w.records), w.bases)
  {
    var records := F.BuildFeatureTable(s.models, fs, stats);
    var elo := E.RunElo(s.models.pow10, fs);
    var glicko := G.RunGlicko(s.models.update, s.models.pow10, fs);
    var dixonColes := D.RunDixonColes(s.exp, s.log, fs);
    var bases := C.Bases(elo, glicko, dixonColes);
    w := Walked(records, bases);
    o := C.TrainConsensus(s.learners, TableOf(records), bases);
  }

  // ---- two runs that differ from `t` on ------------------------------------------------------------

  /** `g` is `f`, possibly with another score, but not if it kicked off before `t`. */
  predicate SameBefore(f: Fixture, g: Fixture, t: Instant) {
    && g.id == f.id && g.kickoff == f.kickoff && g.home == f.home && g.away == f.away && g.league == f.league
    && (f.kickoff < t ==> g == f)
  }

  ghost predicate SameUntil(fs: seq<Fixture>, gs: seq<Fixture>, t: Instant) {
    |fs| == |gs| && forall i :: 0 <= i < |fs| ==> SameBefore(fs[i], gs[i], t)
  }

  lemma {:induction false} InsertSameUntil(x: Fixture, y: Fixture, a: seq<Fixture>, b: seq<Fixture>, t: Instant)
    requires SameBefore(x, y, t) && SameUntil(a, b, t)
    ensures SameUntil(Insert(x, a), Insert(y, b), t)
  {
    if a != [] && Before(a[0], x) { InsertSameUntil(x, y, a[1..], b[1..], t); }
  }

  lemma {:induction false} ChronologicalSameUntil(fs: seq<Fixture>, gs: seq<Fixture>, t: Instant)
    requires SameUntil(fs, gs, t)
    ensures SameUntil(Chronological(fs), Chronological(gs), t)
  {
    if fs != [] {
      ChronologicalSameUntil(fs[1..], gs[1..], t);
      InsertSameUntil(fs[0], gs[0], Chronological(fs[1..]), Chronological(gs[1..]), t);
    }
  }

  lemma {:induction false} EarlierSame(fs: seq<Fixture>, gs: seq<Fixture>, t: Instant, u: Instant)
    requires SameUntil(fs, gs, t) && u <= t
    ensures Earlier(fs, u) == Earlier(gs, u)
  {
    if fs != [] { EarlierSame(fs[1..], gs[1..], t, u); }
  }

  /** The other run has shots that may differ too, for fixtures at or after `t`. */
  ghost predicate SameShots(fs: seq<Fixture>, a: map<FixtureId, F.Shots>, b: map<FixtureId, F.Shots>, t: Instant) {
    forall e :: e in fs && e.kickoff < t ==> Lookup(a, e.id) == Lookup(b, e.id)
  }

  /** Two runs of the passes on lists that differ from `t` on. */
  ghost predicate TwoRuns<M>(s: Setup<M>, fs: seq<Fixture>, gs: seq<Fixture>, a: map<FixtureId, F.Shots>,
                             b: map<FixtureId, F.Shots>,
                             w: Walked, v: Walked, t: Instant)
  {
    && DistinctIds(fs) && SameUntil(fs, gs, t) && SameShots(fs, a, b, t)
    && IsWalked(s, fs, a, w) && IsWalked(s, gs, b, v)
  }

  /** The features of row `j` agree if it kicks off at `t` or before. */
  lemma {:induction false} ValuesSame<M>(s: Setup<M>, fs: seq<Fixture>, gs: seq<Fixture>, a: map<FixtureId, F.Shots>,
                                         b: map<FixtureId, F.Shots>,
                                         w: Walked, v: Walked, t: Instant, j: nat)
    requires TwoRuns(s, fs, gs, a, b, w, v, t) && j < |Chronological(fs)| && Chronological(fs)[j].kickoff <= t
    ensures |w.records| == |v.records| == |Chronological(fs)| && w.records[j].values == v.records[j].values
  {
    hide F.ValuesOf, F.FeaturePass, E.EloPass, G.GlickoPass, D.GoalPass, StateBefore, Prequential;
    ChronologicalSameUntil(fs, gs, t);
    var f, g := Chronological(fs)[j], Chronological(gs)[j];
    assert SameBefore(f, g, t);
    EarlierSame(fs, gs, t, f.kickoff);
    F.NoLeakage(s.models, a, b, fs, gs, f, g);
    RowValues(s.models, fs, a, w.records, j);
    RowValues(s.models, gs, b, v.records, j);
  }

  lemma RowValues(m: F.Models, fs: seq<Fixture>, stats: map<FixtureId, F.Shots>, records: seq<F.Row>, j: nat)
    requires Listed(F.FeaturePass(m, stats), fs, Chronological(fs), records) && j < |Chronological(fs)|
    ensures |records| == |Chronological(fs)|
    ensures var f := Chronological(fs)[j];
      && records[j].values == F.ValuesOf(StateBefore(F.FeaturePass(m, stats), fs, f.kickoff), f)
      && records[j].id == f.id && records[j].kickoff == f.kickoff
      && records[j].outcome == F.Label(FinishedScores(f).0, FinishedScores(f).1)
  {
    hide F.ValuesOf, StateBefore;
  }

  /** What the three base methods say of row `j` agrees as well. */
  lemma {:induction false} BasesSame<M>(s: Setup<M>, fs: seq<Fixture>, gs: seq<Fixture>, a: map<FixtureId, F.Shots>,
                                        b: map<FixtureId, F.Shots>,
                                        w: Walked, v: Walked, t: Instant, j: nat)
    requires TwoRuns(s, fs, gs, a, b, w, v, t) && j < |Chronological(fs)| && Chronological(fs)[j].kickoff <= t
    ensures var id := Chronological(fs)[j].id;
      && id in w.bases.elo && id in v.bases.elo && w.bases.elo[id] == v.bases.elo[id]
      && id in w.bases.glicko && id in v.bases.glicko && w.bases.glicko[id] == v.bases.glicko[id]
      && id in w.bases.dixonColes && id in v.bases.dixonColes && w.bases.dixonColes[id] == v.bases.dixonColes[id]
  {
    hide F.FeaturePass, E.EloPass, G.GlickoPass, D.GoalPass, StateBefore, Prequential, Listed;
    ChronologicalSameUntil(fs, gs, t);
    var f, g := Chronological(fs)[j], Chronological(gs)[j];
    assert SameBefore(f, g, t);
    EarlierSame(fs, gs, t, f.kickoff);
    SortedIn(fs, j);
    SortedIn(gs, j);
    E.NoLeakage(Elo.STANDARD, s.models.pow10, fs, gs, f, g, w.bases.elo, v.bases.elo);
    G.NoLeakage(s.models.update, s.models.pow10, fs, gs, f, g, w.bases.glicko, v.bases.glicko);
    D.NoLeakage(s.exp, s.log, fs, gs, f, g, w.bases.dixonColes, v.bases.dixonColes);
  }

  lemma {:induction false} SortedIn(fs: seq<Fixture>, j: nat)
    requires j < |Chronological(fs)|
    ensures Chronological(fs)[j] in fs
  {
    ChronologicalSorts(fs);
    SameElements(Chronological(fs), fs);
  }

  // ---- the theorem ------------------------------------------------------------------------------

  lemma {:induction false} Covered<M>(s: Setup<M>, fs: seq<Fixture>, stats: map<FixtureId, F.Shots>, w: Walked)
    requires IsWalked(s, fs, stats, w)
    ensures C.BasesCover(w.bases, TableOf(w.records).ids)
  {
    hide E.EloPass, G.GlickoPass, D.GoalPass, StateBefore;
    forall p | 0 <= p < |w.records|
      ensures w.records[p].id in w.bases.elo && w.records[p].id in w.bases.glicko
        && w.records[p].id in w.bases.dixonColes
    {
      RowValues(s.models, fs, stats, w.records, p);
      SortedIn(fs, p);
    }
  }

  lemma {:induction false} SameColumns<M>(s: Setup<M>, fs: seq<Fixture>, gs: seq<Fixture>, a: map<FixtureId, F.Shots>,
                                          b: map<FixtureId, F.Shots>,
                                          w: Walked, v: Walked, t: Instant)
    requires TwoRuns(s, fs, gs, a, b, w, v, t)
    ensures TableOf(v.records).kickoffs == TableOf(w.records).kickoffs
      && TableOf(v.records).ids == TableOf(w.records).ids
    ensures |w.records| == |v.records| == |Chronological(fs)| && C.DistinctIds(TableOf(w.records).ids)
  {
    hide F.FeaturePass, E.EloPass, G.GlickoPass, D.GoalPass, StateBefore, Prequential;
    ChronologicalSameUntil(fs, gs, t);
    ChronologicalSorts(fs);
    DistinctTail(fs, Chronological(fs));
    forall j | 0 <= j < |Chronological(fs)|
      ensures |w.records| == |v.records| == |Chronological(fs)|
      ensures w.records[j].id == v.records[j].id == Chronological(fs)[j].id
        && w.records[j].kickoff == v.records[j].kickoff
    {
      assert SameBefore(Chronological(fs)[j], Chronological(gs)[j], t);
      RowValues(s.models, fs, a, w.records, j);
      RowValues(s.models, gs, b, v.records, j);
    }
  }

  lemma {:induction false} RowSame<M>(s: Setup<M>, fs: seq<Fixture>, gs: seq<Fixture>, a: map<FixtureId, F.Shots>,
                                      b: map<FixtureId, F.Shots>,
                                      w: Walked, v: Walked, t: Instant, j: nat)
    requires TwoRuns(s, fs, gs, a, b, w, v, t) && j < |w.records| == |v.records| == |Chronological(fs)|
      && w.records[j].kickoff <= t
    requires C.BasesCover(w.bases, TableOf(w.records).ids) && C.BasesCover(v.bases, TableOf(w.records).ids)
    ensures w.records[j].values == v.records[j].values && C.SameBases(w.bases, v.bases, TableOf(w.records).ids, [j])
    ensures w.records[j].kickoff < t ==> w.records[j].outcome == v.records[j].outcome
  {
    hide F.FeaturePass, E.EloPass, G.GlickoPass, D.GoalPass, StateBefore, Prequential;
    RowValues(s.models, fs, a, w.records, j);
    RowValues(s.models, gs, b, v.records, j);
    ValuesSame(s, fs, gs, a, b, w, v, t, j);
    BasesSame(s, fs, gs, a, b, w, v, t, j);
    ChronologicalSameUntil(fs, gs, t);
    assert SameBefore(Chronological(fs)[j], Chronological(gs)[j], t);
  }

  lemma {:induction false} PastSame<M>(s: Setup<M>, fs: seq<Fixture>, gs: seq<Fixture>, a: map<FixtureId, F.Shots>,
                                       b: map<FixtureId, F.Shots>,
                                       w: Walked, v: Walked, i: nat)
    requires i < |w.records| && TwoRuns(s, fs, gs, a, b, w, v, w.records[i].kickoff)
    ensures var d, e := TableOf(w.records), TableOf(v.records);
      C.SamePast(d, e, w.bases, v.bases, i) && d.x[i] == e.x[i] && C.SameBases(w.bases, v.bases, d.ids, [i])
        && C.DistinctIds(d.ids)
  {
    hide IsWalked, SameUntil, SameShots;
    var t := w.records[i].kickoff;
    var d, e := TableOf(w.records), TableOf(v.records);
    SameColumns(s, fs, gs, a, b, w, v, t);
    Covered(s, fs, a, w);
    Covered(s, gs, b, v);
    forall j | 0 <= j < |d.kickoffs| && d.kickoffs[j] < d.kickoffs[i]
      ensures d.x[j] == e.x[j] && d.y[j] == e.y[j] && C.SameBases(w.bases, v.bases, d.ids, [j])
    {
      RowSame(s, fs, gs, a, b, w, v, t, j);
    }
    RowSame(s, fs, gs, a, b, w, v, t, i);
  }

  /** Scores and shots at or after a fixture's kickoff, its own included, do not reach its consensus prediction. */
  lemma {:induction false} NoResultReachesItsPrediction<M>(s: Setup<M>, fs: seq<Fixture>, gs: seq<Fixture>,
      a: map<FixtureId, F.Shots>, b: map<FixtureId, F.Shots>, w: Walked, v: Walked, i: nat)
    requires i < |w.records| && TwoRuns(s, fs, gs, a, b, w, v, w.records[i].kickoff)
    requires var o := C.Consensus(s.learners, TableOf(w.records), w.bases);
      o.Trained? && w.records[i].id in o.predictions
    ensures var o := C.Consensus(s.learners, TableOf(w.records), w.bases);
      var o' := C.Consensus(s.learners, TableOf(v.records), v.bases);
      var id := w.records[i].id;
      o'.Trained? && id in o'.predictions && o'.predictions[id] == o.predictions[id]
  {
    hide C.Consensus, TwoRuns, C.SamePast, C.SameBases, C.DistinctIds;
    PastSame(s, fs, gs, a, b, w, v, i);
    C.NoLeakage(s.learners, TableOf(w.records), TableOf(v.records), w.bases, v.bases, i);
  }
}
