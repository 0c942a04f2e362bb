/**
 Out of sample, of the training itself: what a learner is shown of a row never depends on
 labels of that row's kickoff or later.

 The learners are parameters, so they can also stand for observers. One that looks at a single
 stacked row and nothing else makes the predictions a function of that row; they then do not
 change when labels (or features, or other base predictions) at or after its kickoff do.
 */
module OutOfSample {
  import opened Elo
  import opened Options
  import opened TemporalWindows
  import opened ConsensusTraining

  // ---- what the stacked rows are -----------------------------------------------------------------

  /** Row `q` of the calibration stack: the fixture's base predictions, and those of a model of the first window. */
  lemma {:induction false} CalibrationRow<X, M>(l: Learners<X, M>, d: Table<X>, b: Bases, p: Plan, q: nat)
    requires Shaped(d) && BasesCover(b, d.ids) && |p.blocks| == 4 && PlanInRange(d.kickoffs, p) && q < |p.calibration|
    ensures var i := p.calibration[q]; var s := CalibrationStack(l, d, b, p)[q];
      && s.elo == b.elo[d.ids[i]] && s.glicko == b.glicko[d.ids[i]] && s.dixonColes == b.dixonColes[d.ids[i]]
      && s.lightgbm == l.fit(At(d.x, p.region), At(d.y, p.region))(d.x[i])
  {}

  /** Row `q` of the test stack: likewise, of a model of the first two windows. */
  lemma {:induction false} TestRow<X, M>(l: Learners<X, M>, d: Table<X>, b: Bases, p: Plan, q: nat)
    requires Shaped(d) && BasesCover(b, d.ids) && |p.blocks| == 4 && PlanInRange(d.kickoffs, p) && q < |p.test|
    ensures var i := p.test[q]; var s := TestStack(l, d, b, p)[q];
      && s.elo == b.elo[d.ids[i]] && s.glicko == b.glicko[d.ids[i]] && s.dixonColes == b.dixonColes[d.ids[i]]
      && s.lightgbm == l.fit(At(d.x, p.region + p.calibration), At(d.y, p.region + p.calibration))(d.x[i])
  {}

  /** Where row `q` of the blocks after the first is, and what the rolling origin predicts for it: a model of all
      blocks before its own. */
  lemma {:induction false} OutOfFoldAt<X, M>(l: Learners<X, M>, d: Table<X>, blocks: seq<seq<nat>>, n: nat, q: nat)
      returns (w: nat, o: nat)
    requires Shaped(d) && 1 <= n <= |blocks| && forall b :: 0 <= b < |blocks| ==> InRange(blocks[b], |d.kickoffs|)
    requires q < |Concat(blocks[1..n])|
    ensures 1 <= w < n && o < |blocks[w]| && Concat(blocks[1..n])[q] == blocks[w][o]
    ensures InRange(Concat(blocks[..w]), |d.kickoffs|)
    ensures OutOfFold(l, d, blocks, n)[q] == FitOn(l, d, Concat(blocks[..w]))(d.x[blocks[w][o]])
    decreases n
  {
    NothingToPlace(blocks);
    w, o := 1, 0;
    if n > 1 {
      assert blocks[1..n] == blocks[1..n - 1] + [blocks[n - 1]];
      ConcatInRange(blocks[..n - 1], |d.kickoffs|);
      var before := |Concat(blocks[1..n - 1])|;
      if q < before { w, o := OutOfFoldAt(l, d, blocks, n - 1, q); } else { w, o := n - 1, q - before; }
    }
  }

  lemma NothingToPlace(blocks: seq<seq<nat>>)
    requires |blocks| >= 1
    ensures Concat(blocks[1..1]) == []
  {}

  /** Row `q` of the stacking model's rows, in block `w`: likewise, of a model of the blocks before `w`. */
  lemma {:induction false} MetaRow<X, M>(l: Learners<X, M>, d: Table<X>, b: Bases, p: Plan, q: nat)
      returns (w: nat, o: nat)
    requires Shaped(d) && BasesCover(b, d.ids) && |p.blocks| == 4 && PlanInRange(d.kickoffs, p) && q < |MetaRows(p)|
    ensures 1 <= w < 4 && o < |p.blocks[w]| && MetaRows(p)[q] == p.blocks[w][o]
    ensures InRange(Concat(p.blocks[..w]), |d.kickoffs|)
    ensures var i := MetaRows(p)[q]; var s := MetaStack(l, d, b, p)[q]; var earlier := Concat(p.blocks[..w]);
      && s.elo == b.elo[d.ids[i]] && s.glicko == b.glicko[d.ids[i]] && s.dixonColes == b.dixonColes[d.ids[i]]
      && s.lightgbm == l.fit(At(d.x, earlier), At(d.y, earlier))(d.x[i])
  {
    ConcatInRange(p.blocks[1..], |d.kickoffs|);
    assert p.blocks[1..4] == p.blocks[1..];
    w, o := OutOfFoldAt(l, d, p.blocks, 4, q);
  }

  // ---- nothing of its own instant or later reaches a stacked row -----------------------------------

  /** Both tables cover the same fixtures, and agree on row `i` but for its label and on everything before it. */
  ghost predicate SameUpTo<X>(d: Table<X>, e: Table<X>, b: Bases, c: Bases, i: nat)
    requires i < |d.kickoffs|
  {
    SamePast(d, e, b, c, i) && d.x[i] == e.x[i] && SameBases(b, c, d.ids, [i])
  }

  lemma {:induction false} OwnBases<X>(d: Table<X>, e: Table<X>, b: Bases, c: Bases, i: nat)
    requires i < |d.kickoffs| && SameUpTo(d, e, b, c, i)
    ensures b.elo[d.ids[i]] == c.elo[d.ids[i]] && b.glicko[d.ids[i]] == c.glicko[d.ids[i]]
    ensures b.dixonColes[d.ids[i]] == c.dixonColes[d.ids[i]]
  {
    assert [i][0] == i;
  }

  /** A model of rows before `i` is the same model. */
  lemma {:induction false} FitOnEarlier<X, M>(l: Learners<X, M>, d: Table<X>, e: Table<X>, b: Bases, c: Bases, i: nat,
                                              rows: seq<nat>)
    requires i < |d.kickoffs| && SamePast(d, e, b, c, i) && InRange(rows, |d.kickoffs|)
    requires forall r :: r in rows ==> d.kickoffs[r] < d.kickoffs[i]
    ensures l.fit(At(d.x, rows), At(d.y, rows)) == l.fit(At(e.x, rows), At(e.y, rows))
  {
    forall p | 0 <= p < |rows| ensures d.kickoffs[rows[p]] < d.kickoffs[i] { assert rows[p] in rows; }
    SamePastRows(d, e, b, c, i, rows);
    FitSame(l, d, e, rows);
  }

  lemma {:induction false} CalibrationRowStays<X, M>(l: Learners<X, M>, d: Table<X>, e: Table<X>, b: Bases, c: Bases,
                                                     q: nat)
    requires Shaped(d) && PlanOf(d.kickoffs).Ok? && q < |PlanOf(d.kickoffs).value.calibration|
    requires var i := PlanOf(d.kickoffs).value.calibration[q]; i < |d.kickoffs| && SameUpTo(d, e, b, c, i)
    ensures var p := PlanOf(d.kickoffs).value;
      && |p.blocks| == 4 && PlanInRange(d.kickoffs, p)
      && CalibrationStack(l, d, b, p)[q] == CalibrationStack(l, e, c, p)[q]
  {
    var p := PlanOf(d.kickoffs).value;
    var i := p.calibration[q];
    PlansAreOutOfSample(d.kickoffs);
    CalibrationRow(l, d, b, p, q);
    CalibrationRow(l, e, c, p, q);
    assert i in p.calibration;
    OwnBases(d, e, b, c, i);
    FitOnEarlier(l, d, e, b, c, i, p.region);
  }

  lemma {:induction false} MetaRowStays<X, M>(l: Learners<X, M>, d: Table<X>, e: Table<X>, b: Bases, c: Bases, q: nat)
    requires Shaped(d) && PlanOf(d.kickoffs).Ok? && |PlanOf(d.kickoffs).value.blocks| == 4
    requires q < |MetaRows(PlanOf(d.kickoffs).value)|
    requires var i := MetaRows(PlanOf(d.kickoffs).value)[q]; i < |d.kickoffs| && SameUpTo(d, e, b, c, i)
    ensures var p := PlanOf(d.kickoffs).value;
      && PlanInRange(d.kickoffs, p)
      && MetaStack(l, d, b, p)[q] == MetaStack(l, e, c, p)[q]
  {
    var p := PlanOf(d.kickoffs).value;
    var i := MetaRows(p)[q];
    PlansAreOutOfSample(d.kickoffs);
    var w, o := MetaRow(l, d, b, p, q);
    EarlierBlocks(d.kickoffs, p, w, i);
    OwnBases(d, e, b, c, i);
    FitOnEarlier(l, d, e, b, c, i, Concat(p.blocks[..w]));
    var w', o' := MetaRow(l, e, c, p, q);
    SameBlock(d.kickoffs, p, i, w, w');
  }

  lemma {:induction false} EarlierBlocks(k: seq<Instant>, p: Plan, w: nat, i: nat)
    requires OutOfSample(k, p) && w < 4 && i in p.blocks[w]
    ensures i < |k| && forall r :: r in Concat(p.blocks[..w]) ==> r < |k| && k[r] < k[i]
  {
    ConcatHas(p.blocks[..w]);
    forall r | r in Concat(p.blocks[..w]) ensures r < |k| && k[r] < k[i] {
      var v :| 0 <= v < w && r in p.blocks[..w][v];
      assert r in p.blocks[v] && StrictlyLater(k, p.blocks[v], p.blocks[w]);
    }
    var o :| 0 <= o < |p.blocks[w]| && p.blocks[w][o] == i;
  }

  lemma {:induction false} SameBlock(k: seq<Instant>, p: Plan, i: nat, v: nat, w: nat)
    requires OutOfSample(k, p) && v < 4 && w < 4 && i in p.blocks[v] && i in p.blocks[w]
    ensures v == w
  {
    if v < w { NotInBoth(k, p.blocks[v], p.blocks[w], i); }
    else if w < v { NotInBoth(k, p.blocks[w], p.blocks[v], i); }
  }

  lemma NotInBoth(k: seq<Instant>, a: seq<nat>, b: seq<nat>, i: nat)
    requires StrictlyLater(k, a, b)
    ensures i !in a || i !in b
  {}

  // ---- observers -----------------------------------------------------------------------------------

  /** Calibration looks at nothing but stacked row `q`: not at the stacking model, the labels or other rows, nor does
      the result look at what it is applied to. */
  ghost predicate CalibrationSeesOnly<X(!new), M(!new)>(l: Learners<X, M>, q: nat) {
    forall m, m', xs, xs', ys, ys', x, x' ::
      |xs| == |xs'| && q < |xs| && xs[q] == xs'[q] ==> l.calibrate(m, xs, ys)(x) == l.calibrate(m', xs', ys')(x')
  }

  /** The stacking model looks at nothing but stacked row `q`, and calibration at nothing but the stacking model. */
  ghost predicate StackingSeesOnly<X(!new), M(!new)>(l: Learners<X, M>, q: nat) {
    && (forall xs, xs', ys, ys' ::
          |xs| == |xs'| && q < |xs| && xs[q] == xs'[q] ==> l.meta(xs, ys) == l.meta(xs', ys'))
    && (forall m, xs, xs', ys, ys', x, x' :: l.calibrate(m, xs, ys)(x) == l.calibrate(m, xs', ys')(x'))
  }

  lemma {:induction false} SameTestProbs<X, M>(l: Learners<X, M>, d: Table<X>, e: Table<X>, b: Bases, c: Bases)
    requires Shaped(d) && Shaped(e) && e.kickoffs == d.kickoffs && e.ids == d.ids
    requires Consensus(l, d, b).Trained? && Consensus(l, e, c).Trained?
    requires var p := PlanOf(d.kickoffs).value;
      && |p.blocks| == 4 && PlanInRange(d.kickoffs, p)
      && BasesCover(b, d.ids) && BasesCover(c, e.ids) && TestProbs(l, d, b, p) == TestProbs(l, e, c, p)
    ensures Consensus(l, e, c) == Consensus(l, d, b)
  {
    hide TestProbs, Assigned;
  }

  /** A calibration that looks only at its row `q` gives predictions that labels at or after that row's kickoff do not
      change: the base model's column of the row comes from a model of strictly earlier rows. */
  lemma {:induction false} CalibrationIsOutOfSample<X(!new), M(!new)>(l: Learners<X, M>, d: Table<X>, e: Table<X>,
                                                                      b: Bases, c: Bases, q: nat)
    requires Shaped(d) && Shaped(e) && Consensus(l, d, b).Trained? && Consensus(l, e, c).Trained?
    requires PlanOf(d.kickoffs).Ok? && q < |PlanOf(d.kickoffs).value.calibration| && CalibrationSeesOnly(l, q)
    requires var i := PlanOf(d.kickoffs).value.calibration[q]; i < |d.kickoffs| && SameUpTo(d, e, b, c, i)
    ensures Consensus(l, e, c) == Consensus(l, d, b)
  {
    hide Consensus, MetaModel, CalibrationStack, TestStack;
    var p := PlanOf(d.kickoffs).value;
    CalibrationRowStays(l, d, e, b, c, q);
    SameTestProbs(l, d, e, b, c);
  }

  /** A stacking model that looks only at its row `q` gives predictions that labels at or after that row's kickoff do
      not change: block `b` is predicted by a model of the blocks before it, and these are strictly earlier. */
  lemma {:induction false} StackingIsOutOfSample<X(!new), M(!new)>(l: Learners<X, M>, d: Table<X>, e: Table<X>,
                                                                   b: Bases, c: Bases, q: nat)
    requires Shaped(d) && Shaped(e) && Consensus(l, d, b).Trained? && Consensus(l, e, c).Trained?
    requires PlanOf(d.kickoffs).Ok? && |PlanOf(d.kickoffs).value.blocks| == 4
    requires q < |MetaRows(PlanOf(d.kickoffs).value)| && StackingSeesOnly(l, q)
    requires var i := MetaRows(PlanOf(d.kickoffs).value)[q]; i < |d.kickoffs| && SameUpTo(d, e, b, c, i)
    ensures Consensus(l, e, c) == Consensus(l, d, b)
  {
    hide Consensus, MetaStack, CalibrationStack, TestStack;
    var p := PlanOf(d.kickoffs).value;
    MetaRowStays(l, d, e, b, c, q);
    SameTestProbs(l, d, e, b, c);
  }
}
