/**
 A consensus training in numbers: which rows each window gets, when the training is skipped, and
 what exactly the learners are given.
 */
module ConsensusOutcome {
  import opened Elo
  import opened Options
  import opened TemporalWindows
  import opened ConsensusTraining

  // ---- the windows --------------------------------------------------------------------------------

  lemma CutIsFloor(n: nat, c: real)
    requires n > 0 && 0.0 < c < 1.0
    ensures CutAt(n, c) == (n as real * c).Floor
  {
    var x := n as real;
    assert x * c < x by { assert x - x * c == x * (1.0 - c); Elo.Positive(x, 1.0 - c); }
    assert (x * c).Floor < n;
  }

  /** The first window holds the rows of the first six tenths of the distinct instants, the second those up to eight
      tenths, the third the rest. `rank` is the place of the row's instant among them. */
  lemma {:induction false} WindowsByTenths(k: seq<Instant>, i: nat, rank: nat)
    requires PlanOf(k).Ok? && i < |k| && rank < |Instants(k)| && Instants(k)[rank] == k[i]
    ensures var p := PlanOf(k).value; var n := |Instants(k)| as real;
      && (i in p.region <==> rank < (n * 0.6).Floor)
      && (i in p.calibration <==> (n * 0.6).Floor <= rank < (n * 0.8).Floor)
      && (i in p.test <==> (n * 0.8).Floor <= rank)
  {
    hide Instants;
    var n := |Instants(k)|;
    CutIsFloor(n, 0.6);
    CutIsFloor(n, 0.8);
    assert CONSENSUS_CUTS[0] == 0.6 && CONSENSUS_CUTS[1] == 0.8;
    WindowByRank(k, CONSENSUS_CUTS, i, rank, 0);
    WindowByRank(k, CONSENSUS_CUTS, i, rank, 1);
    hide CutAt, WindowOf;
    WindowsPartition(k, CONSENSUS_CUTS, 0);
    WindowsPartition(k, CONSENSUS_CUTS, 1);
    WindowsPartition(k, CONSENSUS_CUTS, 2);
  }

  lemma {:induction false} InBlock(k: seq<Instant>, j: nat, w: nat)
    requires PlanOf(k).Ok? && j < |PlanOf(k).value.region| && w < 4
    ensures InRange(PlanOf(k).value.region, |k|)
    ensures var p := PlanOf(k).value; var rk := At(k, p.region);
      && |p.blocks| == 4 && Windows(rk, OOF_CUTS).Ok?
      && (p.region[j] in p.blocks[w] <==> WindowOf(rk, OOF_CUTS, j) == w)
  {
    WindowsInRange(k, CONSENSUS_CUTS);
    WindowsPartition(k, CONSENSUS_CUTS, 0);
    var region := PlanOf(k).value.region;
    var rk := At(k, region);
    WindowsInRange(rk, OOF_CUTS);
    WindowsPartition(rk, OOF_CUTS, w);
    var inner := Windows(rk, OOF_CUTS).value;
    PlaceInBlock(region, inner, j, w);
  }

  lemma {:induction false} PlaceInBlock(region: seq<nat>, inner: seq<seq<nat>>, j: nat, w: nat)
    requires j < |region| && w < |inner| && Ascending(region)
    requires forall b :: 0 <= b < |inner| ==> InRange(inner[b], |region|)
    ensures region[j] in Blocks(region, inner)[w] <==> j in inner[w]
  {
    var block := Blocks(region, inner)[w];
    if j in inner[w] {
      var q :| 0 <= q < |inner[w]| && inner[w][q] == j;
      assert block[q] == region[j];
    }
    if region[j] in block {
      var q :| 0 <= q < |block| && block[q] == region[j];
      assert region[inner[w][q]] == region[j];
    }
  }

  /** Its blocks hold a quarter each of the distinct instants of the first window. */
  lemma {:induction false} BlocksByQuarters(k: seq<Instant>, j: nat, rank: nat)
    requires PlanOf(k).Ok? && j < |PlanOf(k).value.region| && InRange(PlanOf(k).value.region, |k|)
    requires rank < |Instants(At(k, PlanOf(k).value.region))|
    requires Instants(At(k, PlanOf(k).value.region))[rank] == k[PlanOf(k).value.region[j]]
    ensures var p := PlanOf(k).value; var n := |Instants(At(k, p.region))| as real;
      && |p.blocks| == 4
      && (p.region[j] in p.blocks[0] <==> rank < (n * 0.25).Floor)
      && (p.region[j] in p.blocks[1] <==> (n * 0.25).Floor <= rank < (n * 0.5).Floor)
      && (p.region[j] in p.blocks[2] <==> (n * 0.5).Floor <= rank < (n * 0.75).Floor)
      && (p.region[j] in p.blocks[3] <==> (n * 0.75).Floor <= rank)
  {
    hide Instants;
    var rk := At(k, PlanOf(k).value.region);
    var n := |Instants(rk)|;
    CutIsFloor(n, 0.25);
    CutIsFloor(n, 0.5);
    CutIsFloor(n, 0.75);
    assert OOF_CUTS[0] == 0.25 && OOF_CUTS[1] == 0.5 && OOF_CUTS[2] == 0.75;
    InBlock(k, j, 0);
    InBlock(k, j, 1);
    InBlock(k, j, 2);
    InBlock(k, j, 3);
    hide PlanOf;
    WindowByRank(rk, OOF_CUTS, j, rank, 0);
    WindowByRank(rk, OOF_CUTS, j, rank, 1);
    WindowByRank(rk, OOF_CUTS, j, rank, 2);
    hide CutAt, WindowOf, Windows;
  }

  // ---- when it is skipped -------------------------------------------------------------------------

  /** Why a training is skipped, in the order of the checks: fewer than 200 rows; a row without one of the base
      predictions; fewer than 60 rows to stack on; fewer than 40 to calibrate on; fewer than 40 to test on; one outcome
      class among the rows to stack on. */
  lemma {:induction false} SkipsExactly<X, M>(l: Learners<X, M>, d: Table<X>, b: Bases)
    requires Shaped(d)
    ensures var o := Consensus(l, d, b);
      && (o == Skipped(TooFewSamples) <==> |d.kickoffs| < 200)
      && (o == Skipped(BasesMissing) <==> |d.kickoffs| >= 200 && exists p ::
            0 <= p < |d.ids| && (d.ids[p] !in b.elo || d.ids[p] !in b.glicko || d.ids[p] !in b.dixonColes))
    ensures PlanOf(d.kickoffs).Ok? ==>
      |PlanOf(d.kickoffs).value.blocks| == 4 && InRange(MetaRows(PlanOf(d.kickoffs).value), |d.y|)
    ensures |d.kickoffs| >= 200 && BasesCover(b, d.ids) && PlanOf(d.kickoffs).Ok? ==>
      var o, p := Consensus(l, d, b), PlanOf(d.kickoffs).value;
      var labels := At(d.y, MetaRows(p));
      && (o == Skipped(MetaTooSmall) <==> |MetaRows(p)| < 60)
      && (o == Skipped(CalibrationTooSmall) <==> |MetaRows(p)| >= 60 && |p.calibration| < 40)
      && (o == Skipped(TestTooSmall) <==> |MetaRows(p)| >= 60 && |p.calibration| >= 40 && |p.test| < 40)
      && (o == Skipped(OneClass) <==>
            && |MetaRows(p)| >= 60 && |p.calibration| >= 40 && |p.test| >= 40
            && forall q, r :: 0 <= q < |labels| && 0 <= r < |labels| ==> labels[q] == labels[r])
  {
    if PlanOf(d.kickoffs).Ok? {
      PlanShape(d.kickoffs);
      ConcatInRange(PlanOf(d.kickoffs).value.blocks[1..], |d.kickoffs|);
    }
    hide PlanOf, PlanInRange, TestProbs, Assigned, FitsNothing;
  }

  // ---- what the learners are given ----------------------------------------------------------------

  /** The prediction of a test row: the model that stacking and calibration make of their rows and those rows' labels,
      applied to its stacked row. What the stacked rows hold is said in `OutOfSample`. */
  lemma {:induction false} TrainedOn<X, M>(l: Learners<X, M>, d: Table<X>, b: Bases, p: Plan, stackLabels: seq<int>,
                                           calibrationLabels: seq<int>, n: nat)
    requires Shaped(d) && DistinctIds(d.ids) && Consensus(l, d, b).Trained? && PlanOf(d.kickoffs) == Ok(p)
    requires |p.blocks| == 4 && PlanInRange(d.kickoffs, p) && InRange(MetaRows(p), |d.y|) && BasesCover(b, d.ids)
    requires |stackLabels| == |MetaRows(p)| && |calibrationLabels| == |p.calibration| && n < |p.test|
    requires forall q :: 0 <= q < |stackLabels| ==> stackLabels[q] == d.y[MetaRows(p)[q]]
    requires forall q :: 0 <= q < |calibrationLabels| ==> calibrationLabels[q] == d.y[p.calibration[q]]
    ensures var model := l.calibrate(l.meta(MetaStack(l, d, b, p), stackLabels), CalibrationStack(l, d, b, p),
                                     calibrationLabels);
      var id := d.ids[p.test[n]]; var predictions := Consensus(l, d, b).predictions;
      id in predictions && predictions[id] == model(TestStack(l, d, b, p)[n])
  {
    hide MetaStack, CalibrationStack, TestStack;
    assert At(d.y, MetaRows(p)) == stackLabels;
    assert At(d.y, p.calibration) == calibrationLabels;
    assert p.test[n] < |d.kickoffs|;
    WindowsPartition(d.kickoffs, CONSENSUS_CUTS, 2);
    AssignedAt(d.ids, p.test, TestProbs(l, d, b, p), |p.test|, p.test[n]);
    hide PlanOf, PlanInRange, FitsNothing, TooSmall, Assigned;
  }

  /** Only rows of the test window are predicted. */
  lemma {:induction false} OnlyTestRows<X, M>(l: Learners<X, M>, d: Table<X>, b: Bases, i: nat)
    requires Shaped(d) && DistinctIds(d.ids) && Consensus(l, d, b).Trained? && i < |d.ids|
    ensures d.ids[i] in Consensus(l, d, b).predictions <==> i in PlanOf(d.kickoffs).value.test
  {
    var p := PlanOf(d.kickoffs).value;
    PlanShape(d.kickoffs);
    WindowsPartition(d.kickoffs, CONSENSUS_CUTS, 2);
    hide TestProbs;
    AssignedAt(d.ids, p.test, TestProbs(l, d, b, p), |p.test|, i);
    hide PlanInRange, FitsNothing, TooSmall, Assigned;
  }
}
