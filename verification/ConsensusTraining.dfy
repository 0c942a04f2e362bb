/**
 Training with strictly temporal evaluation: which rows each learner is fitted on, and which
 it is then applied to. The learners themselves are parameters.
 */
module ConsensusTraining {
  import opened Elo
  import opened Options
  import opened TemporalWindows

  type FixtureId = nat

  const MIN_TOTAL := 200
  const MIN_META := 60
  const MIN_CALIBRATION := 40
  const MIN_TEST := 40
  const CONSENSUS_CUTS: seq<real> := [0.6, 0.8]
  const OOF_CUTS: seq<real> := [0.25, 0.5, 0.75]

  /** The feature table, column by column. */
  datatype Table<X> = Table(kickoffs: seq<Instant>, ids: seq<FixtureId>, x: seq<X>, y: seq<int>)

  predicate Shaped<X>(d: Table<X>) {
    |d.ids| == |d.kickoffs| && |d.x| == |d.kickoffs| && |d.y| == |d.kickoffs|
  }

  /** The prequential predictions of the three rating methods. */
  datatype Bases = Bases(elo: map<FixtureId, Probs>, glicko: map<FixtureId, Probs>, dixonColes: map<FixtureId, Probs>)

  datatype Stacked = Stacked(elo: Probs, glicko: Probs, dixonColes: Probs, lightgbm: Probs)

  /** `fit` trains a base model, `meta` the stacking model, `calibrate` its calibration. */
  datatype Learners<!X, !M> = Learners(fit: (seq<X>, seq<int>) -> (X -> Probs),
                                       meta: (seq<Stacked>, seq<int>) -> M,
                                       calibrate: (M, seq<Stacked>, seq<int>) -> (Stacked -> Probs))

  datatype Reason = TooFewSamples | BasesMissing | MetaTooSmall | CalibrationTooSmall | TestTooSmall | OneClass

  datatype Outcome =
    | Skipped(reason: Reason)
    | Trained(predictions: map<FixtureId, Probs>)
    | Failed(failure: Failure)    // an exception from cutting the windows
    | Rejected                    // an exception from the guard on them
    | NothingToFit                // an exception from fitting a base model on no rows

  // ---- rows -------------------------------------------------------------------------------------

  ghost predicate InRange(rows: seq<nat>, n: nat) {
    forall p :: 0 <= p < |rows| ==> rows[p] < n
  }

  function At<T>(s: seq<T>, rows: seq<nat>): (r: seq<T>)
    requires InRange(rows, |s|)
    ensures |r| == |rows| && forall p :: 0 <= p < |rows| ==> r[p] == s[rows[p]]
  {
    seq(|rows|, p requires 0 <= p < |rows| => s[rows[p]])
  }

  function Concat(blocks: seq<seq<nat>>): seq<nat> {
    if blocks == [] then [] else Concat(blocks[..|blocks| - 1]) + blocks[|blocks| - 1]
  }

  lemma {:induction false} ConcatHas(blocks: seq<seq<nat>>)
    ensures forall i :: i in Concat(blocks) <==> exists b :: 0 <= b < |blocks| && i in blocks[b]
  {
    if blocks != [] {
      var n := |blocks| - 1;
      ConcatHas(blocks[..n]);
      forall i ensures i in Concat(blocks) <==> exists b :: 0 <= b < |blocks| && i in blocks[b] {
        if i in Concat(blocks[..n]) { var b :| 0 <= b < n && i in blocks[..n][b]; assert i in blocks[b]; }
        if exists b :: 0 <= b < |blocks| && i in blocks[b] {
          var b :| 0 <= b < |blocks| && i in blocks[b];
          if b < n { assert i in blocks[..n][b]; }
        }
      }
    }
  }

  // ---- the plan ---------------------------------------------------------------------------------

  /** The windows of a training run: the rolling-origin blocks of the first one, and the other two. */
  datatype Plan = Plan(region: seq<nat>, blocks: seq<seq<nat>>, calibration: seq<nat>, test: seq<nat>)

  function MetaRows(p: Plan): seq<nat>
    requires |p.blocks| > 0
  {
    Concat(p.blocks[1..])
  }

  lemma {:induction false} WindowsInRange(k: seq<Instant>, cuts: seq<real>)
    requires Windows(k, cuts).Ok?
    ensures |Windows(k, cuts).value| == |cuts| + 1
    ensures forall w :: 0 <= w <= |cuts| ==> InRange(Windows(k, cuts).value[w], |k|)
  {
    forall w | 0 <= w <= |cuts| ensures InRange(Windows(k, cuts).value[w], |k|) {
      WindowsPartition(k, cuts, w);
      var r := Windows(k, cuts).value[w];
      assert forall p :: 0 <= p < |r| ==> r[p] in r;
    }
  }

  function Blocks(region: seq<nat>, inner: seq<seq<nat>>): seq<seq<nat>>
    requires forall b :: 0 <= b < |inner| ==> InRange(inner[b], |region|)
  {
    seq(|inner|, b requires 0 <= b < |inner| => At(region, inner[b]))
  }

  function PlanOf(k: seq<Instant>): Result<Plan> {
    var outer := Windows(k, CONSENSUS_CUTS);
    if outer.Error? then Error(outer.error)
    else
      WindowsInRange(k, CONSENSUS_CUTS);
      var region := outer.value[0];
      var inner := Windows(At(k, region), OOF_CUTS);
      if inner.Error? then Error(inner.error)
      else
        WindowsInRange(At(k, region), OOF_CUTS);
        Ok(Plan(region, Blocks(region, inner.value), outer.value[1], outer.value[2]))
  }

  /** Everything a fit is made on kicks off strictly before everything it is applied to. */
  ghost predicate OutOfSample(k: seq<Instant>, p: Plan) {
    && |p.blocks| == 4 && PlanInRange(k, p)
    && OrderedDisjoint(k, p.blocks)                                          // block b from blocks 0..b-1
    && StrictlyLater(k, p.region, p.calibration)                             // calibration from the region
    && StrictlyLater(k, p.region, p.test) && StrictlyLater(k, p.calibration, p.test) // test from both
    && (forall i :: i in p.region <==> i in Concat(p.blocks))                // nothing else is in the blocks
    && (forall i :: 0 <= i < |k| ==> i in p.region || i in p.calibration || i in p.test)
  }

  ghost predicate PlanInRange(k: seq<Instant>, p: Plan) {
    && InRange(p.region, |k|) && InRange(p.calibration, |k|) && InRange(p.test, |k|)
    && forall b :: 0 <= b < |p.blocks| ==> InRange(p.blocks[b], |k|)
  }

  lemma {:induction false} OuterOrdered(k: seq<Instant>, cuts: seq<real>, a: nat, b: nat)
    requires Windows(k, cuts).Ok? && a < b <= |cuts| && |Windows(k, cuts).value| == |cuts| + 1
    ensures StrictlyLater(k, Windows(k, cuts).value[a], Windows(k, cuts).value[b])
  {
    WindowsPartition(k, cuts, a);
    WindowsPartition(k, cuts, b);
    var wa, wb := Windows(k, cuts).value[a], Windows(k, cuts).value[b];
    forall i, j | i in wa && j in wb ensures i < |k| && j < |k| && i != j && k[i] < k[j] {
      WindowsAreOrdered(k, cuts, i, j);
    }
  }

  lemma {:induction false} BlocksOrdered(k: seq<Instant>, region: seq<nat>, inner: seq<seq<nat>>, a: nat, b: nat)
    requires InRange(region, |k|) && (forall c :: 0 <= c < |inner| ==> InRange(inner[c], |region|))
    requires a < b < |inner| && StrictlyLater(At(k, region), inner[a], inner[b])
    ensures StrictlyLater(k, Blocks(region, inner)[a], Blocks(region, inner)[b])
  {
    var ba, bb := Blocks(region, inner)[a], Blocks(region, inner)[b];
    forall c, i | 0 <= c < |inner| && i in Blocks(region, inner)[c]
      ensures i in region && exists p :: p in inner[c] && region[p] == i
    {
      var q :| 0 <= q < |inner[c]| && Blocks(region, inner)[c][q] == i;
      assert inner[c][q] in inner[c];
    }
    forall i, j | i in ba && j in bb ensures i < |k| && j < |k| && i != j && k[i] < k[j] {
      var p :| p in inner[a] && region[p] == i;
      var q :| q in inner[b] && region[q] == j;
      assert At(k, region)[p] < At(k, region)[q];
    }
  }

  lemma {:induction false} BlockRows(k: seq<Instant>, region: seq<nat>, i: nat)
    requires InRange(region, |k|) && Windows(At(k, region), OOF_CUTS).Ok?
    requires forall b :: 0 <= b < |Windows(At(k, region), OOF_CUTS).value| ==>
      InRange(Windows(At(k, region), OOF_CUTS).value[b], |region|)
    ensures i in region <==> i in Concat(Blocks(region, Windows(At(k, region), OOF_CUTS).value))
  {
    var rk := At(k, region);
    var inner := Windows(rk, OOF_CUTS).value;
    var blocks := Blocks(region, inner);
    ConcatHas(blocks);
    if i in region {
      var p :| 0 <= p < |region| && region[p] == i;
      var w := WindowOf(rk, OOF_CUTS, p);
      WindowsPartition(rk, OOF_CUTS, w);
      assert p in inner[w];
      var q :| 0 <= q < |inner[w]| && inner[w][q] == p;
      assert blocks[w][q] == i;
    }
    if i in Concat(blocks) {
      var b :| 0 <= b < |blocks| && i in blocks[b];
      var q :| 0 <= q < |blocks[b]| && blocks[b][q] == i;
      assert inner[b][q] in inner[b];
    }
  }

  /** The plan of any table that can be cut is out of sample throughout. */
  lemma {:induction false} PlansAreOutOfSample(k: seq<Instant>)
    requires PlanOf(k).Ok?
    ensures OutOfSample(k, PlanOf(k).value)
  {
    var p := PlanOf(k).value;
    WindowsInRange(k, CONSENSUS_CUTS);
    var rk := At(k, p.region);
    WindowsInRange(rk, OOF_CUTS);
    var inner := Windows(rk, OOF_CUTS).value;
    forall b | 0 <= b < 4 ensures InRange(p.blocks[b], |k|) {
      forall i | i in p.blocks[b] ensures i < |k| {
        var q :| 0 <= q < |p.blocks[b]| && p.blocks[b][q] == i;
      }
    }
    forall a, b | 0 <= a < b < 4 ensures StrictlyLater(k, p.blocks[a], p.blocks[b]) {
      OuterOrdered(rk, OOF_CUTS, a, b);
      BlocksOrdered(k, p.region, inner, a, b);
    }
    OuterOrdered(k, CONSENSUS_CUTS, 0, 1);
    OuterOrdered(k, CONSENSUS_CUTS, 0, 2);
    OuterOrdered(k, CONSENSUS_CUTS, 1, 2);
    forall i ensures i in p.region <==> i in Concat(p.blocks) { BlockRows(k, p.region, i); }
    forall i | 0 <= i < |k| ensures i in p.region || i in p.calibration || i in p.test {
      WindowsPartition(k, CONSENSUS_CUTS, WindowOf(k, CONSENSUS_CUTS, i));
    }
  }

  // ---- when it can be cut -------------------------------------------------------------------------

  /** An ordered table can be cut exactly when it has two rows of different kickoffs. */
  lemma {:induction false} CutsExactlyWhen(k: seq<Instant>)
    ensures PlanOf(k).Ok? <==> Ordered(k) && exists i, j :: 0 <= i < |k| && 0 <= j < |k| && k[i] != k[j]
    ensures Ordered(k) && !PlanOf(k).Ok? ==> PlanOf(k) == Error(NoInstants)
  {
    AdjacentIsOrdered(k);
    if Ordered(k) && k != [] {
      WindowsInRange(k, CONSENSUS_CUTS);
      FirstWindow(k);
      RegionOrdered(k);
    }
  }

  lemma {:induction false} RegionOrdered(k: seq<Instant>)
    requires Ordered(k) && Windows(k, CONSENSUS_CUTS).Ok? && InRange(Windows(k, CONSENSUS_CUTS).value[0], |k|)
    ensures AdjacentOrdered(At(k, Windows(k, CONSENSUS_CUTS).value[0]))
  {
    WindowsPartition(k, CONSENSUS_CUTS, 0);
    AdjacentIsOrdered(At(k, Windows(k, CONSENSUS_CUTS).value[0]));
  }

  /** The first window is empty exactly when there is only one instant. */
  lemma {:induction false} FirstWindow(k: seq<Instant>)
    requires Ordered(k) && k != [] && Windows(k, CONSENSUS_CUTS).Ok?
    ensures Windows(k, CONSENSUS_CUTS).value[0] != [] <==> exists i, j :: 0 <= i < |k| && 0 <= j < |k| && k[i] != k[j]
  {
    var instants := Instants(k);
    InstantsAre(k);
    WindowsPartition(k, CONSENSUS_CUTS, 0);
    var b := Boundaries(instants, CONSENSUS_CUTS);
    BoundariesAscend(instants, CONSENSUS_CUTS);
    BisectRightIs(b, k[0]);
    if |instants| == 1 {
      forall i | 0 <= i < |k| ensures k[i] == instants[0] { assert k[i] in instants; }
      assert b[0] == instants[0];
      var w := Windows(k, CONSENSUS_CUTS).value[0];
      forall i | 0 <= i < |k| ensures WindowOf(k, CONSENSUS_CUTS, i) != 0 { BisectRightIs(b, k[i]); }
      HasFirst(w);
    } else {
      SixTenths(|instants|);
      assert b[0] > instants[0];
      assert WindowOf(k, CONSENSUS_CUTS, 0) == 0;
      assert 0 in Windows(k, CONSENSUS_CUTS).value[0];
      assert instants[1] in k;
      var j :| 0 <= j < |k| && k[j] == instants[1];
      assert k[0] != k[j];
    }
  }

  lemma HasFirst(w: seq<nat>)
    ensures w != [] ==> exists i :: i in w
  {
    if w != [] { assert w[0] in w; }
  }

  lemma SixTenths(n: nat)
    requires n >= 2
    ensures CutAt(n, 0.6) >= 1
  {
    var x := n as real * 0.6;
    assert x >= 1.0;
    FloorMonotone(1.0, x);
  }

  // ---- training ---------------------------------------------------------------------------------

  function Predict<X>(model: X -> Probs, x: seq<X>): (r: seq<Probs>)
    ensures |r| == |x| && forall p :: 0 <= p < |x| ==> r[p] == model(x[p])
  {
    seq(|x|, p requires 0 <= p < |x| => model(x[p]))
  }

  predicate BasesCover(b: Bases, ids: seq<FixtureId>) {
    forall p :: 0 <= p < |ids| ==> ids[p] in b.elo && ids[p] in b.glicko && ids[p] in b.dixonColes
  }

  function StackedRow(b: Bases, id: FixtureId, lightgbm: Probs): Stacked
    requires id in b.elo && id in b.glicko && id in b.dixonColes
  {
    Stacked(b.elo[id], b.glicko[id], b.dixonColes[id], lightgbm)
  }

  /** `_stack`: the three base predictions of each row beside its LightGBM probabilities. */
  function Stack(rows: seq<nat>, ids: seq<FixtureId>, b: Bases, lightgbm: seq<Probs>): seq<Stacked>
    requires InRange(rows, |ids|) && BasesCover(b, ids) && |lightgbm| == |rows|
  {
    seq(|rows|, p requires 0 <= p < |rows| => StackedRow(b, ids[rows[p]], lightgbm[p]))
  }

  /** A base model fitted on `rows`. */
  function FitOn<X, M>(l: Learners<X, M>, d: Table<X>, rows: seq<nat>): X -> Probs
    requires Shaped(d) && InRange(rows, |d.kickoffs|)
  {
    l.fit(At(d.x, rows), At(d.y, rows))
  }

  lemma {:induction false} ConcatInRange(blocks: seq<seq<nat>>, n: nat)
    requires forall b :: 0 <= b < |blocks| ==> InRange(blocks[b], n)
    ensures InRange(Concat(blocks), n)
  {
    if blocks != [] { ConcatInRange(blocks[..|blocks| - 1], n); }
  }

  /** Out-of-fold probabilities of blocks 1 .. `n` - 1, each block predicted by a model of all earlier ones. */
  function OutOfFold<X, M>(l: Learners<X, M>, d: Table<X>, blocks: seq<seq<nat>>, n: nat): (r: seq<Probs>)
    requires Shaped(d) && 1 <= n <= |blocks| && forall b :: 0 <= b < |blocks| ==> InRange(blocks[b], |d.kickoffs|)
    ensures |r| == |Concat(blocks[1..n])|
  {
    if n == 1 then []
    else
      ConcatInRange(blocks[..n - 1], |d.kickoffs|);
      assert blocks[1..n] == blocks[1..n - 1] + [blocks[n - 1]];
      OutOfFold(l, d, blocks, n - 1) + Predict(FitOn(l, d, Concat(blocks[..n - 1])), At(d.x, blocks[n - 1]))
  }

  /** The rows the stacking model is fitted on, each with the probabilities of a model of the blocks before its own. */
  function MetaStack<X, M>(l: Learners<X, M>, d: Table<X>, b: Bases, p: Plan): (r: seq<Stacked>)
    requires Shaped(d) && BasesCover(b, d.ids) && |p.blocks| == 4 && PlanInRange(d.kickoffs, p)
    ensures |r| == |MetaRows(p)|
  {
    ConcatInRange(p.blocks[1..], |d.kickoffs|);
    assert p.blocks[1..4] == p.blocks[1..];
    Stack(MetaRows(p), d.ids, b, OutOfFold(l, d, p.blocks, 4))
  }

  function MetaModel<X, M>(l: Learners<X, M>, d: Table<X>, b: Bases, p: Plan): M
    requires Shaped(d) && BasesCover(b, d.ids) && |p.blocks| == 4 && PlanInRange(d.kickoffs, p)
  {
    ConcatInRange(p.blocks[1..], |d.kickoffs|);
    l.meta(MetaStack(l, d, b, p), At(d.y, MetaRows(p)))
  }

  /** The rows it is calibrated on, with the probabilities of a model of the first window. */
  function CalibrationStack<X, M>(l: Learners<X, M>, d: Table<X>, b: Bases, p: Plan): (r: seq<Stacked>)
    requires Shaped(d) && BasesCover(b, d.ids) && |p.blocks| == 4 && PlanInRange(d.kickoffs, p)
    ensures |r| == |p.calibration|
  {
    Stack(p.calibration, d.ids, b, Predict(FitOn(l, d, p.region), At(d.x, p.calibration)))
  }

  function Calibrated<X, M>(l: Learners<X, M>, d: Table<X>, b: Bases, p: Plan): Stacked -> Probs
    requires Shaped(d) && BasesCover(b, d.ids) && |p.blocks| == 4 && PlanInRange(d.kickoffs, p)
  {
    l.calibrate(MetaModel(l, d, b, p), CalibrationStack(l, d, b, p), At(d.y, p.calibration))
  }

  /** The rows it is tested on, with the probabilities of a model of the first two windows. */
  function TestStack<X, M>(l: Learners<X, M>, d: Table<X>, b: Bases, p: Plan): (r: seq<Stacked>)
    requires Shaped(d) && BasesCover(b, d.ids) && |p.blocks| == 4 && PlanInRange(d.kickoffs, p)
    ensures |r| == |p.test|
  {
    Stack(p.test, d.ids, b, Predict(FitOn(l, d, p.region + p.calibration), At(d.x, p.test)))
  }

  function TestProbs<X, M>(l: Learners<X, M>, d: Table<X>, b: Bases, p: Plan): (r: seq<Probs>)
    requires Shaped(d) && BasesCover(b, d.ids) && |p.blocks| == 4 && PlanInRange(d.kickoffs, p)
    ensures |r| == |p.test|
  {
    Predict(Calibrated(l, d, b, p), TestStack(l, d, b, p))
  }

  /** `{ids[i]: p for i, p in zip(rows, probs)}`. */
  function Assigned(ids: seq<FixtureId>, rows: seq<nat>, probs: seq<Probs>, n: nat): map<FixtureId, Probs>
    requires InRange(rows, |ids|) && n <= |rows| == |probs|
  {
    if n == 0 then map[] else Assigned(ids, rows, probs, n - 1)[ids[rows[n - 1]] := probs[n - 1]]
  }

  predicate SingleClass(y: seq<int>) { forall p, q :: 0 <= p < |y| && 0 <= q < |y| ==> y[p] == y[q] }

  /** The floors on the windows, in the order they are checked. */
  function TooSmall<X>(d: Table<X>, p: Plan): (r: seq<Reason>)
    requires Shaped(d) && |p.blocks| == 4 && PlanInRange(d.kickoffs, p)
  {
    ConcatInRange(p.blocks[1..], |d.kickoffs|);
    if |MetaRows(p)| < MIN_META then [MetaTooSmall]
    else if |p.calibration| < MIN_CALIBRATION then [CalibrationTooSmall]
    else if |p.test| < MIN_TEST then [TestTooSmall]
    else if SingleClass(At(d.y, MetaRows(p))) then [OneClass]
    else []
  }

  lemma {:induction false} PlanShape(k: seq<Instant>)
    requires PlanOf(k).Ok?
    ensures |PlanOf(k).value.blocks| == 4 && PlanInRange(k, PlanOf(k).value)
  {
    PlansAreOutOfSample(k);
  }

  /** Some base model would be fitted on no rows: a block's on the blocks before it, the calibration window's on the
      first window, or the test window's on the first two. */
  predicate FitsNothing(p: Plan) {
    || (exists b :: 1 <= b < |p.blocks| && Concat(p.blocks[..b]) == [])
    || p.region == [] || p.region + p.calibration == []
  }

  function Consensus<X, M>(l: Learners<X, M>, d: Table<X>, b: Bases): Outcome
    requires Shaped(d)
  {
    if |d.kickoffs| < MIN_TOTAL then Skipped(TooFewSamples)
    else if !BasesCover(b, d.ids) then Skipped(BasesMissing)
    else
      var plan := PlanOf(d.kickoffs);
      if plan.Error? then Failed(plan.error)
      else
        PlanShape(d.kickoffs);
        var p := plan.value;
        var small := TooSmall(d, p);
        if small != [] then Skipped(small[0])
        else if FitsNothing(p) then NothingToFit
        else Trained(Assigned(d.ids, p.test, TestProbs(l, d, b, p), |p.test|))
  }

  /** `_fit_base_lightgbm`: None is the exception of a fit on no rows. */
  method FitBase<X, M>(l: Learners<X, M>, d: Table<X>, rows: seq<nat>) returns (model: Option<X -> Probs>)
    requires Shaped(d) && InRange(rows, |d.kickoffs|)
    ensures model == if rows == [] then None else Some(FitOn(l, d, rows))
  {
    if rows == [] { return None; }
    return Some(l.fit(At(d.x, rows), At(d.y, rows)));
  }

  /** The rolling origin: block `b` is predicted by a model of the blocks before it. None if one of them is fitted on
      no rows. */
  method RollingOrigin<X, M>(l: Learners<X, M>, d: Table<X>, blocks: seq<seq<nat>>) returns (oof: Option<seq<Probs>>)
    requires Shaped(d) && |blocks| >= 1 && forall b :: 0 <= b < |blocks| ==> InRange(blocks[b], |d.kickoffs|)
    ensures oof.None? <==> exists b :: 1 <= b < |blocks| && Concat(blocks[..b]) == []
    ensures oof.Some? ==> oof.value == OutOfFold(l, d, blocks, |blocks|)
  {
    var probs: seq<Probs> := [];
    for b := 1 to |blocks|
      invariant probs == OutOfFold(l, d, blocks, b)
      invariant forall c :: 1 <= c < b ==> Concat(blocks[..c]) != []
    {
      ConcatInRange(blocks[..b], |d.kickoffs|);
      var model := FitBase(l, d, Concat(blocks[..b]));
      if model.None? { return None; }
      probs := probs + Predict(model.value, At(d.x, blocks[b]));
    }
    return Some(probs);
  }

  method Assign(ids: seq<FixtureId>, rows: seq<nat>, probs: seq<Probs>) returns (m: map<FixtureId, Probs>)
    requires InRange(rows, |ids|) && |rows| == |probs|
    ensures m == Assigned(ids, rows, probs, |rows|)
  {
    m := map[];
    for n := 0 to |rows|
      invariant m == Assigned(ids, rows, probs, n)
    {
      m := m[ids[rows[n]] := probs[n]];
    }
  }

  /** `train_consensus`. The guard on the windows never complains. */
  method TrainConsensus<X, M>(l: Learners<X, M>, d: Table<X>, b: Bases) returns (o: Outcome)
    requires Shaped(d)
    ensures o == Consensus(l, d, b)
  {
    if |d.kickoffs| < MIN_TOTAL { return Skipped(TooFewSamples); }
    if !BasesCover(b, d.ids) { return Skipped(BasesMissing); }
    var plan := PlanOf(d.kickoffs);
    if plan.Error? { return Failed(plan.error); }
    var p := plan.value;
    PlansAreOutOfSample(d.kickoffs);
    var guarded := Guard(d.kickoffs, p);
    if !guarded { return Rejected; }
    var small := TooSmall(d, p);
    if small != [] { return Skipped(small[0]); }
    o := Fit(l, d, b, p);
  }

  /** Both calls of the guard: on the three windows, and on the blocks of the first. */
  method Guard(k: seq<Instant>, p: Plan) returns (ok: bool)
    requires OutOfSample(k, p)
    ensures ok
  {
    var windows := [p.region, p.calibration, p.test];
    forall w, i | 0 <= w < |windows| && i in windows[w] ensures i < |k| {
      var q :| 0 <= q < |windows[w]| && windows[w][q] == i;
    }
    forall w, i | 0 <= w < |p.blocks| && i in p.blocks[w] ensures i < |k| {
      var q :| 0 <= q < |p.blocks[w]| && p.blocks[w][q] == i;
    }
    var c := AssertOrderedDisjoint(k, windows);
    var e := AssertOrderedDisjoint(k, p.blocks);
    ok := c == Fine && e == Fine;
  }

  method Fit<X, M>(l: Learners<X, M>, d: Table<X>, b: Bases, p: Plan) returns (o: Outcome)
    requires Shaped(d) && BasesCover(b, d.ids) && |p.blocks| == 4 && PlanInRange(d.kickoffs, p)
    ensures o == if FitsNothing(p) then NothingToFit
                 else Trained(Assigned(d.ids, p.test, TestProbs(l, d, b, p), |p.test|))
  {
    ConcatInRange(p.blocks[1..], |d.kickoffs|);
    assert p.blocks[1..4] == p.blocks[1..];
    var metaRows := Concat(p.blocks[1..]);
    var oof := RollingOrigin(l, d, p.blocks);
    if oof.None? { return NothingToFit; }
    var metaX := Stack(metaRows, d.ids, b, oof.value);
    var calibrationLgb := FitBase(l, d, p.region);
    if calibrationLgb.None? { return NothingToFit; }
    var calibrationX := Stack(p.calibration, d.ids, b, Predict(calibrationLgb.value, At(d.x, p.calibration)));
    var testLgb := FitBase(l, d, p.region + p.calibration);
    if testLgb.None? { return NothingToFit; }
    var testX := Stack(p.test, d.ids, b, Predict(testLgb.value, At(d.x, p.test)));
    var meta := l.meta(metaX, At(d.y, metaRows));
    var model := l.calibrate(meta, calibrationX, At(d.y, p.calibration));
    var predictions := Assign(d.ids, p.test, Predict(model, testX));
    o := Trained(predictions);
  }

  // ---- no leakage -------------------------------------------------------------------------------

  /** The two tables agree, features and label, on the rows `rows`. */
  ghost predicate SameRows<X>(d: Table<X>, e: Table<X>, rows: seq<nat>)
    requires Shaped(d) && Shaped(e) && |d.kickoffs| == |e.kickoffs| && InRange(rows, |d.kickoffs|)
  {
    forall p :: 0 <= p < |rows| ==> d.x[rows[p]] == e.x[rows[p]] && d.y[rows[p]] == e.y[rows[p]]
  }

  ghost predicate SameBases(b: Bases, c: Bases, ids: seq<FixtureId>, rows: seq<nat>)
    requires InRange(rows, |ids|) && BasesCover(b, ids) && BasesCover(c, ids)
  {
    forall p :: 0 <= p < |rows| ==>
      b.elo[ids[rows[p]]] == c.elo[ids[rows[p]]] && b.glicko[ids[rows[p]]] == c.glicko[ids[rows[p]]]
        && b.dixonColes[ids[rows[p]]] == c.dixonColes[ids[rows[p]]]
  }

  lemma {:induction false} FitSame<X, M>(l: Learners<X, M>, d: Table<X>, e: Table<X>, rows: seq<nat>)
    requires Shaped(d) && Shaped(e) && |d.kickoffs| == |e.kickoffs| && InRange(rows, |d.kickoffs|)
      && SameRows(d, e, rows)
    ensures At(d.x, rows) == At(e.x, rows) && At(d.y, rows) == At(e.y, rows) && FitOn(l, d, rows) == FitOn(l, e, rows)
  {
    assert At(d.x, rows) == At(e.x, rows);
    assert At(d.y, rows) == At(e.y, rows);
  }

  lemma {:induction false} StackSame(rows: seq<nat>, ids: seq<FixtureId>, b: Bases, c: Bases, lightgbm: seq<Probs>)
    requires InRange(rows, |ids|) && BasesCover(b, ids) && BasesCover(c, ids) && |lightgbm| == |rows|
      && SameBases(b, c, ids, rows)
    ensures Stack(rows, ids, b, lightgbm) == Stack(rows, ids, c, lightgbm)
  {}

  lemma {:induction false} OutOfFoldSame<X, M>(l: Learners<X, M>, d: Table<X>, e: Table<X>, blocks: seq<seq<nat>>,
                                               n: nat)
    requires Shaped(d) && Shaped(e) && |d.kickoffs| == |e.kickoffs|
    requires 1 <= n <= |blocks|
    requires forall b :: 0 <= b < |blocks| ==> InRange(blocks[b], |d.kickoffs|) && SameRows(d, e, blocks[b])
    ensures OutOfFold(l, d, blocks, n) == OutOfFold(l, e, blocks, n)
    decreases n
  {
    if n > 1 {
      OutOfFoldSame(l, d, e, blocks, n - 1);
      ConcatInRange(blocks[..n - 1], |d.kickoffs|);
      ConcatSameRows(d, e, blocks[..n - 1]);
      FitSame(l, d, e, Concat(blocks[..n - 1]));
      FitSame(l, d, e, blocks[n - 1]);
    }
  }

  lemma {:induction false} ConcatSameRows<X>(d: Table<X>, e: Table<X>, blocks: seq<seq<nat>>)
    requires Shaped(d) && Shaped(e) && |d.kickoffs| == |e.kickoffs|
    requires forall b :: 0 <= b < |blocks| ==> InRange(blocks[b], |d.kickoffs|) && SameRows(d, e, blocks[b])
    ensures InRange(Concat(blocks), |d.kickoffs|) && SameRows(d, e, Concat(blocks))
  {
    if blocks != [] { ConcatSameRows(d, e, blocks[..|blocks| - 1]); }
  }

  /** The two tables, and what the base methods predict for them, agree on every row fitted on. */
  ghost predicate SameTraining<X>(d: Table<X>, e: Table<X>, b: Bases, c: Bases, p: Plan) {
    && Shaped(d) && Shaped(e) && e.kickoffs == d.kickoffs && e.ids == d.ids && BasesCover(b, d.ids)
       && BasesCover(c, d.ids)
    && |p.blocks| == 4 && PlanInRange(d.kickoffs, p)
    && SameRows(d, e, p.region) && SameRows(d, e, p.calibration)
       && (forall w :: 0 <= w < 4 ==> SameRows(d, e, p.blocks[w]))
    && SameBases(b, c, d.ids, p.calibration) && (forall w :: 0 <= w < 4 ==> SameBases(b, c, d.ids, p.blocks[w]))
  }

  lemma {:induction false} ConcatSameBases(b: Bases, c: Bases, ids: seq<FixtureId>, blocks: seq<seq<nat>>)
    requires BasesCover(b, ids) && BasesCover(c, ids)
    requires forall w :: 0 <= w < |blocks| ==> InRange(blocks[w], |ids|) && SameBases(b, c, ids, blocks[w])
    ensures InRange(Concat(blocks), |ids|) && SameBases(b, c, ids, Concat(blocks))
  {
    if blocks != [] { ConcatSameBases(b, c, ids, blocks[..|blocks| - 1]); }
  }

  lemma {:induction false} MetaSame<X, M>(l: Learners<X, M>, d: Table<X>, e: Table<X>, b: Bases, c: Bases, p: Plan)
    requires SameTraining(d, e, b, c, p)
    ensures MetaModel(l, d, b, p) == MetaModel(l, e, c, p) && TooSmall(d, p) == TooSmall(e, p)
  {
    ConcatSameRows(d, e, p.blocks[1..]);
    ConcatSameBases(b, c, d.ids, p.blocks[1..]);
    OutOfFoldSame(l, d, e, p.blocks, 4);
    assert p.blocks[1..4] == p.blocks[1..];
    StackSame(MetaRows(p), d.ids, b, c, OutOfFold(l, d, p.blocks, 4));
    FitSame(l, d, e, MetaRows(p));
  }

  lemma {:induction false} CalibratedSame<X, M>(l: Learners<X, M>, d: Table<X>, e: Table<X>, b: Bases, c: Bases,
                                                p: Plan)
    requires SameTraining(d, e, b, c, p)
    ensures Calibrated(l, d, b, p) == Calibrated(l, e, c, p)
  {
    hide MetaModel;
    MetaSame(l, d, e, b, c, p);
    FitSame(l, d, e, p.region);
    FitSame(l, d, e, p.calibration);
    StackSame(p.calibration, d.ids, b, c, Predict(FitOn(l, d, p.region), At(d.x, p.calibration)));
  }

  /** A row of the test window is predicted alike if its own features and base predictions agree. */
  lemma {:induction false} TestRowSame<X, M>(l: Learners<X, M>, d: Table<X>, e: Table<X>, b: Bases, c: Bases, p: Plan,
                                             n: nat)
    requires SameTraining(d, e, b, c, p) && n < |p.test|
    requires var i := p.test[n]; d.x[i] == e.x[i] && SameBases(b, c, d.ids, [i])
    ensures TestProbs(l, d, b, p)[n] == TestProbs(l, e, c, p)[n]
  {
    hide Calibrated;
    var i := p.test[n];
    CalibratedSame(l, d, e, b, c, p);
    SameRowsBoth(d, e, p.region, p.calibration);
    FitSame(l, d, e, p.region + p.calibration);
    assert [i][0] == i;
    assert StackedRow(b, d.ids[i], FitOn(l, d, p.region + p.calibration)(d.x[i])) ==
      StackedRow(c, d.ids[i], FitOn(l, e, p.region + p.calibration)(e.x[i]));
  }

  lemma {:induction false} SameRowsBoth<X>(d: Table<X>, e: Table<X>, a: seq<nat>, b: seq<nat>)
    requires Shaped(d) && Shaped(e) && |d.kickoffs| == |e.kickoffs| && InRange(a, |d.kickoffs|)
      && InRange(b, |d.kickoffs|)
    requires SameRows(d, e, a) && SameRows(d, e, b)
    ensures SameRows(d, e, a + b)
  {}

  ghost predicate DistinctIds(ids: seq<FixtureId>) {
    forall i, j :: 0 <= i < j < |ids| ==> ids[i] != ids[j]
  }

  lemma {:induction false} AssignedAt(ids: seq<FixtureId>, rows: seq<nat>, probs: seq<Probs>, n: nat, i: nat)
    requires DistinctIds(ids) && InRange(rows, |ids|) && n <= |rows| == |probs| && i < |ids| && Ascending(rows)
    ensures ids[i] in Assigned(ids, rows, probs, n) <==> exists p :: 0 <= p < n && rows[p] == i
    ensures forall p :: 0 <= p < n && rows[p] == i ==> Assigned(ids, rows, probs, n)[ids[i]] == probs[p]
  {
    if n > 0 { AssignedAt(ids, rows, probs, n - 1, i); }
  }

  /** The rows that kick off before row `i`, and what is predicted for them, are the same in both runs. */
  ghost predicate SamePast<X>(d: Table<X>, e: Table<X>, b: Bases, c: Bases, i: nat)
    requires i < |d.kickoffs|
  {
    && Shaped(d) && Shaped(e) && e.kickoffs == d.kickoffs && e.ids == d.ids && BasesCover(b, d.ids)
       && BasesCover(c, d.ids)
    && forall j {:trigger d.x[j]} :: 0 <= j < |d.kickoffs| && d.kickoffs[j] < d.kickoffs[i] ==>
         d.x[j] == e.x[j] && d.y[j] == e.y[j] && SameBases(b, c, d.ids, [j])
  }

  lemma {:induction false} SamePastRows<X>(d: Table<X>, e: Table<X>, b: Bases, c: Bases, i: nat, rows: seq<nat>)
    requires i < |d.kickoffs| && SamePast(d, e, b, c, i) && InRange(rows, |d.kickoffs|)
    requires forall p :: 0 <= p < |rows| ==> d.kickoffs[rows[p]] < d.kickoffs[i]
    ensures SameRows(d, e, rows) && SameBases(b, c, d.ids, rows)
  {
    forall p | 0 <= p < |rows|
      ensures d.x[rows[p]] == e.x[rows[p]] && d.y[rows[p]] == e.y[rows[p]]
      ensures b.elo[d.ids[rows[p]]] == c.elo[d.ids[rows[p]]] && b.glicko[d.ids[rows[p]]] == c.glicko[d.ids[rows[p]]]
      ensures b.dixonColes[d.ids[rows[p]]] == c.dixonColes[d.ids[rows[p]]]
    {
      var j := rows[p];
      assert d.x[j] == e.x[j] && SameBases(b, c, d.ids, [j]);
      assert [j][0] == j;
    }
  }

  lemma {:induction false} SamePastTraining<X>(d: Table<X>, e: Table<X>, b: Bases, c: Bases, i: nat)
    requires i < |d.kickoffs| && SamePast(d, e, b, c, i) && PlanOf(d.kickoffs).Ok? && i in PlanOf(d.kickoffs).value.test
    ensures SameTraining(d, e, b, c, PlanOf(d.kickoffs).value)
  {
    var p := PlanOf(d.kickoffs).value;
    PlansAreOutOfSample(d.kickoffs);
    forall r | r in p.region ensures d.kickoffs[r] < d.kickoffs[i] {}
    forall q | 0 <= q < |p.region| ensures d.kickoffs[p.region[q]] < d.kickoffs[i] { assert p.region[q] in p.region; }
    forall q | 0 <= q < |p.calibration| ensures d.kickoffs[p.calibration[q]] < d.kickoffs[i] {
      assert p.calibration[q] in p.calibration;
    }
    SamePastRows(d, e, b, c, i, p.region);
    SamePastRows(d, e, b, c, i, p.calibration);
    ConcatHas(p.blocks);
    forall w | 0 <= w < 4 ensures SameRows(d, e, p.blocks[w]) && SameBases(b, c, d.ids, p.blocks[w]) {
      forall q | 0 <= q < |p.blocks[w]| ensures d.kickoffs[p.blocks[w][q]] < d.kickoffs[i] {
        assert p.blocks[w][q] in p.blocks[w];
        assert p.blocks[w][q] in p.region;
      }
      SamePastRows(d, e, b, c, i, p.blocks[w]);
    }
  }

  /** A consensus prediction depends on its own row's features and base predictions, and on rows that kick
      off strictly earlier: on no label of its own instant or later, and on no other simultaneous or later row. */
  lemma {:induction false} NoLeakage<X, M>(l: Learners<X, M>, d: Table<X>, e: Table<X>, b: Bases, c: Bases, i: nat)
    requires i < |d.kickoffs| && SamePast(d, e, b, c, i) && d.x[i] == e.x[i] && SameBases(b, c, d.ids, [i])
      && DistinctIds(d.ids)
    requires Consensus(l, d, b).Trained? && d.ids[i] in Consensus(l, d, b).predictions
    ensures Consensus(l, e, c).Trained? && d.ids[i] in Consensus(l, e, c).predictions
    ensures Consensus(l, e, c).predictions[d.ids[i]] == Consensus(l, d, b).predictions[d.ids[i]]
  {
    hide TestProbs, TooSmall, FitsNothing, OrderedDisjoint, StrictlyLater;
    var p := PlanOf(d.kickoffs).value;
    PlanShape(d.kickoffs);
    WindowsPartition(d.kickoffs, CONSENSUS_CUTS, 2);
    AssignedAt(d.ids, p.test, TestProbs(l, d, b, p), |p.test|, i);
    AssignedAt(d.ids, p.test, TestProbs(l, e, c, p), |p.test|, i);
    var n :| 0 <= n < |p.test| && p.test[n] == i;
    SamePastTraining(d, e, b, c, i);
    MetaSame(l, d, e, b, c, p);
    TestRowSame(l, d, e, b, c, p, n);
  }
}
