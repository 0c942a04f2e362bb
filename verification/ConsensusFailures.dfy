/**
 When consensus training raises instead of giving a reason to skip.

 There are two ways, and no third: one kickoff instant in the whole table, which leaves the
 first window without an instant to cut; and too few instants in the first window, which
 leaves its first block empty, so that the base model of the second is fitted on no rows.
 */
module ConsensusFailures {
  import opened Elo
  import opened TemporalWindows
  import opened ConsensusTraining

  /** The number of different kickoffs. */
  function Kickoffs(k: seq<Instant>): nat { |Instants(k)| }

  // ---- the kickoffs of the first window -----------------------------------------------------------

  ghost predicate StrictlyUp(s: seq<Instant>) { forall i, j :: 0 <= i < j < |s| ==> s[i] < s[j] }

  lemma {:induction false} SameAscending(a: seq<Instant>, b: seq<Instant>)
    requires StrictlyUp(a) && StrictlyUp(b) && forall x :: x in a <==> x in b
    ensures a == b
  {
    if a == [] {
      HasFirstInstant(b);
    } else {
      var m, n := |a| - 1, |b| - 1;
      LastIsLargest(b, a[m]);
      LastIsLargest(a, b[n]);
      forall x ensures x in a[..m] <==> x in b[..n] { AllButLast(a, x); AllButLast(b, x); }
      SameAscending(a[..m], b[..n]);
    }
  }

  lemma HasFirstInstant(s: seq<Instant>)
    ensures s != [] ==> s[0] in s
  {}

  lemma LastIsLargest(s: seq<Instant>, x: Instant)
    requires StrictlyUp(s) && x in s
    ensures s != [] && x <= s[|s| - 1]
  {}

  lemma AllButLast(a: seq<Instant>, x: Instant)
    requires a != [] && StrictlyUp(a)
    ensures x in a[..|a| - 1] <==> x in a && x != a[|a| - 1]
  {
    if x in a && x != a[|a| - 1] {
      var i :| 0 <= i < |a| && a[i] == x;
      assert a[..|a| - 1][i] == x;
    }
  }

  /** The first window holds the kickoffs before its cut. */
  lemma {:induction false} RegionKickoffs(k: seq<Instant>)
    requires PlanOf(k).Ok? && InRange(PlanOf(k).value.region, |k|)
    ensures Ordered(k) && Ordered(At(k, PlanOf(k).value.region)) && Kickoffs(k) > 0
    ensures Kickoffs(At(k, PlanOf(k).value.region)) == CutAt(Kickoffs(k), 0.6) > 0
  {
    var region := PlanOf(k).value.region;
    var rk, n := At(k, region), |Instants(k)|;
    AdjacentIsOrdered(k);
    AdjacentIsOrdered(rk);
    InstantsAre(k);
    InstantsAre(rk);
    CutInRange(n, 0.6, 0.6);
    var c := CutAt(n, 0.6);
    forall x ensures x in Instants(rk) <==> x in Instants(k)[..c] { RegionKickoff(k, region, x, c); }
    SameAscending(Instants(rk), Instants(k)[..c]);
    SomeInstant(rk);
  }

  lemma {:induction false} RegionKickoff(k: seq<Instant>, region: seq<nat>, x: Instant, c: nat)
    requires PlanOf(k).Ok? && region == PlanOf(k).value.region && InRange(region, |k|)
    requires Ordered(k) && Ordered(At(k, region)) && k != [] && c == CutAt(Kickoffs(k), 0.6) <= Kickoffs(k)
    ensures x in Instants(At(k, region)) <==> x in Instants(k)[..c]
  {
    var rk := At(k, region);
    InstantsAre(k);
    InstantsAre(rk);
    WindowsPartition(k, CONSENSUS_CUTS, 0);
    if x in Instants(rk) {
      var q :| 0 <= q < |rk| && rk[q] == x;
      assert region[q] in region && k[region[q]] in k;
      var r :| 0 <= r < |Instants(k)| && Instants(k)[r] == x;
      WindowByRank(k, CONSENSUS_CUTS, region[q], r, 0);
      assert Instants(k)[..c][r] == x;
    }
    if x in Instants(k)[..c] {
      var r :| 0 <= r < c && Instants(k)[..c][r] == x;
      assert Instants(k)[r] in Instants(k);
      var i :| 0 <= i < |k| && k[i] == x;
      WindowByRank(k, CONSENSUS_CUTS, i, r, 0);
      assert i in region;
      var q :| 0 <= q < |region| && region[q] == i;
      assert rk[q] == x;
    }
  }

  // ---- its blocks -----------------------------------------------------------------------------------

  /** Four instants and more have an instant in every quarter; fewer have none in the first. */
  lemma Quarters(m: nat)
    requires m > 0
    ensures m >= 4 ==> 1 <= CutAt(m, 0.25) < CutAt(m, 0.5) < CutAt(m, 0.75) < m
    ensures m < 4 ==> CutAt(m, 0.25) == 0
  {
    var x := m as real * 0.25;
    assert m as real * 0.5 == x + x && m as real * 0.75 == x + x + x;
  }

  lemma SixTenthsIsFour(n: nat)
    requires n > 0
    ensures CutAt(n, 0.6) < 4 <==> n < 7
  {
    var x := n as real * 0.6;
    if n >= 7 { assert x >= 4.0; } else { assert x < 4.0; }
  }

  /** Block `b` of a first window with kickoffs `rk`, as rows of that window. */
  function Inner(rk: seq<Instant>, b: nat): seq<nat>
    requires Windows(rk, OOF_CUTS).Ok? && b < 4
  {
    Windows(rk, OOF_CUTS).value[b]
  }

  lemma {:induction false} BlockFilled(rk: seq<Instant>, b: nat)
    requires Windows(rk, OOF_CUTS).Ok? && Ordered(rk) && Kickoffs(rk) >= 4 && b < 4
    ensures Inner(rk, b) != []
  {
    var m := Kickoffs(rk);
    Quarters(m);
    var r := if b == 0 then 0 else CutAt(m, OOF_CUTS[b - 1]);
    InstantsAre(rk);
    assert Instants(rk)[r] in Instants(rk);
    var i :| 0 <= i < |rk| && rk[i] == Instants(rk)[r];
    forall a | 0 <= a < 3 ensures a < WindowOf(rk, OOF_CUTS, i) <==> CutAt(m, OOF_CUTS[a]) <= r {
      WindowByRank(rk, OOF_CUTS, i, r, a);
    }
    assert OOF_CUTS[0] == 0.25 && OOF_CUTS[1] == 0.5 && OOF_CUTS[2] == 0.75;
    assert b == 0 || b == 1 || b == 2 || b == 3;
    assert WindowOf(rk, OOF_CUTS, i) == b;
    WindowsPartition(rk, OOF_CUTS, b);
    assert i in Inner(rk, b);
  }

  lemma {:induction false} FirstBlockEmpty(rk: seq<Instant>)
    requires Windows(rk, OOF_CUTS).Ok? && Ordered(rk) && 0 < Kickoffs(rk) < 4
    ensures Inner(rk, 0) == []
  {
    Quarters(Kickoffs(rk));
    InstantsAre(rk);
    WindowsPartition(rk, OOF_CUTS, 0);
    forall i | i in Inner(rk, 0) ensures false {
      assert rk[i] in Instants(rk);
      var r :| 0 <= r < |Instants(rk)| && Instants(rk)[r] == rk[i];
      WindowByRank(rk, OOF_CUTS, i, r, 0);
    }
    HasFirst(Inner(rk, 0));
  }

  /** A base model is fitted on no rows exactly if the first window has fewer than four kickoffs, which is if the table
      has fewer than seven; otherwise no block and no fit is without rows. */
  lemma {:induction false} EmptyFitExactlyWhen(k: seq<Instant>)
    requires PlanOf(k).Ok?
    ensures InRange(PlanOf(k).value.region, |k|) && |PlanOf(k).value.blocks| == 4
    ensures FitsNothing(PlanOf(k).value) <==> Kickoffs(At(k, PlanOf(k).value.region)) < 4
    ensures FitsNothing(PlanOf(k).value) <==> Kickoffs(k) < 7
    ensures PlanOf(k).value.region != []
    ensures !FitsNothing(PlanOf(k).value) ==> forall b :: 0 <= b < 4 ==> PlanOf(k).value.blocks[b] != []
  {
    var p := PlanOf(k).value;
    PlanShape(k);
    RegionKickoffs(k);
    SixTenthsIsFour(Kickoffs(k));
    var rk := At(k, p.region);
    WindowsInRange(rk, OOF_CUTS);
    assert forall b :: 0 <= b < 4 ==> |p.blocks[b]| == |Inner(rk, b)|;
    if Kickoffs(rk) < 4 {
      FirstBlockEmpty(rk);
      assert p.blocks[..1] == [p.blocks[0]];
      assert Concat(p.blocks[..1]) == [];
    } else {
      forall b | 0 <= b < 4 ensures p.blocks[b] != [] { BlockFilled(rk, b); }
      forall b | 1 <= b < 4 ensures Concat(p.blocks[..b]) != [] { ConcatFilled(p.blocks[..b]); }
    }
  }

  lemma {:induction false} ConcatFilled(blocks: seq<seq<nat>>)
    requires blocks != [] && blocks[0] != []
    ensures Concat(blocks) != []
  {
    ConcatHas(blocks);
    assert blocks[0][0] in blocks[0];
    HasNone(Concat(blocks), blocks[0][0]);
  }

  lemma HasNone(w: seq<nat>, i: nat)
    requires i in w
    ensures w != []
  {}

  // ---- the exceptions -------------------------------------------------------------------------------

  predicate Raises(o: Outcome) { o.Failed? || o.Rejected? || o.NothingToFit? }

  lemma {:induction false} OneKickoff(k: seq<Instant>)
    requires Ordered(k) && k != []
    ensures Kickoffs(k) >= 1
    ensures Kickoffs(k) == 1 <==> forall i, j :: 0 <= i < |k| && 0 <= j < |k| ==> k[i] == k[j]
  {
    InstantsAre(k);
    var s := Instants(k);
    if |s| == 1 {
      forall i | 0 <= i < |k| ensures k[i] == s[0] { assert k[i] in s; }
    } else {
      assert s[0] in k && s[1] in k;
      var i :| 0 <= i < |k| && k[i] == s[0];
      var j :| 0 <= j < |k| && k[j] == s[1];
      assert k[i] != k[j];
    }
  }

  /** For an ordered table, covered by the base methods and of 200 rows or more, training raises exactly if all rows
      kick off at one instant, or there are fewer than seven instants and the floors and the class check pass. A smaller
      or an uncovered table never raises. */
  lemma {:induction false} FailsExactlyWhen<X, M>(l: Learners<X, M>, d: Table<X>, b: Bases)
    requires Shaped(d) && Ordered(d.kickoffs)
    ensures Consensus(l, d, b) == Failed(NoInstants) <==>
      |d.kickoffs| >= MIN_TOTAL && BasesCover(b, d.ids) && Kickoffs(d.kickoffs) == 1
    ensures Consensus(l, d, b).NothingToFit? <==>
      && |d.kickoffs| >= MIN_TOTAL && BasesCover(b, d.ids) && 2 <= Kickoffs(d.kickoffs) < 7
      && PlanOf(d.kickoffs).Ok? && LargeEnough(d, PlanOf(d.kickoffs).value)
    ensures Raises(Consensus(l, d, b)) <==> Consensus(l, d, b) == Failed(NoInstants) || Consensus(l, d, b).NothingToFit?
  {
    hide FitsNothing, TooSmall, TestProbs, Kickoffs, PlanOf;
    if d.kickoffs != [] {
      CutsExactlyWhen(d.kickoffs);
      OneKickoff(d.kickoffs);
      if PlanOf(d.kickoffs).Ok? {
        PlanShape(d.kickoffs);
        EmptyFitExactlyWhen(d.kickoffs);
      }
    }
  }

  /** The floors on the windows and the class check pass. */
  ghost predicate LargeEnough<X>(d: Table<X>, p: Plan) {
    Shaped(d) && |p.blocks| == 4 && PlanInRange(d.kickoffs, p) && TooSmall(d, p) == []
  }

  // ---- tables that raise ----------------------------------------------------------------------------

  ghost function Knowing(ids: seq<FixtureId>, p: Probs): Bases {
    var known: map<FixtureId, Probs> := map id | id in ids :: p;
    Bases(known, known, known)
  }

  /** 200 fixtures that all kick off at one instant, every one predicted by the base methods. */
  lemma {:induction false} OneKickoffFails<X, M>(l: Learners<X, M>, x: X, p: Probs) returns (d: Table<X>, b: Bases)
    ensures Shaped(d) && Ordered(d.kickoffs) && DistinctIds(d.ids) && |d.ids| == MIN_TOTAL && BasesCover(b, d.ids)
    ensures Consensus(l, d, b) == Failed(NoInstants)
  {
    d := Table(seq(MIN_TOTAL, i => 0), seq(MIN_TOTAL, i => i), seq(MIN_TOTAL, i => x), seq(MIN_TOTAL, i => i % 3));
    b := Knowing(d.ids, p);
    CutsExactlyWhen(d.kickoffs);
  }

  /** Rows `lo` to `hi` - 1, in order. */
  ghost predicate AreRows(s: seq<nat>, lo: nat, hi: nat) {
    Ascending(s) && forall i :: i in s <==> lo <= i < hi
  }

  lemma {:induction false} RowsCount(s: seq<nat>, lo: nat, hi: nat)
    requires AreRows(s, lo, hi) && lo <= hi
    ensures |s| == hi - lo
    decreases hi - lo
  {
    if lo == hi {
      HasFirst(s);
    } else {
      var last := |s| - 1;
      assert hi - 1 in s;
      assert s[last] in s && s[last] == hi - 1;
      forall i ensures i in s[..last] <==> lo <= i < hi - 1 {
        if lo <= i < hi - 1 {
          assert i in s;
          var q :| 0 <= q < |s| && s[q] == i;
          assert s[..last][q] == i;
        }
        if i in s[..last] { var q :| 0 <= q < last && s[..last][q] == i; assert s[q] in s; }
      }
      RowsCount(s[..last], lo, hi - 1);
    }
  }

  /** Three kickoffs of 70 fixtures each. */
  ghost function ThreeKickoffs(): (k: seq<Instant>)
    ensures |k| == 210 && Ordered(k) && forall i :: 0 <= i < 210 ==> k[i] == i / 70
  {
    seq(210, i => i / 70)
  }

  lemma {:induction false} ThreeInstants()
    ensures Instants(ThreeKickoffs()) == [0, 1, 2]
  {
    var k := ThreeKickoffs();
    InstantsAre(k);
    assert k[0] == 0 && k[70] == 1 && k[140] == 2;
    SameAscending(Instants(k), [0, 1, 2]);
  }

  /** Each kickoff is one window. */
  lemma {:induction false} ThreeWindows(w: nat)
    requires w < 3
    ensures Windows(ThreeKickoffs(), CONSENSUS_CUTS).Ok? && |Windows(ThreeKickoffs(), CONSENSUS_CUTS).value| == 3
    ensures AreRows(Windows(ThreeKickoffs(), CONSENSUS_CUTS).value[w], 70 * w, 70 * w + 70)
  {
    var k := ThreeKickoffs();
    AdjacentIsOrdered(k);
    ThreeInstants();
    WindowsPartition(k, CONSENSUS_CUTS, w);
    assert CutAt(3, 0.6) == 1 && CutAt(3, 0.8) == 2;
    forall i | 0 <= i < 210 ensures WindowOf(k, CONSENSUS_CUTS, i) == i / 70 {
      WindowByRank(k, CONSENSUS_CUTS, i, i / 70, 0);
      WindowByRank(k, CONSENSUS_CUTS, i, i / 70, 1);
    }
  }

  lemma {:induction false} ThreePlan() returns (p: Plan)
    ensures PlanOf(ThreeKickoffs()) == TemporalWindows.Ok(p) && |p.blocks| == 4 && PlanInRange(ThreeKickoffs(), p)
    ensures |p.region| == |p.calibration| == |p.test| == 70 && (forall i :: i in p.region <==> 0 <= i < 70)
    ensures p.blocks[0] == []
  {
    var k := ThreeKickoffs();
    assert k[0] != k[70];
    CutsExactlyWhen(k);
    p := PlanOf(k).value;
    PlanShape(k);
    ThreeWindows(0);
    ThreeWindows(1);
    ThreeWindows(2);
    RowsCount(p.region, 0, 70);
    RowsCount(p.calibration, 70, 140);
    RowsCount(p.test, 140, 210);
    ThreeInstants();
    RegionKickoffs(k);
    assert CutAt(3, 0.6) == 1;
    FirstBlockEmpty(At(k, p.region));
  }

  /** Everything of the first window is in the blocks after the first, if that is empty. */
  lemma {:induction false} MetaHasAll(k: seq<Instant>, p: Plan)
    requires PlanOf(k) == TemporalWindows.Ok(p) && |p.blocks| == 4 && p.blocks[0] == []
    ensures forall i :: i in p.region ==> i in MetaRows(p)
    ensures |MetaRows(p)| >= |p.region|
  {
    PlansAreOutOfSample(k);
    ConcatHas(p.blocks);
    ConcatHas(p.blocks[1..]);
    forall i | i in p.region ensures i in MetaRows(p) {
      var b :| 0 <= b < 4 && i in p.blocks[b];
      assert p.blocks[1..][b - 1] == p.blocks[b];
    }
    WindowsPartition(k, CONSENSUS_CUTS, 0);
    AtLeastAsMany(p.region, MetaRows(p));
  }

  lemma {:induction false} AtLeastAsMany(a: seq<nat>, b: seq<nat>)
    requires Ascending(a) && forall i :: i in a ==> i in b
    ensures |a| <= |b|
  {
    if a != [] {
      var last := |a| - 1;
      assert a[last] in a;
      var q :| 0 <= q < |b| && b[q] == a[last];
      var rest := b[..q] + b[q + 1..];
      forall i | i in a[..last] ensures i in rest {
        assert i in a;
        var r :| 0 <= r < |b| && b[r] == i;
        assert r != q;
        assert rest[if r < q then r else r - 1] == i;
      }
      AtLeastAsMany(a[..last], rest);
    }
  }

  /** 210 fixtures at three instants, with home wins, draws and away wins at each: every floor is met, and the first
      base model has no rows to be fitted on. */
  lemma {:induction false} ThreeKickoffsFail<X, M>(l: Learners<X, M>, x: X, q: Probs) returns (d: Table<X>, b: Bases)
    ensures Shaped(d) && Ordered(d.kickoffs) && DistinctIds(d.ids) && |d.ids| == 210 && BasesCover(b, d.ids)
    ensures Consensus(l, d, b) == NothingToFit
  {
    d := Table(ThreeKickoffs(), seq(210, i => i), seq(210, i => x), seq(210, i => i % 3));
    b := Knowing(d.ids, q);
    var p := ThreePlan();
    MetaHasAll(d.kickoffs, p);
    ThreeInstants();
    MixedClasses(d, p);
    FailsExactlyWhen(l, d, b);
  }

  lemma {:induction false} MixedClasses<X>(d: Table<X>, p: Plan)
    requires Shaped(d) && |d.y| == 210 && |p.blocks| == 4 && PlanInRange(d.kickoffs, p) && d.y[0] == 0 && d.y[1] == 1
    requires 0 in MetaRows(p) && 1 in MetaRows(p)
    requires |MetaRows(p)| >= MIN_META && |p.calibration| >= MIN_CALIBRATION && |p.test| >= MIN_TEST
    ensures LargeEnough(d, p)
  {
    ConcatInRange(p.blocks[1..], |d.kickoffs|);
    var m := MetaRows(p);
    var i :| 0 <= i < |m| && m[i] == 0;
    var j :| 0 <= j < |m| && m[j] == 1;
    var y := At(d.y, m);
    assert y[i] != y[j];
  }
}
