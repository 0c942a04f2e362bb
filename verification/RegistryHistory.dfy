/**
 What each governance operation makes of the registry, and what any sequence of them keeps.

 `Performs` is the specification of the operations of `RegistryAdmin.Registry`. Over runs of
 them the champion stays single, in the table and in every snapshot, so that a rollback to a
 snapshot an operation took always succeeds, and undoes the operation.
 */
module RegistryHistory {
  import opened Options
  import opened ModelRegistry
  import opened Sums

  datatype Store = Store(rows: Rows, snapshots: seq<Rows>, manual: bool)

  datatype Op =
    | Reevaluate(metrics: map<Method, Metrics>, rule: Rule)
    | PromoteRow(k: Key)
    | DemoteRow(k: Key)
    | RollBack(id: nat)
    | Recompute
    | SetMode(byHand: bool)
    | SetWeights(weights: map<Method, real>)
    | Upsert(k: Key, samples: int, minSamples: int, now: nat)

  // ---- weights ------------------------------------------------------------------------------------

  predicate Counts(r: Row) { r.visible && r.accuracy.Some? }

  ghost predicate AccuraciesOfVisible(rows: Rows, accuracies: map<Method, real>) {
    && (forall k :: k in rows && Counts(rows[k]) ==> k.name in accuracies)
    && forall m :: m in accuracies ==>
         exists k :: k in rows && k.name == m && Counts(rows[k])
           && accuracies[m] == rows[k].accuracy.value as real / 100.0
  }

  function AllWeighted(rows: Rows, weights: map<Method, int>): Rows {
    map k | k in rows :: rows[k].(weight := WeightOf(weights, k.name))
  }

  /** The automatic weights: shares of a softmax over one visible accuracy for each method. */
  ghost predicate Reweighted(a: Arithmetic, rows: Rows, rows': Rows) {
    exists accuracies :: AccuraciesOfVisible(rows, accuracies) && rows' == AllWeighted(rows, a.softmax(accuracies))
  }

  /** In auto mode a row carries its method's share if some version of the method is visible and has an accuracy -
      not necessarily the row itself - and nothing otherwise. */
  lemma {:induction false} SharesGoToAllVersions(a: Arithmetic, rows: Rows, accuracies: map<Method, real>, k: Key)
    requires AccuraciesOfVisible(rows, accuracies) && k in rows && a.softmax(accuracies).Keys == accuracies.Keys
    ensures AllWeighted(rows, a.softmax(accuracies))[k].weight ==
      if exists j :: j in rows && j.name == k.name && rows[j].visible && rows[j].accuracy.Some?
      then a.softmax(accuracies)[k.name] else 0
    ensures k.name in accuracies ==> exists j ::
      j in rows && j.name == k.name && rows[j].visible && rows[j].accuracy.Some?
      && accuracies[k.name] * 100.0 == rows[j].accuracy.value as real
    ensures forall j :: j in rows ==>
      AllWeighted(rows, a.softmax(accuracies))[j] ==
        rows[j].(weight := AllWeighted(rows, a.softmax(accuracies))[j].weight)
  {
    if k.name in accuracies { assert exists j :: j in rows && j.name == k.name && Counts(rows[j]); }
  }

  /** An invisible version without an accuracy can hold all the weight there is. */
  lemma {:induction false} InvisibleRowGetsAShare() returns (a: Arithmetic, rows: Rows, rows': Rows, k: Key)
    ensures SingleChampion(rows) && Reweighted(a, rows, rows')
    ensures k in rows && !rows[k].visible && rows[k].accuracy.None? && rows'[k].weight == 10_000
  {
    a := Arithmetic((x: real, digits: nat) => x.Floor, (w: map<Method, real>) => map m | m in w :: 10_000);
    k := Key(0, 1);
    var seen := Row(Some(2), Some(5_000), None, None, None, 300, 300, Challenger, true, true, 0);
    rows := map[k := seen.(visible := false, accuracy := None), Key(0, 2) := seen];
    var accuracies: map<Method, real> := map[0 := 50.0];
    assert Key(0, 2) in rows && Counts(rows[Key(0, 2)]);
    assert AccuraciesOfVisible(rows, accuracies);
    rows' := AllWeighted(rows, a.softmax(accuracies));
  }

  ghost function Weights(weights: map<Method, real>): Method -> real {
    (m: Method) => if m in weights then weights[m] else 0.0
  }

  ghost predicate SumsToHundred(weights: map<Method, real>) {
    var total := SumOver(weights.Keys, Weights(weights));
    total - 100.0 <= 0.05 && 100.0 - total <= 0.05
  }

  function ByHand(a: Arithmetic, rows: Rows, weights: map<Method, real>): Rows {
    map k | k in rows ::
      if k.name in weights then rows[k].(weight := a.decimal(weights[k.name], 2)) else rows[k]
  }

  // ---- the operations -----------------------------------------------------------------------------

  /** The rows a snapshot names, as the snapshot has them. */
  function Named(rows: Rows, snapshot: Rows): Rows {
    map k | k in snapshot && k in rows :: snapshot[k]
  }

  lemma {:induction false} NamedAre(rows: Rows, snapshot: Rows)
    ensures forall k :: IsChampion(Named(rows, snapshot), k) <==> k in NamedChampions(rows, snapshot)
  {}

  /** A new version enters as challenger; a known one keeps its status and metrics. */
  function Trained(rows: Rows, k: Key, samples: int, minSamples: int, now: nat): Rows {
    rows[k := if k in rows then rows[k].(samples := samples, trained := Some(now))
              else Row(Some(now), None, None, None, None, samples, minSamples, Challenger, true, true, 0)]
  }

  function Noted(v: Verdict): seq<Rows> { if v.snapshot.Some? then [v.snapshot.value] else [] }

  ghost predicate Reevaluates(a: Arithmetic, s: Store, metrics: map<Method, Metrics>, rule: Rule, targets: Targets,
                              s': Store) {
    && AreTargets(s.rows, metrics, targets)
    && var v := Reevaluated(a, s.rows, metrics, targets, rule);
       s' == Store(v.rows, s.snapshots + Noted(v), s.manual)
  }

  /** What an operation makes of the registry. */
  ghost predicate Performs(a: Arithmetic, s: Store, op: Op, s': Store) {
    match op
    case Reevaluate(metrics, rule) => exists targets :: Reevaluates(a, s, metrics, rule, targets, s')
    case PromoteRow(k) => s' == if k in s.rows then Store(Crowned(s.rows, k), s.snapshots + [s.rows], s.manual) else s
    case DemoteRow(k) =>
      s' == if IsChampion(s.rows, k) then Store(Demoted(s.rows, None), s.snapshots + [s.rows], s.manual) else s
    case RollBack(id) =>
      s' == if id < |s.snapshots| && SingleChampion(Named(s.rows, s.snapshots[id]))
            then s.(rows := Restored(s.rows, s.snapshots[id])) else s
    case Recompute => s' == s.(rows := s'.rows) && Reweighted(a, s.rows, s'.rows)
    case SetMode(byHand) =>
      && s' == s.(rows := s'.rows, manual := byHand)
      && if byHand then s'.rows == s.rows else Reweighted(a, s.rows, s'.rows)
    case SetWeights(weights) =>
      s' == if s.manual && SumsToHundred(weights) then s.(rows := ByHand(a, s.rows, weights)) else s
    case Upsert(k, samples, minSamples, now) => s' == s.(rows := Trained(s.rows, k, samples, minSamples, now))
  }

  /** `ops` one after the other lead from `s` to `s'`. */
  ghost predicate Leads(a: Arithmetic, s: Store, ops: seq<Op>, s': Store)
    decreases |ops|
  {
    if ops == [] then s' == s
    else exists next :: Performs(a, s, ops[0], next) && Leads(a, next, ops[1..], s')
  }

  // ---- what they keep -------------------------------------------------------------------------------

  ghost predicate SoundSnapshots(snapshots: seq<Rows>) {
    forall i :: 0 <= i < |snapshots| ==> SingleChampion(snapshots[i])
  }

  /** At most one champion, in the table and in every snapshot. */
  ghost predicate Sound(s: Store) { SingleChampion(s.rows) && SoundSnapshots(s.snapshots) }

  ghost predicate SameChampions(rows: Rows, rows': Rows) {
    forall k :: IsChampion(rows', k) <==> IsChampion(rows, k)
  }

  lemma {:induction false} VerdictIsSound(a: Arithmetic, rows: Rows, metrics: map<Method, Metrics>, targets: Targets,
                                          rule: Rule)
    requires AreTargets(rows, metrics, targets) && SingleChampion(rows)
    ensures var v := Reevaluated(a, rows, metrics, targets, rule);
      && v.rows.Keys == rows.Keys && SingleChampion(v.rows)
      && (v.snapshot.Some? ==>
            v.snapshot.value == Measured(a, rows, metrics, targets) && SingleChampion(v.snapshot.value))
      && (v.snapshot.None? ==> SameChampions(rows, v.rows))
  {
    hide Measured, Weighted, Titled, IsEligible;
    MeasuredKeeps(a, rows, metrics, targets);
    WinnerHoldsTheTitle(a, rows, metrics, targets, rule);
    OnlyStatusAndWeight(a, rows, metrics, targets, rule);
  }

  /** Every operation keeps the champion single in table and snapshots, and loses neither rows nor snapshots. */
  lemma {:induction false} PerformsKeepsSound(a: Arithmetic, s: Store, op: Op, s': Store)
    requires Sound(s) && Performs(a, s, op, s')
    ensures Sound(s') && s.snapshots <= s'.snapshots && s.rows.Keys <= s'.rows.Keys
  {
    hide Measured, Weighted, Titled, Reevaluated, IsEligible;
    match op
    case Reevaluate(metrics, rule) =>
      var targets :| Reevaluates(a, s, metrics, rule, targets, s');
      VerdictIsSound(a, s.rows, metrics, targets, rule);
    case PromoteRow(k) => if k in s.rows { CrownedMovesTheTitle(s.rows, k); }
    case RollBack(id) =>
      if id < |s.snapshots| {
        NamedAre(s.rows, s.snapshots[id]);
        RollbackRestores(s.rows, s.snapshots[id]);
      }
    case _ => assert forall k :: IsChampion(s'.rows, k) ==> IsChampion(s.rows, k);
  }

  lemma {:induction false} RunKeepsSound(a: Arithmetic, s: Store, ops: seq<Op>, s': Store)
    requires Sound(s) && Leads(a, s, ops, s')
    ensures Sound(s') && s.snapshots <= s'.snapshots && s.rows.Keys <= s'.rows.Keys
    decreases |ops|
  {
    hide Performs, Sound;
    if ops != [] {
      var next :| Performs(a, s, ops[0], next) && Leads(a, next, ops[1..], s');
      PerformsKeepsSound(a, s, ops[0], next);
      RunKeepsSound(a, next, ops[1..], s');
    }
  }

  // ---- undo -----------------------------------------------------------------------------------------

  /** A snapshot taken by these operations can always be rolled back to. */
  lemma {:induction false} SnapshotsStayUsable(rows: Rows, snapshot: Rows)
    requires SingleChampion(snapshot)
    ensures SingleChampion(Named(rows, snapshot))
  {
    assert forall k :: IsChampion(Named(rows, snapshot), k) ==> IsChampion(snapshot, k);
  }

  /** Nobody but a rollback changes who holds the title without a snapshot of the table before. */
  lemma {:induction false} TitleMovesLeaveASnapshot(a: Arithmetic, s: Store, op: Op, s': Store)
    requires Sound(s) && Performs(a, s, op, s') && !op.RollBack? && !SameChampions(s.rows, s'.rows)
    ensures |s'.snapshots| == |s.snapshots| + 1
  {
    hide Measured, Weighted, Titled, Reevaluated, IsEligible;
    if op.Reevaluate? {
      var targets :| Reevaluates(a, s, op.metrics, op.rule, targets, s');
      VerdictIsSound(a, s.rows, op.metrics, targets, op.rule);
    }
  }

  /** The snapshot an operation takes: the table before it, but for the accuracies it stores first. */
  ghost predicate Remembers(s: Store, s': Store) {
    var i := |s.snapshots|;
    && i < |s'.snapshots| && SingleChampion(s'.snapshots[i])
    && s'.snapshots[i].Keys == s.rows.Keys == s'.rows.Keys
    && forall k :: k in s.rows ==>
         RestoredRow(s.rows[k], s'.snapshots[i][k]) == s.rows[k].(accuracy := s'.rows[k].accuracy)
  }

  lemma {:induction false} SnapshotRemembers(a: Arithmetic, s: Store, op: Op, s': Store)
    requires Sound(s) && Performs(a, s, op, s') && |s'.snapshots| > |s.snapshots|
    ensures Remembers(s, s')
      && (!op.Reevaluate? ==> forall k :: k in s.rows ==> s'.rows[k].accuracy == s.rows[k].accuracy)
  {
    if op.Reevaluate? { ReevaluationRemembers(a, s, op, s'); }
    else if op.PromoteRow? { CrownedMovesTheTitle(s.rows, op.k); }
  }

  lemma {:induction false} ReevaluationRemembers(a: Arithmetic, s: Store, op: Op, s': Store)
    requires Sound(s) && op.Reevaluate? && Performs(a, s, op, s') && |s'.snapshots| > |s.snapshots|
    ensures Remembers(s, s')
  {
    hide Measured, Weighted, Titled, Reevaluated, IsEligible;
    var targets :| Reevaluates(a, s, op.metrics, op.rule, targets, s');
    VerdictIsSound(a, s.rows, op.metrics, targets, op.rule);
    OnlyStatusAndWeight(a, s.rows, op.metrics, targets, op.rule);
    MeasuredKeeps(a, s.rows, op.metrics, targets);
  }

  /** Undo. After an operation that took a snapshot, and any further operations - training, weights, other titles,
      other rollbacks - rolling back to that snapshot gives every row of then its status, switches and weight back,
      and the accuracy the operation left it; the champion is the one of then, whatever was trained since; and the
      preview of the same rollback is empty. A promotion and a demotion leave every accuracy as it was. */
  lemma {:induction false} RollbackUndoes(a: Arithmetic, s: Store, op: Op, s1: Store, ops: seq<Op>, s2: Store,
                                          s3: Store)
    requires Sound(s) && Performs(a, s, op, s1) && |s1.snapshots| > |s.snapshots|
    requires Leads(a, s1, ops, s2) && Performs(a, s2, RollBack(|s.snapshots|), s3)
    ensures forall k :: k in s.rows ==>
      && k in s3.rows && s3.rows[k].status == s.rows[k].status && s3.rows[k].weight == s.rows[k].weight
      && s3.rows[k].enabled == s.rows[k].enabled && s3.rows[k].visible == s.rows[k].visible
    ensures forall k :: k in s.rows ==> k in s1.rows && s3.rows[k].accuracy == s1.rows[k].accuracy
    ensures !op.Reevaluate? ==> forall k :: k in s.rows ==> s3.rows[k].accuracy == s.rows[k].accuracy
    ensures SameChampions(s.rows, s3.rows)
    ensures |s.snapshots| < |s3.snapshots| && Diff(s3.rows, s3.snapshots[|s.snapshots|]) == {}
  {
    var i := |s.snapshots|;
    PerformsKeepsSound(a, s, op, s1);
    SnapshotRemembers(a, s, op, s1);
    RunKeepsSound(a, s1, ops, s2);
    hide Leads;
    var snapshot := s1.snapshots[i];
    assert s2.snapshots[i] == snapshot;
    SnapshotsStayUsable(s2.rows, snapshot);
    assert s3 == s2.(rows := Restored(s2.rows, snapshot));
    RollbackRestores(s2.rows, snapshot);
    RestoredIsBefore(s, s1, s2.rows);
  }

  /** And it changes no more than that: the metrics other than the accuracy, the dates and the sample counts stay, and
      a row the snapshot does not know can only lose the title. */
  lemma {:induction false} RollbackSparesTheRest(a: Arithmetic, s: Store, id: nat, s': Store, k: Key)
    requires Performs(a, s, RollBack(id), s') && id < |s.snapshots|
    ensures s'.snapshots == s.snapshots && s'.manual == s.manual && s'.rows.Keys == s.rows.Keys
    ensures k in s.rows ==>
      var r, r' := s.rows[k], s'.rows[k];
      && r'.brier == r.brier && r'.logLoss == r.logLoss && r'.roi == r.roi && r'.samples == r.samples
      && r'.minSamples == r.minSamples && r'.trained == r.trained
      && (k !in s.snapshots[id] ==> r' == r || (r.status == Champion && r' == r.(status := Challenger)))
  {}

  lemma {:induction false} RestoredIsBefore(s: Store, s1: Store, later: Rows)
    requires Remembers(s, s1) && s1.rows.Keys <= later.Keys
    ensures var r := Restored(later, s1.snapshots[|s.snapshots|]);
      && (forall k :: k in s.rows ==>
            && k in r && r[k].status == s.rows[k].status && r[k].weight == s.rows[k].weight
            && r[k].enabled == s.rows[k].enabled && r[k].visible == s.rows[k].visible
            && r[k].accuracy == s1.rows[k].accuracy)
      && SameChampions(s.rows, r)
  {
    var snapshot := s1.snapshots[|s.snapshots|];
    var r := Restored(later, snapshot);
    forall k | k in s.rows
      ensures k in r && r[k].status == s.rows[k].status && r[k].weight == s.rows[k].weight
      ensures r[k].enabled == s.rows[k].enabled && r[k].visible == s.rows[k].visible
        && r[k].accuracy == s1.rows[k].accuracy
    {
      assert RestoredRow(s.rows[k], snapshot[k]) == s.rows[k].(accuracy := s1.rows[k].accuracy);
    }
    forall k ensures IsChampion(r, k) <==> IsChampion(s.rows, k) {
      if k !in s.rows { assert k !in snapshot; }
    }
  }

  // ---- an empty preview -----------------------------------------------------------------------------

  const FIRST_RUN := Row(Some(1), None, None, None, None, 300, 300, Challenger, true, true, 0)
  const SECOND_RUN := FIRST_RUN.(trained := Some(2))

  /** Two versions trained and promoted one after the other. */
  lemma {:induction false} TwoPromotions(a: Arithmetic) returns (ops: seq<Op>, s: Store)
    ensures Leads(a, Store(map[], [], false), ops, s) && |s.snapshots| == 2
    ensures s.rows == map[Key(0, 1) := FIRST_RUN, Key(0, 2) := SECOND_RUN.(status := Champion)]
    ensures s.snapshots[0] == map[Key(0, 1) := FIRST_RUN]
  {
    var j, k := Key(0, 1), Key(0, 2);
    ops := [Upsert(j, 300, 300, 1), PromoteRow(j), Upsert(k, 300, 300, 2), PromoteRow(k)];
    var s1 := Store(map[j := FIRST_RUN], [], false);
    var s2 := Store(map[j := FIRST_RUN.(status := Champion)], [map[j := FIRST_RUN]], false);
    var s3 := s2.(rows := s2.rows[k := SECOND_RUN]);
    s := Store(map[j := FIRST_RUN, k := SECOND_RUN.(status := Champion)], s2.snapshots + [s3.rows], false);
    assert Crowned(s1.rows, j) == s2.rows;
    assert Crowned(s3.rows, k) == s.rows;
    hide Leads, Crowned;
    FourSteps(a, Store(map[], [], false), s1, s2, s3, s, ops);
  }

  /** The preview of rolling back to the first snapshot, taken when only the first version was there, is empty; the
      rollback takes the title from the second. */
  lemma {:induction false} EmptyPreviewAfterPromotions(a: Arithmetic)
      returns (ops: seq<Op>, s: Store, s': Store, k: Key)
    ensures Leads(a, Store(map[], [], false), ops, s) && Performs(a, s, RollBack(0), s')
    ensures |s.snapshots| == 2 && Diff(s.rows, s.snapshots[0]) == {}
    ensures IsChampion(s.rows, k) && !IsChampion(s'.rows, k)
  {
    hide Leads;
    k := Key(0, 2);
    ops, s := TwoPromotions(a);
    s' := s.(rows := Restored(s.rows, s.snapshots[0]));
    SnapshotsStayUsable(s.rows, s.snapshots[0]);
  }

  lemma {:induction false} FourSteps(a: Arithmetic, s0: Store, s1: Store, s2: Store, s3: Store, s4: Store, ops: seq<Op>)
    requires |ops| == 4 && Performs(a, s0, ops[0], s1) && Performs(a, s1, ops[1], s2)
    requires Performs(a, s2, ops[2], s3) && Performs(a, s3, ops[3], s4)
    ensures Leads(a, s0, ops, s4)
  {
    hide Performs;
    assert Leads(a, s4, ops[1..][1..][1..][1..], s4);
    assert Leads(a, s3, ops[1..][1..][1..], s4);
    assert Leads(a, s2, ops[1..][1..], s4);
    assert Leads(a, s1, ops[1..], s4);
  }
}
