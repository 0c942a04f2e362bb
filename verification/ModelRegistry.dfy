/**
 The model registry: one row per (method, version), at most one champion, and the changes
 governance makes to the table. Row identity is the unique pair; metrics and weights are the
 stored decimals, in hundredths (accuracy, weight) or as reals.
 */
module ModelRegistry {
  import opened Options

  type Method = nat
  type Version = nat

  datatype Key = Key(name: Method, version: Version)

  datatype Status = Challenger | Champion | Retired

  datatype Row = Row(trained: Option<nat>, accuracy: Option<int>, brier: Option<int>, logLoss: Option<int>,
    roi: Option<int>,
                     samples: int, minSamples: int, status: Status, enabled: bool, visible: bool, weight: int)

  type Rows = map<Key, Row>

  /** What one evaluation says of a method; a number that is not finite is None. */
  datatype Metrics = Metrics(accuracy: Option<real>, brier: Option<real>, logLoss: Option<real>, roi: Option<real>,
                             samples: int, version: Option<Version>)

  /** Rounding to a number of decimals, and the softmax of accuracies, in hundredths. */
  datatype Arithmetic = Arithmetic(decimal: (real, nat) -> int, softmax: map<Method, real> -> map<Method, int>)

  // ---- the single-champion index ------------------------------------------------------------------

  predicate IsChampion(rows: Rows, k: Key) { k in rows && rows[k].status == Champion }

  ghost predicate SingleChampion(rows: Rows) {
    forall a, b :: IsChampion(rows, a) && IsChampion(rows, b) ==> a == b
  }

  /** The table when a flush has written the rows `done` and no others yet. */
  function Partly(db: Rows, mem: Rows, done: set<Key>): Rows {
    map k | k in db :: if k in done && k in mem then mem[k] else db[k]
  }

  /** No two different rows are champions, one of them before and one after the flush included. */
  ghost predicate FlushSafe(db: Rows, mem: Rows) {
    forall a, b :: (IsChampion(db, a) || IsChampion(mem, a)) && (IsChampion(db, b) || IsChampion(mem, b)) ==> a == b
  }

  /** Exactly then does every order of writing the rows keep the index satisfied at every row. */
  lemma {:induction false} FlushSafeExactly(db: Rows, mem: Rows)
    requires db.Keys == mem.Keys
    ensures FlushSafe(db, mem) <==> forall done :: SingleChampion(Partly(db, mem, done))
  {
    if forall done :: SingleChampion(Partly(db, mem, done)) {
      forall a, b | (IsChampion(db, a) || IsChampion(mem, a)) && (IsChampion(db, b) || IsChampion(mem, b))
        ensures a == b {
        if a != b { TwoAtOnce(db, mem, a, b); }
      }
    }
    if FlushSafe(db, mem) {
      forall done ensures SingleChampion(Partly(db, mem, done)) { SafeAtEveryRow(db, mem, done); }
    }
  }

  lemma {:induction false} SafeAtEveryRow(db: Rows, mem: Rows, done: set<Key>)
    requires db.Keys == mem.Keys && FlushSafe(db, mem)
    ensures SingleChampion(Partly(db, mem, done))
  {
    var p := Partly(db, mem, done);
    assert forall k :: IsChampion(p, k) ==> IsChampion(db, k) || IsChampion(mem, k);
  }

  /** A row that holds the title before and another one after: some order of the writes has both at once. */
  lemma {:induction false} TwoAtOnce(db: Rows, mem: Rows, a: Key, b: Key)
    requires db.Keys == mem.Keys && a != b
    requires (IsChampion(db, a) || IsChampion(mem, a)) && (IsChampion(db, b) || IsChampion(mem, b))
    ensures exists done :: !SingleChampion(Partly(db, mem, done))
  {
    var done := (if IsChampion(db, a) then {} else {a}) + (if IsChampion(db, b) then {} else {b});
    var p := Partly(db, mem, done);
    assert IsChampion(p, a) && IsChampion(p, b);
  }

  // ---- changes of status --------------------------------------------------------------------------

  /** Every champion but `keep` is a challenger again. */
  function Demoted(rows: Rows, keep: Option<Key>): Rows {
    map k | k in rows :: if rows[k].status == Champion && keep != Some(k) then rows[k].(status := Challenger)
      else rows[k]
  }

  function Promoted(rows: Rows, k: Key): Rows
    requires k in rows
  {
    rows[k := rows[k].(status := Champion)]
  }

  /** `k` holds the title, and nobody else does. */
  function Crowned(rows: Rows, k: Key): Rows
    requires k in rows
  {
    Promoted(Demoted(rows, Some(k)), k)
  }

  /** Crowning moves the title to `k` and touches nothing else. */
  lemma {:induction false} CrownedMovesTheTitle(rows: Rows, k: Key)
    requires k in rows
    ensures forall j :: IsChampion(Crowned(rows, k), j) <==> j == k
    ensures forall j :: j in rows && !IsChampion(rows, j) && j != k ==> Crowned(rows, k)[j] == rows[j]
    ensures forall j :: j in rows ==> Crowned(rows, k)[j].(status := rows[j].status) == rows[j]
    ensures (forall j :: IsChampion(rows, j) <==> j == k) ==> Crowned(rows, k) == rows
  {
    if forall j :: IsChampion(rows, j) <==> j == k {
      forall j | j in rows ensures Crowned(rows, k)[j] == rows[j] { assert IsChampion(rows, j) <==> j == k; }
    }
  }

  // ---- which row an evaluation belongs to -----------------------------------------------------------

  /** `last_trained_at`, or the beginning of time. */
  function TrainedAt(r: Row): nat { if r.trained.Some? then r.trained.value else 0 }

  /** `a` is the more current version of the two. */
  predicate MoreCurrent(rows: Rows, a: Key, b: Key)
    requires a in rows && b in rows
  {
    TrainedAt(rows[a]) > TrainedAt(rows[b]) || (TrainedAt(rows[a]) == TrainedAt(rows[b]) && a.version > b.version)
  }

  /** `k` is the most recently trained row of its method, ties broken by version. */
  ghost predicate IsLatest(rows: Rows, k: Key) {
    k in rows && forall j :: j in rows && j.name == k.name && j != k ==> MoreCurrent(rows, k, j)
  }

  lemma {:induction false} LatestUnique(rows: Rows, a: Key, b: Key)
    requires IsLatest(rows, a) && IsLatest(rows, b) && a.name == b.name
    ensures a == b
  {}

  /** The evaluated version when the metrics name one, else the latest. */
  ghost predicate IsTarget(rows: Rows, metrics: map<Method, Metrics>, m: Method, k: Key) {
    m in metrics && k.name == m && k in rows
      && (metrics[m].version == Some(k.version) || (metrics[m].version.None? && IsLatest(rows, k)))
  }

  type Targets = map<Method, Key>

  ghost predicate AreTargets(rows: Rows, metrics: map<Method, Metrics>, targets: Targets) {
    && (forall m :: m in targets ==> IsTarget(rows, metrics, m, targets[m]))
    && (forall m, k :: IsTarget(rows, metrics, m, k) ==> m in targets)
  }

  /** There is one answer, whatever order the rows are read in. */
  lemma {:induction false} TargetsUnique(rows: Rows, metrics: map<Method, Metrics>, a: Targets, b: Targets)
    requires AreTargets(rows, metrics, a) && AreTargets(rows, metrics, b)
    ensures a == b
  {
    forall m | m in a || m in b ensures m in a && m in b && a[m] == b[m] {
      if m in a { assert IsTarget(rows, metrics, m, a[m]); }
      if m in b { assert IsTarget(rows, metrics, m, b[m]); }
      if metrics[m].version.None? { LatestUnique(rows, a[m], b[m]); }
    }
  }

  /** The methods with targets depend on nothing an evaluation or a promotion changes. */
  lemma {:induction false} TargetsStand(rows: Rows, rows': Rows, metrics: map<Method, Metrics>, targets: Targets)
    requires AreTargets(rows, metrics, targets) && rows'.Keys == rows.Keys && forall k :: k in rows ==>
      rows'[k].trained == rows[k].trained
    ensures AreTargets(rows', metrics, targets)
  {
    forall k ensures IsLatest(rows, k) <==> IsLatest(rows', k) {
      if k in rows { assert forall j :: j in rows ==> (MoreCurrent(rows, k, j) <==> MoreCurrent(rows', k, j)); }
    }
    forall m, k ensures IsTarget(rows, metrics, m, k) <==> IsTarget(rows', metrics, m, k) {}
  }

  // ---- the champion rule ---------------------------------------------------------------------------

  predicate Finite(m: Metrics) { m.brier.Some? && m.logLoss.Some? && m.accuracy.Some? && m.roi.Some? }

  predicate IsEligible(rows: Rows, metrics: map<Method, Metrics>, targets: Targets, minSamples: int, m: Method) {
    && m in metrics && m in targets && targets[m] in rows && rows[targets[m]].enabled
    && Finite(metrics[m]) && metrics[m].samples >= minSamples
  }

  function Eligible(rows: Rows, metrics: map<Method, Metrics>, targets: Targets, minSamples: int): set<Method> {
    set m | m in metrics && IsEligible(rows, metrics, targets, minSamples, m)
  }

  /** Lower Brier, then lower log loss, then the smaller name. */
  predicate Better(metrics: map<Method, Metrics>, a: Method, b: Method)
    requires a in metrics && b in metrics && Finite(metrics[a]) && Finite(metrics[b])
  {
    var x, y := metrics[a], metrics[b];
    || x.brier.value < y.brier.value
    || (x.brier.value == y.brier.value
       && (x.logLoss.value < y.logLoss.value || (x.logLoss.value == y.logLoss.value && a < b)))
  }

  ghost predicate AllFinite(metrics: map<Method, Metrics>, s: set<Method>) {
    forall m :: m in s ==> m in metrics && Finite(metrics[m])
  }

  ghost predicate IsBest(metrics: map<Method, Metrics>, eligible: set<Method>, best: Method) {
    best in eligible && AllFinite(metrics, eligible) && forall m :: m in eligible && m != best ==>
      Better(metrics, best, m)
  }

  /** There is a best method, and only one. */
  lemma {:induction false} BestExists(metrics: map<Method, Metrics>, eligible: set<Method>) returns (best: Method)
    requires eligible != {} && AllFinite(metrics, eligible)
    ensures IsBest(metrics, eligible, best)
    decreases |eligible|
  {
    var m :| m in eligible;
    if eligible == {m} { best := m; }
    else {
      var rest := BestExists(metrics, eligible - {m});
      best := if Better(metrics, rest, m) then rest else m;
      assert Better(metrics, rest, m) || Better(metrics, m, rest);
      forall j | j in eligible && j != best ensures Better(metrics, best, j) {
        if best == m && j != rest { assert Better(metrics, rest, j); }
      }
    }
  }

  lemma BestUnique(metrics: map<Method, Metrics>, eligible: set<Method>, a: Method, b: Method)
    requires IsBest(metrics, eligible, a) && IsBest(metrics, eligible, b)
    ensures a == b
  {}

  ghost function BestOf(metrics: map<Method, Metrics>, eligible: set<Method>): (b: Method)
    requires eligible != {} && AllFinite(metrics, eligible)
    ensures IsBest(metrics, eligible, b)
  {
    assert exists b :: IsBest(metrics, eligible, b) by { var b := BestExists(metrics, eligible); }
    var b :| IsBest(metrics, eligible, b);
    b
  }

  /** The method holding the title, whatever its version, if it is eligible. */
  ghost predicate IsIncumbent(rows: Rows, eligible: set<Method>, m: Method) {
    m in eligible && exists k :: IsChampion(rows, k) && k.name == m
  }

  ghost function IncumbentOf(rows: Rows, eligible: set<Method>): Option<Method> {
    if m :| IsIncumbent(rows, eligible, m) then Some(m) else None
  }

  /** The best method, unless the incumbent is another one and not beaten by the margin. */
  function Winner(metrics: map<Method, Metrics>, best: Method, incumbent: Option<Method>, margin: real): Method
    requires best in metrics && Finite(metrics[best])
    requires incumbent.Some? ==> incumbent.value in metrics && Finite(metrics[incumbent.value])
  {
    if incumbent.Some? && incumbent.value != best
      && metrics[incumbent.value].brier.value - metrics[best].brier.value < margin
    then incumbent.value else best
  }

  /** Some eligible method is better than `incumbent`, its Brier lower by at least the margin. */
  ghost predicate Overtaken(metrics: map<Method, Metrics>, eligible: set<Method>, incumbent: Method, margin: real)
    requires AllFinite(metrics, eligible) && incumbent in eligible
  {
    exists m :: m in eligible && Overtakes(metrics, m, incumbent, margin)
  }

  predicate Overtakes(metrics: map<Method, Metrics>, m: Method, incumbent: Method, margin: real)
    requires m in metrics && incumbent in metrics && Finite(metrics[m]) && Finite(metrics[incumbent])
  {
    Better(metrics, m, incumbent) && metrics[m].brier.value <= metrics[incumbent].brier.value - margin
  }

  // ---- a re-evaluation ----------------------------------------------------------------------------

  /** The metrics stored on each evaluated row. */
  function Measured(a: Arithmetic, rows: Rows, metrics: map<Method, Metrics>, targets: Targets): (r: Rows)
    ensures r.Keys == rows.Keys
  {
    map k | k in rows ::
      if k.name in targets && targets[k.name] == k && k.name in metrics
      then Scored(a, rows[k], metrics[k.name]) else rows[k]
  }

  function Rounded(a: Arithmetic, x: Option<real>, digits: nat): Option<int> {
    if x.Some? then Some(a.decimal(x.value, digits)) else None
  }

  function Scored(a: Arithmetic, r: Row, m: Metrics): Row {
    r.(accuracy := Rounded(a, m.accuracy, 2), brier := Rounded(a, m.brier, 6), logLoss := Rounded(a, m.logLoss, 6),
       roi := Rounded(a, m.roi, 4), samples := m.samples)
  }

  /** Softmax weights on the evaluated rows, none on their methods' other versions. */
  function Weighted(rows: Rows, targets: Targets, weights: map<Method, int>): Rows {
    map k | k in rows :: if k.name in targets
      then rows[k].(weight := if targets[k.name] == k then WeightOf(weights, k.name) else 0) else rows[k]
  }

  function WeightOf(weights: map<Method, int>, m: Method): int { if m in weights then weights[m] else 0 }

  function Accuracies(metrics: map<Method, Metrics>, eligible: set<Method>): map<Method, real>
    requires AllFinite(metrics, eligible)
  {
    map m | m in eligible :: metrics[m].accuracy.value
  }

  /** Whether `k` already holds the title, alone. */
  ghost predicate Stands(rows: Rows, k: Key) {
    forall j :: IsChampion(rows, j) <==> j == k
  }

  /** `measured` with the title at `k`, moved only if it is not there yet. */
  ghost function Titled(measured: Rows, k: Key): (r: Rows)
    requires k in measured
    ensures r.Keys == measured.Keys && Stands(r, k)
    ensures forall j :: j in measured ==> r[j] == measured[j].(status := r[j].status)
    ensures Stands(measured, k) ==> r == measured
  {
    if Stands(measured, k) then measured else Crowned(measured, k)
  }

  /** What a re-evaluation makes of the table, and whom it returns. */
  datatype Verdict = Verdict(rows: Rows, winner: Option<Method>, snapshot: Option<Rows>)

  datatype Rule = Rule(minSamples: int, margin: real, auto: bool)

  ghost function Reevaluated(a: Arithmetic, rows: Rows, metrics: map<Method, Metrics>, targets: Targets,
                             rule: Rule): Verdict
    requires AreTargets(rows, metrics, targets)
  {
    var measured := Measured(a, rows, metrics, targets);
    var eligible := Eligible(rows, metrics, targets, rule.minSamples);
    if eligible == {} then Verdict(measured, None, None)
    else
      var w := Winner(metrics, BestOf(metrics, eligible), IncumbentOf(rows, eligible), rule.margin);
      var titled := Titled(measured, targets[w]);
      Verdict(if rule.auto then Weighted(titled, targets, a.softmax(Accuracies(metrics, eligible))) else titled,
              Some(w), if Stands(rows, targets[w]) then None else Some(measured))
  }

  lemma {:induction false} MeasuredKeeps(a: Arithmetic, rows: Rows, metrics: map<Method, Metrics>, targets: Targets)
    ensures forall k :: k in rows ==> (var r := Measured(a, rows, metrics, targets)[k];
      r.status == rows[k].status && r.trained == rows[k].trained && r.enabled == rows[k].enabled
        && r.visible == rows[k].visible && r.weight == rows[k].weight)
    ensures forall k :: IsChampion(Measured(a, rows, metrics, targets), k) <==> IsChampion(rows, k)
  {}

  lemma {:induction false} WeightedKeeps(rows: Rows, targets: Targets, weights: map<Method, int>)
    ensures Weighted(rows, targets, weights).Keys == rows.Keys
    ensures forall k :: k in rows ==>
      Weighted(rows, targets, weights)[k] == rows[k].(weight := Weighted(rows, targets, weights)[k].weight)
    ensures forall k :: IsChampion(Weighted(rows, targets, weights), k) <==> IsChampion(rows, k)
  {}

  lemma {:induction false} EligibleStands(rows: Rows, rows': Rows, metrics: map<Method, Metrics>, targets: Targets,
                                          minSamples: int)
    requires rows'.Keys == rows.Keys && forall k :: k in rows ==> rows'[k].enabled == rows[k].enabled
    ensures Eligible(rows', metrics, targets, minSamples) == Eligible(rows, metrics, targets, minSamples)
  {
    forall m ensures IsEligible(rows', metrics, targets, minSamples, m) <==>
      IsEligible(rows, metrics, targets, minSamples, m) {}
  }

  /** What a re-evaluation does to a row beyond its metrics: status and weight. */
  lemma {:induction false} OnlyStatusAndWeight(a: Arithmetic, rows: Rows, metrics: map<Method, Metrics>,
                                               targets: Targets, rule: Rule)
    requires AreTargets(rows, metrics, targets)
    ensures var v := Reevaluated(a, rows, metrics, targets, rule); var measured := Measured(a, rows, metrics, targets);
      v.rows.Keys == rows.Keys && forall k :: k in rows ==>
        v.rows[k] == measured[k].(status := v.rows[k].status, weight := v.rows[k].weight)
  {
    hide Measured, Weighted, Titled;
    var eligible := Eligible(rows, metrics, targets, rule.minSamples);
    if eligible != {} {
      var w := Winner(metrics, BestOf(metrics, eligible), IncumbentOf(rows, eligible), rule.margin);
      WeightedKeeps(Titled(Measured(a, rows, metrics, targets), targets[w]), targets,
        a.softmax(Accuracies(metrics, eligible)));
    }
  }

  /** The evaluated row of the winner, an enabled one, is then the only champion; with nobody eligible no status
      changes. */
  lemma {:induction false} WinnerHoldsTheTitle(a: Arithmetic, rows: Rows, metrics: map<Method, Metrics>,
                                               targets: Targets, rule: Rule)
    requires AreTargets(rows, metrics, targets)
    ensures var v := Reevaluated(a, rows, metrics, targets, rule);
      && (v.winner.Some? ==> v.winner.value in Eligible(rows, metrics, targets, rule.minSamples)
                             && metrics[v.winner.value].samples >= rule.minSamples && Finite(metrics[v.winner.value])
                             && rows[targets[v.winner.value]].enabled && Stands(v.rows, targets[v.winner.value]))
      && (v.winner.None? <==> Eligible(rows, metrics, targets, rule.minSamples) == {})
      && (v.winner.None? ==> v.rows == Measured(a, rows, metrics, targets))
  {
    hide Measured, Weighted, Titled, Stands;
    var eligible := Eligible(rows, metrics, targets, rule.minSamples);
    if eligible != {} {
      var w := Winner(metrics, BestOf(metrics, eligible), IncumbentOf(rows, eligible), rule.margin);
      var titled := Titled(Measured(a, rows, metrics, targets), targets[w]);
      WeightedStands(titled, targets, a.softmax(Accuracies(metrics, eligible)), targets[w]);
    }
  }

  /** The rule, both ways. An eligible method that holds the title loses it exactly if some eligible method is
      better and beats its Brier by the margin, and then to the best method; if no eligible method holds the title,
      the best one gets it. */
  lemma {:induction false} ChampionRule(a: Arithmetic, rows: Rows, metrics: map<Method, Metrics>, targets: Targets,
                                        rule: Rule)
    requires AreTargets(rows, metrics, targets)
    ensures var w := Reevaluated(a, rows, metrics, targets, rule).winner;
      RuleObeyed(rows, metrics, Eligible(rows, metrics, targets, rule.minSamples), rule.margin, w)
  {
    hide Measured, Weighted, Titled, Eligible, Stands;
    var eligible := Eligible(rows, metrics, targets, rule.minSamples);
    EligibleFinite(rows, metrics, targets, rule.minSamples);
    if eligible != {} {
      var best := BestOf(metrics, eligible);
      forall k: Key | k.name in eligible && Stands(rows, k)
        ensures IncumbentOf(rows, eligible) == Some(k.name)
        ensures Overtaken(metrics, eligible, k.name, rule.margin) <==>
          best != k.name && Overtakes(metrics, best, k.name, rule.margin)
      {
        TitleIsIncumbent(rows, eligible, k);
        BestOvertakes(metrics, eligible, best, k.name, rule.margin);
      }
    }
  }

  /** What the rule says of a winner. */
  ghost predicate RuleObeyed(rows: Rows, metrics: map<Method, Metrics>, eligible: set<Method>, margin: real,
                             winner: Option<Method>)
  {
    && AllFinite(metrics, eligible)
    && (winner.None? <==> eligible == {})
    && (forall k {:trigger Stands(rows, k)} :: Stands(rows, k) && k.name in eligible ==>
          && (winner != Some(k.name) <==> Overtaken(metrics, eligible, k.name, margin))
          && (winner != Some(k.name) ==> IsBest(metrics, eligible, winner.value)))
    && (eligible != {} && (forall k :: IsChampion(rows, k) ==> k.name !in eligible) ==>
          IsBest(metrics, eligible, winner.value))
  }

  lemma TitleIsIncumbent(rows: Rows, eligible: set<Method>, k: Key)
    requires Stands(rows, k) && k.name in eligible
    ensures IncumbentOf(rows, eligible) == Some(k.name)
  {
    IncumbentIs(rows, eligible, k);
  }

  /** If anybody overtakes the incumbent, the best method does. */
  lemma BestOvertakes(metrics: map<Method, Metrics>, eligible: set<Method>, best: Method, incumbent: Method,
                      margin: real)
    requires IsBest(metrics, eligible, best) && incumbent in eligible
    ensures Overtaken(metrics, eligible, incumbent, margin) <==>
      best != incumbent && Overtakes(metrics, best, incumbent, margin)
  {
    if Overtaken(metrics, eligible, incumbent, margin) {
      var m :| m in eligible && Overtakes(metrics, m, incumbent, margin);
      assert m != best ==> Better(metrics, best, m);
    }
  }

  lemma {:induction false} WeightedStands(rows: Rows, targets: Targets, weights: map<Method, int>, k: Key)
    requires Stands(rows, k)
    ensures Stands(Weighted(rows, targets, weights), k)
  {
    WeightedKeeps(rows, targets, weights);
  }

  /** With a single champion, the eligible incumbent is one method. */
  lemma IncumbentIs(rows: Rows, eligible: set<Method>, k: Key)
    requires forall j :: IsChampion(rows, j) <==> j == k
    ensures k.name in eligible ==> IncumbentOf(rows, eligible) == Some(k.name)
  {
    if k.name in eligible {
      assert IsChampion(rows, k);
      assert IsIncumbent(rows, eligible, k.name);
    }
  }

  lemma {:induction false} MeasuredAgain(a: Arithmetic, rows: Rows, metrics: map<Method, Metrics>, targets: Targets,
                                         rows': Rows)
    requires rows'.Keys == rows.Keys
    requires forall k :: k in rows ==>
      rows'[k] == Measured(a, rows, metrics, targets)[k].(status := rows'[k].status, weight := rows'[k].weight)
    ensures Measured(a, rows', metrics, targets) == rows'
  {}

  lemma {:induction false} WeightedAgain(rows: Rows, targets: Targets, weights: map<Method, int>)
    ensures Weighted(Weighted(rows, targets, weights), targets, weights) == Weighted(rows, targets, weights)
  {}

  /** A second run on the same metrics takes no snapshot, changes no row, and returns the same winner. */
  lemma {:induction false} ReevaluationIsIdempotent(a: Arithmetic, rows: Rows, metrics: map<Method, Metrics>,
                                                    targets: Targets, rule: Rule)
    requires AreTargets(rows, metrics, targets)
    ensures var v := Reevaluated(a, rows, metrics, targets, rule);
      AreTargets(v.rows, metrics, targets)
        && Reevaluated(a, v.rows, metrics, targets, rule) == Verdict(v.rows, v.winner, None)
  {
    hide Reevaluated;
    var v := Reevaluated(a, rows, metrics, targets, rule);
    WinnerHoldsTheTitle(a, rows, metrics, targets, rule);
    OnlyStatusAndWeight(a, rows, metrics, targets, rule);
    MeasuredKeeps(a, rows, metrics, targets);
    TargetsStand(rows, v.rows, metrics, targets);
    EligibleStands(rows, v.rows, metrics, targets, rule.minSamples);
    MeasuredAgain(a, rows, metrics, targets, v.rows);
    SameVerdict(a, rows, metrics, targets, rule);
  }

  lemma {:induction false} SameVerdict(a: Arithmetic, rows: Rows, metrics: map<Method, Metrics>, targets: Targets,
                                       rule: Rule)
    requires AreTargets(rows, metrics, targets)
    requires var v := Reevaluated(a, rows, metrics, targets, rule);
      && AreTargets(v.rows, metrics, targets) && Measured(a, v.rows, metrics, targets) == v.rows
      && Eligible(v.rows, metrics, targets, rule.minSamples) == Eligible(rows, metrics, targets, rule.minSamples)
      && (v.winner.Some? ==> Stands(v.rows, targets[v.winner.value]))
    ensures var v := Reevaluated(a, rows, metrics, targets, rule);
      Reevaluated(a, v.rows, metrics, targets, rule) == Verdict(v.rows, v.winner, None)
  {
    hide Measured, Weighted, Titled, Eligible;
    var v := Reevaluated(a, rows, metrics, targets, rule);
    var eligible := Eligible(rows, metrics, targets, rule.minSamples);
    EligibleFinite(rows, metrics, targets, rule.minSamples);
    if eligible != {} {
      var w := v.winner.value;
      IncumbentIs(v.rows, eligible, targets[w]);
      WeightedAgain(Titled(Measured(a, rows, metrics, targets), targets[w]), targets,
        a.softmax(Accuracies(metrics, eligible)));
    }
  }

  lemma EligibleFinite(rows: Rows, metrics: map<Method, Metrics>, targets: Targets, minSamples: int)
    ensures AllFinite(metrics, Eligible(rows, metrics, targets, minSamples))
    ensures forall m :: m in Eligible(rows, metrics, targets, minSamples) ==> m in targets && targets[m] in rows
  {}

  // ---- rollback -------------------------------------------------------------------------------------

  /** The rows a snapshot would crown. */
  function NamedChampions(rows: Rows, snapshot: Rows): set<Key> {
    set k | k in snapshot && k in rows && snapshot[k].status == Champion
  }

  /** A row as the snapshot has it, in the columns a rollback writes. */
  function RestoredRow(r: Row, s: Row): Row {
    r.(status := s.status, enabled := s.enabled, visible := s.visible, weight := s.weight, accuracy := s.accuracy)
  }

  /** The table after a rollback: rows of the snapshot restored, and any other row without the title. */
  function Restored(rows: Rows, snapshot: Rows): Rows {
    map k | k in rows ::
      if k in snapshot then RestoredRow(rows[k], snapshot[k])
      else if rows[k].status == Champion then rows[k].(status := Challenger)
      else rows[k]
  }

  /** Whether the preview lists a row: its status, weight or switches would change. */
  predicate Differs(r: Row, s: Row) {
    r.status != s.status || r.weight != s.weight || r.enabled != s.enabled || r.visible != s.visible
  }

  function Diff(rows: Rows, snapshot: Rows): set<Key> {
    set k | k in snapshot && k in rows && Differs(rows[k], snapshot[k])
  }

  /** After rolling back: every row of the snapshot is as the snapshot has it, the champions are the snapshot's,
      and the preview of the same rollback is empty. */
  lemma {:induction false} RollbackRestores(rows: Rows, snapshot: Rows)
    ensures var r := Restored(rows, snapshot);
      && r.Keys == rows.Keys
      && (forall k :: k in snapshot && k in rows ==> r[k] == RestoredRow(r[k], snapshot[k]))
      && (forall k :: IsChampion(r, k) <==> k in NamedChampions(rows, snapshot))
      && Diff(r, snapshot) == {}
      && Restored(r, snapshot) == r
  {}

  /** The snapshot of a re-evaluation is taken after the new metrics are in the rows: rolling back to it gives a row
      the accuracy it had before the run exactly when the run did not change it. */
  lemma {:induction false} ReevaluationKeepsItsAccuracy(a: Arithmetic, rows: Rows, metrics: map<Method, Metrics>,
                                                        targets: Targets, rule: Rule, k: Key)
    requires AreTargets(rows, metrics, targets) && k in rows
      && Reevaluated(a, rows, metrics, targets, rule).snapshot.Some?
    ensures var v := Reevaluated(a, rows, metrics, targets, rule); var r := Restored(v.rows, v.snapshot.value);
      && k in r && r[k].status == rows[k].status && r[k].weight == rows[k].weight && r[k].enabled == rows[k].enabled
         && r[k].visible == rows[k].visible
      && (r[k].accuracy == rows[k].accuracy <==>
            !(k.name in targets && targets[k.name] == k) || Rounded(a, metrics[k.name].accuracy, 2) == rows[k].accuracy)
  {}

  /** A run that does: it crowns the one method there is, and rolling back keeps the accuracy it stored. */
  lemma {:induction false} RollbackKeepsANewAccuracy()
      returns (a: Arithmetic, rows: Rows, metrics: map<Method, Metrics>, targets: Targets, rule: Rule, k: Key)
    ensures AreTargets(rows, metrics, targets) && k in rows && SingleChampion(rows)
    ensures var v := Reevaluated(a, rows, metrics, targets, rule);
      && v.snapshot.Some? && IsChampion(v.rows, k) && !IsChampion(rows, k)
      && var r := Restored(v.rows, v.snapshot.value);
         k in r && !IsChampion(r, k) && r[k].accuracy == Some(60) && rows[k].accuracy == Some(50)
  {
    a := Arithmetic((x: real, digits: nat) => x.Floor, (w: map<Method, real>) => map[]);
    k := Key(0, 1);
    rows := map[k := Row(None, Some(50), None, None, None, 300, 300, Challenger, true, true, 0)];
    metrics := map[0 := Metrics(Some(60.0), Some(0.2), Some(0.6), Some(0.0), 300, Some(1))];
    targets := map[0 := k];
    rule := Rule(300, 0.002, false);
    assert IsTarget(rows, metrics, 0, k);
    assert IsEligible(rows, metrics, targets, rule.minSamples, 0);
    CrownedOnly(a, rows, metrics, targets, rule, k);
    ReevaluationKeepsItsAccuracy(a, rows, metrics, targets, rule, k);
    assert Rounded(a, metrics[0].accuracy, 2) == Some(60);
  }

  lemma {:induction false} CrownedOnly(a: Arithmetic, rows: Rows, metrics: map<Method, Metrics>, targets: Targets,
                                       rule: Rule, k: Key)
    requires AreTargets(rows, metrics, targets) && rows.Keys == {k} && !IsChampion(rows, k)
      && targets == map[k.name := k]
    requires k.name in Eligible(rows, metrics, targets, rule.minSamples) && metrics.Keys == {k.name}
    ensures var v := Reevaluated(a, rows, metrics, targets, rule);
      v.snapshot.Some? && IsChampion(v.rows, k)
  {
    hide Measured, Weighted, Titled;
    WinnerHoldsTheTitle(a, rows, metrics, targets, rule);
  }

  /** An empty preview means the rollback changes nothing exactly when, besides, no accuracy differs and no champion
      is missing from the snapshot. */
  lemma {:induction false} EmptyPreviewIsNoOpExactly(rows: Rows, snapshot: Rows)
    requires Diff(rows, snapshot) == {}
    ensures Restored(rows, snapshot) == rows <==>
      && (forall k :: k in snapshot && k in rows ==> rows[k].accuracy == snapshot[k].accuracy)
      && (forall k :: IsChampion(rows, k) ==> k in snapshot)
  {
    forall k | k in snapshot && k in rows ensures !Differs(rows[k], snapshot[k]) { assert k !in Diff(rows, snapshot); }
    var r := Restored(rows, snapshot);
    if (forall k :: k in snapshot && k in rows ==> rows[k].accuracy == snapshot[k].accuracy)
      && (forall k :: IsChampion(rows, k) ==> k in snapshot) {
      forall k | k in rows ensures r[k] == rows[k] { assert IsChampion(rows, k) ==> k in snapshot; }
    }
    if r == rows {
      forall k | k in snapshot && k in rows ensures rows[k].accuracy == snapshot[k].accuracy { assert r[k] == rows[k]; }
      forall k | IsChampion(rows, k) ensures k in snapshot { assert r[k] == rows[k]; }
    }
  }

  /** A rollback whose preview is empty, and which changes an accuracy. */
  lemma {:induction false} EmptyPreviewCanChangeAccuracy() returns (rows: Rows, snapshot: Rows, k: Key)
    ensures SingleChampion(rows) && SingleChampion(snapshot) && Diff(rows, snapshot) == {}
    ensures k in rows && Restored(rows, snapshot)[k].accuracy != rows[k].accuracy
  {
    k := Key(0, 1);
    var row := Row(None, Some(60), None, None, None, 300, 300, Challenger, true, true, 0);
    rows := map[k := row];
    snapshot := map[k := row.(accuracy := Some(50))];
  }

  /** A rollback whose preview is empty, and which takes the title from a version trained after the snapshot. */
  lemma {:induction false} EmptyPreviewCanDemote() returns (rows: Rows, snapshot: Rows, k: Key)
    ensures SingleChampion(rows) && SingleChampion(snapshot) && Diff(rows, snapshot) == {}
    ensures IsChampion(rows, k) && !IsChampion(Restored(rows, snapshot), k)
  {
    k := Key(0, 2);
    var first := Row(None, None, None, None, None, 300, 300, Challenger, true, true, 0);
    snapshot := map[Key(0, 1) := first];
    rows := snapshot[k := first.(status := Champion)];
  }
}
