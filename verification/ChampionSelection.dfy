/**
 A re-evaluation in the columns it reads and writes: which row it scores, who may hold the
 title, who wins it and what is stored.
 */
module ChampionSelection {
  import opened Options
  import opened ModelRegistry

  /** The row a method's metrics belong to: the version they name, or else the one trained last, a version never
      trained counting as the first and the higher of two trained at once as the later. */
  lemma {:induction false} TargetExactly(rows: Rows, metrics: map<Method, Metrics>, targets: Targets, m: Method, k: Key)
    requires AreTargets(rows, metrics, targets)
    ensures m in targets && targets[m] == k <==>
      && m in metrics && k in rows && k.name == m
      && (metrics[m].version.Some? ==> metrics[m].version.value == k.version)
      && (metrics[m].version.None? ==> forall j :: j in rows && j.name == m && j != k ==>
            var first := if rows[j].trained.Some? then rows[j].trained.value else 0;
            var last := if rows[k].trained.Some? then rows[k].trained.value else 0;
            first < last || (first == last && j.version < k.version))
  {
    if m in targets { assert IsTarget(rows, metrics, m, targets[m]); }
    if k in rows {
      forall j | j in rows
        ensures MoreCurrent(rows, k, j) <==>
          var first := if rows[j].trained.Some? then rows[j].trained.value else 0;
          var last := if rows[k].trained.Some? then rows[k].trained.value else 0;
          first < last || (first == last && j.version < k.version)
      {}
    }
    if IsTarget(rows, metrics, m, k) {
      assert m in targets;
      if metrics[m].version.None? { LatestUnique(rows, targets[m], k); }
    }
  }

  /** Who may hold the title: a method evaluated with four finite numbers and enough samples, its row switched on. */
  lemma {:induction false} EligibleExactly(rows: Rows, metrics: map<Method, Metrics>, targets: Targets,
                                           minSamples: int)
    ensures Eligible(rows, metrics, targets, minSamples) ==
      set m | m in metrics && m in targets && targets[m] in rows && rows[targets[m]].enabled
        && metrics[m].brier.Some? && metrics[m].logLoss.Some? && metrics[m].accuracy.Some? && metrics[m].roi.Some?
        && metrics[m].samples >= minSamples
  {}

  lemma BestExactly(metrics: map<Method, Metrics>, eligible: set<Method>, best: Method)
    requires AllFinite(metrics, eligible)
    ensures IsBest(metrics, eligible, best) <==> best in eligible && forall m :: m in eligible && m != best ==>
      var x, y := metrics[best], metrics[m];
      || x.brier.value < y.brier.value
      || (x.brier.value == y.brier.value && x.logLoss.value < y.logLoss.value)
      || (x.brier.value == y.brier.value && x.logLoss.value == y.logLoss.value && best < m)
  {}

  /** The decision. Nobody wins exactly if nobody may; a winner may, and its row is the one champion afterwards. The
      lowest Brier wins, ties going to the lower log loss and then to the smaller name, except against a method that
      holds the title and may: that one stays unless its Brier exceeds the best one's by the margin or more. */
  lemma {:induction false} TheBestWins(a: Arithmetic, rows: Rows, metrics: map<Method, Metrics>, targets: Targets,
                                       rule: Rule, v: Verdict, able: set<Method>) returns (best: Method)
    requires AreTargets(rows, metrics, targets) && SingleChampion(rows)
    requires v == Reevaluated(a, rows, metrics, targets, rule)
    requires able == set m | m in metrics && m in targets && targets[m] in rows && rows[targets[m]].enabled
      && metrics[m].brier.Some? && metrics[m].logLoss.Some? && metrics[m].accuracy.Some? && metrics[m].roi.Some?
      && metrics[m].samples >= rule.minSamples
    ensures v.winner.None? <==> able == {}
    ensures v.winner.Some? ==> v.winner.value in able && v.rows.Keys == rows.Keys && forall k :: k in v.rows ==>
      (v.rows[k].status == Champion <==> k == targets[v.winner.value])
    ensures v.winner.None? ==> forall k :: k in rows ==> k in v.rows && v.rows[k].status == rows[k].status
    ensures v.snapshot.None? <==> v.winner.None? || forall k :: k in rows ==>
      (rows[k].status == Champion <==> k == targets[v.winner.value])
    ensures able != {} ==> best in able && forall m :: m in able && m != best ==>
      || metrics[best].brier.value < metrics[m].brier.value
      || (metrics[best].brier.value == metrics[m].brier.value
         && metrics[best].logLoss.value < metrics[m].logLoss.value)
      || (metrics[best].brier.value == metrics[m].brier.value
         && metrics[best].logLoss.value == metrics[m].logLoss.value && best < m)
    ensures able != {} && (forall k :: k in rows && rows[k].status == Champion ==> k.name !in able) ==>
      v.winner == Some(best)
    ensures able != {} ==> forall k :: k in rows && rows[k].status == Champion && k.name in able ==>
      v.winner == Some(if k.name == best || metrics[k.name].brier.value - metrics[best].brier.value < rule.margin
                       then k.name else best)
  {
    hide Reevaluated, Measured, Weighted, Titled;
    EligibleExactly(rows, metrics, targets, rule.minSamples);
    WinnerHoldsTheTitle(a, rows, metrics, targets, rule);
    OnlyStatusAndWeight(a, rows, metrics, targets, rule);
    MeasuredKeeps(a, rows, metrics, targets);
    assert able == Eligible(rows, metrics, targets, rule.minSamples);
    hide Eligible;
    EligibleFinite(rows, metrics, targets, rule.minSamples);
    SnapshotWhenItMoves(a, rows, metrics, targets, rule);
    best := 0;
    if able != {} {
      best := BestOf(metrics, able);
      BestExactly(metrics, able, best);
      WinnerIs(a, rows, metrics, targets, rule);
      TitleAt(v.rows, targets[v.winner.value]);
    }
  }

  lemma {:induction false} SnapshotWhenItMoves(a: Arithmetic, rows: Rows, metrics: map<Method, Metrics>,
                                               targets: Targets, rule: Rule)
    requires AreTargets(rows, metrics, targets)
    ensures var v := Reevaluated(a, rows, metrics, targets, rule);
      v.snapshot.None? <==> v.winner.None? || forall k :: k in rows ==>
        (rows[k].status == Champion <==> k == targets[v.winner.value])
  {
    hide Measured, Weighted, Titled, Eligible;
    EligibleFinite(rows, metrics, targets, rule.minSamples);
    var v := Reevaluated(a, rows, metrics, targets, rule);
    if v.winner.Some? {
      var k := targets[v.winner.value];
      if Stands(rows, k) { TitleAt(rows, k); }
      else {
        var j :| !(IsChampion(rows, j) <==> j == k);
        assert j in rows;
      }
    }
  }

  lemma TitleAt(rows: Rows, k: Key)
    requires Stands(rows, k)
    ensures forall j :: j in rows ==> (rows[j].status == Champion <==> j == k)
  {
    forall j | j in rows ensures rows[j].status == Champion <==> j == k {
      assert IsChampion(rows, j) <==> rows[j].status == Champion;
    }
  }

  lemma {:induction false} WinnerIs(a: Arithmetic, rows: Rows, metrics: map<Method, Metrics>, targets: Targets,
                                    rule: Rule)
    requires AreTargets(rows, metrics, targets) && SingleChampion(rows)
    requires Eligible(rows, metrics, targets, rule.minSamples) != {}
    ensures AllFinite(metrics, Eligible(rows, metrics, targets, rule.minSamples))
    ensures var eligible := Eligible(rows, metrics, targets, rule.minSamples); var best := BestOf(metrics, eligible);
      var w := Reevaluated(a, rows, metrics, targets, rule).winner;
      && ((forall k :: k in rows && rows[k].status == Champion ==> k.name !in eligible) ==> w == Some(best))
      && (forall k :: k in rows && rows[k].status == Champion && k.name in eligible ==>
            w == Some(if k.name == best
              || metrics[k.name].brier.value - metrics[best].brier.value < rule.margin then k.name else best))
  {
    hide Measured, Weighted, Titled, Eligible;
    EligibleFinite(rows, metrics, targets, rule.minSamples);
    var eligible := Eligible(rows, metrics, targets, rule.minSamples);
    forall k | k in rows && rows[k].status == Champion && k.name in eligible
      ensures IncumbentOf(rows, eligible) == Some(k.name)
    {
      assert IsChampion(rows, k);
      IncumbentIs(rows, eligible, k);
    }
  }

  /** What is stored: on every evaluated row the metrics of its method, rounded, a number that is not finite as none;
      on no other row anything but status and weight. */
  lemma {:induction false} StoresEachColumn(a: Arithmetic, rows: Rows, metrics: map<Method, Metrics>, targets: Targets,
                                            rule: Rule, k: Key)
    requires AreTargets(rows, metrics, targets) && k in rows
    ensures k in Reevaluated(a, rows, metrics, targets, rule).rows
    ensures k.name in targets && targets[k.name] == k ==>
      var r, m := Reevaluated(a, rows, metrics, targets, rule).rows[k], metrics[k.name];
      && r.brier == (if m.brier.Some? then Some(a.decimal(m.brier.value, 6)) else None)
      && r.logLoss == (if m.logLoss.Some? then Some(a.decimal(m.logLoss.value, 6)) else None)
      && r.accuracy == (if m.accuracy.Some? then Some(a.decimal(m.accuracy.value, 2)) else None)
      && r.roi == (if m.roi.Some? then Some(a.decimal(m.roi.value, 4)) else None)
      && r.samples == m.samples
    ensures var r := Reevaluated(a, rows, metrics, targets, rule).rows[k];
      && (!(k.name in targets && targets[k.name] == k) ==> r == rows[k].(status := r.status, weight := r.weight))
      && r.trained == rows[k].trained && r.enabled == rows[k].enabled && r.visible == rows[k].visible
      && r.minSamples == rows[k].minSamples
  {
    OnlyStatusAndWeight(a, rows, metrics, targets, rule);
    hide Reevaluated;
  }

  /** The weights, in auto mode and with a winner: the evaluated row of a method that may hold the title has its share
      of a softmax over the accuracies of those that may, every other version of an evaluated method nothing, and the
      rows of methods not evaluated keep theirs; otherwise all keep theirs. */
  lemma {:induction false} WeighsTheAble(a: Arithmetic, rows: Rows, metrics: map<Method, Metrics>, targets: Targets,
                                         rule: Rule, k: Key, v: Verdict, able: set<Method>)
    requires AreTargets(rows, metrics, targets) && k in rows && v == Reevaluated(a, rows, metrics, targets, rule)
    requires able == set m | m in metrics && m in targets && targets[m] in rows && rows[targets[m]].enabled
      && metrics[m].brier.Some? && metrics[m].logLoss.Some? && metrics[m].accuracy.Some? && metrics[m].roi.Some?
      && metrics[m].samples >= rule.minSamples
    requires forall w :: a.softmax(w).Keys == w.Keys
    ensures k in v.rows && v.rows[k].weight ==
      if !rule.auto || v.winner.None? || k.name !in targets then rows[k].weight
      else if targets[k.name] == k && k.name in able
      then a.softmax(map m | m in able :: metrics[m].accuracy.value)[k.name]
      else 0
  {
    hide Measured, Titled;
    EligibleExactly(rows, metrics, targets, rule.minSamples);
    assert able == Eligible(rows, metrics, targets, rule.minSamples);
    hide Eligible;
    EligibleFinite(rows, metrics, targets, rule.minSamples);
    MeasuredKeeps(a, rows, metrics, targets);
  }

  /** The same of a method that computes the verdict, as the columns it leaves. */
  lemma {:induction false} DecidedInColumns(a: Arithmetic, rows: Rows, metrics: map<Method, Metrics>, targets: Targets,
                                            rule: Rule, v: Verdict)
    requires AreTargets(rows, metrics, targets) && SingleChampion(rows)
    requires v == Reevaluated(a, rows, metrics, targets, rule)
    ensures v.winner.Some? ==> var m := v.winner.value;
      && m in metrics && m in targets && targets[m] in rows && rows[targets[m]].enabled
      && metrics[m].brier.Some? && metrics[m].logLoss.Some? && metrics[m].accuracy.Some? && metrics[m].roi.Some?
      && metrics[m].samples >= rule.minSamples
      && forall k :: k in v.rows ==> (v.rows[k].status == Champion <==> k == targets[m])
    ensures v.winner.None? <==> forall m ::
      m in metrics && m in targets && targets[m] in rows && rows[targets[m]].enabled && metrics[m].brier.Some?
      && metrics[m].logLoss.Some? && metrics[m].accuracy.Some? && metrics[m].roi.Some? ==>
        metrics[m].samples < rule.minSamples
    ensures v.winner.None? ==> forall k :: k in rows ==> k in v.rows && v.rows[k].status == rows[k].status
    ensures forall m :: m in targets ==>
      && m in metrics && targets[m] in v.rows && v.rows[targets[m]].samples == metrics[m].samples
      && (metrics[m].brier.Some? ==> v.rows[targets[m]].brier == Some(a.decimal(metrics[m].brier.value, 6)))
      && (metrics[m].logLoss.Some? ==> v.rows[targets[m]].logLoss == Some(a.decimal(metrics[m].logLoss.value, 6)))
      && (metrics[m].accuracy.Some? ==> v.rows[targets[m]].accuracy == Some(a.decimal(metrics[m].accuracy.value, 2)))
      && (metrics[m].roi.Some? ==> v.rows[targets[m]].roi == Some(a.decimal(metrics[m].roi.value, 4)))
  {
    hide Reevaluated;
    var able := set m | m in metrics && m in targets && targets[m] in rows && rows[targets[m]].enabled
      && metrics[m].brier.Some? && metrics[m].logLoss.Some? && metrics[m].accuracy.Some? && metrics[m].roi.Some?
      && metrics[m].samples >= rule.minSamples;
    var best := TheBestWins(a, rows, metrics, targets, rule, v, able);
    assert able == {} <==> forall m :: m in metrics ==> m !in able;
    forall m | m in targets ensures m in metrics && targets[m] in rows && targets[m].name == m {
      assert IsTarget(rows, metrics, m, targets[m]);
    }
    forall m | m in targets { StoresEachColumn(a, rows, metrics, targets, rule, targets[m]); }
  }
}
