/**
 The operations of model governance on a session's rows and the database's.

 `mem` is what the session holds, `db` what the database holds. A flush writes the rows that
 differ one at a time, in any order, and the single-champion index is checked at each of
 them; `written` records the table after every such row. Each operation runs under the
 registry lock, so it starts from freshly loaded rows. `RegistryHistory` says what the
 operations make of the registry, and what runs of them keep.
 */
module RegistryAdmin {
  import opened Options
  import opened ModelRegistry
  import opened ChampionSelection
  import opened RegistryHistory
  import opened Sums

  datatype RollbackResult = RolledBack | SnapshotNotFound | SnapshotHasManyChampions

  datatype WeightsResult = WeightsSet | NotManualMode | WeightsInvalid

  datatype PromoteResult = Unknown | PromotedTo(belowMinSamples: bool)

  /** `manual` is true while an administrator sets the weights by hand. */
  class Registry {
    var db: Rows
    var mem: Rows
    var snapshots: seq<Rows>
    var manual: bool
    ghost var written: seq<Rows>

    ghost predicate Valid()
      reads this
    {
      && SingleChampion(db) && SoundSnapshots(snapshots)
      && forall i :: 0 <= i < |written| ==> SingleChampion(written[i])
    }

    /** What the operations work on. */
    ghost function Now(): (s: Store)
      reads this
    {
      Store(db, snapshots, manual)
    }

    constructor ()
      ensures Valid() && db == map[] && mem == map[] && snapshots == [] && !manual
    {
      db, mem, snapshots, manual, written := map[], map[], [], false, [];
    }

    /** The session writes its changed rows. */
    method Flush()
      requires Valid() && mem.Keys == db.Keys && FlushSafe(db, mem)
      modifies `db, `written
      ensures Valid() && db == mem && old(written) <= written
    {
      ghost var before := db;
      ghost var done: set<Key> := {};
      var dirty := set k | k in mem && mem[k] != db[k];
      while dirty != {}
        invariant dirty <= mem.Keys && done <= mem.Keys
        invariant db == Partly(before, mem, done)
        invariant forall k :: k in mem && k !in dirty ==> db[k] == mem[k]
        invariant old(written) <= written && forall i :: 0 <= i < |written| ==> SingleChampion(written[i])
        decreases |dirty|
      {
        var k :| k in dirty;
        db := db[k := mem[k]];
        done := done + {k};
        dirty := dirty - {k};
        SafeAtEveryRow(before, mem, done);
        written := written + [db];
      }
      SafeAtEveryRow(before, mem, done);
      assert db.Keys == mem.Keys;
    }

    /** `snapshot_registry`: the session's rows as they are, flushed along with the snapshot. */
    method TakeSnapshot()
      requires Valid() && mem.Keys == db.Keys && FlushSafe(db, mem)
      modifies `db, `written, `snapshots
      ensures Valid() && db == mem && old(written) <= written && snapshots == old(snapshots) + [mem]
    {
      snapshots := snapshots + [mem];
      Flush();
    }

    /** `demote_champions`: every champion among `rows` but `keep`, flushed before anybody is promoted. */
    method DemoteChampions(rows: set<Key>, keep: Option<Key>)
      requires Valid() && mem == db && rows <= mem.Keys && forall k :: IsChampion(mem, k) ==> k in rows
      modifies `db, `mem, `written
      ensures Valid() && mem == db == Demoted(old(db), keep) && old(written) <= written
    {
      var demoted := set k | k in rows && mem[k].status == Champion && keep != Some(k);
      mem := map k | k in mem :: if k in demoted then mem[k].(status := Challenger) else mem[k];
      assert mem == Demoted(old(db), keep);
      DemotedIsSafe(db, keep);
      if demoted != {} {
        Flush();
      }
    }

    // ---- which row an evaluation belongs to -------------------------------------------------------

    /** `latest_row_per_method`, over the rows in any order. */
    method LatestRowPerMethod() returns (latest: Targets)
      ensures forall m :: m in latest ==> latest[m].name == m && IsLatest(mem, latest[m])
      ensures forall k :: k in mem ==> k.name in latest
    {
      latest := map[];
      var todo := mem.Keys;
      while todo != {}
        invariant todo <= mem.Keys
        invariant forall k :: k in mem && k !in todo ==> k.name in latest
        invariant forall m :: m in latest ==> latest[m].name == m && latest[m] in mem && latest[m] !in todo
        invariant forall m, j :: m in latest && j in mem && j !in todo && j.name == m && j != latest[m] ==>
          MoreCurrent(mem, latest[m], j)
        decreases |todo|
      {
        var k :| k in todo;
        todo := todo - {k};
        if k.name !in latest || MoreCurrent(mem, k, latest[k.name]) {
          latest := latest[k.name := k];
        }
      }
    }

    /** `_rows_for`. */
    method RowsFor(metrics: map<Method, Metrics>) returns (targets: Targets)
      ensures AreTargets(mem, metrics, targets)
    {
      var latest := LatestRowPerMethod();
      targets := map[];
      var todo := metrics.Keys;
      while todo != {}
        invariant todo <= metrics.Keys
        invariant forall m :: m in targets ==> IsTarget(mem, metrics, m, targets[m])
        invariant forall m, k :: m !in todo && IsTarget(mem, metrics, m, k) ==> m in targets
        decreases |todo|
      {
        var m :| m in todo;
        todo := todo - {m};
        if metrics[m].version.None? {
          if m in latest { targets := targets[m := latest[m]]; }
        } else if Key(m, metrics[m].version.value) in mem {
          targets := targets[m := Key(m, metrics[m].version.value)];
        }
      }
    }

    // ---- re-evaluation ----------------------------------------------------------------------------

    method StoreMetrics(a: Arithmetic, metrics: map<Method, Metrics>, targets: Targets)
      requires AreTargets(mem, metrics, targets)
      modifies `mem
      ensures mem == Measured(a, old(mem), metrics, targets)
    {
      var todo := metrics.Keys * targets.Keys;
      while todo != {}
        invariant todo <= metrics.Keys * targets.Keys && mem.Keys == old(mem).Keys
        invariant forall k :: k in mem ==>
          mem[k] == if k.name in todo then old(mem)[k] else Measured(a, old(mem), metrics, targets)[k]
        decreases |todo|
      {
        var m :| m in todo;
        todo := todo - {m};
        assert IsTarget(old(mem), metrics, m, targets[m]);
        mem := mem[targets[m] := Scored(a, mem[targets[m]], metrics[m])];
      }
    }

    /** `min` by Brier, log loss and name. */
    method BestMethod(metrics: map<Method, Metrics>, eligible: set<Method>) returns (best: Method)
      requires eligible != {} && AllFinite(metrics, eligible)
      ensures best == BestOf(metrics, eligible)
    {
      best :| best in eligible;
      var todo := eligible - {best};
      while todo != {}
        invariant todo <= eligible && best in eligible && best !in todo
        invariant forall m :: m in eligible && m !in todo && m != best ==> Better(metrics, best, m)
        decreases |todo|
      {
        var m :| m in todo;
        todo := todo - {m};
        if Better(metrics, m, best) { best := m; }
      }
      BestUnique(metrics, eligible, best, BestOf(metrics, eligible));
    }

    /** The first champion row whose method is eligible; there is at most one. */
    method Incumbent(eligible: set<Method>) returns (incumbent: Option<Method>)
      requires SingleChampion(mem)
      ensures incumbent == IncumbentOf(mem, eligible)
    {
      incumbent := None;
      var todo := set k | k in mem && mem[k].status == Champion;
      while todo != {} && incumbent.None?
        invariant forall k :: k in todo ==> IsChampion(mem, k)
        invariant forall k :: IsChampion(mem, k) && k !in todo && k.name in eligible ==> incumbent.Some?
        invariant incumbent.Some? ==> IsIncumbent(mem, eligible, incumbent.value)
        decreases |todo|
      {
        var k :| k in todo;
        todo := todo - {k};
        if k.name in eligible {
          incumbent := Some(k.name);
        }
      }
      IncumbentUnique(mem, eligible);
    }

    /** The champion rule on the measured rows: None if nobody is eligible. */
    method Decide(a: Arithmetic, metrics: map<Method, Metrics>, targets: Targets, rule: Rule)
                  returns (winner: Option<Method>)
      requires Valid() && AreTargets(db, metrics, targets) && mem == Measured(a, db, metrics, targets)
      ensures winner == Reevaluated(a, db, metrics, targets, rule).winner
      ensures winner.Some? ==> winner.value in targets && targets[winner.value] in mem
    {
      hide Measured, Weighted, Titled;
      MeasuredKeeps(a, db, metrics, targets);
      EligibleStands(db, mem, metrics, targets, rule.minSamples);
      EligibleFinite(db, metrics, targets, rule.minSamples);
      var eligible := Eligible(mem, metrics, targets, rule.minSamples);
      if eligible == {} { return None; }
      var best := BestMethod(metrics, eligible);
      var incumbent := Incumbent(eligible);
      IncumbentStands(db, mem, eligible);
      winner := Some(Winner(metrics, best, incumbent, rule.margin));
    }

    /** Auto mode: softmax weights of the eligible methods. */
    method Reweigh(a: Arithmetic, metrics: map<Method, Metrics>, targets: Targets, eligible: set<Method>)
      requires Valid() && mem.Keys == db.Keys && FlushSafe(db, mem) && AllFinite(metrics, eligible)
      modifies `mem
      ensures mem == Weighted(old(mem), targets, a.softmax(Accuracies(metrics, eligible))) && mem.Keys == db.Keys
        && FlushSafe(db, mem)
    {
      var weights := a.softmax(Accuracies(metrics, eligible));
      WeightedKeeps(mem, targets, weights);
      mem := Weighted(mem, targets, weights);
    }

    /** `apply_champion_selection`. */
    method ApplyChampionSelection(a: Arithmetic, metrics: map<Method, Metrics>, rule: Rule)
                                  returns (winner: Option<Method>, ghost targets: Targets)
      requires Valid()
      modifies this
      ensures Valid() && old(written) <= written && mem == db && manual == old(manual)
      ensures AreTargets(old(db), metrics, targets)
      ensures var v := Reevaluated(a, old(db), metrics, targets, rule);
        db == v.rows && winner == v.winner && snapshots == old(snapshots) + Noted(v)
      ensures RuleObeyed(old(db), metrics, Eligible(old(db), metrics, targets, rule.minSamples), rule.margin, winner)
      ensures winner.Some? ==> var m := winner.value;
        && m in metrics && m in targets && targets[m] in old(db) && old(db)[targets[m]].enabled
        && metrics[m].brier.Some? && metrics[m].logLoss.Some? && metrics[m].accuracy.Some? && metrics[m].roi.Some?
        && metrics[m].samples >= rule.minSamples
        && forall k :: k in db ==> (db[k].status == Champion <==> k == targets[m])
      ensures winner.None? <==> forall m ::
        m in metrics && m in targets && targets[m] in old(db) && old(db)[targets[m]].enabled && metrics[m].brier.Some?
        && metrics[m].logLoss.Some? && metrics[m].accuracy.Some? && metrics[m].roi.Some? ==>
          metrics[m].samples < rule.minSamples
      ensures winner.None? ==> forall k :: k in old(db) ==> k in db && db[k].status == old(db)[k].status
      ensures Performs(a, old(Now()), Reevaluate(metrics, rule), Now())
    {
      winner, targets := SelectChampion(a, metrics, rule);
      ReevaluatesTo(a, old(Now()), metrics, rule, targets, Now());
      hide *;
      ChampionRule(a, old(db), metrics, targets, rule);
      DecidedInColumns(a, old(db), metrics, targets, rule, Reevaluated(a, old(db), metrics, targets, rule));
    }

    /** ... as the verdict it comes to. */
    method SelectChampion(a: Arithmetic, metrics: map<Method, Metrics>, rule: Rule)
                          returns (winner: Option<Method>, ghost targets: Targets)
      requires Valid()
      modifies this
      ensures Valid() && old(written) <= written && mem == db && manual == old(manual)
      ensures AreTargets(old(db), metrics, targets)
      ensures var v := Reevaluated(a, old(db), metrics, targets, rule);
        db == v.rows && winner == v.winner && snapshots == old(snapshots) + Noted(v)
    {
      hide Weighted, Measured, Titled, FlushSafe, IsEligible, IsBest;
      mem := db;
      var rows := RowsFor(metrics);
      targets := rows;
      StoreMetrics(a, metrics, rows);
      MeasuredIsSafe(a, db, metrics, rows);
      winner := Decide(a, metrics, rows, rule);
      EligibleFinite(db, metrics, rows, rule.minSamples);
      if winner.Some? {
        var eligible := Eligible(mem, metrics, rows, rule.minSamples);
        EligibleStands(db, mem, metrics, rows, rule.minSamples);
        Crown(rows[winner.value]);
        if rule.auto { Reweigh(a, metrics, rows, eligible); }
      }
      Flush();
    }

    /** Moves the title to `k` if it is not there yet: snapshot, demote and flush, then promote. */
    method Crown(k: Key)
      requires Valid() && mem.Keys == db.Keys && k in mem && FlushSafe(db, mem)
      requires forall j :: IsChampion(mem, j) <==> IsChampion(db, j)
      modifies this
      ensures Valid() && mem.Keys == db.Keys && FlushSafe(db, mem) && manual == old(manual) && old(written) <= written
      ensures mem == Titled(old(mem), k)
      ensures snapshots == old(snapshots) + if Stands(old(mem), k) then [] else [old(mem)]
    {
      var champions := set j | j in mem && mem[j].status == Champion;
      assert champions == {k} <==> Stands(mem, k) by {
        assert forall j :: IsChampion(mem, j) <==> j in champions;
        if Stands(mem, k) { assert champions == {k}; }
      }
      if champions != {k} {
        TakeSnapshot();
        DemoteChampions(champions, Some(k));
        mem := mem[k := mem[k].(status := Champion)];
        assert mem == Crowned(old(mem), k);
      }
    }

    // ---- administration ---------------------------------------------------------------------------

    /** `promote`: the row becomes champion, whatever its sample count; below its minimum the result says so. */
    method Promote(k: Key) returns (r: PromoteResult)
      requires Valid()
      modifies this
      ensures Valid() && old(written) <= written && mem == db && manual == old(manual)
      ensures k !in old(db) ==> r == Unknown && db == old(db) && snapshots == old(snapshots)
      ensures k in old(db) ==>
        && r == PromotedTo(old(db)[k].samples < old(db)[k].minSamples || old(db)[k].accuracy.None?)
        && db == Crowned(old(db), k) && snapshots == old(snapshots) + [old(db)]
        && forall j :: j in old(db) ==> j in db && db[j] == old(db)[j].(status :=
             if j == k then Champion else if old(db)[j].status == Champion then Challenger else old(db)[j].status)
      ensures forall a :: Performs(a, old(Now()), PromoteRow(k), Now())
    {
      mem := db;
      if k !in mem { return Unknown; }
      var below := mem[k].samples < mem[k].minSamples || mem[k].accuracy.None?;
      MakeChampion(k);
      CrownedRows(old(db), k);
      hide Crowned;
      return PromotedTo(below);
    }

    /** Snapshot, demotion of the champions and promotion of `k`. */
    method MakeChampion(k: Key)
      requires Valid() && mem == db && k in db
      modifies this
      ensures Valid() && old(written) <= written && mem == db == Crowned(old(db), k) && manual == old(manual)
      ensures snapshots == old(snapshots) + [old(db)]
    {
      TakeSnapshot();
      var current := set j | j in db && db[j].status == Champion;
      DemoteChampions(current, Some(k));
      mem := mem[k := mem[k].(status := Champion)];
      assert mem == Crowned(old(db), k);
      Flush();
    }

    /** `demote`: a champion is a challenger again; anything else is left alone. */
    method Demote(k: Key) returns (known: bool)
      requires Valid()
      modifies this
      ensures Valid() && old(written) <= written && mem == db && manual == old(manual)
      ensures known <==> k in old(db)
      ensures IsChampion(old(db), k) ==> db == Demoted(old(db), None) && snapshots == old(snapshots) + [old(db)]
      ensures k in old(db) && old(db)[k].status == Champion ==> db == old(db)[k := old(db)[k].(status := Challenger)]
      ensures !IsChampion(old(db), k) ==> db == old(db) && snapshots == old(snapshots)
      ensures forall a :: Performs(a, old(Now()), DemoteRow(k), Now())
    {
      mem := db;
      if k !in mem { return false; }
      if mem[k].status == Champion {
        TakeSnapshot();
        mem := mem[k := mem[k].(status := Challenger)];
        assert IsChampion(old(db), k);
        forall j | j in mem ensures mem[j] == Demoted(old(db), None)[j] { assert IsChampion(old(db), j) ==> j == k; }
        assert mem == Demoted(old(db), None);
        Flush();
      }
      return true;
    }

    /** `rollback_to_snapshot`. Snapshots of this registry are never refused for naming several champions. */
    method Rollback(id: nat) returns (r: RollbackResult)
      requires Valid()
      modifies this
      ensures Valid() && old(written) <= written && snapshots == old(snapshots) && manual == old(manual)
      ensures r == if id < |snapshots| then RolledBack else SnapshotNotFound
      ensures if r == RolledBack then db == mem == Restored(old(db), snapshots[id]) else db == old(db)
      ensures forall a :: Performs(a, old(Now()), RollBack(id), Now())
    {
      if id >= |snapshots| { return SnapshotNotFound; }
      var snapshot := snapshots[id];
      mem := db;
      var champions := NamedChampions(mem, snapshot);
      SnapshotsStayUsable(mem, snapshot);
      NamedAre(mem, snapshot);
      if |champions| > 1 {
        TwoOf(champions);
        assert false;
        return SnapshotHasManyChampions;
      }
      var keep: Option<Key> := None;
      if champions != {} {
        var c :| c in champions;
        keep := Some(c);
      }
      OnlyOne(champions, keep);
      DemoteChampions(mem.Keys, keep);
      ApplySnapshot(snapshot);
      RestoredAfterDemotion(old(db), snapshot, keep);
      Flush();
      return RolledBack;
    }

    /** The loop over the snapshot's rows. */
    method ApplySnapshot(snapshot: Rows)
      modifies `mem
      ensures mem == map k | k in old(mem) :: if k in snapshot then RestoredRow(old(mem)[k], snapshot[k])
        else old(mem)[k]
    {
      var todo := snapshot.Keys;
      while todo != {}
        invariant todo <= snapshot.Keys && mem.Keys == old(mem).Keys
        invariant forall k :: k in mem ==> mem[k] == if k in snapshot
          && k !in todo then RestoredRow(old(mem)[k], snapshot[k]) else old(mem)[k]
        decreases |todo|
      {
        var k :| k in todo;
        todo := todo - {k};
        if k in mem { mem := mem[k := RestoredRow(mem[k], snapshot[k])]; }
      }
    }

    /** `rollback_diff`: the rows the preview lists. */
    method RollbackDiff(id: nat) returns (changes: Option<set<Key>>)
      ensures changes == if id < |snapshots| then Some(Diff(db, snapshots[id])) else None
      ensures changes.Some? ==> forall k :: k in changes.value <==>
        && k in db && k in snapshots[id]
        && (db[k].status != snapshots[id][k].status || db[k].weight != snapshots[id][k].weight
           || db[k].enabled != snapshots[id][k].enabled || db[k].visible != snapshots[id][k].visible)
    {
      if id >= |snapshots| { return None; }
      var snapshot := snapshots[id];
      var listed := {};
      var todo := snapshot.Keys;
      while todo != {}
        invariant todo <= snapshot.Keys
        invariant listed == set k | k in snapshot && k !in todo && k in db && Differs(db[k], snapshot[k])
        decreases |todo|
      {
        var k :| k in todo;
        todo := todo - {k};
        if k in db && Differs(db[k], snapshot[k]) { listed := listed + {k}; }
      }
      assert listed == Diff(db, snapshot);
      return Some(listed);
    }

    // ---- weights ----------------------------------------------------------------------------------

    /** `recompute_auto_weights`: every row gets its method's share; a method's accuracy is that of one of its
        visible rows that have one, whichever is read last. */
    method RecomputeAutoWeights(a: Arithmetic) returns (ghost accuracies: map<Method, real>)
      requires Valid()
      modifies `db, `mem, `written
      ensures Valid() && old(written) <= written && mem == db
      ensures AccuraciesOfVisible(old(db), accuracies) && db == AllWeighted(old(db), a.softmax(accuracies))
      ensures Performs(a, old(Now()), Recompute, Now())
    {
      mem := db;
      var found: map<Method, real> := map[];
      var todo := mem.Keys;
      while todo != {}
        invariant todo <= mem.Keys
        invariant forall k :: k in mem && k !in todo && Counts(mem[k]) ==> k.name in found
        invariant forall m :: m in found ==>
          exists k :: k in mem && k.name == m && Counts(mem[k]) && found[m] == mem[k].accuracy.value as real / 100.0
        decreases |todo|
      {
        var k :| k in todo;
        todo := todo - {k};
        if Counts(mem[k]) { found := found[k.name := mem[k].accuracy.value as real / 100.0]; }
      }
      accuracies := found;
      mem := AllWeighted(mem, a.softmax(found));
      assert forall k :: IsChampion(mem, k) <==> IsChampion(db, k);
      Flush();
    }

    /** `set_weighting_mode`. */
    method SetWeightingMode(a: Arithmetic, byHand: bool)
      requires Valid()
      modifies `db, `mem, `written, `manual
      ensures Valid() && old(written) <= written && manual == byHand
      ensures byHand ==> db == old(db)
      ensures !byHand ==> Reweighted(a, old(db), db)
      ensures Performs(a, old(Now()), SetMode(byHand), Now())
    {
      manual := byHand;
      if !byHand { var accuracies := RecomputeAutoWeights(a); }
    }

    /** `set_manual_weights`: only in manual mode, and only if the weights sum to 100. */
    method SetManualWeights(a: Arithmetic, weights: map<Method, real>) returns (r: WeightsResult)
      requires Valid()
      modifies `db, `mem, `written
      ensures Valid() && old(written) <= written
      ensures r == NotManualMode <==> !manual
      ensures r == WeightsInvalid <==> manual && !SumsToHundred(weights)
      ensures var total := SumOver(weights.Keys, Weights(weights));
        r == WeightsSet <==> manual && -0.05 <= total - 100.0 <= 0.05
      ensures db == if r == WeightsSet then ByHand(a, old(db), weights) else old(db)
      ensures r == WeightsSet ==>
        db == map k | k in old(db) ::
          old(db)[k].(weight := if k.name in weights then a.decimal(weights[k.name], 2) else old(db)[k].weight)
      ensures Performs(a, old(Now()), SetWeights(weights), Now())
    {
      if !manual { return NotManualMode; }
      var total := Sum(weights);
      if total - 100.0 > 0.05 || 100.0 - total > 0.05 { return WeightsInvalid; }
      mem := db;
      mem := ByHand(a, mem, weights);
      assert forall k :: IsChampion(mem, k) <==> IsChampion(db, k);
      Flush();
      return WeightsSet;
    }

    method Sum(weights: map<Method, real>) returns (total: real)
      ensures total == SumOver(weights.Keys, Weights(weights))
    {
      total := 0.0;
      var todo := weights.Keys;
      while todo != {}
        invariant todo <= weights.Keys
        invariant total + SumOver(todo, Weights(weights)) == SumOver(weights.Keys, Weights(weights))
        decreases |todo|
      {
        var m :| m in todo;
        SumPick(todo, m, Weights(weights));
        total := total + weights[m];
        todo := todo - {m};
      }
    }

    // ---- training ---------------------------------------------------------------------------------

    /** `upsert_run`: a new version enters as challenger; a known one keeps its status. One statement, no session
        rows. */
    method UpsertRun(k: Key, samples: int, minSamples: int, now: nat)
      requires Valid()
      modifies `db, `written
      ensures Valid() && old(written) <= written
      ensures db == Trained(old(db), k, samples, minSamples, now)
      ensures k in db && db[k].samples == samples && db[k].trained == Some(now)
      ensures k !in old(db) ==>
        && db[k].status == Challenger && db[k].minSamples == minSamples && db[k].enabled && db[k].visible
        && db[k].weight == 0 && db[k].accuracy.None? && db[k].brier.None? && db[k].logLoss.None? && db[k].roi.None?
      ensures k in old(db) ==> db[k] == old(db)[k].(samples := samples, trained := Some(now))
      ensures forall j :: j in db && j != k ==> j in old(db) && db[j] == old(db)[j]
      ensures forall a :: Performs(a, old(Now()), Upsert(k, samples, minSamples, now), Now())
    {
      db := db[k := if k in db then db[k].(samples := samples, trained := Some(now))
                    else Row(Some(now), None, None, None, None, samples, minSamples, Challenger, true, true, 0)];
      assert forall j :: IsChampion(db, j) <==> IsChampion(old(db), j);
      written := written + [db];
    }
  }

  // ---- lemmas ---------------------------------------------------------------------------------------

  lemma {:induction false} TwoOf(s: set<Key>)
    requires |s| > 1
    ensures exists a, b :: a in s && b in s && a != b
  {
    var a :| a in s;
    assert |s - {a}| > 0;
    var b :| b in s - {a};
  }

  lemma AtLeastTwo(s: set<Key>, a: Key, b: Key)
    requires a in s && b in s && a != b
    ensures |s| >= 2
  {
    assert |s - {a}| == |s| - 1;
    assert b in s - {a};
  }

  lemma {:induction false} OnlyOne(s: set<Key>, keep: Option<Key>)
    requires |s| <= 1 && (if s == {} then keep == None else keep.Some? && keep.value in s)
    ensures forall k :: k in s <==> keep == Some(k)
  {
    forall k | k in s ensures keep == Some(k) {
      if keep != Some(k) { AtLeastTwo(s, k, keep.value); }
    }
  }

  /** Demoting all but the snapshot's champion first, then restoring, is a restoration, and safe to flush. */
  lemma {:induction false} RestoredAfterDemotion(rows: Rows, snapshot: Rows, keep: Option<Key>)
    requires SingleChampion(rows) && forall k :: k in NamedChampions(rows, snapshot) <==> keep == Some(k)
    ensures var demoted := Demoted(rows, keep);
      var restored := map k | k in demoted :: if k in snapshot then RestoredRow(demoted[k], snapshot[k])
        else demoted[k];
      restored == Restored(rows, snapshot) && FlushSafe(demoted, restored)
  {
    var demoted := Demoted(rows, keep);
    var restored := Restored(rows, snapshot);
    forall k ensures IsChampion(demoted, k) || IsChampion(restored, k) ==> keep == Some(k) {
      if k in rows { assert k in NamedChampions(rows, snapshot) <==> keep == Some(k); }
    }
  }

  /** Demoting on its own crowns nobody. */
  lemma {:induction false} DemotedIsSafe(rows: Rows, keep: Option<Key>)
    requires SingleChampion(rows)
    ensures FlushSafe(rows, Demoted(rows, keep))
  {
    assert forall k :: IsChampion(Demoted(rows, keep), k) ==> IsChampion(rows, k);
  }

  /** Storing metrics moves no title. */
  lemma {:induction false} MeasuredIsSafe(a: Arithmetic, rows: Rows, metrics: map<Method, Metrics>, targets: Targets)
    requires SingleChampion(rows)
    ensures FlushSafe(rows, Measured(a, rows, metrics, targets))
    ensures forall k :: IsChampion(Measured(a, rows, metrics, targets), k) <==> IsChampion(rows, k)
    ensures forall k :: k in rows ==> Measured(a, rows, metrics, targets)[k].enabled == rows[k].enabled
    ensures forall k :: Stands(rows, k) <==> Stands(Measured(a, rows, metrics, targets), k)
  {
    MeasuredKeeps(a, rows, metrics, targets);
  }

  lemma CrownedRows(rows: Rows, k: Key)
    requires k in rows
    ensures Crowned(rows, k).Keys == rows.Keys && forall j :: j in rows ==>
      Crowned(rows, k)[j] == rows[j].(status :=
        if j == k then Champion else if rows[j].status == Champion then Challenger else rows[j].status)
  {}

  lemma ReevaluatesTo(a: Arithmetic, s: Store, metrics: map<Method, Metrics>, rule: Rule, targets: Targets, s': Store)
    requires AreTargets(s.rows, metrics, targets)
    requires var v := Reevaluated(a, s.rows, metrics, targets, rule);
      s'.rows == v.rows && s'.snapshots == s.snapshots + Noted(v) && s'.manual == s.manual
    ensures Performs(a, s, Reevaluate(metrics, rule), s')
  {
    hide Reevaluated;
    assert Reevaluates(a, s, metrics, rule, targets, s');
  }

  lemma IncumbentUnique(rows: Rows, eligible: set<Method>)
    requires SingleChampion(rows)
    ensures forall m: Method :: IsIncumbent(rows, eligible, m) ==> IncumbentOf(rows, eligible) == Some(m)
    ensures (forall m: Method :: !IsIncumbent(rows, eligible, m)) ==> IncumbentOf(rows, eligible) == None
  {}

  lemma {:induction false} IncumbentStands(rows: Rows, rows': Rows, eligible: set<Method>)
    requires SingleChampion(rows) && forall k :: IsChampion(rows', k) <==> IsChampion(rows, k)
    ensures IncumbentOf(rows', eligible) == IncumbentOf(rows, eligible)
  {
    forall m: Method ensures IsIncumbent(rows, eligible, m) <==> IsIncumbent(rows', eligible, m) {}
    IncumbentUnique(rows, eligible);
    IncumbentUnique(rows', eligible);
  }
}
