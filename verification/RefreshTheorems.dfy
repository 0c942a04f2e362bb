/**
 What the protocol guarantees in every reachable state and over every run.
 */
module RefreshTheorems {
  import opened Options
  import opened TokenFamilies
  import opened RefreshProtocol
  import opened RefreshInvariant
  import opened RefreshSteps
  import opened RefreshWrites

  // ---- the invariant over runs --------------------------------------------------------------

  lemma {:induction false} WritesKeepInv(s: State, a: Action, s': State)
    requires Inv(s) && (a.Open? || a.Acquire? || a.Fetch? || a.Rotate? || a.UpdateRow? || a.Abort?)
    requires a.t in s.txns && StepOf(s, a) == Some(s')
    ensures Inv(s')
  {
    match a
    case Open(t, id, row) => OpenKeepsInv(s, s', t, id, row);
    case Acquire(t) => AcquireKeepsInv(s, s', t);
    case Fetch(t, id) => FetchKeepsInv(s, s', t, id);
    case Rotate(t, _, _, newId, hash, created, expires) => RotateKeepsInv(s, s', t, newId, hash, created, expires);
    case UpdateRow(t, id) => UpdateRowKeepsInv(s, s', t, id);
    case Abort(t) => AbortKeepsInv(s, s', t);
  }

  lemma {:induction false} DeliverIsRedis(s: State, c: Command, s': State)
    requires StepDeliver(s, c) == Some(s')
    ensures OnlyRedis(s, s')
  {}

  lemma {:induction false} OuterStepKeepsInv(s: State, a: Action, s': State)
    requires Inv(s) && (a.Begin? || a.Deliver? || a.Expire?) && Step(s, a) == Some(s')
    ensures Inv(s')
  {
    match a
    case Begin(t, req) => BeginKeepsInv(s, s', t, req);
    case Deliver(c) => DeliverIsRedis(s, c, s'); RedisKeepsInv(s, s');
    case Expire(h) => assert OnlyRedis(s, s'); RedisKeepsInv(s, s');
  }

  predicate Outer(a: Action) { a.Begin? || a.Deliver? || a.Expire? }

  /** A statement belongs to an open transaction. */
  lemma {:induction false} StepIsOf(s: State, a: Action, s': State)
    requires !Outer(a) && Step(s, a) == Some(s')
    ensures a.t in s.txns && StepOf(s, a) == Some(s')
  {}

  ghost predicate SameTable(s: State, s': State) { s'.db == s.db && s'.blind == s.blind && s'.cfg == s.cfg }

  /** What every statement but a commit leaves: the table, and every other transaction. */
  ghost predicate OwnOnly(s: State, s': State, t: TxnId) {
    && SameTable(s, s') && t in s'.txns && s'.txns.Keys == s.txns.Keys + {t}
    && (t in s.txns ==> s'.txns[t].req == s.txns[t].req)
    && (t !in s.txns ==> s'.txns[t].pc == Start)
    && forall u :: u in s.txns && u != t ==> s'.txns[u] == s.txns[u]
  }

  lemma {:induction false} LookupStepIsOwn(s: State, a: Action, s': State)
    requires (a.Find? || a.FindNone? || a.ListFamilies? || a.Refuse?) && a.t in s.txns && StepOf(s, a) == Some(s')
    ensures OwnOnly(s, s', a.t)
  {}

  lemma {:induction false} LockStepIsOwn(s: State, a: Action, s': State)
    requires (a.Open? || a.Acquire? || a.Fetch? || a.Rotate? || a.Abort?) && a.t in s.txns && StepOf(s, a) == Some(s')
    ensures OwnOnly(s, s', a.t)
  {}

  lemma {:induction false} LoadStepIsOwn(s: State, a: Action, s': State)
    requires (a.SkipReplay? || a.Load?) && a.t in s.txns && StepOf(s, a) == Some(s')
    ensures OwnOnly(s, s', a.t)
  {}

  lemma {:induction false} ReadChildIsOwn(s: State, t: TxnId, now: Time, s': State)
    requires t in s.txns && StepReadChild(s, t, now) == Some(s')
    ensures OwnOnly(s, s', t)
  {}

  lemma {:induction false} VetIsOwn(s: State, t: TxnId, dbNow: Time, account: Option<Account>, s': State)
    requires t in s.txns && StepVet(s, t, dbNow, account) == Some(s')
    ensures OwnOnly(s, s', t)
  {}

  lemma {:induction false} JudgeIsOwn(s: State, t: TxnId, dbNow: Time, s': State)
    requires t in s.txns && StepJudge(s, t, dbNow) == Some(s')
    ensures OwnOnly(s, s', t)
  {}

  lemma {:induction false} ReadStepIsOwn(s: State, a: Action, s': State)
    requires (a.ReadChild? || a.Vet? || a.Judge?) && a.t in s.txns && StepOf(s, a) == Some(s')
    ensures OwnOnly(s, s', a.t)
  {
    if a.ReadChild? { ReadChildIsOwn(s, a.t, a.now, s'); }
    else if a.Vet? { VetIsOwn(s, a.t, a.dbNow, a.account, s'); }
    else { JudgeIsOwn(s, a.t, a.dbNow, s'); }
  }

  lemma {:induction false} ClaimIsOwn(s: State, t: TxnId, reply: Reply, s': State)
    requires t in s.txns && StepClaim(s, t, reply) == Some(s')
    ensures OwnOnly(s, s', t)
  {}

  lemma {:induction false} BudgetIsOwn(s: State, t: TxnId, within: Option<bool>, s': State)
    requires t in s.txns && StepBudget(s, t, within) == Some(s')
    ensures OwnOnly(s, s', t)
  {}

  lemma {:induction false} ReturnIsOwn(s: State, t: TxnId, reply: Reply, s': State)
    requires t in s.txns && StepReturn(s, t, reply) == Some(s')
    ensures OwnOnly(s, s', t)
  {}

  lemma {:induction false} ClaimStepIsOwn(s: State, a: Action, s': State)
    requires (a.Claim? || a.Budget? || a.Return?) && a.t in s.txns && StepOf(s, a) == Some(s')
    ensures OwnOnly(s, s', a.t)
  {
    if a.Claim? { ClaimIsOwn(s, a.t, a.reply, s'); }
    else if a.Budget? { BudgetIsOwn(s, a.t, a.within, s'); }
    else { ReturnIsOwn(s, a.t, a.reply, s'); }
  }

  lemma {:induction false} UpdateStepIsOwn(s: State, a: Action, s': State)
    requires (a.StartUpdate? || a.UpdateRow? || a.EndUpdate?) && a.t in s.txns && StepOf(s, a) == Some(s')
    ensures OwnOnly(s, s', a.t)
  {}

  lemma {:induction false} RememberIsOwn(s: State, a: Action, s': State)
    requires a.Remember? && a.t in s.txns && StepOf(s, a) == Some(s')
    ensures OwnOnly(s, s', a.t)
  {}

  lemma {:induction false} StepIsOwn(s: State, a: Action, s': State)
    requires !Outer(a) && !a.Commit? && a.t in s.txns && StepOf(s, a) == Some(s')
    ensures OwnOnly(s, s', a.t)
  {
    if a.Find? || a.FindNone? || a.ListFamilies? || a.Refuse? { LookupStepIsOwn(s, a, s'); }
    else if a.Open? || a.Acquire? || a.Fetch? || a.Rotate? || a.Abort? { LockStepIsOwn(s, a, s'); }
    else if a.SkipReplay? || a.Load? { LoadStepIsOwn(s, a, s'); }
    else if a.ReadChild? || a.Vet? || a.Judge? { ReadStepIsOwn(s, a, s'); }
    else if a.Claim? || a.Budget? || a.Return? { ClaimStepIsOwn(s, a, s'); }
    else if a.Remember? { RememberIsOwn(s, a, s'); }
    else { UpdateStepIsOwn(s, a, s'); }
  }

  /** Nothing but a commit changes the table. */
  lemma {:induction false} TableStaysUnlessCommit(s: State, a: Action, s': State)
    requires Step(s, a) == Some(s') && !a.Commit?
    ensures SameTable(s, s')
  {
    if a.Deliver? { DeliverIsRedis(s, a.c, s'); }
    else if a.Begin? || a.Expire? {}
    else { StepIsOf(s, a, s'); StepIsOwn(s, a, s'); }
  }

  lemma {:induction false} StatementKeepsInv(s: State, a: Action, s': State)
    requires Inv(s) && !Outer(a) && a.t in s.txns && StepOf(s, a) == Some(s')
    ensures Inv(s') && TableEvolves(s.db, s'.db) && s'.cfg == s.cfg
  {
    if a.Commit? {
      CommitShape(s, s', a.t, a.cca);
      CommitKeepsInv(s, s', a.t, s.txns[a.t].pc.outcome);
    } else {
      StepIsOwn(s, a, s');
      if Moves(a) { MovesKeepInv(s, a, s'); } else { WritesKeepInv(s, a, s'); }
    }
  }

  /** Every statement of every interleaving keeps the invariant, never un-revokes a token and never
      re-points one. */
  lemma {:induction false} StepKeepsInv(s: State, a: Action, s': State)
    requires Inv(s) && Step(s, a) == Some(s')
    ensures Inv(s') && TableEvolves(s.db, s'.db) && s'.cfg == s.cfg
  {
    if Outer(a) {
      TableStaysUnlessCommit(s, a, s');
      OuterStepKeepsInv(s, a, s');
    } else {
      StepIsOf(s, a, s');
      StatementKeepsInv(s, a, s');
    }
  }

  lemma {:induction false} RunKeepsInv(s: State, actions: seq<Action>, s': State)
    requires Inv(s) && Run(s, actions) == Some(s')
    ensures Inv(s') && TableEvolves(s.db, s'.db) && s'.cfg == s.cfg
    decreases |actions|
  {
    if actions != [] {
      var next := Step(s, actions[0]).value;
      StepKeepsInv(s, actions[0], next);
      RunKeepsInv(next, actions[1..], s');
      EvolvesTransitive(s.db, next.db, s'.db);
    }
  }

  lemma {:induction false} EvolvesTransitive(a: Table, b: Table, c: Table)
    requires TableEvolves(a, b) && TableEvolves(b, c)
    ensures TableEvolves(a, c)
  {
    forall id | id in a ensures id in c && Evolves(a[id], c[id]) {
      assert id in b && Evolves(a[id], b[id]);
    }
  }

  lemma {:induction false} InitialInv(s: State)
    requires Initial(s)
    ensures Inv(s)
  {}

  lemma {:induction false} ReachableInv(s: State)
    requires Reachable(s)
    ensures Inv(s)
  {
    var s0, actions :| Initial(s0) && Run(s0, actions) == Some(s);
    InitialInv(s0);
    RunKeepsInv(s0, actions, s);
  }

  /** In every reachable state each family is one chain: no branch, no cycle, at most one token not
      revoked, and that one the last. */
  lemma {:induction false} EveryFamilyIsAChain(s: State, f: FamilyId)
    requires Reachable(s) && HasFamily(s.db, f)
    ensures exists c :: IsChain(s.db, f, c)
    ensures forall c, i :: IsChain(s.db, f, c) && 0 <= i < |c| && !s.db[c[i]].revoked ==> i == |c| - 1
  {
    ReachableInv(s);
    forall c, i | IsChain(s.db, f, c) && 0 <= i < |c| && !s.db[c[i]].revoked ensures i == |c| - 1 {
      LiveIsLast(s.db, f, c, i);
    }
  }

  /** A token is rotated at most once, however many clients present it. */
  lemma {:induction false} RotatedAtMostOnce(s: State, t: TxnId, u: TxnId)
    requires Reachable(s) && t in s.txns && u in s.txns
    requires RotatedBy(s.txns[t]).Some? && RotatedBy(s.txns[u]).Some?
    requires s.txns[t].req.Refresh? && s.txns[u].req.Refresh? && s.txns[t].req.hash == s.txns[u].req.hash
    ensures t == u
  {
    ReachableInv(s);
    assert TxnOk(s, t) && TxnOk(s, u);
  }

  // ---- no deadlock on the family locks --------------------------------------------------------

  ghost predicate WaitsFor(s: State, t: TxnId, u: TxnId) {
    && t in s.txns && s.txns[t].pc.Locking? && s.txns[t].pc.todo != []
    && u != t && HeldBy(s.locks, s.txns[t].pc.todo[0], u)
  }

  /** Keys are taken in ascending order, so along a chain of waiters the awaited keys ascend. */
  lemma {:induction false} AwaitedKeysAscend(s: State, t: TxnId, u: TxnId, v: TxnId)
    requires Inv(s) && WaitsFor(s, t, u) && WaitsFor(s, u, v)
    ensures s.txns[t].pc.todo[0] < s.txns[u].pc.todo[0]
  {
    assert TxnOk(s, u);
  }

  ghost predicate WaitPath(s: State, path: seq<TxnId>) {
    forall i {:trigger path[i]} :: 0 <= i < |path| - 1 ==> WaitsFor(s, path[i], path[i + 1])
  }

  lemma {:induction false} WaitPathShorter(s: State, path: seq<TxnId>)
    requires |path| >= 3 && WaitPath(s, path)
    ensures WaitPath(s, path[..|path| - 1])
  {
    var shorter := path[..|path| - 1];
    forall i | 0 <= i < |shorter| - 1 ensures WaitsFor(s, shorter[i], shorter[i + 1]) {
      assert WaitsFor(s, path[i], path[i + 1]);
    }
  }

  lemma {:induction false} AwaitedKeysAscendAlong(s: State, path: seq<TxnId>)
    requires Inv(s) && |path| >= 3 && WaitPath(s, path)
    ensures s.txns[path[0]].pc.todo != [] && s.txns[path[|path| - 2]].pc.todo != []
    ensures s.txns[path[0]].pc.todo[0] < s.txns[path[|path| - 2]].pc.todo[0]
    decreases |path|
  {
    hide Inv;
    var n := |path|;
    assert WaitsFor(s, path[n - 3], path[n - 3 + 1]) && WaitsFor(s, path[n - 2], path[n - 2 + 1]);
    AwaitedKeysAscend(s, path[n - 3], path[n - 2], path[n - 1]);
    if n > 3 {
      WaitPathShorter(s, path);
      AwaitedKeysAscendAlong(s, path[..n - 1]);
    }
  }

  lemma {:induction false} NoWaitCycleNow(s: State, path: seq<TxnId>)
    requires Inv(s) && |path| >= 2 && WaitPath(s, path)
    ensures path[0] != path[|path| - 1]
  {
    var n := |path|;
    assert WaitsFor(s, path[0], path[0 + 1]) && WaitsFor(s, path[n - 2], path[n - 2 + 1]);
    if path[0] == path[n - 1] {
      AwaitedKeysAscend(s, path[n - 2], path[0], path[1]);
      if n >= 3 { AwaitedKeysAscendAlong(s, path); }
    }
  }

  /** No set of rotations, logouts and mass revocations ever waits in a circle on family locks. */
  lemma {:induction false} NoWaitCycle(s: State, path: seq<TxnId>)
    requires Reachable(s) && |path| >= 2 && WaitPath(s, path)
    ensures path[0] != path[|path| - 1]
  {
    ReachableInv(s);
    NoWaitCycleNow(s, path);
  }

  // ---- revocation is final ----------------------------------------------------------------------

  /** Committing a revocation leaves no live token in the families it locked. */
  lemma {:induction false} RevocationKills(s: State, s': State, t: TxnId, families: set<FamilyId>, f: FamilyId)
    requires Commits(s, s', t, Killed(families)) && RevokingOk(s, t, s.txns[t], families, true, {}) && f in families
    ensures Dead(s'.db, f)
  {
    KnownFamily(s, s.txns[t].req, families, f);
    var r :| r in s.db && s.db[r].family == f;
    assert r in s'.db && s'.db[r].family == f;
    forall id | id in s'.db && s'.db[id].family == f ensures s'.db[id].revoked {
      if id !in s.txns[t].writes { assert id in s.db && s.db[id].family in families; }
    }
  }

  lemma {:induction false} CommitLeavesDead(s: State, s': State, t: TxnId, o: Outcome, f: FamilyId)
    requires Commits(s, s', t, o) && TableEvolves(s.db, s'.db) && Dead(s.db, f)
    requires forall id :: Pending(s, t, id) ==> s.txns[t].writes[id].family != f
    ensures Dead(s'.db, f)
  {
    var r :| r in s.db && s.db[r].family == f;
    assert Evolves(s.db[r], s'.db[r]);
    forall id | id in s'.db && s'.db[id].family == f ensures s'.db[id].revoked {
      if id in s.db { assert Evolves(s.db[id], s'.db[id]); } else { assert Pending(s, t, id); }
    }
  }

  /** Nothing is ever inserted into a dead family: a rotation needs a live token of it, a login opens another. */
  lemma {:induction false} InsertsElsewhere(s: State, t: TxnId, f: FamilyId)
    requires AllOk(s) && InsertsFresh(s) && Dead(s.db, f) && t in s.txns && s.txns[t].pc.Ready?
    ensures forall id :: Pending(s, t, id) ==> s.txns[t].writes[id].family != f
  {
    assert TxnOk(s, t);
    var o := s.txns[t].pc.outcome;
    var r :| r in s.db && s.db[r].family == f;
    if o.Rotated? { assert s.db[o.id].family != f; }
  }

  lemma {:induction false} DeadStays(s: State, a: Action, s': State, f: FamilyId)
    requires Inv(s) && Step(s, a) == Some(s') && Dead(s.db, f)
    ensures Dead(s'.db, f)
  {
    if a.Commit? {
      StepKeepsInv(s, a, s');
      CommitShape(s, s', a.t, a.cca);
      InsertsElsewhere(s, a.t, f);
      CommitLeavesDead(s, s', a.t, s.txns[a.t].pc.outcome, f);
    } else {
      TableStaysUnlessCommit(s, a, s');
    }
  }

  lemma {:induction false} DeadForever(s: State, actions: seq<Action>, s': State, f: FamilyId)
    requires Inv(s) && Run(s, actions) == Some(s') && Dead(s.db, f)
    ensures Dead(s'.db, f)
    decreases |actions|
  {
    if actions != [] {
      var next := Step(s, actions[0]).value;
      StepKeepsInv(s, actions[0], next);
      DeadStays(s, actions[0], next, f);
      DeadForever(next, actions[1..], s', f);
    }
  }

  /** Where a presentation of a dead family's token can be, if it began after the family died. */
  predicate Fated(pc: Pc, f: FamilyId) {
    match pc
    case Start => true
    case Locking(_, _) => true
    case Locked(_) => true
    case Fetched(_, _) => true
    case Loaded(_, _, _) => true
    case Checking(_, row, seen) => row.family == f && (seen.Some? ==> seen.value.revoked)
    case Updating(families, _, _) => families == {f}
    case Ready(o) => o == Killed({f})
    case Done(o) => o == Killed({f}) || o == Aborted
    case _ => false
  }

  /** `t` presents the token in row `id` of family `f`. */
  ghost predicate PresentsDead(s: State, t: TxnId, id: TokenId, f: FamilyId) {
    && Dead(s.db, f) && id in s.db && s.db[id].family == f
    && t in s.txns && s.txns[t].req.Refresh? && s.txns[t].req.hash == s.db[id].hash
  }

  lemma {:induction false} FateOfLookup(s: State, a: Action, s': State, id: TokenId, f: FamilyId)
    requires (a.Open? || a.Find? || a.FindNone? || a.ListFamilies? || a.Acquire? || a.Fetch? || a.Refuse? || a.Rotate?)
    requires a.t in s.txns && StepOf(s, a) == Some(s')
    requires PresentsDead(s, a.t, id, f) && Fated(s.txns[a.t].pc, f) && TxnOk(s, a.t) && HashesUnique(s.db)
    ensures a.t in s'.txns && Fated(s'.txns[a.t].pc, f)
  {
    assert Presents(s.txns[a.t].req, s.db[id]);
  }

  /** Under the lock of a dead family the replacement is revoked too, so neither a replay nor a conflict passes. */
  lemma {:induction false} FateOfReplay(s: State, a: Action, s': State, id: TokenId, f: FamilyId)
    requires (a.SkipReplay? || a.Load? || a.ReadChild? || a.Judge?) && a.t in s.txns && StepOf(s, a) == Some(s')
    requires PresentsDead(s, a.t, id, f) && Fated(s.txns[a.t].pc, f) && TxnOk(s, a.t) && Chained(s.db)
      && HashesUnique(s.db)
    ensures a.t in s'.txns && Fated(s'.txns[a.t].pc, f)
  {
    var pc := s.txns[a.t].pc;
    if pc.Fetched? || pc.Loaded? || pc.Checking? {
      assert pc.id == id;
      ChainConsequences(s.db, id, id);
    }
  }

  lemma {:induction false} FateOfRest(s: State, a: Action, s': State, f: FamilyId)
    requires a.StartUpdate? || a.UpdateRow? || a.EndUpdate? || a.Remember? || a.Abort?
    requires a.t in s.txns && StepOf(s, a) == Some(s') && Fated(s.txns[a.t].pc, f)
    ensures a.t in s'.txns && Fated(s'.txns[a.t].pc, f)
  {}

  /** It is at none of the places where a replay is granted. */
  lemma {:induction false} FateHasNoReplay(s: State, a: Action, s': State, f: FamilyId)
    requires a.Vet? || a.Claim? || a.Budget? || a.Return?
    requires a.t in s.txns && StepOf(s, a) == Some(s')
    ensures !Fated(s.txns[a.t].pc, f)
  {}

  /** Only a transaction's own statements move it. */
  lemma {:induction false} OthersStand(s: State, a: Action, s': State, t: TxnId)
    requires Step(s, a) == Some(s') && t in s.txns && (a.Deliver? || a.Expire? || a.t != t)
    ensures t in s'.txns && s'.txns[t].pc == s.txns[t].pc && s'.txns[t].req == s.txns[t].req
  {
    if a.Deliver? { DeliverIsRedis(s, a.c, s'); }
    else if a.Expire? || a.Begin? {}
    else {
      StepIsOf(s, a, s');
      if a.Commit? { CommitShape(s, s', a.t, a.cca); } else { StepIsOwn(s, a, s'); }
    }
  }

  lemma {:induction false} OwnKeepsRequest(s: State, a: Action, s': State)
    requires !Outer(a) && Step(s, a) == Some(s')
    ensures a.t in s.txns && a.t in s'.txns && s'.txns.Keys == s.txns.Keys && s'.txns[a.t].req == s.txns[a.t].req
  {
    StepIsOf(s, a, s');
    if a.Commit? { CommitShape(s, s', a.t, a.cca); } else { StepIsOwn(s, a, s'); }
  }

  lemma {:induction false} FateStays(s: State, a: Action, s': State, t: TxnId, id: TokenId, f: FamilyId)
    requires Inv(s) && Step(s, a) == Some(s') && PresentsDead(s, t, id, f) && Fated(s.txns[t].pc, f)
    ensures PresentsDead(s', t, id, f) && Fated(s'.txns[t].pc, f)
  {
    StepKeepsInv(s, a, s');
    DeadStays(s, a, s', f);
    assert Evolves(s.db[id], s'.db[id]);
    if a.Deliver? || a.Expire? || a.t != t {
      OthersStand(s, a, s', t);
    } else if !a.Begin? {
      OwnKeepsRequest(s, a, s');
      assert TxnOk(s, t);
      StepIsOf(s, a, s');
      OwnMove(s, a, s', id, f);
    }
  }

  lemma {:induction false} OwnMove(s: State, a: Action, s': State, id: TokenId, f: FamilyId)
    requires !Outer(a) && a.t in s.txns && TxnOk(s, a.t) && TableOk(s.db) && StepOf(s, a) == Some(s')
    requires PresentsDead(s, a.t, id, f) && Fated(s.txns[a.t].pc, f)
    ensures a.t in s'.txns && Fated(s'.txns[a.t].pc, f)
  {
    if a.SkipReplay? || a.Load? || a.ReadChild? || a.Judge? { FateOfReplay(s, a, s', id, f); }
    else if a.Commit? { CommitShape(s, s', a.t, a.cca); }
    else if a.Open? || a.Find? || a.FindNone? || a.ListFamilies? || a.Acquire? || a.Fetch? || a.Refuse? || a.Rotate? {
      FateOfLookup(s, a, s', id, f);
    }
    else if a.Vet? || a.Claim? || a.Budget? || a.Return? { FateHasNoReplay(s, a, s', f); }
    else { FateOfRest(s, a, s', f); }
  }

  lemma {:induction false} FateStep(s: State, a: Action, s': State, t: TxnId, req: Request, id: TokenId, f: FamilyId)
    requires Inv(s) && Step(s, a) == Some(s') && Dead(s.db, f) && id in s.db && s.db[id].family == f
    requires req.Refresh? && req.hash == s.db[id].hash
    requires t in s.txns && s.txns[t].req == req ==> Fated(s.txns[t].pc, f)
    ensures t in s'.txns && s'.txns[t].req == req ==> Fated(s'.txns[t].pc, f)
  {
    if t in s'.txns && s'.txns[t].req == req {
      if t !in s.txns {
        NewcomerStarts(s, a, s', t);
      } else {
        if a.Deliver? || a.Expire? || a.t != t { OthersStand(s, a, s', t); }
        else if !a.Begin? { OwnKeepsRequest(s, a, s'); }
        FateStays(s, a, s', t, id, f);
      }
    }
  }

  lemma {:induction false} NewcomerStarts(s: State, a: Action, s': State, t: TxnId)
    requires Step(s, a) == Some(s') && t !in s.txns && t in s'.txns
    ensures s'.txns[t].pc == Start
  {
    if a.Deliver? { DeliverIsRedis(s, a.c, s'); }
    else if !Outer(a) { OwnKeepsRequest(s, a, s'); }
  }

  lemma {:induction false} FateOfRun(s: State, actions: seq<Action>, s': State, t: TxnId, req: Request, id: TokenId,
                                     f: FamilyId)
    requires Inv(s) && Run(s, actions) == Some(s') && Dead(s.db, f) && id in s.db && s.db[id].family == f
    requires req.Refresh? && req.hash == s.db[id].hash
    requires t in s.txns && s.txns[t].req == req ==> Fated(s.txns[t].pc, f)
    ensures t in s'.txns && s'.txns[t].req == req ==> Fated(s'.txns[t].pc, f)
    decreases |actions|
  {
    if actions != [] {
      var next := Step(s, actions[0]).value;
      StepKeepsInv(s, actions[0], next);
      DeadStays(s, actions[0], next, f);
      assert Evolves(s.db[id], next.db[id]);
      FateStep(s, actions[0], next, t, req, id, f);
      FateOfRun(next, actions[1..], s', t, req, id, f);
    }
  }

  /** Reuse detection is final. Once every token of a family is revoked, each later presentation of
      one of them - whatever the interleaving, the clocks and the entries still in Redis - ends in
      the family being revoked again, or in an aborted transaction: it never issues a token and
      never gets the benign-conflict answer. */
  lemma {:induction false} RevokedFamilyNeverIssues(s: State, actions: seq<Action>, s': State, t: TxnId, id: TokenId)
    requires Reachable(s) && Run(s, actions) == Some(s') && id in s.db && Dead(s.db, s.db[id].family)
    requires t !in s.txns && t in s'.txns && s'.txns[t].req.Refresh? && s'.txns[t].req.hash == s.db[id].hash
    ensures s'.txns[t].pc.Done? ==> s'.txns[t].pc.outcome in {Killed({s.db[id].family}), Aborted}
    ensures Dead(s'.db, s.db[id].family)
  {
    ReachableInv(s);
    FateOfRun(s, actions, s', t, s'.txns[t].req, id, s.db[id].family);
    DeadForever(s, actions, s', s.db[id].family);
  }
}
