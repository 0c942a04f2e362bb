/**
 Waiting in a circle, on family locks and row locks together.

 Family locks alone never close a circle (`RefreshTheorems.NoWaitCycle`). Row locks can, but
 only between mass revocations of one user that are in their UPDATE at the same time: every
 circle holds two of them. Rotations, replays, logouts and one mass revocation never do.
 */
module RefreshDeadlock {
  import opened Options
  import opened TokenFamilies
  import opened RefreshProtocol
  import opened RefreshInvariant
  import opened RefreshSteps
  import opened RefreshWrites
  import opened RefreshTheorems
  import opened RefreshOutcomes
  import opened RefreshHistory
  import opened BlindRevocation

  // ---- waiting ----------------------------------------------------------------------------------------

  /** The row `t` is about to lock: the presented one, or one its UPDATE has still to reach. */
  ghost predicate Wants(s: State, t: TxnId, id: TokenId)
    requires t in s.txns
  {
    var x := s.txns[t];
    || (x.pc.Locked? && x.req.Refresh? && id in s.db && Presents(x.req, s.db[id]))
    || (x.pc.Updating? && x.pc.started && id in x.pc.targets)
  }

  ghost predicate WaitsForRow(s: State, t: TxnId, u: TxnId) {
    t in s.txns && u != t && exists id :: Wants(s, t, id) && HeldBy(s.rowLocks, id, u)
  }

  ghost predicate Waits(s: State, t: TxnId, u: TxnId) { WaitsFor(s, t, u) || WaitsForRow(s, t, u) }

  ghost predicate Ring(s: State, path: seq<TxnId>) {
    && |path| >= 2 && path[0] == path[|path| - 1]
    && forall i {:trigger path[i]} :: 0 <= i < |path| - 1 ==> Waits(s, path[i], path[i + 1])
  }

  /** `t` is a mass revocation in its UPDATE. */
  ghost predicate Revises(s: State, t: TxnId) {
    t in s.txns && s.txns[t].req.RevokeAll? && s.txns[t].pc.Updating? && s.txns[t].pc.started
  }

  // ---- what is held -----------------------------------------------------------------------------------

  /** A row of the family that `t`, no mass revocation, has locked for the token it presents. */
  ghost predicate OwnRow(s: State, t: TxnId, id: TokenId)
    requires t in s.txns
  {
    && id in s.db && HasKey(s, t, s.db[id].family)
    && exists p :: p in s.db && Presents(s.txns[t].req, s.db[p]) && s.db[p].family == s.db[id].family
  }

  /** Tokens of one user, no two of one family. */
  ghost predicate OnePerFamily(db: Table, ids: set<TokenId>, user: UserId) {
    && (forall a :: a in ids ==> a in db && db[a].user == user)
    && forall a, b :: a in ids && b in ids && db[a].family == db[b].family ==> a == b
  }

  ghost predicate RowsOk(s: State, t: TxnId)
    requires t in s.txns
  {
    forall id :: HeldBy(s.rowLocks, id, t) ==>
      if s.txns[t].req.RevokeAll? then id in s.txns[t].writes else OwnRow(s, t, id)
  }

  ghost predicate TargetsOk(s: State, t: TxnId)
    requires t in s.txns
  {
    var x := s.txns[t];
    x.pc.Updating? && x.pc.started ==>
      if x.req.RevokeAll? then OnePerFamily(s.db, x.pc.targets + x.writes.Keys, x.req.user)
      else forall id :: id in x.pc.targets ==> OwnRow(s, t, id)
  }

  ghost predicate Held(s: State) {
    forall t {:trigger RowsOk(s, t)} {:trigger TargetsOk(s, t)} :: t in s.txns ==> RowsOk(s, t) && TargetsOk(s, t)
  }

  // ---- what others leave ------------------------------------------------------------------------------

  ghost predicate SameLocks(s: State, s': State) { s'.locks == s.locks && s'.rowLocks == s.rowLocks }

  predicate Takes(a: Action) { a.Acquire? || a.Fetch? || a.UpdateRow? }

  predicate Ends(a: Action) { a.Commit? || a.Abort? }

  lemma {:induction false} InsertsTakeNoLock(s: State, a: Action, s': State)
    requires (a.Open? || a.Rotate?) && a.t in s.txns && StepOf(s, a) == Some(s')
    ensures SameLocks(s, s')
  {}

  lemma {:induction false} MovesAre(s: State, a: Action, s': State)
    requires Inv(s) && Moves(a) && a.t in s.txns && StepOf(s, a) == Some(s')
    ensures Moved(s, s', a.t)
  {
    assert TxnOk(s, a.t);
    hide TxnOk, StepOf, Moved, Apart;
    if MovesEarly(a) { EarlyMovesKeepOwn(s, a, s'); } else { LateMovesKeepOwn(s, a, s'); }
  }

  /** Locks are taken only where they are free, and ended transactions give up only their own. */
  ghost predicate LocksOf(s: State, s': State, u: TxnId) {
    && (forall k :: HeldBy(s'.locks, k, u) <==> HeldBy(s.locks, k, u))
    && (forall id :: HeldBy(s'.rowLocks, id, u) <==> HeldBy(s.rowLocks, id, u))
  }

  lemma {:induction false} TakingLeaves(s: State, a: Action, s': State, u: TxnId)
    requires Takes(a) && a.t in s.txns && StepOf(s, a) == Some(s') && u != a.t
    ensures LocksOf(s, s', u)
  {}

  lemma {:induction false} EndingLeaves(s: State, a: Action, s': State, u: TxnId)
    requires Ends(a) && a.t in s.txns && StepOf(s, a) == Some(s') && u != a.t
    ensures LocksOf(s, s', u)
  {
    if a.Commit? { CommitShape(s, s', a.t, a.cca); }
  }

  lemma {:induction false} StatementLeaves(s: State, a: Action, s': State, u: TxnId)
    requires Inv(s) && !Outer(a) && a.t in s.txns && StepOf(s, a) == Some(s') && u != a.t
    ensures LocksOf(s, s', u)
  {
    hide Inv, StepOf;
    if Takes(a) { TakingLeaves(s, a, s', u); }
    else if Ends(a) { EndingLeaves(s, a, s', u); }
    else if Moves(a) { MovesAre(s, a, s'); }
    else { InsertsTakeNoLock(s, a, s'); }
  }

  lemma {:induction false} OthersLeave(s: State, a: Action, s': State, u: TxnId)
    requires Inv(s) && Step(s, a) == Some(s') && (a.Deliver? || a.Expire? || a.t != u)
    ensures LocksOf(s, s', u)
  {
    hide Inv;
    if a.Deliver? { DeliverIsRedis(s, a.c, s'); }
    else if !Outer(a) {
      StepIsOf(s, a, s');
      StatementLeaves(s, a, s', u);
    }
  }

  lemma {:induction false} OwnRowStays(s: State, s': State, t: TxnId, id: TokenId)
    requires t in s.txns && t in s'.txns && s'.txns[t].req == s.txns[t].req && s'.cfg == s.cfg
    requires TableEvolves(s.db, s'.db) && OwnRow(s, t, id)
    requires forall k :: HeldBy(s.locks, k, t) ==> HeldBy(s'.locks, k, t)
    ensures OwnRow(s', t, id)
  {
    var p :| p in s.db && Presents(s.txns[t].req, s.db[p]) && s.db[p].family == s.db[id].family;
    assert Evolves(s.db[p], s'.db[p]) && Evolves(s.db[id], s'.db[id]);
    assert HeldBy(s.locks, s.cfg.keyOf(s.db[id].family), t);
  }

  lemma {:induction false} OnePerStays(db: Table, db': Table, ids: set<TokenId>, fewer: set<TokenId>, user: UserId)
    requires TableEvolves(db, db') && OnePerFamily(db, ids, user) && fewer <= ids
    ensures OnePerFamily(db', fewer, user)
  {
    forall a | a in fewer ensures a in db' && db'[a].user == user && db'[a].family == db[a].family {
      assert a in db && Evolves(db[a], db'[a]);
    }
  }

  lemma {:induction false} HeldByOthers(s: State, s': State, t: TxnId)
    requires t in s.txns && t in s'.txns && RowsOk(s, t) && TargetsOk(s, t) && s'.cfg == s.cfg
      && TableEvolves(s.db, s'.db) && LocksOf(s, s', t)
    requires s'.txns[t].req == s.txns[t].req && s'.txns[t].pc == s.txns[t].pc && s'.txns[t].writes == s.txns[t].writes
    ensures RowsOk(s', t) && TargetsOk(s', t)
  {
    hide OwnRow, OnePerFamily;
    var x := s.txns[t];
    forall id | HeldBy(s'.rowLocks, id, t) && !x.req.RevokeAll? ensures OwnRow(s', t, id) { OwnRowStays(s, s', t, id); }
    if x.pc.Updating? && x.pc.started {
      if x.req.RevokeAll? {
        OnePerStays(s.db, s'.db, x.pc.targets + x.writes.Keys, x.pc.targets + x.writes.Keys, x.req.user);
      } else {
        forall id | id in x.pc.targets ensures OwnRow(s', t, id) { OwnRowStays(s, s', t, id); }
      }
    }
  }

  // ---- what a transaction does ------------------------------------------------------------------------

  /** A statement that takes no row lock, writes nothing for a mass revocation, and starts no UPDATE. */
  ghost predicate Modest(s: State, s': State, t: TxnId) {
    && t in s.txns && t in s'.txns && s'.txns[t].req == s.txns[t].req && s'.cfg == s.cfg && s'.db == s.db
    && s'.rowLocks == s.rowLocks && (forall k :: HeldBy(s.locks, k, t) ==> HeldBy(s'.locks, k, t))
    && (s.txns[t].req.RevokeAll? ==> s'.txns[t].writes == s.txns[t].writes)
    && !(s'.txns[t].pc.Updating? && s'.txns[t].pc.started)
  }

  lemma {:induction false} ModestKeeps(s: State, s': State, t: TxnId)
    requires Modest(s, s', t) && RowsOk(s, t)
    ensures RowsOk(s', t) && TargetsOk(s', t)
  {
    hide OwnRow;
    forall id | HeldBy(s'.rowLocks, id, t) && !s.txns[t].req.RevokeAll? ensures OwnRow(s', t, id) {
      OwnRowStays(s, s', t, id);
    }
  }

  /** Only StartUpdate and UpdateRow leave a transaction in the middle of its UPDATE. */
  lemma {:induction false} LookupStarts(s: State, a: Action, s': State)
    requires (a.Find? || a.FindNone? || a.ListFamilies? || a.Refuse? || a.SkipReplay? || a.Load?) && a.t in s.txns
      && StepOf(s, a) == Some(s')
    ensures a.t in s'.txns && !(s'.txns[a.t].pc.Updating? && s'.txns[a.t].pc.started)
  {}

  lemma {:induction false} ReadChildStarts(s: State, a: Action, s': State)
    requires a.ReadChild? && a.t in s.txns && StepOf(s, a) == Some(s')
    ensures a.t in s'.txns && !(s'.txns[a.t].pc.Updating? && s'.txns[a.t].pc.started)
  {}

  lemma {:induction false} VetStarts(s: State, a: Action, s': State)
    requires a.Vet? && a.t in s.txns && StepOf(s, a) == Some(s')
    ensures a.t in s'.txns && !(s'.txns[a.t].pc.Updating? && s'.txns[a.t].pc.started)
  {}

  lemma {:induction false} JudgeStarts(s: State, a: Action, s': State)
    requires a.Judge? && a.t in s.txns && StepOf(s, a) == Some(s')
    ensures a.t in s'.txns && !(s'.txns[a.t].pc.Updating? && s'.txns[a.t].pc.started)
  {}

  lemma {:induction false} ClaimStarts(s: State, a: Action, s': State)
    requires a.Claim? && a.t in s.txns && StepOf(s, a) == Some(s')
    ensures a.t in s'.txns && !(s'.txns[a.t].pc.Updating? && s'.txns[a.t].pc.started)
  {}

  lemma {:induction false} BudgetStarts(s: State, a: Action, s': State)
    requires a.Budget? && a.t in s.txns && StepOf(s, a) == Some(s')
    ensures a.t in s'.txns && !(s'.txns[a.t].pc.Updating? && s'.txns[a.t].pc.started)
  {}

  lemma {:induction false} ReturnStarts(s: State, a: Action, s': State)
    requires a.Return? && a.t in s.txns && StepOf(s, a) == Some(s')
    ensures a.t in s'.txns && !(s'.txns[a.t].pc.Updating? && s'.txns[a.t].pc.started)
  {}

  lemma {:induction false} EndStarts(s: State, a: Action, s': State)
    requires (a.Remember? || a.EndUpdate?) && a.t in s.txns && StepOf(s, a) == Some(s')
    ensures a.t in s'.txns && !(s'.txns[a.t].pc.Updating? && s'.txns[a.t].pc.started)
  {}

  lemma {:induction false} InsertIsModest(s: State, a: Action, s': State)
    requires (a.Open? || a.Rotate? || a.Acquire?) && a.t in s.txns && StepOf(s, a) == Some(s') && TxnOk(s, a.t)
    ensures Modest(s, s', a.t)
  {}

  lemma {:induction false} MoveIsModest(s: State, a: Action, s': State)
    requires Inv(s) && Moves(a) && !a.StartUpdate? && a.t in s.txns && StepOf(s, a) == Some(s')
    ensures Modest(s, s', a.t)
  {
    hide Inv, StepOf;
    MovesAre(s, a, s');
    if a.Find? || a.FindNone? || a.ListFamilies? || a.Refuse? || a.SkipReplay? || a.Load? { LookupStarts(s, a, s'); }
    else if a.ReadChild? { ReadChildStarts(s, a, s'); }
    else if a.Vet? { VetStarts(s, a, s'); }
    else if a.Judge? { JudgeStarts(s, a, s'); }
    else if a.Claim? { ClaimStarts(s, a, s'); }
    else if a.Budget? { BudgetStarts(s, a, s'); }
    else if a.Return? { ReturnStarts(s, a, s'); }
    else { EndStarts(s, a, s'); }
  }

  lemma {:induction false} FetchHeld(s: State, a: Action, s': State)
    requires a.Fetch? && a.t in s.txns && StepOf(s, a) == Some(s') && TxnOk(s, a.t) && HashesUnique(s.db)
    ensures a.t in s'.txns && RowsOk(s', a.t) && TargetsOk(s', a.t)
  {
    FetchedHolds(s, a.t, a.id, s');
  }

  lemma {:induction false} FetchedHolds(s: State, t: TxnId, id: TokenId, s': State)
    requires t in s.txns && StepFetch(s, t, id) == Some(s') && TxnOk(s, t) && HashesUnique(s.db)
    ensures t in s'.txns && RowsOk(s', t) && TargetsOk(s', t)
  {
    if s.txns[t].req.Refresh? {
      var p :| p in s.db && Presents(s.txns[t].req, s.db[p]) && s.txns[t].pc.families == {s.db[p].family};
      assert p == id;
    }
  }

  lemma {:induction false} StartHeld(s: State, a: Action, s': State)
    requires a.StartUpdate? && a.t in s.txns && StepOf(s, a) == Some(s') && TxnOk(s, a.t) && RowsOk(s, a.t)
      && Chained(s.db)
    ensures a.t in s'.txns && RowsOk(s', a.t) && TargetsOk(s', a.t)
  {
    var t := a.t;
    var x, x' := s.txns[t], s'.txns[t];
    assert RowsOk(s', t);
    if x.req.RevokeAll? {
      assert x'.pc.targets + x'.writes.Keys == x'.pc.targets;
      forall a, b | a in x'.pc.targets && b in x'.pc.targets && s.db[a].family == s.db[b].family ensures a == b {
        ChainConsequences(s.db, a, b);
      }
    }
  }

  lemma {:induction false} UpdateRowHeld(s: State, a: Action, s': State)
    requires a.UpdateRow? && a.t in s.txns && StepOf(s, a) == Some(s') && TxnOk(s, a.t) && RowsOk(s, a.t)
      && TargetsOk(s, a.t)
    ensures a.t in s'.txns && RowsOk(s', a.t) && TargetsOk(s', a.t)
  {
    var t, id := a.t, a.id;
    var x, x' := s.txns[t], s'.txns[t];
    UpdateRowGoes(s, t, id, s');
    hide StepOf, TxnOk, OwnRow, OnePerFamily;
    if x.req.RevokeAll? {
      OnePerStays(s.db, s'.db, x.pc.targets + x.writes.Keys, x'.pc.targets + x'.writes.Keys, x.req.user);
    } else {
      forall r | HeldBy(s'.rowLocks, r, t) || r in x'.pc.targets ensures OwnRow(s', t, r) { OwnRowStays(s, s', t, r); }
    }
  }

  lemma {:induction false} UpdateRowGoes(s: State, t: TxnId, id: TokenId, s': State)
    requires t in s.txns && StepUpdateRow(s, t, id) == Some(s')
    ensures t in s'.txns && s'.txns[t].req == s.txns[t].req && s'.cfg == s.cfg && s'.db == s.db && s'.locks == s.locks
    ensures var x, x' := s.txns[t], s'.txns[t];
      && x.pc.Updating? && x.pc.started && id in x.pc.targets
      && x'.pc == Updating(x.pc.families, true, x.pc.targets - {id}) && x.writes.Keys <= x'.writes.Keys
      && x'.writes.Keys <= x.writes.Keys + {id}
      && (forall r :: HeldBy(s'.rowLocks, r, t) ==> HeldBy(s.rowLocks, r, t) || (r == id && id in x'.writes))
  {}

  lemma {:induction false} EndHeld(s: State, a: Action, s': State)
    requires Ends(a) && a.t in s.txns && StepOf(s, a) == Some(s')
    ensures a.t in s'.txns && RowsOk(s', a.t) && TargetsOk(s', a.t)
  {
    if a.Commit? { CommitShape(s, s', a.t, a.cca); }
  }

  lemma {:induction false} OwnHeld(s: State, a: Action, s': State)
    requires Inv(s) && !Outer(a) && a.t in s.txns && StepOf(s, a) == Some(s') && TxnOk(s, a.t) && RowsOk(s, a.t)
      && TargetsOk(s, a.t)
    ensures a.t in s'.txns && RowsOk(s', a.t) && TargetsOk(s', a.t)
  {
    hide RowsOk, TargetsOk, TxnOk, StepOf, Chained, HashesUnique, Apart, Owned;
    if a.Fetch? { FetchHeld(s, a, s'); }
    else if a.StartUpdate? { StartHeld(s, a, s'); }
    else if a.UpdateRow? { UpdateRowHeld(s, a, s'); }
    else if Ends(a) { EndHeld(s, a, s'); }
    else {
      if Moves(a) { MoveIsModest(s, a, s'); } else { InsertIsModest(s, a, s'); }
      ModestKeeps(s, s', a.t);
    }
  }

  lemma {:induction false} NewcomerHolds(s: State, a: Action, s': State, t: TxnId)
    requires Inv(s) && Step(s, a) == Some(s') && t !in s.txns && t in s'.txns
    ensures RowsOk(s', t) && TargetsOk(s', t)
  {
    StepKeepsInv(s, a, s');
    NewcomerStarts(s, a, s', t);
    assert TxnOk(s', t);
  }

  lemma {:induction false} StepKeepsHeld(s: State, a: Action, s': State)
    requires Inv(s) && Held(s) && Step(s, a) == Some(s')
    ensures Held(s')
  {
    hide RowsOk, TargetsOk, TxnOk, StepOf, LocksOf;
    StepKeepsInv(s, a, s');
    forall t | t in s'.txns ensures RowsOk(s', t) && TargetsOk(s', t) {
      if t !in s.txns {
        NewcomerHolds(s, a, s', t);
      } else {
        assert RowsOk(s, t);
        if a.Deliver? || a.Expire? || a.t != t {
          OthersWrites(s, a, s', t);
          OthersLeave(s, a, s', t);
          HeldByOthers(s, s', t);
        } else if !a.Begin? {
          StepIsOf(s, a, s');
          assert TxnOk(s, t);
          OwnHeld(s, a, s');
        }
      }
    }
  }

  lemma {:induction false} RunKeepsHeld(s: State, actions: seq<Action>, s': State)
    requires Inv(s) && Held(s) && Run(s, actions) == Some(s')
    ensures Held(s')
    decreases |actions|
  {
    hide Inv, Held, Step;
    if actions != [] {
      var next := Step(s, actions[0]).value;
      StepKeepsInv(s, actions[0], next);
      StepKeepsHeld(s, actions[0], next);
      RunKeepsHeld(next, actions[1..], s');
    }
  }

  // ---- circles ----------------------------------------------------------------------------------------

  /** Whoever waits and has a row locked for a mass revocation is in its UPDATE. */
  lemma {:induction false} WaitingReviser(s: State, u: TxnId, v: TxnId, id: TokenId)
    requires AllOk(s) && Held(s) && Waits(s, u, v) && HeldBy(s.rowLocks, id, u) && s.txns[u].req.RevokeAll?
    ensures Revises(s, u) && id in s.txns[u].writes
  {
    assert TxnOk(s, u) && RowsOk(s, u);
  }

  /** A rotation, replay or logout that waits for a row waits for a mass revocation. */
  lemma {:induction false} OthersWaitForRevisers(s: State, t: TxnId, u: TxnId, id: TokenId)
    requires AllOk(s) && Held(s) && HashesUnique(s.db) && t in s.txns && u in s.txns && u != t
    requires !s.txns[t].req.RevokeAll? && Wants(s, t, id) && HeldBy(s.rowLocks, id, u)
    ensures OwnRow(s, t, id) && s.txns[u].req.RevokeAll?
  {
    assert TxnOk(s, t) && RowsOk(s, t) && TargetsOk(s, t) && RowsOk(s, u);
    if s.txns[t].pc.Locked? { WantsPresented(s, t, id); }
  }

  lemma {:induction false} WantsPresented(s: State, t: TxnId, id: TokenId)
    requires t in s.txns && TxnOk(s, t) && HashesUnique(s.db)
    requires s.txns[t].pc.Locked? && s.txns[t].req.Refresh? && id in s.db && Presents(s.txns[t].req, s.db[id])
    ensures OwnRow(s, t, id)
  {
    var p :| p in s.db && Presents(s.txns[t].req, s.db[p]) && s.txns[t].pc.families == {s.db[p].family};
    assert p == id;
  }

  /** A mass revocation in its UPDATE, the next in the circle, and the one after: two of them are different mass
      revocations of one user. */
  lemma {:induction false} TwoRevisers(s: State, t: TxnId, u: TxnId, v: TxnId, w: TxnId) returns (other: TxnId)
    requires Inv(s) && Held(s) && Revises(s, t) && Waits(s, t, u) && Waits(s, u, v) && Waits(s, v, w)
    ensures other != t && Revises(s, other) && s.txns[other].req == s.txns[t].req && other in {u, v}
  {
    hide TxnOk, OwnRow, OnePerFamily, Chained, Apart;
    var id :| Wants(s, t, id) && HeldBy(s.rowLocks, id, u);
    assert TargetsOk(s, t);
    if s.txns[u].req.RevokeAll? {
      WaitingReviser(s, u, v, id);
      assert TargetsOk(s, u);
      SameUser(s.db, s.txns[t].pc.targets + s.txns[t].writes.Keys, s.txns[t].req.user,
        s.txns[u].pc.targets + s.txns[u].writes.Keys,
               s.txns[u].req.user, id, id);
      other := u;
    } else {
      WaitsForAnother(s, u, v, id);
      var id2 :| Wants(s, u, id2) && HeldBy(s.rowLocks, id2, v);
      OthersWaitForRevisers(s, u, v, id2);
      WaitingReviser(s, v, w, id2);
      OneFamily(s, u, id, id2);
      assert TargetsOk(s, v);
      if v == t { SameToken(s.db, s.txns[t].pc.targets + s.txns[t].writes.Keys, s.txns[t].req.user, id, id2); }
      SameUser(s.db, s.txns[t].pc.targets + s.txns[t].writes.Keys, s.txns[t].req.user,
        s.txns[v].pc.targets + s.txns[v].writes.Keys,
               s.txns[v].req.user, id, id2);
      other := v;
    }
  }

  lemma SameToken(db: Table, ids: set<TokenId>, user: UserId, a: TokenId, b: TokenId)
    requires OnePerFamily(db, ids, user) && a in ids && b in ids && db[a].family == db[b].family
    ensures a == b
  {}

  lemma SameUser(db: Table, ids: set<TokenId>, user: UserId, ids': set<TokenId>, user': UserId, a: TokenId, b: TokenId)
    requires OneOwnerPerFamily(db) && OnePerFamily(db, ids, user) && OnePerFamily(db, ids', user')
    requires a in ids && b in ids' && db[a].family == db[b].family
    ensures user == user'
  {}

  /** A transaction that holds a row and is no mass revocation can only wait for another row. */
  lemma {:induction false} WaitsForAnother(s: State, u: TxnId, v: TxnId, id: TokenId)
    requires AllOk(s) && Waits(s, u, v) && HeldBy(s.rowLocks, id, u) && !s.txns[u].req.RevokeAll?
    ensures WaitsForRow(s, u, v)
  {
    assert TxnOk(s, u);
  }

  /** The rows one presentation holds and wants are of one family. */
  lemma {:induction false} OneFamily(s: State, u: TxnId, id: TokenId, id2: TokenId)
    requires Held(s) && HashesUnique(s.db) && u in s.txns && !s.txns[u].req.RevokeAll?
    requires HeldBy(s.rowLocks, id, u) && OwnRow(s, u, id2)
    ensures id in s.db && id2 in s.db && s.db[id].family == s.db[id2].family
  {
    assert RowsOk(s, u);
    var p :| p in s.db && Presents(s.txns[u].req, s.db[p]) && s.db[p].family == s.db[id].family;
    var q :| q in s.db && Presents(s.txns[u].req, s.db[q]) && s.db[q].family == s.db[id2].family;
    assert p == q;
  }

  /** The next place in a circle. */
  function Next(path: seq<TxnId>, i: nat): nat
    requires i < |path| - 1
  {
    if i + 1 == |path| - 1 then 0 else i + 1
  }

  lemma {:induction false} NextWaits(s: State, path: seq<TxnId>, i: nat)
    requires Ring(s, path) && i < |path| - 1
    ensures Next(path, i) < |path| - 1 && Waits(s, path[i], path[Next(path, i)])
  {
    assert Waits(s, path[i], path[i + 1]);
  }

  lemma {:induction false} RingHasReviser(s: State, path: seq<TxnId>) returns (i: nat)
    requires Inv(s) && Held(s) && Ring(s, path)
    ensures i < |path| - 1 && Revises(s, path[i])
  {
    hide TxnOk, RowsOk, TargetsOk, OwnRow, TableOk, Apart, WaitsFor, WaitsForRow;
    if j: nat :| j < |path| - 1 && WaitsForRow(s, path[j], path[Next(path, j)]) {
      var t, u := path[j], path[Next(path, j)];
      NextWaits(s, path, Next(path, j));
      i := RowWaitHasReviser(s, t, u, path[Next(path, Next(path, j))], j, Next(path, j));
      assert path[i] == t || path[i] == u;
    } else {
      forall j: nat | j < |path| - 1 ensures WaitsFor(s, path[j], path[j + 1]) {
        NextWaits(s, path, j);
        assert !WaitsForRow(s, path[j], path[Next(path, j)]);
      }
      NoWaitCycleNow(s, path);
    }
  }

  lemma {:induction false} RowWaitHasReviser(s: State, t: TxnId, u: TxnId, v: TxnId, i: nat, j: nat) returns (k: nat)
    requires Inv(s) && Held(s) && WaitsForRow(s, t, u) && Waits(s, u, v)
    ensures (k == i && Revises(s, t)) || (k == j && Revises(s, u))
  {
    hide TxnOk, RowsOk, TargetsOk, OwnRow, Chained, Apart;
    var id :| Wants(s, t, id) && HeldBy(s.rowLocks, id, u);
    if s.txns[t].req.RevokeAll? {
      k := i;
    } else {
      OthersWaitForRevisers(s, t, u, id);
      WaitingReviser(s, u, v, id);
      k := j;
    }
  }

  lemma {:induction false} RingHasTwo(s: State, path: seq<TxnId>) returns (i: nat, j: nat)
    requires Inv(s) && Held(s) && Ring(s, path)
    ensures i < |path| && j < |path| && path[i] != path[j] && Revises(s, path[i]) && Revises(s, path[j])
    ensures s.txns[path[i]].req == s.txns[path[j]].req
  {
    hide Inv, Held, Revises, Waits;
    i := RingHasReviser(s, path);
    var k := Next(path, i);
    NextWaits(s, path, i);
    NextWaits(s, path, k);
    NextWaits(s, path, Next(path, k));
    var other := TwoRevisers(s, path[i], path[k], path[Next(path, k)], path[Next(path, Next(path, k))]);
    j := if other == path[k] then k else Next(path, k);
  }

  /** Every circle of transactions waiting for each other, on family locks or rows, holds two mass revocations of the
      same user that are both in their UPDATE. */
  lemma {:induction false} DeadlockNeedsTwoMassRevocations(s: State, path: seq<TxnId>)
    requires Reachable(s) && Ring(s, path)
    ensures exists t, u ::
      t in path && u in path && t != u && Revises(s, t) && Revises(s, u) && s.txns[t].req == s.txns[u].req
  {
    var s0, actions :| Initial(s0) && Run(s0, actions) == Some(s);
    hide Ring, Revises;
    InitialInv(s0);
    RunKeepsInv(s0, actions, s);
    RunKeepsHeld(s0, actions, s);
    var i, j := RingHasTwo(s, path);
  }

  // ---- one that happens -------------------------------------------------------------------------------

  const OTHER := Row(7, 6, 2000, 0, 500, false, None)

  /** Nothing is locked and nothing is pending; the mass revocations 1 and 2 have listed no family. */
  ghost predicate Calm(s: State, db: Table) {
    && Reachable(s) && s.cfg == CFG && s.db == db && s.locks == map[] && s.rowLocks == map[]
    && 1 in s.txns && s.txns[1] == LISTED && 2 in s.txns && s.txns[2] == LISTED
    && forall u :: u in s.txns ==> s.txns[u].writes == map[]
  }

  lemma {:induction false} BothListed() returns (s: State)
    ensures Calm(s, map[]) && s.txns.Keys == {1, 2}
  {
    var s1 := ListNothing();
    var s2 := s1.(txns := s1.txns[2 := Txn(RevokeAll(7), Start, map[], false)]);
    BeginMore(s1, 2, RevokeAll(7), s2);
    assert LiveFamilies(s2.db, 7) == {};
    s := At(s2, 2, Locked({}));
    More(s2, ListFamilies(2, []), s);
  }

  lemma {:induction false} LogsIn(s: State, t: TxnId, id: TokenId, row: Row) returns (s': State)
    requires Calm(s, s.db) && t !in s.txns && id !in s.db && Live(row) && row.user == 7
    requires forall r :: r in s.db ==> s.db[r].hash != row.hash && s.db[r].family != row.family
    ensures Calm(s', s.db[id := row]) && s'.txns.Keys == s.txns.Keys + {t}
  {
    hide FreshId, FreshHash, FreshFamily;
    var s1 := s.(txns := s.txns[t := Txn(Login(7), Start, map[], false)]);
    BeginMore(s, t, Login(7), s1);
    var s2 := s1.(txns := s1.txns[t := Txn(Login(7), Ready(LoggedIn(id)), map[id := row], false)]);
    Opens(s1, t, id, row, s2);
    s' := LoginEnds(s, s2, t, id, row);
  }

  lemma {:induction false} Opens(s1: State, t: TxnId, id: TokenId, row: Row, s2: State)
    requires Reachable(s1) && t in s1.txns && s1.txns[t] == Txn(Login(7), Start, map[], false) && Live(row)
      && row.user == 7
    requires id !in s1.db && forall r :: r in s1.db ==> s1.db[r].hash != row.hash && s1.db[r].family != row.family
    requires forall u :: u in s1.txns ==> s1.txns[u].writes == map[]
    requires s2 == s1.(txns := s1.txns[t := Txn(Login(7), Ready(LoggedIn(id)), map[id := row], false)])
    ensures Reachable(s2)
  {
    assert FreshId(s1, id) && FreshHash(s1, row.hash) && FreshFamily(s1, row.family);
    hide FreshId, FreshHash, FreshFamily;
    More(s1, Open(t, id, row), s2);
  }

  lemma {:induction false} LoginEnds(s: State, s2: State, t: TxnId, id: TokenId, row: Row) returns (s': State)
    requires Calm(s, s.db) && t !in s.txns && Reachable(s2)
    requires s2 == s.(txns := s.txns[t := Txn(Login(7), Ready(LoggedIn(id)), map[id := row], false)])
    ensures Calm(s', s.db[id := row]) && s'.txns.Keys == s.txns.Keys + {t}
  {
    s' := CommitMore(s2, t);
    hide Reachable;
    assert s'.db == s.db[id := row];
    assert s'.locks == map[] && s'.rowLocks == map[];
  }

  lemma {:induction false} Begins(s: State, t: TxnId) returns (s': State)
    requires Reachable(s) && t in s.txns && s.txns[t] == LISTED && s.db == map[100 := FIRST, 200 := OTHER]
    ensures Reachable(s') && s' == At(s, t, Updating({}, true, {100, 200}))
  {
    var s1 := At(s, t, Updating({}, false, {}));
    FetchMore(s, t, 0, s1);
    s' := At(s1, t, Updating({}, true, {100, 200}));
    hide StepFetch, StepStartUpdate;
    Targets(s1, t);
    StartMore(s1, t, s');
  }

  lemma {:induction false} StartMore(s: State, t: TxnId, s': State)
    requires Reachable(s) && t in s.txns && StepStartUpdate(s, t) == Some(s')
    ensures Reachable(s')
  {
    hide StepStartUpdate;
    More(s, StartUpdate(t), s');
  }

  lemma {:induction false} Targets(s1: State, t: TxnId)
    requires t in s1.txns && s1.txns[t].req == RevokeAll(7) && s1.txns[t].pc == Updating({}, false, {})
    requires s1.db == map[100 := FIRST, 200 := OTHER]
    ensures StepStartUpdate(s1, t) == Some(At(s1, t, Updating({}, true, {100, 200})))
  {
    assert StepStartUpdate(s1, t).value.txns[t].pc.targets == {100, 200};
  }

  lemma {:induction false} Reaches(s: State, t: TxnId, id: TokenId) returns (s': State)
    requires Reachable(s) && s.db == map[100 := FIRST, 200 := OTHER] && id in {100, 200} && id !in s.rowLocks
    requires t in s.txns && s.txns[t].req == RevokeAll(7) && s.txns[t].pc == Updating({}, true, {100, 200})
    ensures Reachable(s') && s'.db == s.db && s'.rowLocks == s.rowLocks[id := t]
    ensures t in s'.txns && s'.txns == s.txns[t := s'.txns[t]] && s'.txns[t].req == RevokeAll(7)
      && s'.txns[t].pc == Updating({}, true, {100, 200} - {id})
  {
    s' := StepUpdateRow(s, t, id).value;
    More(s, UpdateRow(t, id), s');
  }

  /** Two mass revocations that listed no family, two logins, and two UPDATEs that take the rows in opposite orders. */
  lemma {:induction false} MassRevocationsCanDeadlock() returns (s: State)
    ensures Reachable(s) && Ring(s, [1, 2, 1])
  {
    var s0 := BothListed();
    var s1 := LogsIn(s0, 3, 100, FIRST);
    var s2 := LogsIn(s1, 4, 200, OTHER);
    assert s2.db == map[100 := FIRST, 200 := OTHER];
    s := Collide(s2);
  }

  lemma {:induction false} Collide(s2: State) returns (s: State)
    requires Calm(s2, map[100 := FIRST, 200 := OTHER])
    ensures Reachable(s) && Ring(s, [1, 2, 1])
  {
    var s3 := Begins(s2, 1);
    var s4 := Begins(s3, 2);
    var s5 := Reaches(s4, 1, 100);
    s := Reaches(s5, 2, 200);
    assert Wants(s, 1, 200) && HeldBy(s.rowLocks, 200, 2);
    assert Wants(s, 2, 100) && HeldBy(s.rowLocks, 100, 1);
    var path := [1, 2, 1];
    assert Waits(s, path[0], path[1]) && Waits(s, path[1], path[2]);
  }
}
