/**
 The statements that write, the end of a transaction, and the main invariant theorem.
 */
module RefreshWrites {
  import opened Options
  import opened TokenFamilies
  import opened RefreshProtocol
  import opened RefreshInvariant
  import opened RefreshSteps

  /** Only the holder of a committed row's lock has written it. */
  lemma {:induction false} WriterHolds(s: State, u: TxnId, id: TokenId)
    requires u in s.txns && TxnOk(s, u) && id in s.txns[u].writes && id in s.db
    ensures HeldBy(s.rowLocks, id, u)
  {}

  lemma {:induction false} OnlyWriter(s: State, id: TokenId, t: TxnId)
    requires AllOk(s) && id in s.db && Free(s.rowLocks, id, t)
    ensures forall u :: u in s.txns && u != t ==> id !in s.txns[u].writes
  {
    forall u | u in s.txns && u != t ensures id !in s.txns[u].writes {
      if id in s.txns[u].writes {
        assert TxnOk(s, u);
        WriterHolds(s, u, id);
      }
    }
  }

  // ---- inserting --------------------------------------------------------------------------

  /** `t`'s writes become `w`, which inserts just `newId`, under a hash (and, for a login, a family) of its own. */
  ghost predicate Inserts(s: State, s': State, t: TxnId, newId: TokenId, w: Table) {
    && t in s.txns && s.txns[t].writes == map[] && newId in w && FreshId(s, newId) && FreshHash(s, w[newId].hash)
    && s'.db == s.db && t in s'.txns && s'.txns.Keys == s.txns.Keys && s'.txns[t].writes == w
       && s'.txns[t].req == s.txns[t].req
    && (forall u :: u in s.txns && u != t ==> s'.txns[u].writes == s.txns[u].writes && s'.txns[u].req == s.txns[u].req)
    && (forall r :: r in w && r != newId ==> r in s.db && forall u :: u in s.txns && u != t ==> r !in s.txns[u].writes)
  }

  lemma {:induction false} InsertsKeepApart(s: State, s': State, t: TxnId, newId: TokenId, w: Table)
    requires Apart(s) && Inserts(s, s', t, newId, w)
    requires s.txns[t].req.Login? ==> FreshFamily(s, w[newId].family)
    requires !s.txns[t].req.Login? ==>
      forall u, r :: Pending(s, u, r) && s.txns[u].req.Login? ==> s.txns[u].writes[r].family != w[newId].family
    ensures Apart(s')
  {
    InsertsWriteApart(s, s', t, newId, w);
    InsertsCarry(s, s', t, newId, w);
    hide Inserts, FreshId, FreshHash, FreshFamily, WritesApart;
    InsertedFresh(s, s', t, newId, w);
  }

  lemma {:induction false} InsertsWriteApart(s: State, s': State, t: TxnId, newId: TokenId, w: Table)
    requires WritesApart(s) && Inserts(s, s', t, newId, w)
    ensures WritesApart(s')
  {}

  /** Of the rows waiting to be inserted only `newId` is new, and it differs from the others. */
  ghost predicate OneInserted(s: State, s': State, t: TxnId, newId: TokenId, w: Table) {
    && s'.db == s.db && t in s.txns && t in s'.txns && newId in w && s'.txns[t].writes == w
    && s'.txns[t].req == s.txns[t].req
    && (forall r :: r in s.db ==> s.db[r].hash != w[newId].hash)
    && (s.txns[t].req.Login? ==> forall r :: r in s.db ==> s.db[r].family != w[newId].family)
    && forall u, r {:trigger Pending(s', u, r)} :: Pending(s', u, r) ==>
         if u == t then r == newId
         else
           && Pending(s, u, r) && s'.txns[u].writes[r] == s.txns[u].writes[r] && s'.txns[u].req == s.txns[u].req
           && s.txns[u].writes[r].hash != w[newId].hash
           && (s.txns[t].req.Login? || s.txns[u].req.Login? ==> s.txns[u].writes[r].family != w[newId].family)
  }

  lemma {:induction false} InsertsCarry(s: State, s': State, t: TxnId, newId: TokenId, w: Table)
    requires Inserts(s, s', t, newId, w)
    requires s.txns[t].req.Login? ==> FreshFamily(s, w[newId].family)
    requires !s.txns[t].req.Login? ==>
      forall u, r :: Pending(s, u, r) && s.txns[u].req.Login? ==> s.txns[u].writes[r].family != w[newId].family
    ensures OneInserted(s, s', t, newId, w)
  {
    forall r | r in s.db && s.txns[t].req.Login? ensures s.db[r].family != w[newId].family {
      assert !HasFamily(s.db, w[newId].family);
    }
  }

  lemma {:induction false} InsertedFresh(s: State, s': State, t: TxnId, newId: TokenId, w: Table)
    requires InsertsFresh(s) && OneInserted(s, s', t, newId, w)
    ensures InsertsFresh(s')
  {}

  lemma {:induction false} OpenOwn(s: State, s': State, t: TxnId, id: TokenId, row: Row)
    requires t in s.txns && TxnOk(s, t) && StepOpen(s, t, id, row) == Some(s')
    ensures TxnOk(s', t) && OnlyLocks(s, s', t)
    ensures Inserts(s, s', t, id, map[id := row]) && FreshFamily(s, row.family) && s.txns[t].req.Login?
  {}

  lemma {:induction false} WriteKeepsInv(s: State, s': State, t: TxnId)
    requires Inv(s) && OnlyLocks(s, s', t) && TxnOk(s', t) && Apart(s')
    ensures Inv(s')
  {
    LockKeepsOthers(s, s', t);
    AllFromOthers(s, s', t);
    LockKeepsOwned(s, s', t);
    LockKeepsRotatedOnce(s, s', t);
  }

  lemma {:induction false} OpenKeepsInv(s: State, s': State, t: TxnId, id: TokenId, row: Row)
    requires Inv(s) && t in s.txns && StepOpen(s, t, id, row) == Some(s')
    ensures Inv(s')
  {
    assert TxnOk(s, t);
    OpenOwn(s, s', t, id, row);
    InsertsKeepApart(s, s', t, id, map[id := row]);
    WriteKeepsInv(s, s', t);
  }

  /** `s'` is `s` after transaction `t` wrote the rotation of the row it had fetched. */
  ghost predicate RotatesInto(s: State, s': State, t: TxnId, newId: TokenId, hash: Hash, created: Time, expires: Time) {
    && t in s.txns && s.txns[t].pc.Fetched? && Live(s.txns[t].pc.row) && FreshId(s, newId) && FreshHash(s, hash)
    && s' == s.(txns := s.txns[t := s.txns[t].(
                  pc := Ready(Rotated(s.txns[t].pc.id, newId)),
                  writes := RotationWrites(s.txns[t].pc.id, s.txns[t].pc.row, newId, hash, created, expires))])
  }

  lemma {:induction false} RotateOwn(s: State, s': State, t: TxnId, newId: TokenId, hash: Hash, created: Time,
                                     expires: Time)
    requires RotatesInto(s, s', t, newId, hash, created, expires) && TxnOk(s, t)
    ensures TxnOk(s', t)
  {}

  lemma {:induction false} RotateShape(s: State, s': State, t: TxnId, newId: TokenId, hash: Hash, created: Time,
                                       expires: Time)
    requires RotatesInto(s, s', t, newId, hash, created, expires)
    ensures OnlyLocks(s, s', t)
  {}

  lemma {:induction false} RotateApart(s: State, s': State, t: TxnId, newId: TokenId, hash: Hash, created: Time,
                                       expires: Time)
    requires Apart(s) && AllOk(s) && RotatesInto(s, s', t, newId, hash, created, expires)
    ensures Apart(s')
  {
    assert TxnOk(s, t);
    var id := s.txns[t].pc.id;
    OnlyWriter(s, id, t);
    var w := s'.txns[t].writes;
    assert w.Keys == {id, newId};
    InsertsKeepApart(s, s', t, newId, w);
  }

  lemma {:induction false} RotateKeepsInv(s: State, s': State, t: TxnId, newId: TokenId, hash: Hash, created: Time,
                                          expires: Time)
    requires Inv(s) && RotatesInto(s, s', t, newId, hash, created, expires)
    ensures Inv(s')
  {
    assert TxnOk(s, t);
    RotateOwn(s, s', t, newId, hash, created, expires);
    RotateShape(s, s', t, newId, hash, created, expires);
    RotateApart(s, s', t, newId, hash, created, expires);
    WriteKeepsInv(s, s', t);
  }

  // ---- the UPDATE of a revocation -----------------------------------------------------------

  /** One row of an UPDATE done: written, or skipped because it was revoked meanwhile. */
  lemma {:induction false} RevokingAdvances(s: State, s': State, t: TxnId, id: TokenId)
    requires OneOwnerPerFamily(s.db) && t in s.txns && s.txns[t].pc.Updating? && id in s.db && t in s'.txns
    requires var x := s.txns[t]; RevokingOk(s, t, x, x.pc.families, true, x.pc.targets)
    requires s'.cfg == s.cfg && s'.db == s.db && s'.locks == s.locks
    requires s'.txns[t].req == s.txns[t].req
    requires InScope(s.txns[t].req, s.txns[t].pc.families, s.db[id]) ==>
      s'.rowLocks == s.rowLocks[id := t] && s'.txns[t].writes == s.txns[t].writes[id := Revoked(s.db[id])]
    requires !InScope(s.txns[t].req, s.txns[t].pc.families, s.db[id]) ==>
      s'.rowLocks == s.rowLocks && s'.txns[t].writes == s.txns[t].writes
    ensures var x := s.txns[t]; RevokingOk(s', t, s'.txns[t], x.pc.families, true, x.pc.targets - {id})
  {
    var x := s.txns[t];
    var families := x.pc.families;
    FrameFamilies(s, s', x.req, families);
    if s.db[id].family in families && !s.db[id].revoked { ScopeCovers(s, x.req, families, id); }
    forall f | f in families ensures HasKey(s', t, f) { assert HasKey(s, t, f); }
  }

  lemma {:induction false} UpdateRowOwn(s: State, s': State, t: TxnId, id: TokenId)
    requires OneOwnerPerFamily(s.db) && t in s.txns && TxnOk(s, t) && StepUpdateRow(s, t, id) == Some(s')
    ensures TxnOk(s', t)
  {
    RevokingAdvances(s, s', t, id);
  }

  lemma {:induction false} UpdateRowShape(s: State, s': State, t: TxnId, id: TokenId)
    requires t in s.txns && StepUpdateRow(s, t, id) == Some(s')
    ensures OnlyLocks(s, s', t) && s'.txns[t].req == s.txns[t].req && id in s.db && Free(s.rowLocks, id, t)
    ensures s'.txns[t].writes == s.txns[t].writes || s'.txns[t].writes == s.txns[t].writes[id := Revoked(s.db[id])]
  {
    UpdateRowTakes(s, s', t, id);
    hide StepUpdateRow;
    forall r, u | u != t ensures HeldBy(s'.rowLocks, r, u) <==> HeldBy(s.rowLocks, r, u) {}
  }

  lemma {:induction false} UpdateRowTakes(s: State, s': State, t: TxnId, id: TokenId)
    requires t in s.txns && StepUpdateRow(s, t, id) == Some(s')
    ensures id in s.db && Free(s.rowLocks, id, t) && t in s'.txns && s'.txns == s.txns[t := s'.txns[t]]
    ensures s'.cfg == s.cfg && s'.db == s.db && s'.blind == s.blind && s'.locks == s.locks
    ensures s'.rowLocks == s.rowLocks || s'.rowLocks == s.rowLocks[id := t]
    ensures s'.txns[t].req == s.txns[t].req && s.txns[t].pc.Updating? && s'.txns[t].pc.Updating?
    ensures s'.txns[t].writes == s.txns[t].writes || s'.txns[t].writes == s.txns[t].writes[id := Revoked(s.db[id])]
  {}

  lemma {:induction false} RowAddedApart(s: State, s': State, t: TxnId, id: TokenId)
    requires WritesApart(s) && OnlyLocks(s, s', t) && t in s.txns && s'.txns[t].req == s.txns[t].req && id in s.db
    requires s'.txns[t].writes == s.txns[t].writes || s'.txns[t].writes == s.txns[t].writes[id := Revoked(s.db[id])]
    requires forall u :: u in s.txns && u != t ==> id !in s.txns[u].writes
    ensures WritesApart(s') && InsertsCarryOver(s, s')
  {
    forall u, r | Pending(s', u, r) ensures Pending(s, u, r) && s'.txns[u].writes[r] == s.txns[u].writes[r]
      && s'.txns[u].req == s.txns[u].req {
      if u != t { assert s'.txns[u].writes == s.txns[u].writes; }
    }
    forall u, v, r | u in s'.txns && v in s'.txns && r in s'.txns[u].writes && r in s'.txns[v].writes ensures u == v {
      if u != t { assert s'.txns[u].writes == s.txns[u].writes; }
      if v != t { assert s'.txns[v].writes == s.txns[v].writes; }
    }
  }

  lemma {:induction false} UpdateRowApart(s: State, s': State, t: TxnId, id: TokenId)
    requires Apart(s) && AllOk(s) && t in s.txns && StepUpdateRow(s, t, id) == Some(s')
    ensures Apart(s')
  {
    UpdateRowShape(s, s', t, id);
    OnlyWriter(s, id, t);
    RowAddedApart(s, s', t, id);
    CarryOverKeepsFresh(s, s');
  }

  lemma {:induction false} UpdateRowKeepsInv(s: State, s': State, t: TxnId, id: TokenId)
    requires Inv(s) && t in s.txns && StepUpdateRow(s, t, id) == Some(s')
    ensures Inv(s')
  {
    assert TxnOk(s, t);
    UpdateRowOwn(s, s', t, id);
    UpdateRowShape(s, s', t, id);
    UpdateRowApart(s, s', t, id);
    WriteKeepsInv(s, s', t);
  }

  // ---- the end of a transaction ---------------------------------------------------------------

  lemma {:induction false} CloseLocks(s: State, t: TxnId, u: TxnId)
    requires u != t
    ensures forall k :: HeldBy(Without(s.locks, t), k, u) <==> HeldBy(s.locks, k, u)
    ensures forall k :: HeldBy(Without(s.rowLocks, t), k, u) <==> HeldBy(s.rowLocks, k, u)
  {}

  lemma {:induction false} AbortShape(s: State, s': State, t: TxnId)
    requires t in s.txns && StepAbort(s, t) == Some(s')
    ensures OnlyLocks(s, s', t) && NothingWritten(s, s', t) && TxnOk(s', t)
  {
    forall u, k | u != t ensures HeldBy(s'.locks, k, u) <==> HeldBy(s.locks, k, u) { CloseLocks(s, t, u); }
    forall u, k | u != t ensures HeldBy(s'.rowLocks, k, u) <==> HeldBy(s.rowLocks, k, u) { CloseLocks(s, t, u); }
  }

  lemma {:induction false} AbortKeepsInv(s: State, s': State, t: TxnId)
    requires Inv(s) && t in s.txns && StepAbort(s, t) == Some(s')
    ensures Inv(s')
  {
    AbortShape(s, s', t);
    LockKeepsInv(s, s', t);
  }

  ghost predicate Commits(s: State, s': State, t: TxnId, o: Outcome) {
    && t in s.txns && s.txns[t].pc == Ready(o)
    && s'.cfg == s.cfg && s'.db == s.db + s.txns[t].writes
    && s'.locks == Without(s.locks, t) && s'.rowLocks == Without(s.rowLocks, t)
    && s'.blind == s.blind + BlindlyRevoked(s, s.txns[t])
    && s'.txns.Keys == s.txns.Keys && (forall u :: u in s.txns && u != t ==> s'.txns[u] == s.txns[u])
    && s'.txns[t].req == s.txns[t].req && s'.txns[t].writes == map[]
    && (s'.txns[t].pc == Done(o) ||
        exists e :: s'.txns[t].pc == Remembering(o, e) && o.Rotated? && o.newId in s.txns[t].writes
          && e.tokenId == o.newId && e.token == s.txns[t].writes[o.newId].hash)
  }

  lemma {:induction false} CommitShape(s: State, s': State, t: TxnId, cca: Option<Stamp>)
    requires t in s.txns && StepCommit(s, t, cca) == Some(s')
    ensures s.txns[t].pc.Ready? && Commits(s, s', t, s.txns[t].pc.outcome)
  {
    var x := s.txns[t];
    var entry := EntryFor(s, x, x.writes, cca);
    if entry.Some? { assert s'.txns[t].pc == Remembering(x.pc.outcome, entry.value); }
  }

  lemma {:induction false} CommitTable(s: State, s': State, t: TxnId, o: Outcome)
    requires TableOk(s.db) && InsertsFresh(s) && Commits(s, s', t, o) && ReadyOk(s, t, s.txns[t], o)
    ensures TableOk(s'.db) && TableEvolves(s.db, s'.db)
  {
    var x := s.txns[t];
    match o
    case LoggedIn(id) =>
      assert Pending(s, t, id);
      assert s'.db == s.db + map[id := x.writes[id]];
      LoginKeepsTable(s.db, id, x.writes[id]);
    case Rotated(id, newId) =>
      assert Pending(s, t, newId);
      RotationKeepsTable(s.db, id, newId, x.writes[newId].hash, x.writes[newId].created, x.writes[newId].expires);
    case Killed(families) => RevocationKeepsTable(s.db, x.writes);
    case Unknown => assert s'.db == s.db;
    case Expired(_) => assert s'.db == s.db;
    case Replayed(_, _, _) => assert s'.db == s.db;
    case Conflict(_) => assert s'.db == s.db;
  }

  /** What a commit does to a row whose family another transaction has locked: nothing, or a blind revocation. */
  lemma {:induction false} CommitSparesLocked(s: State, s': State, t: TxnId, o: Outcome, u: TxnId, id: TokenId)
    requires Commits(s, s', t, o) && ReadyOk(s, t, s.txns[t], o)
    requires u != t && id in s.db && HasKey(s, u, s.db[id].family)
    ensures s'.db[id] == s.db[id] || (s'.db[id] == Revoked(s.db[id]) && id in s'.blind)
  {
    var x := s.txns[t];
    if id in x.writes {
      if o.Killed? {
        KeysApart(s, t, u, o.families, s.db[id].family);
      }
    }
  }

  lemma {:induction false} KeysApart(s: State, t: TxnId, u: TxnId, families: set<FamilyId>, f: FamilyId)
    requires HoldsAll(s, t, families) && u != t && HasKey(s, u, f)
    ensures f !in families
  {}

  /** The row a commit inserts is in a family nobody else has locked, or in a new one. */
  lemma {:induction false} CommitInserts(s: State, s': State, t: TxnId, o: Outcome, u: TxnId, id: TokenId)
    requires Commits(s, s', t, o) && ReadyOk(s, t, s.txns[t], o) && InsertsFresh(s)
    requires u != t && u in s.txns && id in s'.db && id !in s.db
    ensures !(HasFamily(s.db, s'.db[id].family) && HasKey(s, u, s'.db[id].family))
  {
    assert id in s.txns[t].writes && s'.db[id] == s.txns[t].writes[id];
    if o.LoggedIn? {
      assert Pending(s, t, id);
    } else {
      InsertsOfRotation(s, t, o, id);
    }
  }

  lemma {:induction false} InsertsOfRotation(s: State, t: TxnId, o: Outcome, id: TokenId)
    requires t in s.txns && ReadyOk(s, t, s.txns[t], o) && !o.LoggedIn? && id in s.txns[t].writes && id !in s.db
    ensures HasKey(s, t, s.txns[t].writes[id].family)
  {
    assert o.Rotated? && id == o.newId;
    assert s.txns[t].writes[id].family == s.db[o.id].family;
  }

  lemma {:induction false} CommitKeepsFor(s: State, s': State, t: TxnId, o: Outcome, u: TxnId)
    requires Inv(s) && Commits(s, s', t, o) && ReadyOk(s, t, s.txns[t], o)
    requires u in s.txns && u != t && TableEvolves(s.db, s'.db)
    ensures KeepsFor(s, s', u)
  {
    CloseLocks(s, t, u);
    forall id | id in s.db && HeldBy(s.rowLocks, id, u) ensures s'.db[id] == s.db[id] {
      if id in s.txns[t].writes { assert TxnOk(s, t); WriterHolds(s, t, id); }
    }
    forall id | id in s.db && HasKey(s, u, s.db[id].family)
      ensures s'.db[id] == s.db[id] || (s'.db[id] == Revoked(s.db[id]) && id in s'.blind)
    {
      CommitSparesLocked(s, s', t, o, u, id);
    }
    forall id | id in s'.db && id !in s.db
      ensures id !in s.txns[u].writes && !(HasFamily(s.db, s'.db[id].family) && HasKey(s, u, s'.db[id].family))
    {
      assert id in s.txns[t].writes;
      CommitInserts(s, s', t, o, u, id);
    }
  }

  lemma {:induction false} CommitOwn(s: State, s': State, t: TxnId, o: Outcome)
    requires Commits(s, s', t, o) && ReadyOk(s, t, s.txns[t], o)
    ensures TxnOk(s', t)
  {}

  lemma {:induction false} CommitApart(s: State, s': State, t: TxnId, o: Outcome)
    requires Apart(s) && Commits(s, s', t, o) && ReadyOk(s, t, s.txns[t], o)
    ensures Apart(s')
  {
    CommitWritesApart(s, s', t, o);
    CommitRowsKnown(s, s', t, o);
    forall u, id | Pending(s', u, id) ensures u != t && Pending(s, u, id) && s'.txns[u] == s.txns[u] {}
    forall u, id, r | Pending(s', u, id) && r in s'.db
      ensures s'.db[r].hash != s'.txns[u].writes[id].hash
      ensures s'.txns[u].req.Login? ==> s'.db[r].family != s'.txns[u].writes[id].family
    {
      assert Pending(s, u, id) && u != t && s'.txns[u] == s.txns[u];
      if r !in s.db { assert Pending(s, t, r); }
    }
  }

  lemma {:induction false} CommitWritesApart(s: State, s': State, t: TxnId, o: Outcome)
    requires WritesApart(s) && Commits(s, s', t, o)
    ensures WritesApart(s')
  {
    forall u, v, r | u in s'.txns && v in s'.txns && r in s'.txns[u].writes && r in s'.txns[v].writes ensures u == v {
      assert u != t && v != t && s'.txns[u] == s.txns[u] && s'.txns[v] == s.txns[v];
    }
  }

  /** Rows the commit merely changes keep their hash and family. */
  lemma {:induction false} CommitRowsKnown(s: State, s': State, t: TxnId, o: Outcome)
    requires Commits(s, s', t, o) && ReadyOk(s, t, s.txns[t], o)
    ensures forall r :: r in s.db ==> r in s'.db && s'.db[r].hash == s.db[r].hash && s'.db[r].family == s.db[r].family
  {}

  lemma {:induction false} CommitRotatedOnce(s: State, s': State, t: TxnId, o: Outcome)
    requires AllOk(s) && RotatedOnce(s) && Commits(s, s', t, o) && ReadyOk(s, t, s.txns[t], o)
    ensures RotatedOnce(s')
  {
    forall u | u in s.txns && u != t && RotatedBy(s.txns[u]).Some? && o.Rotated?
      ensures RotatedBy(s.txns[u]) != Some(o.id) {
      assert TxnOk(s, u);
    }
    forall u, v | u in s'.txns && v in s'.txns && RotatedBy(s'.txns[u]).Some?
      && RotatedBy(s'.txns[u]) == RotatedBy(s'.txns[v])
      ensures u == v
    {
      if u != t && v != t { assert s'.txns[u] == s.txns[u] && s'.txns[v] == s.txns[v]; }
    }
  }

  lemma {:induction false} CommitRest(s: State, s': State, t: TxnId, o: Outcome)
    requires Owned(s) && BlindRevoked(s) && TableEvolves(s.db, s'.db) && Commits(s, s', t, o)
      && ReadyOk(s, t, s.txns[t], o)
    ensures Owned(s') && BlindRevoked(s')
  {
    forall id | id in s'.blind ensures id in s'.db && s'.db[id].revoked {
      if id in s.blind { assert Evolves(s.db[id], s'.db[id]); }
    }
  }

  lemma {:induction false} CommitKeepsOthers(s: State, s': State, t: TxnId, o: Outcome)
    requires Inv(s) && Commits(s, s', t, o) && ReadyOk(s, t, s.txns[t], o) && TableEvolves(s.db, s'.db)
    ensures OthersKept(s, s', t)
  {
    forall u | u in s.txns && u != t ensures KeepsFor(s, s', u) { CommitKeepsFor(s, s', t, o, u); }
  }

  lemma {:induction false} ReadyIsOk(s: State, t: TxnId, o: Outcome)
    requires AllOk(s) && t in s.txns && s.txns[t].pc == Ready(o)
    ensures ReadyOk(s, t, s.txns[t], o)
  {
    assert TxnOk(s, t);
  }

  lemma {:induction false} CommitKeepsInv(s: State, s': State, t: TxnId, o: Outcome)
    requires Inv(s) && Commits(s, s', t, o)
    ensures Inv(s') && TableEvolves(s.db, s'.db)
  {
    ReadyIsOk(s, t, o);
    CommitTable(s, s', t, o);
    CommitKeepsOthers(s, s', t, o);
    CommitOwn(s, s', t, o);
    AllFromOthers(s, s', t);
    CommitApart(s, s', t, o);
    CommitRotatedOnce(s, s', t, o);
    CommitRest(s, s', t, o);
  }
}
