/**
 Every statement keeps the invariant, and so does every run.

 A step is first shown to have one of three shapes - the transaction only moves, only takes
 locks, or writes - and the invariant is then carried through the shape.
 */
module RefreshSteps {
  import opened Options
  import opened TokenFamilies
  import opened RefreshProtocol
  import opened RefreshInvariant

  // ---- shapes of steps --------------------------------------------------------------------

  /** Every other transaction is left what it relies on. */
  ghost predicate OthersKept(s: State, s': State, t: TxnId) {
    && s'.txns.Keys == s.txns.Keys + {t}
    && forall u {:trigger KeepsFor(s, s', u)} :: u in s.txns && u != t ==> KeepsFor(s, s', u)
  }

  lemma {:induction false} AllFromOthers(s: State, s': State, t: TxnId)
    requires AllOk(s) && OthersKept(s, s', t) && TxnOk(s', t)
    ensures AllOk(s')
  {
    forall u | u in s'.txns ensures TxnOk(s', u) {
      if u != t {
        assert KeepsFor(s, s', u);
        Frame(s, s', u);
      }
    }
  }

  /** The table and the other transactions stay; the transaction (possibly new) may take or drop
      locks of its own. */
  ghost predicate OnlyLocks(s: State, s': State, t: TxnId) {
    && t in s'.txns && s'.txns.Keys == s.txns.Keys + {t}
    && s'.cfg == s.cfg && s'.db == s.db && s'.blind == s.blind
    && (forall u :: u in s.txns && u != t ==>
          s'.txns[u].req == s.txns[u].req && s'.txns[u].pc == s.txns[u].pc && s'.txns[u].writes == s.txns[u].writes)
    && (forall k, u :: u != t ==> (HeldBy(s'.locks, k, u) <==> HeldBy(s.locks, k, u)))
    && (forall id, u :: u != t ==> (HeldBy(s'.rowLocks, id, u) <==> HeldBy(s.rowLocks, id, u)))
    && (t in s.txns ==> RotatedBy(s'.txns[t]) == RotatedBy(s.txns[t]))
    && (t !in s.txns ==> RotatedBy(s'.txns[t]) == None)
  }

  /** ... and the transaction writes nothing it had not written. */
  ghost predicate NothingWritten(s: State, s': State, t: TxnId)
    requires t in s'.txns
  {
    s'.txns[t].writes == map[] ||
    (t in s.txns && s'.txns[t].writes == s.txns[t].writes && s'.txns[t].req == s.txns[t].req)
  }

  lemma {:induction false} LockKeepsFor(s: State, s': State, t: TxnId, u: TxnId)
    requires OnlyLocks(s, s', t) && u in s.txns && u != t
    ensures KeepsFor(s, s', u)
  {}

  lemma {:induction false} LockKeepsOthers(s: State, s': State, t: TxnId)
    requires OnlyLocks(s, s', t)
    ensures OthersKept(s, s', t)
  {
    forall u | u in s.txns && u != t ensures KeepsFor(s, s', u) { LockKeepsFor(s, s', t, u); }
  }

  /** Pending inserts carry over: `s'` has none that `s` has not, with the same row. */
  ghost predicate InsertsCarryOver(s: State, s': State) {
    && s'.db == s.db
    && forall u, r {:trigger Pending(s', u, r)} :: Pending(s', u, r) ==>
         Pending(s, u, r) && s'.txns[u].writes[r] == s.txns[u].writes[r] && s'.txns[u].req == s.txns[u].req
  }

  lemma {:induction false} CarryOverKeepsFresh(s: State, s': State)
    requires InsertsFresh(s) && InsertsCarryOver(s, s')
    ensures InsertsFresh(s')
  {}

  lemma {:induction false} LockKeepsApart(s: State, s': State, t: TxnId)
    requires Apart(s) && OnlyLocks(s, s', t) && NothingWritten(s, s', t)
    ensures Apart(s')
  {
    LockCarriesOver(s, s', t);
    CarryOverKeepsFresh(s, s');
    hide InsertsFresh, InsertsCarryOver;
    LockWritesApart(s, s', t);
  }

  lemma {:induction false} LockWritesApart(s: State, s': State, t: TxnId)
    requires WritesApart(s) && OnlyLocks(s, s', t) && NothingWritten(s, s', t)
    ensures WritesApart(s')
  {
    hide HeldBy, RotatedBy;
    forall u, v, id | u in s'.txns && v in s'.txns && id in s'.txns[u].writes && id in s'.txns[v].writes
      ensures u == v
    {
      assert u in s.txns && id in s.txns[u].writes && v in s.txns && id in s.txns[v].writes;
    }
  }

  lemma {:induction false} LockCarriesOver(s: State, s': State, t: TxnId)
    requires OnlyLocks(s, s', t) && NothingWritten(s, s', t)
    ensures InsertsCarryOver(s, s')
  {
    hide HeldBy, RotatedBy;
  }

  lemma {:induction false} LockKeepsOwned(s: State, s': State, t: TxnId)
    requires Owned(s) && OnlyLocks(s, s', t)
    ensures Owned(s')
  {
    forall k | k in s'.locks ensures s'.locks[k] in s'.txns {
      var u := s'.locks[k];
      assert HeldBy(s'.locks, k, u);
      if u != t { assert HeldBy(s.locks, k, u); }
    }
    forall k | k in s'.rowLocks ensures s'.rowLocks[k] in s'.txns {
      var u := s'.rowLocks[k];
      assert HeldBy(s'.rowLocks, k, u);
      if u != t { assert HeldBy(s.rowLocks, k, u); }
    }
  }

  lemma {:induction false} LockKeepsRotatedOnce(s: State, s': State, t: TxnId)
    requires RotatedOnce(s) && OnlyLocks(s, s', t)
    ensures RotatedOnce(s')
  {
    assert forall u :: u in s'.txns ==> RotatedBy(s'.txns[u]) == if u in s.txns then RotatedBy(s.txns[u]) else None;
  }

  lemma {:induction false} LockKeepsInv(s: State, s': State, t: TxnId)
    requires Inv(s) && OnlyLocks(s, s', t) && NothingWritten(s, s', t) && TxnOk(s', t)
    ensures Inv(s')
  {
    LockKeepsOthers(s, s', t);
    AllFromOthers(s, s', t);
    LockKeepsApart(s, s', t);
    LockKeepsOwned(s, s', t);
    LockKeepsRotatedOnce(s, s', t);
  }

  // ---- statements that only move or lock ----------------------------------------------------

  /** Database side untouched, and the transaction moved to a place where it has not (newly) rotated. */
  ghost predicate Moved(s: State, s': State, t: TxnId) {
    && t in s.txns && t in s'.txns && s'.txns == s.txns[t := s'.txns[t]]
    && s'.cfg == s.cfg && s'.db == s.db && s'.locks == s.locks && s'.rowLocks == s.rowLocks && s'.blind == s.blind
    && s'.txns[t].req == s.txns[t].req && s'.txns[t].writes == s.txns[t].writes
    && RotatedBy(s'.txns[t]) == RotatedBy(s.txns[t])
  }

  predicate InTransaction(pc: Pc) {
    !pc.Remembering? && !pc.Done?
  }

  lemma {:induction false} AtMoves(s: State, t: TxnId, pc: Pc)
    requires t in s.txns && InTransaction(s.txns[t].pc) && InTransaction(pc)
    ensures Moved(s, At(s, t, pc), t)
  {}

  lemma {:induction false} PutMoves(s: State, t: TxnId, x: Txn, entries: map<Hash, Stored>, inflight: set<Command>)
    requires t in s.txns && x.req == s.txns[t].req && x.writes == s.txns[t].writes
    requires RotatedBy(x) == RotatedBy(s.txns[t])
    ensures Moved(s, s.(txns := s.txns[t := x], entries := entries, inflight := inflight), t)
  {}

  lemma {:induction false} MovedOnlyLocks(s: State, s': State, t: TxnId)
    requires Moved(s, s', t)
    ensures OnlyLocks(s, s', t) && NothingWritten(s, s', t)
  {}

  lemma {:induction false} MoveKeepsInv(s: State, s': State, t: TxnId)
    requires Inv(s) && Moved(s, s', t) && TxnOk(s', t)
    ensures Inv(s')
  {
    MovedOnlyLocks(s, s', t);
    LockKeepsInv(s, s', t);
  }

  /** The database side `t` sees is the same. */
  ghost predicate SameView(s: State, s': State) {
    s'.cfg == s.cfg && s'.db == s.db && s'.locks == s.locks && s'.rowLocks == s.rowLocks && s'.blind == s.blind
  }

  lemma {:induction false} SameReplay(s: State, s': State, t: TxnId, x: Txn, x': Txn, id: TokenId, row: Row,
                                      entry: Entry, child: Row)
    requires SameView(s, s') && x'.req == x.req && InReplay(s, t, x, id, row, entry, child)
    ensures InReplay(s', t, x', id, row, entry, child)
  {}

  lemma {:induction false} BeginKeepsInv(s: State, s': State, t: TxnId, req: Request)
    requires Inv(s) && t !in s.txns && s' == s.(txns := s.txns[t := Txn(req, Start, map[], false)])
    ensures Inv(s')
  {
    LockKeepsInv(s, s', t);
  }

  lemma {:induction false} FindMoves(s: State, s': State, t: TxnId, id: TokenId)
    requires t in s.txns && TxnOk(s, t) && StepFind(s, t, id) == Some(s')
    ensures TxnOk(s', t) && Moved(s, s', t)
  {
    assert FamiliesOf(s', s.txns[t].req, {s.db[id].family});
    AtMoves(s, t, s'.txns[t].pc);
  }

  lemma {:induction false} FindNoneMoves(s: State, s': State, t: TxnId)
    requires t in s.txns && TxnOk(s, t) && StepFindNone(s, t) == Some(s')
    ensures TxnOk(s', t) && Moved(s, s', t)
  {
    AtMoves(s, t, s'.txns[t].pc);
  }

  lemma {:induction false} ListMoves(s: State, s': State, t: TxnId, todo: seq<Key>)
    requires t in s.txns && TxnOk(s, t) && StepList(s, t, todo) == Some(s')
    ensures TxnOk(s', t) && Moved(s, s', t)
  {
    var families := LiveFamilies(s.db, s.txns[t].req.user);
    assert FamiliesOf(s', s.txns[t].req, families);
    assert todo == [] ==> families == {} by { assert forall f :: f in families ==> s.cfg.keyOf(f) in todo; }
    AtMoves(s, t, s'.txns[t].pc);
  }

  lemma {:induction false} AcquireLocks(s: State, s': State, t: TxnId)
    requires t in s.txns && TxnOk(s, t) && StepAcquire(s, t) == Some(s')
    ensures TxnOk(s', t)
  {
    var x := s.txns[t];
    var k := x.pc.todo[0];
    FrameFamilies(s, s', x.req, x.pc.families);
    forall f | f in x.pc.families ensures HasKey(s', t, f) || s.cfg.keyOf(f) in x.pc.todo[1..] {
      assert s.cfg.keyOf(f) in x.pc.todo || HasKey(s, t, f);
    }
    forall j | HeldBy(s'.locks, j, t) ensures j <= k {
      assert j == k || HeldBy(s.locks, j, t);
    }
  }

  lemma {:induction false} AcquireShape(s: State, s': State, t: TxnId)
    requires t in s.txns && StepAcquire(s, t) == Some(s')
    ensures OnlyLocks(s, s', t) && NothingWritten(s, s', t)
  {}

  /** A refresh finds the row under the family lock it holds. */
  lemma {:induction false} FetchFindsLocked(s: State, t: TxnId, id: TokenId)
    requires HashesUnique(s.db) && t in s.txns && TxnOk(s, t) && s.txns[t].pc.Locked? && s.txns[t].req.Refresh?
    requires id in s.db && Presents(s.txns[t].req, s.db[id])
    ensures HasKey(s, t, s.db[id].family) && s.txns[t].writes == map[]
  {
    var x := s.txns[t];
    var r :| r in s.db && Presents(x.req, s.db[r]) && x.pc.families == {s.db[r].family};
    assert r == id;
    assert HasKey(s, t, s.db[id].family);
  }

  lemma {:induction false} FetchRowLocks(s: State, s': State, t: TxnId, id: TokenId)
    requires HashesUnique(s.db) && t in s.txns && TxnOk(s, t) && s.txns[t].req.Refresh?
      && StepFetch(s, t, id) == Some(s')
    ensures TxnOk(s', t)
  {
    FetchFindsLocked(s, t, id);
  }

  lemma {:induction false} FetchRowShape(s: State, s': State, t: TxnId, id: TokenId)
    requires t in s.txns && s.txns[t].req.Refresh? && StepFetch(s, t, id) == Some(s')
    ensures OnlyLocks(s, s', t) && NothingWritten(s, s', t)
  {
    assert Free(s.rowLocks, id, t) && s'.rowLocks == s.rowLocks[id := t];
  }

  lemma {:induction false} FetchNothingMoves(s: State, s': State, t: TxnId, id: TokenId)
    requires t in s.txns && TxnOk(s, t) && !s.txns[t].req.Refresh? && StepFetch(s, t, id) == Some(s')
    ensures TxnOk(s', t) && Moved(s, s', t)
  {
    var x := s.txns[t];
    FrameFamilies(s, s', x.req, x.pc.families);
    forall f | f in x.pc.families ensures HasKey(s', t, f) { assert HasKey(s, t, f); }
    AtMoves(s, t, s'.txns[t].pc);
  }

  lemma {:induction false} RefuseMoves(s: State, s': State, t: TxnId, now: Time, account: Option<Account>)
    requires t in s.txns && TxnOk(s, t) && StepRefuse(s, t, now, account) == Some(s')
    ensures TxnOk(s', t) && Moved(s, s', t)
  {
    AtMoves(s, t, s'.txns[t].pc);
  }

  lemma {:induction false} SkipMoves(s: State, s': State, t: TxnId)
    requires t in s.txns && TxnOk(s, t) && StepSkip(s, t) == Some(s')
    ensures TxnOk(s', t) && Moved(s, s', t)
  {
    AtMoves(s, t, s'.txns[t].pc);
  }

  lemma {:induction false} LoadMoves(s: State, s': State, t: TxnId, decoded: bool, reply: Reply)
    requires t in s.txns && TxnOk(s, t) && StepLoad(s, t, decoded, reply) == Some(s')
    ensures TxnOk(s', t) && Moved(s, s', t)
  {
    AtMoves(s, t, s'.txns[t].pc);
  }

  /** What a usable replacement is once read: unused, and of the presented token's family. */
  lemma {:induction false} UsableReplacement(s: State, t: TxnId, x: Txn, id: TokenId, row: Row, entry: Entry,
                                             child: Row)
    requires Chained(s.db) && PresentedOk(s, t, x.req, id, row) && row.replacedBy == Some(entry.tokenId)
    requires entry.tokenId in s.db && child == s.db[entry.tokenId]
    ensures SeenOk(s, row, Some(child))
    ensures Live(child) && child.hash == entry.token ==> InReplay(s, t, x, id, row, entry, child)
  {
    ChainConsequences(s.db, id, id);
  }

  lemma {:induction false} ReadChildGoes(s: State, s': State, t: TxnId, now: Time)
    requires t in s.txns && StepReadChild(s, t, now) == Some(s')
    ensures s.txns[t].pc.Loaded? && t in s'.txns && s' == At(s, t, s'.txns[t].pc)
    ensures var pc := s.txns[t].pc; var child := Lookup(s.db, pc.entry.tokenId);
      || (ReplacementUsable(child, pc.entry, now) && s'.txns[t].pc == Vetting(pc.id, pc.row, pc.entry, child.value))
      || s'.txns[t].pc == Checking(pc.id, pc.row, child)
  {}

  lemma {:induction false} ReadChildMoves(s: State, s': State, t: TxnId, now: Time)
    requires Chained(s.db) && t in s.txns && TxnOk(s, t) && StepReadChild(s, t, now) == Some(s')
    ensures TxnOk(s', t) && Moved(s, s', t)
  {
    var x := s.txns[t];
    ReadChildGoes(s, s', t, now);
    AtMoves(s, t, s'.txns[t].pc);
    if x.pc.entry.tokenId in s.db {
      var child := s.db[x.pc.entry.tokenId];
      UsableReplacement(s', t, s'.txns[t], x.pc.id, x.pc.row, x.pc.entry, child);
    }
  }

  lemma {:induction false} VetMoves(s: State, s': State, t: TxnId, dbNow: Time, account: Option<Account>)
    requires t in s.txns && TxnOk(s, t) && StepVet(s, t, dbNow, account) == Some(s')
    ensures TxnOk(s', t) && Moved(s, s', t)
  {
    var x := s.txns[t];
    VetGoes(s, s', t, dbNow, account);
    AtMoves(s, t, s'.txns[t].pc);
    SameReplay(s, s', t, x, s'.txns[t], x.pc.id, x.pc.row, x.pc.entry, x.pc.child);
  }

  lemma {:induction false} VetGoes(s: State, s': State, t: TxnId, dbNow: Time, account: Option<Account>)
    requires t in s.txns && StepVet(s, t, dbNow, account) == Some(s')
    ensures s.txns[t].pc.Vetting? && t in s'.txns && s' == At(s, t, s'.txns[t].pc)
    ensures var pc := s.txns[t].pc;
      s'.txns[t].pc == Cleared(pc.id, pc.row, pc.entry, pc.child)
        || s'.txns[t].pc == Checking(pc.id, pc.row, Some(pc.child))
  {}

  lemma {:induction false} JudgeMoves(s: State, s': State, t: TxnId, dbNow: Time)
    requires t in s.txns && TxnOk(s, t) && StepJudge(s, t, dbNow) == Some(s')
    ensures TxnOk(s', t) && Moved(s, s', t)
  {
    var x := s.txns[t];
    assert x.pc.id in s'.db && Presents(x.req, s'.db[x.pc.id]);
    AtMoves(s, t, s'.txns[t].pc);
  }

  lemma {:induction false} ClaimMoves(s: State, s': State, t: TxnId, reply: Reply)
    requires t in s.txns && TxnOk(s, t) && StepClaim(s, t, reply) == Some(s')
    ensures TxnOk(s', t) && Moved(s, s', t)
  {
    PutMoves(s, t, s'.txns[t], s'.entries, s'.inflight);
  }

  lemma {:induction false} BudgetMoves(s: State, s': State, t: TxnId, within: Option<bool>)
    requires t in s.txns && TxnOk(s, t) && StepBudget(s, t, within) == Some(s')
    ensures TxnOk(s', t) && Moved(s, s', t)
  {
    var x := s.txns[t];
    BudgetGoes(s, s', t, within);
    AtMoves(s, t, s'.txns[t].pc);
    SameReplay(s, s', t, x, s'.txns[t], x.pc.id, x.pc.row, x.pc.entry, x.pc.child);
  }

  lemma {:induction false} BudgetGoes(s: State, s': State, t: TxnId, within: Option<bool>)
    requires t in s.txns && StepBudget(s, t, within) == Some(s')
    ensures s.txns[t].pc.Charged? && t in s'.txns && s' == At(s, t, s'.txns[t].pc)
    ensures var pc := s.txns[t].pc;
      || s'.txns[t].pc == Ready(Replayed(pc.id, pc.entry.tokenId, pc.entry.token))
      || s'.txns[t].pc == Returning(pc.id, pc.row, pc.child)
      || s'.txns[t].pc == Checking(pc.id, pc.row, Some(pc.child))
  {}

  lemma {:induction false} ReturnMoves(s: State, s': State, t: TxnId, reply: Reply)
    requires t in s.txns && TxnOk(s, t) && StepReturn(s, t, reply) == Some(s')
    ensures TxnOk(s', t) && Moved(s, s', t)
  {
    PutMoves(s, t, s'.txns[t], s'.entries, s'.inflight);
  }

  lemma {:induction false} RememberMoves(s: State, s': State, t: TxnId, reply: Reply)
    requires t in s.txns && TxnOk(s, t) && StepRemember(s, t, reply) == Some(s')
    ensures TxnOk(s', t) && Moved(s, s', t)
  {
    PutMoves(s, t, s'.txns[t], s'.entries, s'.inflight);
  }

  lemma {:induction false} StartUpdateMoves(s: State, s': State, t: TxnId)
    requires OneOwnerPerFamily(s.db) && t in s.txns && TxnOk(s, t) && StepStartUpdate(s, t) == Some(s')
    ensures TxnOk(s', t) && Moved(s, s', t)
  {
    var x := s.txns[t];
    var families := x.pc.families;
    FrameFamilies(s, s', x.req, families);
    forall id | id in s.db && s.db[id].family in families && !s.db[id].revoked ensures id in s'.txns[t].pc.targets {
      ScopeCovers(s, x.req, families, id);
    }
    forall f | f in families ensures HasKey(s', t, f) { assert HasKey(s, t, f); }
    AtMoves(s, t, s'.txns[t].pc);
  }

  /** A live row of a listed family meets the condition of the UPDATE. */
  lemma {:induction false} ScopeCovers(s: State, req: Request, families: set<FamilyId>, id: TokenId)
    requires OneOwnerPerFamily(s.db) && FamiliesOf(s, req, families)
    requires id in s.db && s.db[id].family in families && !s.db[id].revoked
    ensures InScope(req, families, s.db[id])
  {}

  lemma {:induction false} EndUpdateMoves(s: State, s': State, t: TxnId)
    requires t in s.txns && TxnOk(s, t) && StepEndUpdate(s, t) == Some(s')
    ensures TxnOk(s', t) && Moved(s, s', t)
  {
    var x := s.txns[t];
    FrameFamilies(s, s', x.req, x.pc.families);
    forall f | f in x.pc.families ensures HasKey(s', t, f) { assert HasKey(s, t, f); }
    AtMoves(s, t, s'.txns[t].pc);
  }

  // ---- dispatch -------------------------------------------------------------------------------

  /** The statements that move a transaction without locking or writing. */
  predicate Moves(a: Action) {
    match a
    case Find(_, _) => true
    case FindNone(_) => true
    case ListFamilies(_, _) => true
    case Refuse(_, _, _) => true
    case SkipReplay(_) => true
    case Load(_, _, _) => true
    case ReadChild(_, _) => true
    case Vet(_, _, _) => true
    case Claim(_, _) => true
    case Budget(_, _) => true
    case Return(_, _) => true
    case Judge(_, _) => true
    case StartUpdate(_) => true
    case EndUpdate(_) => true
    case Remember(_, _) => true
    case _ => false
  }

  predicate MovesEarly(a: Action) {
    a.Find? || a.FindNone? || a.ListFamilies? || a.Refuse? || a.SkipReplay? || a.Load? || a.ReadChild?
  }

  lemma {:induction false} LookupMovesKeepOwn(s: State, a: Action, s': State)
    requires a.Find? || a.FindNone? || a.ListFamilies? || a.Refuse?
    requires a.t in s.txns && StepOf(s, a) == Some(s') && TxnOk(s, a.t)
    ensures TxnOk(s', a.t) && Moved(s, s', a.t)
  {
    hide TxnOk, Moved, StepFind, StepFindNone, StepList, StepRefuse;
    if a.Find? { FindMoves(s, s', a.t, a.id); }
    else if a.FindNone? { FindNoneMoves(s, s', a.t); }
    else if a.ListFamilies? { ListMoves(s, s', a.t, a.todo); }
    else { RefuseMoves(s, s', a.t, a.now, a.account); }
  }

  lemma {:induction false} LoadMovesKeepOwn(s: State, a: Action, s': State)
    requires a.SkipReplay? || a.Load? || a.ReadChild?
    requires a.t in s.txns && StepOf(s, a) == Some(s') && TxnOk(s, a.t) && Chained(s.db) && OneOwnerPerFamily(s.db)
    ensures TxnOk(s', a.t) && Moved(s, s', a.t)
  {
    hide TxnOk, Moved, Chained, OneOwnerPerFamily, StepSkip, StepLoad, StepReadChild;
    if a.SkipReplay? { SkipMoves(s, s', a.t); }
    else if a.Load? { LoadMoves(s, s', a.t, a.decoded, a.reply); }
    else { ReadChildMoves(s, s', a.t, a.now); }
  }

  lemma {:induction false} EarlyMovesKeepOwn(s: State, a: Action, s': State)
    requires MovesEarly(a) && a.t in s.txns && StepOf(s, a) == Some(s')
    requires TxnOk(s, a.t) && Chained(s.db) && OneOwnerPerFamily(s.db)
    ensures TxnOk(s', a.t) && Moved(s, s', a.t)
  {
    hide TxnOk, Moved, Chained, OneOwnerPerFamily, StepOf;
    if a.SkipReplay? || a.Load? || a.ReadChild? { LoadMovesKeepOwn(s, a, s'); } else { LookupMovesKeepOwn(s, a, s'); }
  }

  lemma {:induction false} ReplayMovesKeepOwn(s: State, a: Action, s': State)
    requires a.Vet? || a.Claim? || a.Budget? || a.Return?
    requires a.t in s.txns && StepOf(s, a) == Some(s') && TxnOk(s, a.t)
    ensures TxnOk(s', a.t) && Moved(s, s', a.t)
  {
    hide TxnOk, Moved, StepVet, StepClaim, StepBudget, StepReturn;
    if a.Vet? { VetMoves(s, s', a.t, a.dbNow, a.account); }
    else if a.Claim? { ClaimMoves(s, s', a.t, a.reply); }
    else if a.Budget? { BudgetMoves(s, s', a.t, a.within); }
    else { ReturnMoves(s, s', a.t, a.reply); }
  }

  lemma {:induction false} EndMovesKeepOwn(s: State, a: Action, s': State)
    requires a.Judge? || a.StartUpdate? || a.EndUpdate? || a.Remember?
    requires a.t in s.txns && StepOf(s, a) == Some(s') && TxnOk(s, a.t) && Chained(s.db) && OneOwnerPerFamily(s.db)
    ensures TxnOk(s', a.t) && Moved(s, s', a.t)
  {
    hide TxnOk, Moved, Chained, OneOwnerPerFamily, StepJudge, StepStartUpdate, StepEndUpdate, StepRemember;
    if a.Judge? { JudgeMoves(s, s', a.t, a.dbNow); }
    else if a.StartUpdate? { StartUpdateMoves(s, s', a.t); }
    else if a.EndUpdate? { EndUpdateMoves(s, s', a.t); }
    else { RememberMoves(s, s', a.t, a.reply); }
  }

  lemma {:induction false} LateMovesKeepOwn(s: State, a: Action, s': State)
    requires Moves(a) && !MovesEarly(a) && a.t in s.txns && StepOf(s, a) == Some(s')
    requires TxnOk(s, a.t) && Chained(s.db) && OneOwnerPerFamily(s.db)
    ensures TxnOk(s', a.t) && Moved(s, s', a.t)
  {
    hide TxnOk, Moved, Chained, OneOwnerPerFamily, StepOf;
    if a.Vet? || a.Claim? || a.Budget? || a.Return? {
      ReplayMovesKeepOwn(s, a, s');
    } else {
      EndMovesKeepOwn(s, a, s');
    }
  }

  lemma {:induction false} MovesKeepInv(s: State, a: Action, s': State)
    requires Inv(s) && Moves(a) && a.t in s.txns && StepOf(s, a) == Some(s')
    ensures Inv(s')
  {
    assert TxnOk(s, a.t);
    if MovesEarly(a) { EarlyMovesKeepOwn(s, a, s'); } else { LateMovesKeepOwn(s, a, s'); }
    MoveKeepsInv(s, s', a.t);
  }

  lemma {:induction false} AcquireKeepsInv(s: State, s': State, t: TxnId)
    requires Inv(s) && t in s.txns && StepAcquire(s, t) == Some(s')
    ensures Inv(s')
  {
    assert TxnOk(s, t);
    AcquireLocks(s, s', t);
    AcquireShape(s, s', t);
    LockKeepsInv(s, s', t);
  }

  lemma {:induction false} FetchKeepsInv(s: State, s': State, t: TxnId, id: TokenId)
    requires Inv(s) && t in s.txns && StepFetch(s, t, id) == Some(s')
    ensures Inv(s')
  {
    assert TxnOk(s, t);
    if s.txns[t].req.Refresh? {
      FetchRowLocks(s, s', t, id);
      FetchRowShape(s, s', t, id);
      LockKeepsInv(s, s', t);
    } else {
      FetchNothingMoves(s, s', t, id);
      MoveKeepsInv(s, s', t);
    }
  }

  /** A step of Redis alone changes nothing the database side relies on. */
  ghost predicate OnlyRedis(s: State, s': State) {
    && s'.cfg == s.cfg && s'.db == s.db && s'.locks == s.locks && s'.rowLocks == s.rowLocks && s'.blind == s.blind
    && s'.txns.Keys == s.txns.Keys
    && forall u :: u in s.txns ==>
          s'.txns[u].req == s.txns[u].req && s'.txns[u].pc == s.txns[u].pc && s'.txns[u].writes == s.txns[u].writes
  }

  lemma {:induction false} RedisKeepsAll(s: State, s': State)
    requires AllOk(s) && OnlyRedis(s, s')
    ensures AllOk(s')
  {
    forall u | u in s'.txns ensures TxnOk(s', u) {
      RedisKeepsFor(s, s', u);
      Frame(s, s', u);
    }
  }

  lemma {:induction false} RedisKeepsFor(s: State, s': State, u: TxnId)
    requires OnlyRedis(s, s') && u in s.txns
    ensures KeepsFor(s, s', u)
  {}

  lemma {:induction false} RedisKeepsApart(s: State, s': State)
    requires Apart(s) && RotatedOnce(s) && OnlyRedis(s, s')
    ensures Apart(s') && RotatedOnce(s')
  {
    RedisCarriesOver(s, s');
    CarryOverKeepsFresh(s, s');
    hide InsertsFresh, InsertsCarryOver;
    RedisWritesApart(s, s');
    hide WritesApart;
    assert forall u :: u in s.txns ==> RotatedBy(s'.txns[u]) == RotatedBy(s.txns[u]);
  }

  lemma {:induction false} RedisCarriesOver(s: State, s': State)
    requires OnlyRedis(s, s')
    ensures InsertsCarryOver(s, s')
  {}

  lemma {:induction false} RedisWritesApart(s: State, s': State)
    requires WritesApart(s) && OnlyRedis(s, s')
    ensures WritesApart(s')
  {}

  lemma {:induction false} RedisKeepsInv(s: State, s': State)
    requires Inv(s) && OnlyRedis(s, s')
    ensures Inv(s')
  {
    RedisKeepsAll(s, s');
    RedisKeepsApart(s, s');
  }
}
