/**
 The invariant of the refresh-token protocol, and its preservation by every statement of
 every interleaving. The table keeps one chain per family; each open transaction keeps the
 locks and the view of its own rows that its next statement relies on; pending writes of
 different transactions stay apart.
 */
module RefreshInvariant {
  import opened Options
  import opened TokenFamilies
  import opened RefreshProtocol

  // ---- per transaction --------------------------------------------------------------------

  predicate HeldBy<K>(locks: map<K, TxnId>, k: K, t: TxnId) {
    k in locks && locks[k] == t
  }

  predicate HasKey(s: State, t: TxnId, f: FamilyId) {
    HeldBy(s.locks, s.cfg.keyOf(f), t)
  }

  ghost predicate NoKeys(s: State, t: TxnId) {
    forall k :: k in s.locks ==> s.locks[k] != t
  }

  ghost predicate NoRows(s: State, t: TxnId) {
    forall id :: id in s.rowLocks ==> s.rowLocks[id] != t
  }

  ghost predicate HoldsAll(s: State, t: TxnId, families: set<FamilyId>) {
    forall f :: f in families ==> HasKey(s, t, f)
  }

  /** The families a transaction locks: those of the user it revokes, or that of the presented token. */
  ghost predicate FamiliesOf(s: State, req: Request, families: set<FamilyId>) {
    match req
    case Login(_) => false
    case RevokeAll(u) =>
      forall f :: f in families ==> exists id :: id in s.db && s.db[id].family == f && s.db[id].user == u
    case Refresh(_, _, _, _) => exists id :: id in s.db && Presents(req, s.db[id]) && families == {s.db[id].family}
    case Logout(_) => exists id :: id in s.db && Presents(req, s.db[id]) && families == {s.db[id].family}
  }

  ghost predicate LockingOk(s: State, t: TxnId, families: set<FamilyId>, todo: seq<Key>) {
    && todo != []
    && (forall i, j :: 0 <= i < j < |todo| ==> todo[i] <= todo[j])
    && (forall f :: f in families ==> s.cfg.keyOf(f) in todo || HasKey(s, t, f))
    && (forall k :: HeldBy(s.locks, k, t) ==> k <= todo[0])
  }

  /** The presented row is as read, row-locked, and its family is locked. */
  ghost predicate PresentedOk(s: State, t: TxnId, req: Request, id: TokenId, row: Row) {
    && req.Refresh? && row.hash == req.hash
    && id in s.db && s.db[id] == row && HeldBy(s.rowLocks, id, t) && HasKey(s, t, row.family)
  }

  /** The replacement is still unused; if it was revoked since it was read, then blindly. */
  ghost predicate ReplacementOk(s: State, row: Row, child: TokenId, token: Hash) {
    && row.replacedBy == Some(child) && child in s.db
    && s.db[child].hash == token && s.db[child].family == row.family && s.db[child].replacedBy == None
    && (s.db[child].revoked ==> child in s.blind)
  }

  ghost predicate SeenOk(s: State, row: Row, seen: Option<Row>) {
    seen.Some? ==>
      row.replacedBy.Some? && row.replacedBy.value in s.db && Evolves(seen.value, s.db[row.replacedBy.value])
  }

  /** A revocation in progress: what it wrote is locked, and no live token of its families escapes it. */
  ghost predicate RevokingOk(s: State, t: TxnId, x: Txn, families: set<FamilyId>, started: bool,
                             targets: set<TokenId>) {
    && FamiliesOf(s, x.req, families) && HoldsAll(s, t, families)
    && OnlyRevokes(s.db, x.writes)
    && (forall id :: id in x.writes ==> HeldBy(s.rowLocks, id, t))
    && (forall id :: id in x.writes ==>
       if x.req.RevokeAll? then s.db[id].user == x.req.user else s.db[id].family in families)
    && (!started ==> x.writes == map[])
    && (started ==> forall id :: id in s.db && s.db[id].family in families && !s.db[id].revoked ==>
       id in targets || id in x.writes)
  }

  ghost predicate RotatingOk(s: State, t: TxnId, x: Txn, id: TokenId, newId: TokenId) {
    && id in s.db && PresentedOk(s, t, x.req, id, s.db[id]) && Live(s.db[id])
    && newId !in s.db && newId in x.writes
    && x.writes == RotationWrites(id, s.db[id], newId, x.writes[newId].hash, x.writes[newId].created,
       x.writes[newId].expires)
  }

  ghost predicate RotatedOk(s: State, req: Request, id: TokenId, newId: TokenId) {
    && req.Refresh? && id in s.db && s.db[id].hash == req.hash && s.db[id].replacedBy == Some(newId) && newId in s.db
  }

  ghost predicate ReadyOk(s: State, t: TxnId, x: Txn, o: Outcome) {
    match o
    case LoggedIn(id) =>
      && x.req.Login? && id in x.writes && x.writes == map[id := x.writes[id]] && id !in s.db
      && Live(x.writes[id]) && x.writes[id].user == x.req.user
    case Unknown => x.writes == map[]
    case Expired(_) => x.writes == map[]
    case Rotated(id, newId) => RotatingOk(s, t, x, id, newId)
    case Replayed(id, child, token) =>
      x.writes == map[] && id in s.db && PresentedOk(s, t, x.req, id, s.db[id])
        && ReplacementOk(s, s.db[id], child, token)
    case Conflict(_) => x.writes == map[]
    case Killed(families) => RevokingOk(s, t, x, families, true, {})
    case Aborted => false
  }

  ghost predicate Closed(s: State, t: TxnId, x: Txn, o: Outcome) {
    && x.writes == map[] && NoKeys(s, t) && NoRows(s, t)
    && (o.Rotated? ==> RotatedOk(s, x.req, o.id, o.newId))
  }

  ghost predicate TxnOk(s: State, t: TxnId)
    requires t in s.txns
  {
    var x := s.txns[t];
    match x.pc
    case Start => x.writes == map[] && NoKeys(s, t) && NoRows(s, t)
    case Locking(families, todo) =>
      x.writes == map[] && NoRows(s, t) && FamiliesOf(s, x.req, families) && LockingOk(s, t, families, todo)
    case Locked(families) =>
      x.writes == map[] && NoRows(s, t) && FamiliesOf(s, x.req, families) && HoldsAll(s, t, families)
    case Fetched(id, row) => x.writes == map[] && PresentedOk(s, t, x.req, id, row)
    case Loaded(id, row, entry) =>
      x.writes == map[] && PresentedOk(s, t, x.req, id, row) && row.replacedBy == Some(entry.tokenId)
    case Vetting(id, row, entry, child) => x.writes == map[] && InReplay(s, t, x, id, row, entry, child)
    case Cleared(id, row, entry, child) => x.writes == map[] && InReplay(s, t, x, id, row, entry, child)
    case Charged(id, row, entry, child) => x.writes == map[] && InReplay(s, t, x, id, row, entry, child)
    case Returning(id, row, child) =>
      x.writes == map[] && PresentedOk(s, t, x.req, id, row) && SeenOk(s, row, Some(child))
    case Checking(id, row, seen) => x.writes == map[] && PresentedOk(s, t, x.req, id, row) && SeenOk(s, row, seen)
    case Updating(families, started, targets) => RevokingOk(s, t, x, families, started, targets)
    case Ready(o) => ReadyOk(s, t, x, o)
    case Remembering(o, e) => o.Rotated? && Closed(s, t, x, o) && e.tokenId == o.newId && e.token == s.db[o.newId].hash
    case Done(o) => Closed(s, t, x, o)
  }

  ghost predicate InReplay(s: State, t: TxnId, x: Txn, id: TokenId, row: Row, entry: Entry, child: Row) {
    && PresentedOk(s, t, x.req, id, row) && ReplacementOk(s, row, entry.tokenId, entry.token)
    && Live(child) && SeenOk(s, row, Some(child))
  }

  // ---- across transactions ----------------------------------------------------------------

  ghost predicate Pending(s: State, t: TxnId, id: TokenId) {
    t in s.txns && id in s.txns[t].writes && id !in s.db
  }

  ghost predicate WritesApart(s: State) {
    forall t, u, id :: t in s.txns && u in s.txns && id in s.txns[t].writes && id in s.txns[u].writes ==> t == u
  }

  /** Rows waiting to be inserted carry hashes nobody else has, and a login's also a new family. */
  ghost predicate InsertsFresh(s: State) {
    && (forall t, id, r :: Pending(s, t, id) && r in s.db ==> s.db[r].hash != s.txns[t].writes[id].hash)
    && (forall t, id, u, r :: Pending(s, t, id) && Pending(s, u, r) && t != u ==>
       s.txns[u].writes[r].hash != s.txns[t].writes[id].hash)
    && (forall t, id, r :: Pending(s, t, id) && s.txns[t].req.Login? && r in s.db ==>
       s.db[r].family != s.txns[t].writes[id].family)
    && (forall t, id, u, r :: Pending(s, t, id) && s.txns[t].req.Login? && Pending(s, u, r) && t != u
          ==> s.txns[u].writes[r].family != s.txns[t].writes[id].family)
  }

  ghost predicate Owned(s: State) {
    && (forall k :: k in s.locks ==> s.locks[k] in s.txns)
    && (forall id :: id in s.rowLocks ==> s.rowLocks[id] in s.txns)
  }

  /** The token a finished transaction has rotated. */
  function RotatedBy(x: Txn): Option<TokenId> {
    match x.pc
    case Remembering(o, _) => if o.Rotated? then Some(o.id) else None
    case Done(o) => if o.Rotated? then Some(o.id) else None
    case _ => None
  }

  ghost predicate RotatedOnce(s: State) {
    forall t, u ::
      t in s.txns && u in s.txns && RotatedBy(s.txns[t]).Some? && RotatedBy(s.txns[t]) == RotatedBy(s.txns[u]) ==>
      t == u
  }

  ghost predicate BlindRevoked(s: State) {
    forall id :: id in s.blind ==> id in s.db && s.db[id].revoked
  }

  ghost predicate AllOk(s: State) {
    forall t {:trigger TxnOk(s, t)} :: t in s.txns ==> TxnOk(s, t)
  }

  ghost predicate Apart(s: State) {
    WritesApart(s) && InsertsFresh(s)
  }

  ghost predicate Inv(s: State) {
    TableOk(s.db) && AllOk(s) && Apart(s) && Owned(s) && RotatedOnce(s) && BlindRevoked(s)
  }

  // ---- what one transaction's step leaves to another ---------------------------------------

  ghost predicate KeepsFor(s: State, s': State, u: TxnId) {
    && s'.cfg == s.cfg && s.blind <= s'.blind
    && u in s.txns && u in s'.txns
    && s'.txns[u].req == s.txns[u].req && s'.txns[u].pc == s.txns[u].pc && s'.txns[u].writes == s.txns[u].writes
    && (forall k :: HeldBy(s'.locks, k, u) <==> HeldBy(s.locks, k, u))
    && (forall id :: HeldBy(s'.rowLocks, id, u) <==> HeldBy(s.rowLocks, id, u))
    && TableEvolves(s.db, s'.db)
    && (forall id :: id in s.db && HeldBy(s.rowLocks, id, u) ==> s'.db[id] == s.db[id])
    && (forall id :: id in s.db && HasKey(s, u, s.db[id].family) ==>
          s'.db[id] == s.db[id] || (s'.db[id] == Revoked(s.db[id]) && id in s'.blind))
    && (forall id :: id in s'.db && id !in s.db ==>
          id !in s.txns[u].writes && !(HasFamily(s.db, s'.db[id].family) && HasKey(s, u, s'.db[id].family)))
  }

  lemma {:induction false} FrameKeys(s: State, s': State, u: TxnId, families: set<FamilyId>)
    requires KeepsFor(s, s', u)
    ensures forall f :: HasKey(s, u, f) <==> HasKey(s', u, f)
    ensures HoldsAll(s, u, families) <==> HoldsAll(s', u, families)
    ensures NoKeys(s, u) ==> NoKeys(s', u)
    ensures NoRows(s, u) ==> NoRows(s', u)
  {
    forall f ensures HasKey(s, u, f) <==> HasKey(s', u, f) {
      var k := s.cfg.keyOf(f);
      assert HeldBy(s'.locks, k, u) <==> HeldBy(s.locks, k, u);
    }
    forall k | NoKeys(s, u) && k in s'.locks ensures s'.locks[k] != u {
      assert HeldBy(s'.locks, k, u) <==> HeldBy(s.locks, k, u);
    }
    forall k | NoRows(s, u) && k in s'.rowLocks ensures s'.rowLocks[k] != u {
      assert HeldBy(s'.rowLocks, k, u) <==> HeldBy(s.rowLocks, k, u);
    }
  }

  lemma {:induction false} FramePresented(s: State, s': State, u: TxnId, req: Request, id: TokenId, row: Row)
    requires KeepsFor(s, s', u) && PresentedOk(s, u, req, id, row)
    ensures PresentedOk(s', u, req, id, row)
  {
    FrameKeys(s, s', u, {});
  }

  lemma {:induction false} FrameReplacement(s: State, s': State, u: TxnId, row: Row, child: TokenId, token: Hash)
    requires KeepsFor(s, s', u) && ReplacementOk(s, row, child, token) && HasKey(s, u, row.family)
    ensures ReplacementOk(s', row, child, token)
  {
    assert child in s.db && HasKey(s, u, s.db[child].family);
  }

  lemma {:induction false} FrameSeen(s: State, s': State, row: Row, seen: Option<Row>)
    requires TableEvolves(s.db, s'.db) && SeenOk(s, row, seen)
    ensures SeenOk(s', row, seen)
  {}

  lemma {:induction false} FrameLocking(s: State, s': State, u: TxnId, families: set<FamilyId>, todo: seq<Key>)
    requires KeepsFor(s, s', u) && LockingOk(s, u, families, todo)
    ensures LockingOk(s', u, families, todo)
  {
    FrameKeys(s, s', u, {});
  }

  lemma {:induction false} FrameRevoking(s: State, s': State, u: TxnId, families: set<FamilyId>, started: bool,
                                         targets: set<TokenId>)
    requires KeepsFor(s, s', u) && RevokingOk(s, u, s.txns[u], families, started, targets)
    ensures RevokingOk(s', u, s'.txns[u], families, started, targets)
  {
    FrameKeys(s, s', u, families);
    FrameFamilies(s, s', s.txns[u].req, families);
    var x := s.txns[u];
    forall id | id in x.writes ensures id in s'.db && s'.db[id] == s.db[id] && HeldBy(s'.rowLocks, id, u) {
      assert HeldBy(s.rowLocks, id, u);
    }
    forall id | started && id in s'.db && s'.db[id].family in families && !s'.db[id].revoked
      ensures id in targets || id in x.writes
    {
      var f := s'.db[id].family;
      assert HasKey(s, u, f);
      KnownFamily(s, s.txns[u].req, families, f);
      assert id in s.db && Evolves(s.db[id], s'.db[id]);
    }
  }

  lemma {:induction false} KnownFamily(s: State, req: Request, families: set<FamilyId>, f: FamilyId)
    requires FamiliesOf(s, req, families) && f in families
    ensures HasFamily(s.db, f)
  {}

  lemma {:induction false} FrameRotating(s: State, s': State, u: TxnId, id: TokenId, newId: TokenId)
    requires KeepsFor(s, s', u) && RotatingOk(s, u, s.txns[u], id, newId)
    ensures RotatingOk(s', u, s'.txns[u], id, newId)
  {
    FramePresented(s, s', u, s.txns[u].req, id, s.db[id]);
  }

  lemma {:induction false} FrameClosed(s: State, s': State, u: TxnId, o: Outcome)
    requires KeepsFor(s, s', u) && Closed(s, u, s.txns[u], o)
    ensures Closed(s', u, s'.txns[u], o)
  {
    FrameKeys(s, s', u, {});
    if o.Rotated? { assert Evolves(s.db[o.id], s'.db[o.id]); }
  }

  lemma {:induction false} FrameReady(s: State, s': State, u: TxnId, o: Outcome)
    requires KeepsFor(s, s', u) && ReadyOk(s, u, s.txns[u], o)
    ensures ReadyOk(s', u, s'.txns[u], o)
  {
    match o
    case LoggedIn(id) =>
    case Unknown =>
    case Expired(_) =>
    case Conflict(_) =>
    case Rotated(id, newId) => FrameRotating(s, s', u, id, newId);
    case Replayed(id, child, token) =>
      FramePresented(s, s', u, s.txns[u].req, id, s.db[id]);
      FrameReplacement(s, s', u, s.db[id], child, token);
    case Killed(families) => FrameRevoking(s, s', u, families, true, {});
  }

  /** A step that keeps for `u` what `KeepsFor` says keeps everything `u` relies on. */
  lemma {:induction false} Frame(s: State, s': State, u: TxnId)
    requires KeepsFor(s, s', u) && TxnOk(s, u)
    ensures TxnOk(s', u)
  {
    var x := s.txns[u];
    match x.pc
    case Start => FrameKeys(s, s', u, {});
    case Locking(families, todo) =>
      FrameKeys(s, s', u, families); FrameFamilies(s, s', x.req, families); FrameLocking(s, s', u, families, todo);
    case Locked(families) => FrameKeys(s, s', u, families); FrameFamilies(s, s', x.req, families);
    case Fetched(id, row) => FramePresented(s, s', u, x.req, id, row);
    case Loaded(id, row, _) => FramePresented(s, s', u, x.req, id, row);
    case Vetting(id, row, entry, child) => FrameInReplay(s, s', u, id, row, entry, child);
    case Cleared(id, row, entry, child) => FrameInReplay(s, s', u, id, row, entry, child);
    case Charged(id, row, entry, child) => FrameInReplay(s, s', u, id, row, entry, child);
    case Returning(id, row, child) => FramePresented(s, s', u, x.req, id, row); FrameSeen(s, s', row, Some(child));
    case Checking(id, row, seen) => FramePresented(s, s', u, x.req, id, row); FrameSeen(s, s', row, seen);
    case Updating(families, started, targets) => FrameRevoking(s, s', u, families, started, targets);
    case Ready(o) => FrameReady(s, s', u, o);
    case Remembering(o, e) => FrameClosed(s, s', u, o); assert Evolves(s.db[o.newId], s'.db[o.newId]);
    case Done(o) => FrameClosed(s, s', u, o);
  }

  lemma {:induction false} FrameInReplay(s: State, s': State, u: TxnId, id: TokenId, row: Row, entry: Entry, child: Row)
    requires KeepsFor(s, s', u) && InReplay(s, u, s.txns[u], id, row, entry, child)
    ensures InReplay(s', u, s'.txns[u], id, row, entry, child)
  {
    FramePresented(s, s', u, s.txns[u].req, id, row);
    FrameReplacement(s, s', u, row, entry.tokenId, entry.token);
    FrameSeen(s, s', row, Some(child));
  }

  lemma {:induction false} FrameFamilies(s: State, s': State, req: Request, families: set<FamilyId>)
    requires TableEvolves(s.db, s'.db) && FamiliesOf(s, req, families)
    ensures FamiliesOf(s', req, families)
  {
    if req.RevokeAll? {
      forall f | f in families ensures exists id :: id in s'.db && s'.db[id].family == f && s'.db[id].user == req.user {
        var id :| id in s.db && s.db[id].family == f && s.db[id].user == req.user;
        assert id in s'.db && Evolves(s.db[id], s'.db[id]);
      }
    } else {
      var id :| id in s.db && Presents(req, s.db[id]) && families == {s.db[id].family};
      assert id in s'.db && Evolves(s.db[id], s'.db[id]);
    }
  }
}
