/**
 How often one rotated token can be replayed.

 `_CLAIM` counts a use before the replay is granted, and a call may time out after taking
 effect, be delivered late, or be given back late. The invariant ties the stored count to
 the transactions that hold a use (`unit`): the count never falls below them, because an
 entry is written at most once per token and a use is given back at most once.
 */
module ReplayBudget {
  import opened Options
  import opened TokenFamilies
  import opened RefreshProtocol
  import opened RefreshInvariant
  import opened RefreshSteps
  import opened RefreshWrites
  import opened RefreshTheorems

  predicate Holds(x: Txn, h: Hash) {
    x.unit && x.req.Refresh? && x.req.hash == h
  }

  ghost function Holders(s: State, h: Hash): set<TxnId> {
    set t | t in s.txns && Holds(s.txns[t], h)
  }

  /** Places from which a replay succeeds, or its use is still to be returned. */
  predicate NeedsUnit(pc: Pc) {
    pc.Charged? || pc.Returning? || (pc.Ready? && pc.outcome.Replayed?) || (pc.Done? && pc.outcome.Replayed?)
  }

  /** Places after a replay was refused: none of them leads to a success. */
  predicate PastReplay(pc: Pc) {
    match pc
    case Checking(_, _, _) => true
    case Updating(_, _, _) => true
    case Ready(o) => o.Conflict? || o.Killed?
    case Done(o) => o.Conflict? || o.Killed? || o.Aborted?
    case _ => false
  }

  /** Transaction `t` has yet to store, or has in flight, the entry of `h`. */
  ghost predicate Source(s: State, t: TxnId, h: Hash) {
    && t in s.txns && s.txns[t].req.Refresh? && s.txns[t].req.hash == h
    && (s.txns[t].pc.Remembering? || exists e :: LateRemember(h, e, t) in s.inflight)
  }

  ghost predicate RotatedHash(db: Table, h: Hash) {
    exists id :: id in db && db[id].hash == h && db[id].replacedBy.Some?
  }

  ghost predicate CountsOk(s: State) {
    && (forall h {:trigger Holders(s, h)} :: |Holders(s, h)| <= s.cfg.maxUses)
    && (forall h :: h in s.entries ==> |Holders(s, h)| <= s.entries[h].uses <= s.cfg.maxUses)
  }

  ghost predicate UnitsOk(s: State) {
    forall t :: t in s.txns && NeedsUnit(s.txns[t].pc) ==> s.txns[t].unit && s.txns[t].req.Refresh?
  }

  ghost predicate ReleasesOk(s: State) {
    forall h, t :: LateRelease(h, t) in s.inflight ==> t in s.txns && Holds(s.txns[t], h) && PastReplay(s.txns[t].pc)
  }

  ghost predicate SourcesOk(s: State) {
    && (forall t, h :: Source(s, t, h) ==> h !in s.entries && Holders(s, h) == {})
    && (forall h, e, t :: LateRemember(h, e, t) in s.inflight ==>
          Source(s, t, h) && s.txns[t].pc.Done? && s.txns[t].pc.outcome.Rotated?)
    && (forall h, e, t, h', e' :: LateRemember(h, e, t) in s.inflight && LateRemember(h', e', t) in s.inflight ==>
       e == e')
  }

  ghost predicate KnownOk(s: State) {
    forall h {:trigger RotatedHash(s.db, h)} :: h in s.entries || Holders(s, h) != {} ==> RotatedHash(s.db, h)
  }

  ghost predicate RInv(s: State) {
    CountsOk(s) && UnitsOk(s) && ReleasesOk(s) && SourcesOk(s) && KnownOk(s)
  }

  // ---- steps that leave Redis and the units alone ---------------------------------------------

  /** No use is taken or given back, nothing is stored or pending to be stored, and a refused replay stays refused. */
  ghost predicate RedisAlone(s: State, s': State, t: TxnId) {
    && s'.cfg == s.cfg && s'.entries == s.entries && s'.inflight == s.inflight
    && t in s'.txns && s'.txns.Keys == s.txns.Keys + {t}
    && (forall u :: u in s.txns && u != t ==> s'.txns[u] == s.txns[u])
    && (t in s.txns ==>
          && s'.txns[t].req == s.txns[t].req && s'.txns[t].unit == s.txns[t].unit
          && (s'.txns[t].pc.Remembering? ==> s.txns[t].pc.Remembering?)
          && (PastReplay(s.txns[t].pc) ==> PastReplay(s'.txns[t].pc))
          && (s.txns[t].pc.Done? ==> s'.txns[t].pc == s.txns[t].pc)
          && (NeedsUnit(s'.txns[t].pc) ==> NeedsUnit(s.txns[t].pc)))
    && (t !in s.txns ==> !s'.txns[t].unit && s'.txns[t].pc == Start)
  }

  lemma {:induction false} RedisAloneHolders(s: State, s': State, t: TxnId, h: Hash)
    requires RedisAlone(s, s', t)
    ensures Holders(s', h) == Holders(s, h)
  {}

  lemma {:induction false} RedisAloneKeeps(s: State, s': State, t: TxnId)
    requires RInv(s) && RedisAlone(s, s', t) && TableEvolves(s.db, s'.db)
    ensures RInv(s')
  {
    forall h ensures Holders(s', h) == Holders(s, h) { RedisAloneHolders(s, s', t, h); }
    forall u, h | Source(s', u, h) ensures Source(s, u, h) {
      if u == t && !s'.txns[t].pc.Remembering? { var e :| LateRemember(h, e, t) in s.inflight; }
    }
    forall h, e, u | LateRemember(h, e, u) in s'.inflight ensures Source(s', u, h) && s'.txns[u].pc.Done?
      && s'.txns[u].pc.outcome.Rotated? {
      assert Source(s, u, h);
    }
    forall h | h in s'.entries || Holders(s', h) != {} ensures RotatedHash(s'.db, h) {
      RotatedHashStays(s.db, s'.db, h);
    }
  }

  lemma {:induction false} RotatedHashStays(db: Table, db': Table, h: Hash)
    requires TableEvolves(db, db')
    ensures RotatedHash(db, h) ==> RotatedHash(db', h)
  {
    if RotatedHash(db, h) {
      var id :| id in db && db[id].hash == h && db[id].replacedBy.Some?;
      assert id in db' && Evolves(db[id], db'[id]);
    }
  }

  lemma {:induction false} AloneBegin(s: State, t: TxnId, req: Request)
    requires t !in s.txns
    ensures RedisAlone(s, s.(txns := s.txns[t := Txn(req, Start, map[], false)]), t)
  {}

  lemma {:induction false} AloneLookup(s: State, a: Action, s': State)
    requires (a.Find? || a.FindNone? || a.ListFamilies? || a.Refuse?) && a.t in s.txns && StepOf(s, a) == Some(s')
    ensures RedisAlone(s, s', a.t)
  {}

  lemma {:induction false} AloneLock(s: State, a: Action, s': State)
    requires (a.Open? || a.Acquire? || a.Fetch?) && a.t in s.txns && StepOf(s, a) == Some(s')
    ensures RedisAlone(s, s', a.t)
  {}

  lemma {:induction false} AloneEnd(s: State, a: Action, s': State)
    requires (a.Rotate? || a.Abort?) && a.t in s.txns && StepOf(s, a) == Some(s')
    ensures RedisAlone(s, s', a.t)
  {}

  lemma {:induction false} AloneLoad(s: State, a: Action, s': State)
    requires (a.SkipReplay? || a.Load?) && a.t in s.txns && StepOf(s, a) == Some(s')
    ensures RedisAlone(s, s', a.t)
  {}

  lemma {:induction false} AloneReadChild(s: State, t: TxnId, now: Time, s': State)
    requires t in s.txns && StepReadChild(s, t, now) == Some(s')
    ensures RedisAlone(s, s', t)
  {}

  lemma {:induction false} AloneVet(s: State, t: TxnId, dbNow: Time, account: Option<Account>, s': State)
    requires t in s.txns && StepVet(s, t, dbNow, account) == Some(s')
    ensures RedisAlone(s, s', t)
  {
    VetGoes(s, s', t, dbNow, account);
  }

  lemma {:induction false} AloneJudge(s: State, t: TxnId, dbNow: Time, s': State)
    requires t in s.txns && StepJudge(s, t, dbNow) == Some(s')
    ensures RedisAlone(s, s', t)
  {
    JudgeGoes(s, t, dbNow, s');
  }

  lemma {:induction false} JudgeGoes(s: State, t: TxnId, dbNow: Time, s': State)
    requires t in s.txns && StepJudge(s, t, dbNow) == Some(s')
    ensures s.txns[t].pc.Checking? && t in s'.txns && s' == At(s, t, s'.txns[t].pc)
    ensures var pc := s'.txns[t].pc; pc.Updating? || (pc.Ready? && pc.outcome.Conflict?)
  {}

  lemma {:induction false} AloneBudget(s: State, t: TxnId, within: Option<bool>, s': State)
    requires t in s.txns && StepBudget(s, t, within) == Some(s')
    ensures RedisAlone(s, s', t)
  {
    BudgetGoes(s, s', t, within);
  }

  lemma {:induction false} AloneUpdate(s: State, a: Action, s': State)
    requires (a.StartUpdate? || a.EndUpdate?) && a.t in s.txns && StepOf(s, a) == Some(s')
    ensures RedisAlone(s, s', a.t)
  {}

  lemma {:induction false} AloneUpdateRow(s: State, a: Action, s': State)
    requires a.UpdateRow? && a.t in s.txns && StepOf(s, a) == Some(s')
    ensures RedisAlone(s, s', a.t)
  {}

  // ---- committing a rotation --------------------------------------------------------------------

  /** Before a token is rotated nothing was ever stored for it and nobody has replayed it. */
  lemma {:induction false} NothingBeforeRotation(s: State, h: Hash, id: TokenId)
    requires HashesUnique(s.db) && KnownOk(s) && id in s.db && s.db[id].hash == h && s.db[id].replacedBy.None?
    ensures h !in s.entries && Holders(s, h) == {}
  {
    assert !RotatedHash(s.db, h);
  }

  /** A transaction that is to store an entry has rotated the token. */
  lemma {:induction false} SourceRotated(s: State, t: TxnId, h: Hash)
    requires AllOk(s) && SourcesOk(s) && Source(s, t, h)
    ensures RotatedBy(s.txns[t]).Some? && RotatedBy(s.txns[t]).value in s.db
    ensures s.db[RotatedBy(s.txns[t]).value].hash == h && s.db[RotatedBy(s.txns[t]).value].replacedBy.Some?
  {
    assert TxnOk(s, t);
    if !s.txns[t].pc.Remembering? { var e :| LateRemember(h, e, t) in s.inflight; }
  }

  /** ... so there is one such transaction per token. */
  lemma {:induction false} OneSource(s: State, t: TxnId, u: TxnId, h: Hash)
    requires AllOk(s) && SourcesOk(s) && RotatedOnce(s) && HashesUnique(s.db) && Source(s, t, h) && Source(s, u, h)
    ensures t == u
  {
    SourceRotated(s, t, h);
    SourceRotated(s, u, h);
  }

  lemma {:induction false} CommitHolders(s: State, s': State, t: TxnId, o: Outcome, h: Hash)
    requires Commits(s, s', t, o) && s'.txns[t].unit == s.txns[t].unit
    ensures Holders(s', h) == Holders(s, h)
  {
    assert forall u :: u in s.txns ==> (Holds(s'.txns[u], h) <==> Holds(s.txns[u], h));
  }

  /** Committing, seen from Redis: the transaction's place changes, and a rotation may have an entry to store. */
  ghost predicate CommitsAlone(s: State, s': State, t: TxnId, o: Outcome) {
    && Commits(s, s', t, o) && s'.entries == s.entries && s'.inflight == s.inflight && s'.txns[t].unit == s.txns[t].unit
  }

  lemma {:induction false} CommitStepAlone(s: State, t: TxnId, cca: Option<Stamp>, s': State)
    requires t in s.txns && StepCommit(s, t, cca) == Some(s')
    ensures s.txns[t].pc.Ready? && CommitsAlone(s, s', t, s.txns[t].pc.outcome)
  {
    CommitShape(s, s', t, cca);
  }

  lemma {:induction false} CommitUnits(s: State, s': State, t: TxnId, o: Outcome)
    requires UnitsOk(s) && ReleasesOk(s) && CommitsAlone(s, s', t, o)
    ensures UnitsOk(s') && ReleasesOk(s')
  {
    forall h, u | LateRelease(h, u) in s'.inflight ensures u in s'.txns && Holds(s'.txns[u], h)
      && PastReplay(s'.txns[u].pc) {
      assert u in s.txns && PastReplay(s.txns[u].pc);
    }
  }

  lemma {:induction false} CommitSources(s: State, s': State, t: TxnId, o: Outcome)
    requires SourcesOk(s) && KnownOk(s) && HashesUnique(s.db) && CommitsAlone(s, s', t, o)
      && ReadyOk(s, t, s.txns[t], o)
    ensures SourcesOk(s')
  {
    forall u, h | Source(s', u, h) ensures h !in s'.entries && Holders(s', h) == {} {
      CommitHolders(s, s', t, o, h);
      if u == t && s'.txns[t].pc.Remembering? {
        NothingBeforeRotation(s, h, o.id);
      } else {
        assert Source(s, u, h);
      }
    }
    forall h, e, u | LateRemember(h, e, u) in s'.inflight ensures Source(s', u, h) && s'.txns[u].pc.Done?
      && s'.txns[u].pc.outcome.Rotated? {
      assert Source(s, u, h);
    }
  }

  lemma {:induction false} CommitCounts(s: State, s': State, t: TxnId, o: Outcome)
    requires CountsOk(s) && KnownOk(s) && CommitsAlone(s, s', t, o) && TableEvolves(s.db, s'.db)
    ensures CountsOk(s') && KnownOk(s')
  {
    forall h ensures Holders(s', h) == Holders(s, h) { CommitHolders(s, s', t, o, h); }
    forall h | h in s'.entries || Holders(s', h) != {} ensures RotatedHash(s'.db, h) {
      RotatedHashStays(s.db, s'.db, h);
    }
  }

  lemma {:induction false} CommitKeepsRInv(s: State, s': State, t: TxnId, o: Outcome)
    requires RInv(s) && HashesUnique(s.db) && CommitsAlone(s, s', t, o) && ReadyOk(s, t, s.txns[t], o)
      && TableEvolves(s.db, s'.db)
    ensures RInv(s')
  {
    CommitUnits(s, s', t, o);
    CommitSources(s, s', t, o);
    CommitCounts(s, s', t, o);
  }

  // ---- steps that use Redis ---------------------------------------------------------------------

  /** Same table and same transactions but for `t`, whose request stays. */
  ghost predicate SameButOne(s: State, s': State, t: TxnId) {
    && s'.cfg == s.cfg && s'.db == s.db && t in s.txns && s'.txns.Keys == s.txns.Keys && s'.txns[t].req == s.txns[t].req
    && forall u :: u in s.txns && u != t ==> s'.txns[u] == s.txns[u]
  }

  lemma {:induction false} HoldersOfOthers(s: State, s': State, t: TxnId, h: Hash)
    requires SameButOne(s, s', t)
    ensures Holders(s', h) == if Holds(s'.txns[t], h) then Holders(s, h) + {t} else Holders(s, h) - {t}
  {}

  /** A use taken with its answer received: one holder more, one use more. */
  lemma {:induction false} GrantKeepsRInv(s: State, s': State, t: TxnId, h: Hash)
    requires RInv(s) && SameButOne(s, s', t) && s.txns[t].req.Refresh? && s.txns[t].req.hash == h
    requires ClaimGranted(s.entries, h, s.cfg.maxUses)
    requires s'.entries == Claimed(s.entries, h, s.cfg.maxUses) && s'.inflight == s.inflight
    requires s.txns[t].pc.Cleared? && s'.txns[t].pc.Charged? && s'.txns[t].unit
    ensures RInv(s')
  {
    forall k ensures Holders(s', k) == if k == h then Holders(s, k) + {t} else Holders(s, k) {
      HoldersOfOthers(s, s', t, k);
    }
    GrantCounts(s, s', t, h);
    GrantSources(s, s', t, h);
    assert RotatedHash(s.db, h);
    assert forall k, u :: LateRelease(k, u) in s'.inflight ==> u != t;
  }

  lemma {:induction false} GrantCounts(s: State, s': State, t: TxnId, h: Hash)
    requires CountsOk(s) && s'.cfg == s.cfg && ClaimGranted(s.entries, h, s.cfg.maxUses)
    requires s'.entries == Claimed(s.entries, h, s.cfg.maxUses)
    requires forall k :: Holders(s', k) == if k == h then Holders(s, k) + {t} else Holders(s, k)
    ensures CountsOk(s')
  {
    assert |Holders(s, h) + {t}| <= |Holders(s, h)| + 1;
  }

  lemma {:induction false} GrantSources(s: State, s': State, t: TxnId, h: Hash)
    requires SourcesOk(s) && SameButOne(s, s', t) && h in s.entries
    requires s'.entries == Claimed(s.entries, h, s.cfg.maxUses) && s'.inflight == s.inflight
    requires s.txns[t].pc.Cleared? && s'.txns[t].pc.Charged?
    requires forall k :: Holders(s', k) == if k == h then Holders(s, k) + {t} else Holders(s, k)
    ensures SourcesOk(s')
  {
    forall u, k | Source(s', u, k) ensures Source(s, u, k) && k != h {
      assert Source(s, u, k);
    }
    forall k, e, u | LateRemember(k, e, u) in s'.inflight ensures Source(s', u, k) && s'.txns[u].pc.Done?
      && s'.txns[u].pc.outcome.Rotated? {
      assert Source(s, u, k) && u != t;
    }
  }

  /** Any other change of the counts: no new holder, no count below the holders. */
  ghost predicate CountsMove(s: State, s': State) {
    && s'.entries.Keys <= s.entries.Keys
    && forall h :: h in s'.entries ==> |Holders(s', h)| <= s'.entries[h].uses <= s.cfg.maxUses
  }

  /** A refused or unanswered claim: the transaction goes on without a use; a command may be in flight. */
  lemma {:induction false} RefusalKeepsRInv(s: State, s': State, t: TxnId, late: set<Command>)
    requires RInv(s) && SameButOne(s, s', t) && s'.txns[t].unit == s.txns[t].unit
    requires CountsMove(s, s') && s'.inflight == s.inflight + late
    requires forall c :: c in late ==> c.LateClaim? || (c.LateRelease? && c.owner == t && Holds(s.txns[t], c.hash))
    requires s.txns[t].pc.Cleared? || s.txns[t].pc.Returning?
    requires s'.txns[t].pc.Checking?
    ensures RInv(s')
  {
    forall h ensures Holders(s', h) == Holders(s, h) { HoldersOfOthers(s, s', t, h); }
    forall u, h | Source(s', u, h) ensures Source(s, u, h) {
      if !s'.txns[u].pc.Remembering? {
        var e :| LateRemember(h, e, u) in s'.inflight;
        assert LateRemember(h, e, u) in s.inflight;
      }
    }
    forall h, e, u | LateRemember(h, e, u) in s'.inflight ensures LateRemember(h, e, u) in s.inflight
      && Source(s', u, h) {
      assert Source(s, u, h);
    }
  }

  /** A use given back: by its holder, which then no longer holds one. */
  lemma {:induction false} ReleaseKeepsRInv(s: State, s': State, t: TxnId, h: Hash)
    requires RInv(s) && SameButOne(s, s', t) && Holds(s.txns[t], h) && !s'.txns[t].unit
    requires s'.entries == Released(s.entries, h)
    requires PastReplay(s'.txns[t].pc)
    requires forall c :: c in s'.inflight ==> c in s.inflight && !(c.LateRelease? && c.owner == t)
    ensures RInv(s')
  {
    forall k ensures Holders(s', k) == if k == h then Holders(s, k) - {t} else Holders(s, k) {
      HoldersOfOthers(s, s', t, k);
    }
    ReleaseCounts(s, s', t, h);
    ReleaseSources(s, s', t, h);
    hide CountsOk, SourcesOk, KnownOk;
  }

  lemma {:induction false} ReleaseCounts(s: State, s': State, t: TxnId, h: Hash)
    requires CountsOk(s) && KnownOk(s) && s'.cfg == s.cfg && s'.db == s.db && t in Holders(s, h)
    requires s'.entries == Released(s.entries, h)
    requires forall k :: Holders(s', k) == if k == h then Holders(s, k) - {t} else Holders(s, k)
    ensures CountsOk(s') && KnownOk(s')
  {
    hide RotatedHash, Holders;
    assert |Holders(s, h) - {t}| == |Holders(s, h)| - 1;
  }

  lemma {:induction false} ReleaseSources(s: State, s': State, t: TxnId, h: Hash)
    requires SourcesOk(s) && SameButOne(s, s', t) && PastReplay(s'.txns[t].pc) && Holds(s.txns[t], h)
    requires s'.entries == Released(s.entries, h) && s'.inflight <= s.inflight
    requires forall k :: Holders(s', k) == if k == h then Holders(s, k) - {t} else Holders(s, k)
    ensures SourcesOk(s')
  {
    assert t in Holders(s, h);
    hide Holders;
    forall u, k | Source(s', u, k) ensures Source(s, u, k) {
      if !s'.txns[u].pc.Remembering? {
        var e :| LateRemember(k, e, u) in s'.inflight;
        assert LateRemember(k, e, u) in s.inflight;
      }
    }
    forall k, e, u | LateRemember(k, e, u) in s'.inflight
      ensures Source(s', u, k) && s'.txns[u].pc.Done? && s'.txns[u].pc.outcome.Rotated?
    {
      assert LateRemember(k, e, u) in s.inflight && Source(s, u, k);
      assert u != t;
    }
  }

  lemma {:induction false} GrantedClaim(s: State, t: TxnId, reply: Reply, s': State)
    requires t in s.txns && StepClaim(s, t, reply) == Some(s')
    requires reply.Answered? && ClaimGranted(s.entries, s.txns[t].req.hash, s.cfg.maxUses)
    ensures SameButOne(s, s', t) && s.txns[t].req.Refresh? && s.txns[t].pc.Cleared? && s'.txns[t].pc.Charged?
      && s'.txns[t].unit
    ensures s'.entries == Claimed(s.entries, s.txns[t].req.hash, s.cfg.maxUses) && s'.inflight == s.inflight
  {}

  lemma {:induction false} RefusedClaim(s: State, t: TxnId, reply: Reply, s': State)
    requires t in s.txns && StepClaim(s, t, reply) == Some(s')
    requires !(reply.Answered? && ClaimGranted(s.entries, s.txns[t].req.hash, s.cfg.maxUses))
    ensures SameButOne(s, s', t) && s.txns[t].req.Refresh? && s.txns[t].pc.Cleared? && s'.txns[t].pc.Checking?
    ensures s'.txns[t].unit == s.txns[t].unit
    ensures s'.entries == s.entries || s'.entries == Claimed(s.entries, s.txns[t].req.hash, s.cfg.maxUses)
    ensures s'.inflight == s.inflight + if reply.Late? then {LateClaim(s.txns[t].req.hash, t)} else {}
  {}

  lemma {:induction false} ClaimKeepsRInv(s: State, t: TxnId, reply: Reply, s': State)
    requires RInv(s) && t in s.txns && StepClaim(s, t, reply) == Some(s')
    ensures RInv(s')
  {
    if reply.Answered? && ClaimGranted(s.entries, s.txns[t].req.hash, s.cfg.maxUses) {
      GrantedClaim(s, t, reply, s');
      GrantKeepsRInv(s, s', t, s.txns[t].req.hash);
    } else {
      RefusedClaim(s, t, reply, s');
      ClaimedCounts(s, s.txns[t].req.hash);
      forall k ensures Holders(s', k) == Holders(s, k) { HoldersOfOthers(s, s', t, k); }
      RefusalKeepsRInv(s, s', t, if reply.Late? then {LateClaim(s.txns[t].req.hash, t)} else {});
    }
  }

  /** Applying `_CLAIM` with nobody taking the use only moves the count away from the holders. */
  lemma {:induction false} ClaimedCounts(s: State, h: Hash)
    requires CountsOk(s)
    ensures Claimed(s.entries, h, s.cfg.maxUses).Keys == s.entries.Keys
    ensures forall k :: k in s.entries ==>
      |Holders(s, k)| <= Claimed(s.entries, h, s.cfg.maxUses)[k].uses <= s.cfg.maxUses
  {}

  lemma {:induction false} ReturnGoes(s: State, t: TxnId, reply: Reply, s': State)
    requires t in s.txns && StepReturn(s, t, reply) == Some(s')
    ensures SameButOne(s, s', t) && s.txns[t].req.Refresh? && s.txns[t].pc.Returning? && s'.txns[t].pc.Checking?
    ensures reply.Answered? || reply.ReplyLost? ==>
      !s'.txns[t].unit && s'.inflight == s.inflight && s'.entries == Released(s.entries, s.txns[t].req.hash)
    ensures reply.Late? || reply.Dropped? ==>
      && s'.txns[t].unit == s.txns[t].unit && s'.entries == s.entries
      && s'.inflight == s.inflight + if reply.Late? then {LateRelease(s.txns[t].req.hash, t)} else {}
  {}

  lemma {:induction false} ReturnKeepsRInv(s: State, t: TxnId, reply: Reply, s': State)
    requires RInv(s) && t in s.txns && StepReturn(s, t, reply) == Some(s')
    ensures RInv(s')
  {
    ReturnGoes(s, t, reply, s');
    var h := s.txns[t].req.hash;
    assert Holds(s.txns[t], h);
    if reply.Answered? || reply.ReplyLost? {
      ReleaseKeepsRInv(s, s', t, h);
    } else {
      forall k ensures Holders(s', k) == Holders(s, k) { HoldersOfOthers(s, s', t, k); }
      RefusalKeepsRInv(s, s', t, if reply.Late? then {LateRelease(h, t)} else {});
    }
  }

  /** Storing the entry of `h`: it had none, and no use of it was ever taken; nothing else may store it again. */
  ghost predicate Stores(s: State, s': State, t: TxnId, h: Hash, e: Entry) {
    && s'.cfg == s.cfg && s'.db == s.db && s'.txns.Keys == s.txns.Keys
    && s'.entries == Remembered(s.entries, h, e) && s'.inflight <= s.inflight
    && (forall u :: u in s.txns && u != t ==> s'.txns[u] == s.txns[u])
    && t in s.txns
    && (s'.txns[t] == s.txns[t]
       || (s.txns[t].pc.Remembering? && s'.txns[t] == s.txns[t].(pc := Done(s.txns[t].pc.outcome))))
    && (forall u, k :: Source(s', u, k) ==> Source(s, u, k) && u != t)
    && (forall c :: c in s'.inflight && c.LateRemember? ==> c.owner != t)
  }

  lemma {:induction false} StoresKeepsRInv(s: State, s': State, t: TxnId, h: Hash, e: Entry)
    requires RInv(s) && AllOk(s) && RotatedOnce(s) && HashesUnique(s.db)
    requires Source(s, t, h) && Stores(s, s', t, h, e)
    ensures RInv(s')
  {
    SourceRotated(s, t, h);
    assert RotatedHash(s'.db, h);
    forall k ensures Holders(s', k) == Holders(s, k) {
      assert forall u :: u in s.txns ==> (Holds(s'.txns[u], k) <==> Holds(s.txns[u], k));
    }
    forall u, k | Source(s', u, k) ensures k !in s'.entries && Holders(s', k) == {} {
      assert Source(s, u, k) && u != t;
      if k == h { OneSource(s, t, u, h); }
    }
    forall k, x, u | LateRemember(k, x, u) in s'.inflight ensures Source(s', u, k) && s'.txns[u].pc.Done?
      && s'.txns[u].pc.outcome.Rotated? {
      assert Source(s, u, k) && u != t;
    }
    forall k, u | LateRelease(k, u) in s'.inflight ensures u in s'.txns && Holds(s'.txns[u], k)
      && PastReplay(s'.txns[u].pc) {
      assert PastReplay(s.txns[u].pc);
    }
  }

  lemma {:induction false} NotYetLate(s: State, t: TxnId)
    requires SourcesOk(s) && t in s.txns && s.txns[t].pc.Remembering?
    ensures forall c :: c in s.inflight && c.LateRemember? ==> c.owner != t
  {
    forall c | c in s.inflight && c.LateRemember? ensures c.owner != t {
      assert c == LateRemember(c.hash, c.entry, c.owner);
    }
  }

  lemma {:induction false} RememberedNow(s: State, t: TxnId, reply: Reply, s': State)
    requires RInv(s) && AllOk(s) && RotatedOnce(s) && HashesUnique(s.db)
    requires t in s.txns && StepRemember(s, t, reply) == Some(s') && (reply.Answered? || reply.ReplyLost?)
    ensures RInv(s')
  {
    var x := s.txns[t];
    NotYetLate(s, t);
    assert Source(s, t, x.req.hash);
    forall u, k | Source(s', u, k) ensures Source(s, u, k) && u != t {
      if !s'.txns[u].pc.Remembering? { var e :| LateRemember(k, e, u) in s'.inflight; }
    }
    StoresKeepsRInv(s, s', t, x.req.hash, x.pc.entry);
  }

  /** What the two ways of not storing the entry now leave: nothing, or a command in flight. */
  ghost predicate Defers(s: State, s': State, t: TxnId, late: bool) {
    && t in s.txns && s.txns[t].req.Refresh? && s.txns[t].pc.Remembering?
    && s' == s.(txns := s.txns[t := s.txns[t].(pc := Done(s.txns[t].pc.outcome))],
                inflight := s.inflight + if late then {LateRemember(s.txns[t].req.hash, s.txns[t].pc.entry, t)} else {})
  }

  lemma {:induction false} DefersSources(s: State, s': State, t: TxnId, late: bool)
    requires SourcesOk(s) && Defers(s, s', t, late) && s.txns[t].pc.outcome.Rotated?
    ensures SourcesOk(s')
  {
    NotYetLate(s, t);
    assert Source(s, t, s.txns[t].req.hash);
    forall k ensures Holders(s', k) == Holders(s, k) { HoldersOfOthers(s, s', t, k); }
    forall u, k | Source(s', u, k) ensures Source(s, u, k) {
      if u != t && !s'.txns[u].pc.Remembering? {
        var e :| LateRemember(k, e, u) in s'.inflight;
        assert LateRemember(k, e, u) in s.inflight;
      }
    }
    forall k, e, u | LateRemember(k, e, u) in s'.inflight ensures Source(s', u, k) && s'.txns[u].pc.Done?
      && s'.txns[u].pc.outcome.Rotated? {
      if LateRemember(k, e, u) in s.inflight { assert Source(s, u, k) && u != t; }
    }
  }

  lemma {:induction false} DefersRest(s: State, s': State, t: TxnId, late: bool)
    requires CountsOk(s) && UnitsOk(s) && ReleasesOk(s) && KnownOk(s) && Defers(s, s', t, late)
      && s.txns[t].pc.outcome.Rotated?
    ensures CountsOk(s') && UnitsOk(s') && ReleasesOk(s') && KnownOk(s')
  {
    forall k ensures Holders(s', k) == Holders(s, k) { HoldersOfOthers(s, s', t, k); }
    forall k, u | LateRelease(k, u) in s'.inflight ensures u in s'.txns && Holds(s'.txns[u], k)
      && PastReplay(s'.txns[u].pc) {
      assert LateRelease(k, u) in s.inflight;
    }
  }

  lemma {:induction false} RememberKeepsRInv(s: State, t: TxnId, reply: Reply, s': State)
    requires RInv(s) && AllOk(s) && RotatedOnce(s) && HashesUnique(s.db) && t in s.txns
      && StepRemember(s, t, reply) == Some(s')
    ensures RInv(s')
  {
    if reply.Answered? || reply.ReplyLost? {
      RememberedNow(s, t, reply, s');
    } else {
      assert s.txns[t].pc.outcome.Rotated? by { assert TxnOk(s, t); }
      assert Defers(s, s', t, reply.Late?);
      DefersSources(s, s', t, reply.Late?);
      DefersRest(s, s', t, reply.Late?);
    }
  }

  lemma {:induction false} OneLateRemember(s: State, h: Hash, e: Entry, t: TxnId)
    requires SourcesOk(s) && LateRemember(h, e, t) in s.inflight
    ensures forall d :: d in s.inflight && d.LateRemember? && d.owner == t ==> d == LateRemember(h, e, t)
  {
    forall d | d in s.inflight && d.LateRemember? && d.owner == t ensures d == LateRemember(h, e, t) {
      assert d == LateRemember(d.hash, d.entry, t);
      assert Source(s, t, d.hash) && Source(s, t, h);
    }
  }

  lemma {:induction false} OneLateRelease(s: State, h: Hash, t: TxnId)
    requires ReleasesOk(s) && LateRelease(h, t) in s.inflight
    ensures forall d :: d in s.inflight && d.LateRelease? && d.owner == t ==> d == LateRelease(h, t)
  {
    forall d | d in s.inflight && d.LateRelease? && d.owner == t ensures d == LateRelease(h, t) {
      assert d == LateRelease(d.hash, t);
    }
  }

  lemma {:induction false} DeliveredRemember(s: State, c: Command, s': State)
    requires RInv(s) && AllOk(s) && RotatedOnce(s) && HashesUnique(s.db)
    requires c.LateRemember? && StepDeliver(s, c) == Some(s')
    ensures RInv(s')
  {
    var h, e, t := c.hash, c.entry, c.owner;
    assert c == LateRemember(h, e, t) && Source(s, t, h);
    OneLateRemember(s, h, e, t);
    forall u, k | Source(s', u, k) ensures Source(s, u, k) && u != t {
      if !s'.txns[u].pc.Remembering? {
        var x :| LateRemember(k, x, u) in s'.inflight;
        assert LateRemember(k, x, u) in s.inflight;
      }
    }
    StoresKeepsRInv(s, s', t, h, e);
  }

  /** A late claim, or an expiry: nobody holds more, and no source appears. */
  lemma {:induction false} CountsMoveKeepsRInv(s: State, s': State)
    requires RInv(s) && s'.txns == s.txns && s'.db == s.db && s'.cfg == s.cfg && CountsMove(s, s')
    requires s'.inflight <= s.inflight
    ensures RInv(s')
  {
    forall k ensures Holders(s', k) == Holders(s, k) {}
    forall u, k | Source(s', u, k) ensures Source(s, u, k) {
      if !s'.txns[u].pc.Remembering? {
        var x :| LateRemember(k, x, u) in s'.inflight;
        assert LateRemember(k, x, u) in s.inflight;
      }
    }
    forall k, x, u | LateRemember(k, x, u) in s'.inflight ensures Source(s', u, k) { assert Source(s, u, k); }
  }

  lemma {:induction false} DeliverKeepsRInv(s: State, c: Command, s': State)
    requires RInv(s) && AllOk(s) && RotatedOnce(s) && HashesUnique(s.db) && StepDeliver(s, c) == Some(s')
    ensures RInv(s')
  {
    match c
    case LateRemember(_, _, _) => DeliveredRemember(s, c, s');
    case LateClaim(h, _) =>
      ClaimedCounts(s, h);
      forall k ensures Holders(s', k) == Holders(s, k) {}
      CountsMoveKeepsRInv(s, s');
    case LateRelease(h, t) => DeliveredRelease(s, h, t, s');
  }

  lemma {:induction false} DeliveredRelease(s: State, h: Hash, t: TxnId, s': State)
    requires RInv(s) && StepDeliver(s, LateRelease(h, t)) == Some(s')
    ensures RInv(s')
  {
    assert Holds(s.txns[t], h) && PastReplay(s.txns[t].pc);
    OneLateRelease(s, h, t);
    ReleaseKeepsRInv(s, s', t, h);
  }

  // ---- runs -------------------------------------------------------------------------------------

  predicate Alone(a: Action) {
    !Outer(a) && !a.Commit? && !a.Claim? && !a.Return? && !a.Remember?
  }

  lemma {:induction false} StepIsAlone(s: State, a: Action, s': State)
    requires Alone(a) && a.t in s.txns && StepOf(s, a) == Some(s')
    ensures RedisAlone(s, s', a.t)
  {
    match a
    case ReadChild(t, now) => AloneReadChild(s, t, now, s');
    case Vet(t, dbNow, account) => AloneVet(s, t, dbNow, account, s');
    case Judge(t, dbNow) => AloneJudge(s, t, dbNow, s');
    case Budget(t, within) => AloneBudget(s, t, within, s');
    case _ =>
      if a.Find? || a.FindNone? || a.ListFamilies? || a.Refuse? { AloneLookup(s, a, s'); }
      else if a.SkipReplay? || a.Load? { AloneLoad(s, a, s'); }
      else if a.UpdateRow? { AloneUpdateRow(s, a, s'); }
      else if a.StartUpdate? || a.EndUpdate? { AloneUpdate(s, a, s'); }
      else if a.Rotate? || a.Abort? { AloneEnd(s, a, s'); }
      else { AloneLock(s, a, s'); }
  }

  lemma {:induction false} ExpireKeepsRInv(s: State, h: Hash, s': State)
    requires RInv(s) && s' == s.(entries := s.entries - {h})
    ensures RInv(s')
  {
    forall k ensures Holders(s', k) == Holders(s, k) {}
    CountsMoveKeepsRInv(s, s');
  }

  lemma {:induction false} OuterKeepsRInv(s: State, a: Action, s': State)
    requires RInv(s) && AllOk(s) && RotatedOnce(s) && HashesUnique(s.db) && Outer(a) && Step(s, a) == Some(s')
    ensures RInv(s')
  {
    match a
    case Begin(t, req) =>
      AloneBegin(s, t, req);
      RedisAloneKeeps(s, s', t);
    case Deliver(c) => DeliverKeepsRInv(s, c, s');
    case Expire(h) => ExpireKeepsRInv(s, h, s');
  }

  lemma {:induction false} CommitStepKeepsRInv(s: State, t: TxnId, cca: Option<Stamp>, s': State)
    requires AllOk(s) && RInv(s) && HashesUnique(s.db) && t in s.txns && StepCommit(s, t, cca) == Some(s')
      && TableEvolves(s.db, s'.db)
    ensures RInv(s')
  {
    var o := s.txns[t].pc.outcome;
    CommitStepAlone(s, t, cca, s');
    ReadyIsOk(s, t, o);
    CommitKeepsRInv(s, s', t, o);
  }

  lemma {:induction false} StatementKeepsRInv(s: State, a: Action, s': State)
    requires RInv(s) && AllOk(s) && RotatedOnce(s) && HashesUnique(s.db) && TableEvolves(s.db, s'.db)
    requires !Outer(a) && a.t in s.txns && StepOf(s, a) == Some(s')
    ensures RInv(s')
  {
    if Alone(a) { StepIsAlone(s, a, s'); RedisAloneKeeps(s, s', a.t); }
    else if a.Commit? { CommitStepKeepsRInv(s, a.t, a.cca, s'); }
    else { RedisStatementKeepsRInv(s, a, s'); }
  }

  lemma {:induction false} RedisStatementKeepsRInv(s: State, a: Action, s': State)
    requires RInv(s) && AllOk(s) && RotatedOnce(s) && HashesUnique(s.db)
    requires (a.Claim? || a.Return? || a.Remember?) && a.t in s.txns && StepOf(s, a) == Some(s')
    ensures RInv(s')
  {
    if a.Claim? { ClaimKeepsRInv(s, a.t, a.reply, s'); }
    else if a.Return? { ReturnKeepsRInv(s, a.t, a.reply, s'); }
    else { RememberKeepsRInv(s, a.t, a.reply, s'); }
  }

  lemma {:induction false} StepKeepsRInv(s: State, a: Action, s': State)
    requires Inv(s) && RInv(s) && Step(s, a) == Some(s')
    ensures RInv(s')
  {
    StepKeepsInv(s, a, s');
    if Outer(a) { OuterKeepsRInv(s, a, s'); }
    else { StepIsOf(s, a, s'); StatementKeepsRInv(s, a, s'); }
  }

  lemma {:induction false} RunKeepsRInv(s: State, actions: seq<Action>, s': State)
    requires Inv(s) && RInv(s) && Run(s, actions) == Some(s')
    ensures RInv(s')
    decreases |actions|
  {
    if actions != [] {
      var next := Step(s, actions[0]).value;
      StepKeepsInv(s, actions[0], next);
      StepKeepsRInv(s, actions[0], next);
      RunKeepsRInv(next, actions[1..], s');
    }
  }

  lemma {:induction false} InitialRInv(s: State)
    requires Initial(s)
    ensures RInv(s)
  {
    forall h ensures Holders(s, h) == {} {}
  }

  /** The successful replays of the token hashed `h`. */
  ghost function Replays(s: State, h: Hash): set<TxnId> {
    set t | t in s.txns && s.txns[t].req.Refresh? && s.txns[t].req.hash == h && s.txns[t].pc.Done?
      && s.txns[t].pc.outcome.Replayed?
  }

  lemma {:induction false} SubsetSize(a: set<TxnId>, b: set<TxnId>)
    requires a <= b
    ensures |a| <= |b|
  {
    if a != b {
      assert b == a + (b - a) && a !! (b - a);
    }
  }

  /** No rotated token is ever replayed more often than the configured maximum, whatever Redis calls
      time out, take effect late or are given back, and however often entries expire. */
  lemma {:induction false} ReplaysAreCapped(s: State, h: Hash)
    requires Reachable(s)
    ensures |Replays(s, h)| <= s.cfg.maxUses
  {
    var s0, actions :| Initial(s0) && Run(s0, actions) == Some(s);
    InitialInv(s0);
    InitialRInv(s0);
    RunKeepsRInv(s0, actions, s);
    SubsetSize(Replays(s, h), Holders(s, h));
  }
}
