/**
 What a refresh hands out, and what a mass revocation leaves behind.
 */
module RefreshOutcomes {
  import opened Options
  import opened TokenFamilies
  import opened RefreshProtocol
  import opened RefreshInvariant
  import opened RefreshSteps
  import opened RefreshWrites
  import opened RefreshTheorems

  /** `last` ends the chain of its family: it was never rotated, and every other token is revoked. */
  ghost predicate EndsItsFamily(db: Table, last: TokenId) {
    && last in db && db[last].replacedBy == None
    && forall r :: r in db && db[r].family == db[last].family && r != last ==> db[r].revoked
  }

  lemma {:induction false} UnrotatedEndsItsFamily(db: Table, last: TokenId)
    requires Chained(db) && last in db && db[last].replacedBy == None
    ensures EndsItsFamily(db, last)
  {
    forall r | r in db && db[r].family == db[last].family && r != last ensures db[r].revoked {
      ChainConsequences(db, last, r);
      ChainConsequences(db, r, r);
    }
  }

  lemma {:induction false} RotationCommitted(s: State, s': State, t: TxnId, id: TokenId, newId: TokenId)
    requires Commits(s, s', t, Rotated(id, newId)) && RotatingOk(s, t, s.txns[t], id, newId)
    ensures Presents(s.txns[t].req, s.db[id]) && Live(s.db[id]) && Rotation(s.db, s'.db, id, newId)
  {
    assert s'.db.Keys == s.db.Keys + {newId};
  }

  lemma {:induction false} CommitStep(s: State, t: TxnId, cca: Option<Stamp>, s': State)
    requires Step(s, Commit(t, cca)) == Some(s')
    ensures t in s.txns && s.txns[t].pc.Ready? && Commits(s, s', t, s.txns[t].pc.outcome)
  {
    CommitShape(s, s', t, cca);
  }

  lemma {:induction false} CommitInv(s: State, t: TxnId, cca: Option<Stamp>, s': State)
    requires Reachable(s) && Step(s, Commit(t, cca)) == Some(s')
    ensures Inv(s) && Inv(s')
  {
    ReachableInv(s);
    StepKeepsInv(s, Commit(t, cca), s');
  }

  /** A committed rotation replaces the presented live token by exactly one new row, and that row is
      the one unrevoked token of the family. */
  lemma {:induction false} RotationIssuesTheLiveToken(s: State, t: TxnId, cca: Option<Stamp>, s': State, id: TokenId,
                                                      newId: TokenId)
    requires Reachable(s) && Step(s, Commit(t, cca)) == Some(s') && t in s.txns
      && s.txns[t].pc == Ready(Rotated(id, newId))
    ensures id in s.db && Presents(s.txns[t].req, s.db[id]) && Rotation(s.db, s'.db, id, newId)
    ensures Live(s'.db[newId]) && EndsItsFamily(s'.db, newId)
  {
    CommitInv(s, t, cca, s');
    CommitStep(s, t, cca, s');
    ReadyIsOk(s, t, Rotated(id, newId));
    RotationCommitted(s, s', t, id, newId);
    UnrotatedEndsItsFamily(s'.db, newId);
  }

  lemma {:induction false} ReplayCommitted(s: State, s': State, t: TxnId, id: TokenId, child: TokenId, token: Hash)
    requires Commits(s, s', t, Replayed(id, child, token)) && ReadyOk(s, t, s.txns[t], Replayed(id, child, token))
    ensures s'.db == s.db && id in s.db && Presents(s.txns[t].req, s.db[id]) && ReplacementOk(s, s.db[id], child, token)
  {}

  /** A committed replay changes no row and returns the token of the family's last row, the only one
      that can be unrevoked. It is unrevoked exactly when no mass revocation that had not listed the
      family has revoked it; `RefreshHistory.ReplayIsLiveExactly` says in which schedules that is. */
  lemma {:induction false} ReplayReturnsTheLastToken(s: State, t: TxnId, cca: Option<Stamp>, s': State, id: TokenId,
                                                     child: TokenId, token: Hash)
    requires Reachable(s) && Step(s, Commit(t, cca)) == Some(s') && t in s.txns
      && s.txns[t].pc == Ready(Replayed(id, child, token))
    ensures s'.db == s.db && id in s.db && Presents(s.txns[t].req, s.db[id]) && s.db[id].replacedBy == Some(child)
    ensures EndsItsFamily(s.db, child) && s.db[child].family == s.db[id].family && s.db[child].hash == token
    ensures Live(s'.db[child]) <==> child !in s.blind
  {
    CommitInv(s, t, cca, s');
    CommitStep(s, t, cca, s');
    ReadyIsOk(s, t, Replayed(id, child, token));
    ReplayCommitted(s, s', t, id, child, token);
    UnrotatedEndsItsFamily(s.db, child);
  }

  /** The only step that adds to `blind`: committing a mass revocation that wrote a token whose family
      was not among those it had listed and locked. */
  lemma {:induction false} BlindOnlyWhenUnlisted(s: State, a: Action, s': State, id: TokenId)
    requires Step(s, a) == Some(s') && id in s'.blind && id !in s.blind
    ensures a.Commit? && a.t in s.txns && s.txns[a.t].req.RevokeAll? && s.txns[a.t].pc.Ready?
      && s.txns[a.t].pc.outcome.Killed?
    ensures id in s.txns[a.t].writes && s.txns[a.t].writes[id].family !in s.txns[a.t].pc.outcome.families
  {
    if a.Commit? { CommitShape(s, s', a.t, a.cca); } else { TableStaysUnlessCommit(s, a, s'); }
  }

  // ---- mass revocation --------------------------------------------------------------------------

  /** A mass revocation that listed `families` is still working on them, gave up, or has killed them all. */
  ghost predicate Revoking(s: State, t: TxnId, families: set<FamilyId>) {
    && t in s.txns && s.txns[t].req.RevokeAll?
    && match s.txns[t].pc
       case Locking(fs, _) => fs == families
       case Locked(fs) => fs == families
       case Updating(fs, _, _) => fs == families
       case Ready(o) => o == Killed(families)
       case Done(o) => o == Aborted || (o == Killed(families) && forall f :: f in families ==> Dead(s.db, f))
       case _ => false
  }

  lemma {:induction false} RevokingOwnStep(s: State, a: Action, s': State, families: set<FamilyId>)
    requires a.Acquire? || a.Fetch? || a.StartUpdate? || a.UpdateRow? || a.EndUpdate? || a.Abort?
    requires a.t in s.txns && StepOf(s, a) == Some(s') && Revoking(s, a.t, families)
    ensures Revoking(s', a.t, families)
  {}

  /** The statements of a refresh or a login are not open to it. */
  lemma {:induction false} RevokingOnly(s: State, a: Action, s': State, families: set<FamilyId>)
    requires !Outer(a) && a.t in s.txns && TxnOk(s, a.t) && StepOf(s, a) == Some(s') && Revoking(s, a.t, families)
    ensures a.Acquire? || a.Fetch? || a.StartUpdate? || a.UpdateRow? || a.EndUpdate? || a.Abort? || a.Commit?
  {}

  lemma {:induction false} RevokingCommit(s: State, t: TxnId, cca: Option<Stamp>, s': State, families: set<FamilyId>)
    requires AllOk(s) && t in s.txns && StepCommit(s, t, cca) == Some(s') && Revoking(s, t, families)
    ensures Revoking(s', t, families)
  {
    CommitShape(s, s', t, cca);
    ReadyIsOk(s, t, Killed(families));
    forall f | f in families ensures Dead(s'.db, f) { RevocationKills(s, s', t, families, f); }
  }

  lemma {:induction false} RevokingStep(s: State, a: Action, s': State, t: TxnId, families: set<FamilyId>)
    requires Inv(s) && Step(s, a) == Some(s') && Revoking(s, t, families)
    ensures Revoking(s', t, families)
  {
    if a.Deliver? || a.Expire? || a.t != t {
      OthersStand(s, a, s', t);
      forall f | f in families && s.txns[t].pc == Done(Killed(families)) ensures Dead(s'.db, f) {
        DeadStays(s, a, s', f);
      }
    } else if !a.Begin? {
      StepIsOf(s, a, s');
      RevokingOwn(s, a, s', families);
    }
  }

  lemma {:induction false} RevokingOwn(s: State, a: Action, s': State, families: set<FamilyId>)
    requires AllOk(s) && !Outer(a) && a.t in s.txns && StepOf(s, a) == Some(s') && Revoking(s, a.t, families)
    ensures Revoking(s', a.t, families)
  {
    assert TxnOk(s, a.t);
    RevokingOnly(s, a, s', families);
    if a.Commit? { RevokingCommit(s, a.t, a.cca, s', families); } else { RevokingOwnStep(s, a, s', families); }
  }

  lemma {:induction false} RevokingRun(s: State, actions: seq<Action>, s': State, t: TxnId, families: set<FamilyId>)
    requires Inv(s) && Run(s, actions) == Some(s') && Revoking(s, t, families)
    ensures Revoking(s', t, families)
    decreases |actions|
  {
    if actions != [] {
      var next := Step(s, actions[0]).value;
      StepKeepsInv(s, actions[0], next);
      RevokingStep(s, actions[0], next, t, families);
      RevokingRun(next, actions[1..], s', t, families);
    }
  }

  lemma {:induction false} ListingGoes(s: State, t: TxnId, todo: seq<Key>, s': State)
    requires t in s.txns && StepList(s, t, todo) == Some(s')
    ensures s.txns[t].req.RevokeAll? && Revoking(s', t, LiveFamilies(s.db, s.txns[t].req.user))
  {}

  lemma {:induction false} ListingStarts(s: State, t: TxnId, todo: seq<Key>, s': State)
    requires Step(s, ListFamilies(t, todo)) == Some(s')
    ensures t in s.txns && s.txns[t].req.RevokeAll? && Revoking(s', t, LiveFamilies(s.db, s.txns[t].req.user))
  {
    StepIsOf(s, ListFamilies(t, todo), s');
    ListingGoes(s, t, todo, s');
  }

  /** Whatever ran in between, once a mass revocation has committed, every family that was live when it
      listed the user's families has no live token left, now and after any further run. */
  lemma {:induction false} MassRevocationLeavesNothingLive(s: State, t: TxnId, todo: seq<Key>, listed: State,
                                                           actions: seq<Action>, s': State)
    requires Reachable(s) && Step(s, ListFamilies(t, todo)) == Some(listed) && Run(listed, actions) == Some(s')
    ensures t in s.txns && s.txns[t].req.RevokeAll? && t in s'.txns
    ensures s'.txns[t].pc.Done? && s'.txns[t].pc.outcome != Aborted ==>
      forall f :: f in LiveFamilies(s.db, s.txns[t].req.user) ==> Dead(s'.db, f)
  {
    ReachableInv(s);
    StepKeepsInv(s, ListFamilies(t, todo), listed);
    ListingStarts(s, t, todo, listed);
    RevokingRun(listed, actions, s', t, LiveFamilies(s.db, s.txns[t].req.user));
  }
}
