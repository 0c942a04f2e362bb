/**
 The one way a replay hands out a dead token, as a concrete run.

 A mass revocation lists the user's families before a login opens a new one. The new family
 is therefore not locked; while a replay of it runs under the family's lock, the UPDATE of
 the mass revocation - which goes by user, not by family - revokes the replacement. The
 replay then commits and returns it. `RefreshHistory.ReplayIsLiveExactly` says that this is
 the only way.
 */
module BlindRevocation {
  import opened Options
  import opened TokenFamilies
  import opened RefreshProtocol
  import opened RefreshTheorems

  ghost const CFG := Settings(10, 60, 3, (f: FamilyId) => f as int)
  const FIRST := Row(7, 5, 1000, 0, 500, false, None)
  const SPENT := Row(7, 5, 1000, 0, 500, true, Some(101))
  const SECOND := Row(7, 5, 1001, 1, 500, false, None)
  const ENTRY := Entry(1001, 101, 1, 1, None)
  const CLIENT := Refresh(1000, Some(1), Some(1), true)
  const LISTED := Txn(RevokeAll(7), Locked({}), map[], false)

  lemma {:induction false} OneMore(s: State, a: Action, s': State)
    requires Reachable(s) && Step(s, a) == Some(s')
    ensures Reachable(s')
  {
    var s0, actions :| Initial(s0) && Run(s0, actions) == Some(s);
    RunExtends(s0, actions, s, a, s');
  }

  lemma {:induction false} RunExtends(s0: State, actions: seq<Action>, s: State, a: Action, s': State)
    requires Run(s0, actions) == Some(s) && Step(s, a) == Some(s')
    ensures Run(s0, actions + [a]) == Some(s')
    decreases |actions|
  {
    if actions == [] {
      assert actions + [a] == [a];
      assert Run(s', []) == Some(s');
    } else {
      var next := Step(s0, actions[0]).value;
      RunExtends(next, actions[1..], s, a, s');
      assert (actions + [a])[1..] == actions[1..] + [a];
    }
  }

  lemma {:induction false} BeginMore(s: State, t: TxnId, req: Request, s': State)
    requires Reachable(s) && t !in s.txns && s' == s.(txns := s.txns[t := Txn(req, Start, map[], false)])
    ensures Reachable(s')
  {
    OneMore(s, Begin(t, req), s');
  }

  lemma {:induction false} More(s: State, a: Action, s': State)
    requires Reachable(s) && !a.Begin? && !a.Deliver? && !a.Expire? && a.t in s.txns && StepOf(s, a) == Some(s')
    ensures Reachable(s')
  {
    OneMore(s, a, s');
  }

  function PcAfter(o: Outcome, entry: Option<Entry>): Pc {
    if entry.Some? then Remembering(o, entry.value) else Done(o)
  }

  lemma {:induction false} CommitMore(s: State, t: TxnId) returns (s': State)
    requires Reachable(s) && t in s.txns && s.txns[t].pc.Ready?
    ensures Reachable(s') && (!s.txns[t].req.RevokeAll? ==> s'.blind == s.blind)
    ensures t in s'.txns && s'.txns[t].req == s.txns[t].req && s'.txns[t].unit == s.txns[t].unit
    ensures s'.txns[t].pc == PcAfter(s.txns[t].pc.outcome, EntryFor(s, s.txns[t], s.txns[t].writes, None))
    ensures s'.cfg == s.cfg && s'.db == s.db + s.txns[t].writes && s'.entries == s.entries
    ensures s'.locks == Without(s.locks, t) && s'.rowLocks == Without(s.rowLocks, t)
    ensures s'.txns == s.txns[t := s'.txns[t]] && s'.txns[t].writes == map[]
  {
    s' := StepCommit(s, t, None).value;
    More(s, Commit(t, None), s');
  }

  lemma {:induction false} FetchMore(s: State, t: TxnId, id: TokenId, s': State)
    requires Reachable(s) && t in s.txns && StepFetch(s, t, id) == Some(s')
    ensures Reachable(s')
  {
    More(s, Fetch(t, id), s');
  }

  // ---- the run ----------------------------------------------------------------------------------

  /** What the run needs to know of a state: its rows, its locks, and that Redis has nothing pending. */
  ghost predicate Quiet(s: State, db: Table) {
    && Reachable(s) && s.cfg == CFG && s.db == db && s.locks == map[] && s.rowLocks == map[] && s.blind == {}
       && s.entries == map[]
    && 1 in s.txns && s.txns[1] == LISTED && 3 !in s.txns && 4 !in s.txns
  }

  /** The mass revocation lists no family. */
  lemma {:induction false} ListNothing() returns (s: State)
    ensures Quiet(s, map[]) && s.txns == map[1 := LISTED]
  {
    var s0 := State(CFG, map[], map[], map[], map[], map[], {}, {});
    assert Run(s0, []) == Some(s0);
    var s1 := s0.(txns := s0.txns[1 := Txn(RevokeAll(7), Start, map[], false)]);
    BeginMore(s0, 1, RevokeAll(7), s1);
    assert LiveFamilies(s1.db, 7) == {};
    s := At(s1, 1, Locked({}));
    More(s1, ListFamilies(1, []), s);
  }

  /** Then a login opens family 5. */
  lemma {:induction false} LoginAfterwards() returns (s: State)
    ensures Quiet(s, map[100 := FIRST]) && s.txns.Keys == {1, 2} && s.txns[2].writes == map[]
  {
    var s2 := ListNothing();
    var s3 := s2.(txns := s2.txns[2 := Txn(Login(7), Start, map[], false)]);
    BeginMore(s2, 2, Login(7), s3);
    var s4 := s3.(txns := s3.txns[2 := Txn(Login(7), Ready(LoggedIn(100)), map[100 := FIRST], false)]);
    More(s3, Open(2, 100, FIRST), s4);
    s := LoginCommitted(s4);
  }

  lemma {:induction false} LoginCommitted(s4: State) returns (s: State)
    requires Quiet(s4, map[]) && s4.txns.Keys == {1, 2}
    requires s4.txns[2] == Txn(Login(7), Ready(LoggedIn(100)), map[100 := FIRST], false)
    ensures Quiet(s, map[100 := FIRST]) && s.txns.Keys == {1, 2} && s.txns[2].writes == map[]
  {
    s := CommitMore(s4, 2);
    assert s.db == map[100 := FIRST];
    assert s.locks == map[] && s.rowLocks == map[];
  }

  /** The client presents its first token: it is found, its family locked, and the row read. */
  lemma {:induction false} Presented(s: State, t: TxnId, row: Row) returns (s': State)
    requires Reachable(s) && s.cfg == CFG && s.locks == map[] && s.rowLocks == map[] && t !in s.txns
    requires 100 in s.db && s.db[100] == row && row.hash == 1000 && row.family == 5
    ensures Reachable(s') && s' == s.(locks := map[5 := t], rowLocks := map[100 := t], txns := s'.txns)
    ensures s'.txns == s.txns[t := Txn(CLIENT, Fetched(100, row), map[], false)]
  {
    var s1 := s.(txns := s.txns[t := Txn(CLIENT, Start, map[], false)]);
    BeginMore(s, t, CLIENT, s1);
    var s2 := At(s1, t, Locking({5}, [5]));
    More(s1, Find(t, 100), s2);
    s' := PresentedLocked(s, s2, t, row);
  }

  lemma {:induction false} PresentedLocked(s: State, s2: State, t: TxnId, row: Row) returns (s': State)
    requires s.cfg == CFG && s.locks == map[] && s.rowLocks == map[]
    requires 100 in s.db && s.db[100] == row && row.hash == 1000 && row.family == 5
    requires Reachable(s2) && s2 == s.(txns := s2.txns)
      && s2.txns == s.txns[t := Txn(CLIENT, Locking({5}, [5]), map[], false)]
    ensures Reachable(s') && s' == s.(locks := map[5 := t], rowLocks := map[100 := t], txns := s'.txns)
    ensures s'.txns == s.txns[t := Txn(CLIENT, Fetched(100, row), map[], false)]
  {
    var s3 := At(s2.(locks := s2.locks[5 := t]), t, Locked({5}));
    More(s2, Acquire(t), s3);
    s' := At(s3.(rowLocks := s3.rowLocks[100 := t]), t, Fetched(100, row));
    FetchMore(s3, t, 100, s');
  }

  /** It rotates the token and leaves an entry for a replay. */
  lemma {:induction false} RotatedOnce() returns (s: State)
    ensures Reachable(s) && s.cfg == CFG && s.db == map[100 := SPENT, 101 := SECOND] && s.locks == map[]
      && s.rowLocks == map[] && s.blind == {}
    ensures 1 in s.txns && s.txns[1] == LISTED && 4 !in s.txns && s.entries == map[1000 := Stored(ENTRY, 0)]
  {
    var s5 := LoginAfterwards();
    var s6 := Presented(s5, 3, FIRST);
    var rotate := Rotate(3, 1, Some(Account(true, None)), 101, 1001, 1, 500);
    var s7 := StepRotate(s6, 3, 1, Some(Account(true, None)), 101, 1001, 1, 500).value;
    More(s6, rotate, s7);
    s := EntryStored(s7);
  }

  lemma {:induction false} EntryStored(s7: State) returns (s: State)
    requires Reachable(s7) && s7.cfg == CFG && s7.db == map[100 := FIRST] && s7.locks == map[5 := 3]
      && s7.rowLocks == map[100 := 3]
    requires 1 in s7.txns && s7.txns[1] == LISTED && 4 !in s7.txns && s7.blind == {} && s7.entries == map[]
    requires 3 in s7.txns
      && s7.txns[3] == Txn(CLIENT, Ready(Rotated(100, 101)), map[100 := SPENT, 101 := SECOND], false)
    ensures Reachable(s) && s.cfg == CFG && s.db == map[100 := SPENT, 101 := SECOND] && s.locks == map[]
      && s.rowLocks == map[] && s.blind == {}
    ensures 1 in s.txns && s.txns[1] == LISTED && 4 !in s.txns && s.entries == map[1000 := Stored(ENTRY, 0)]
  {
    var s8 := CommitMore(s7, 3);
    assert EntryFor(s7, s7.txns[3], s7.txns[3].writes, None) == Some(ENTRY);
    assert s8.db == map[100 := SPENT, 101 := SECOND];
    assert s8.locks == map[] && s8.rowLocks == map[];
    s := RememberMore(s8, 3, ENTRY);
  }

  lemma {:induction false} RememberMore(s8: State, t: TxnId, e: Entry) returns (s: State)
    requires Reachable(s8) && t in s8.txns && s8.txns[t].req == CLIENT
      && s8.txns[t].pc == Remembering(Rotated(100, 101), e)
    ensures Reachable(s)
      && s == s8.(txns := s8.txns[t := s8.txns[t].(pc := Done(Rotated(100, 101)))],
         entries := s8.entries[1000 := Stored(e, 0)])
  {
    s := StepRemember(s8, t, Answered).value;
    More(s8, Remember(t, Answered), s);
  }

  /** While the spent token is presented again, and the checks on its replacement pass ... */
  ghost predicate AboutToReplay(s: State) {
    && Reachable(s) && s.cfg == CFG && s.db == map[100 := SPENT, 101 := SECOND] && s.blind == {}
    && s.locks == map[5 := 4] && s.rowLocks == map[100 := 4] && s.entries == map[1000 := Stored(ENTRY, 0)]
    && 1 in s.txns && s.txns[1] == LISTED
    && 4 in s.txns && s.txns[4] == Txn(CLIENT, Cleared(100, SPENT, ENTRY, SECOND), map[], false)
  }

  lemma {:induction false} ReplayCleared() returns (s: State)
    ensures AboutToReplay(s)
  {
    var s9 := RotatedOnce();
    var s10 := Presented(s9, 4, SPENT);
    var s11 := At(s10, 4, Loaded(100, SPENT, ENTRY));
    More(s10, Load(4, true, Answered), s11);
    s := ReplayVetted(s11);
  }

  lemma {:induction false} ReplayVetted(s11: State) returns (s: State)
    requires Reachable(s11) && s11.cfg == CFG && s11.db == map[100 := SPENT, 101 := SECOND] && s11.blind == {}
    requires s11.locks == map[5 := 4] && s11.rowLocks == map[100 := 4] && s11.entries == map[1000 := Stored(ENTRY, 0)]
    requires 1 in s11.txns && s11.txns[1] == LISTED
    requires 4 in s11.txns && s11.txns[4] == Txn(CLIENT, Loaded(100, SPENT, ENTRY), map[], false)
    ensures AboutToReplay(s)
  {
    var s12 := At(s11, 4, Vetting(100, SPENT, ENTRY, SECOND));
    More(s11, ReadChild(4, 2), s12);
    var account := Some(Account(true, None));
    s := At(s12, 4, Cleared(100, SPENT, ENTRY, SECOND));
    More(s12, Vet(4, 2, account), s);
  }

  /** ... the mass revocation reaches its UPDATE, and commits. */
  lemma {:induction false} RevokedMeanwhile(s13: State) returns (s: State)
    requires AboutToReplay(s13)
    ensures Reachable(s) && s.cfg == CFG && s.db == map[100 := SPENT, 101 := Revoked(SECOND)]
    ensures s.entries == s13.entries && 4 in s.txns && s.txns[4] == s13.txns[4]
  {
    var s14 := At(s13, 1, Updating({}, false, {}));
    FetchMore(s13, 1, 0, s14);
    var s15 := At(s14, 1, Updating({}, true, {101}));
    UpdateStarted(s14, s15);
    s := UpdateFinished(s13, s15);
  }

  lemma {:induction false} UpdateStarted(s14: State, s15: State)
    requires Reachable(s14) && s14.db == map[100 := SPENT, 101 := SECOND]
    requires 1 in s14.txns && s14.txns[1].req == RevokeAll(7) && s14.txns[1].pc == Updating({}, false, {})
    requires s15 == At(s14, 1, Updating({}, true, {101}))
    ensures Reachable(s15)
  {
    assert StepStartUpdate(s14, 1).value.txns[1].pc.targets == {101};
    More(s14, StartUpdate(1), s15);
  }

  lemma {:induction false} UpdateFinished(s13: State, s15: State) returns (s: State)
    requires AboutToReplay(s13) && Reachable(s15) && s15 == s13.(txns := s15.txns) && s15.txns.Keys == s13.txns.Keys
    requires s15.txns[1] == Txn(RevokeAll(7), Updating({}, true, {101}), map[], false) && s15.txns[4] == s13.txns[4]
    ensures Reachable(s) && s.cfg == CFG && s.db == map[100 := SPENT, 101 := Revoked(SECOND)]
    ensures s.entries == s13.entries && 4 in s.txns && s.txns[4] == s13.txns[4]
  {
    var s16 := RowUpdated(s15);
    s := UpdateCommitted(s16);
  }

  lemma {:induction false} RowUpdated(s15: State) returns (s16: State)
    requires Reachable(s15) && s15.db == map[100 := SPENT, 101 := SECOND] && s15.rowLocks == map[100 := 4]
      && 1 in s15.txns
    requires s15.txns[1] == Txn(RevokeAll(7), Updating({}, true, {101}), map[], false)
    ensures Reachable(s16) && s16.cfg == s15.cfg && s16.db == s15.db && s16.entries == s15.entries
    ensures s16.txns == s15.txns[1 := Txn(RevokeAll(7), Updating({}, true, {}), map[101 := Revoked(SECOND)], false)]
  {
    s16 := StepUpdateRow(s15, 1, 101).value;
    More(s15, UpdateRow(1, 101), s16);
    assert s15.txns[1].pc.targets - {101} == {};
  }

  lemma {:induction false} UpdateCommitted(s16: State) returns (s: State)
    requires Reachable(s16) && s16.cfg == CFG && s16.db == map[100 := SPENT, 101 := SECOND] && 1 in s16.txns
      && 4 in s16.txns
    requires s16.txns[1] == Txn(RevokeAll(7), Updating({}, true, {}), map[101 := Revoked(SECOND)], false)
    ensures Reachable(s) && s.cfg == CFG && s.db == map[100 := SPENT, 101 := Revoked(SECOND)]
    ensures s.entries == s16.entries && 4 in s.txns && s.txns[4] == s16.txns[4]
  {
    hide Reachable, EntryFor;
    var s17 := UpdateEnded(s16);
    s := CommitMore(s17, 1);
    assert s.db == map[100 := SPENT, 101 := Revoked(SECOND)];
  }

  lemma {:induction false} UpdateEnded(s16: State) returns (s17: State)
    requires Reachable(s16) && 1 in s16.txns && s16.txns[1].pc == Updating({}, true, {})
    ensures Reachable(s17) && s17 == At(s16, 1, Ready(Killed({})))
  {
    s17 := At(s16, 1, Ready(Killed({})));
    More(s16, EndUpdate(1), s17);
  }

  /** A replay can return a token that is already revoked when it commits. */
  lemma {:induction false} ReplayCanReturnARevokedToken()
      returns (s: State, t: TxnId, s': State, id: TokenId, child: TokenId, token: Hash)
    ensures Reachable(s) && Step(s, Commit(t, None)) == Some(s') && t in s.txns
      && s.txns[t].pc == Ready(Replayed(id, child, token))
    ensures child in s'.db && s'.db[child].hash == token && s'.db[child].revoked
  {
    var s13 := ReplayCleared();
    var s18 := RevokedMeanwhile(s13);
    s := BudgetTaken(s18);
    t, id, child, token := 4, 100, 101, 1001;
    hide Reachable, AboutToReplay;
    s' := Returned(s);
  }

  lemma {:induction false} Returned(s: State) returns (s': State)
    requires 4 in s.txns && s.txns[4] == Txn(CLIENT, Ready(Replayed(100, 101, 1001)), map[], true)
    ensures Step(s, Commit(4, None)) == Some(s') && s'.db == s.db
  {
    s' := StepCommit(s, 4, None).value;
    assert s.db + map[] == s.db;
  }

  lemma {:induction false} BudgetTaken(s18: State) returns (s: State)
    requires Reachable(s18) && s18.cfg == CFG && s18.entries == map[1000 := Stored(ENTRY, 0)]
    requires 4 in s18.txns && s18.txns[4] == Txn(CLIENT, Cleared(100, SPENT, ENTRY, SECOND), map[], false)
    ensures Reachable(s) && s.db == s18.db && 4 in s.txns
      && s.txns[4] == Txn(CLIENT, Ready(Replayed(100, 101, 1001)), map[], true)
  {
    var s19 := StepClaim(s18, 4, Answered).value;
    More(s18, Claim(4, Answered), s19);
    s := At(s19, 4, Ready(Replayed(100, 101, 1001)));
    More(s19, Budget(4, Some(true)), s);
  }
}
