/**
 The line between a duplicate and reuse, over whole runs.

 A spent token that is not replayed is judged once, on the database clock. If its replacement
 is unused, unrevoked and within the grace period, the presentation can only end in the benign
 conflict; otherwise it can only end with the whole family dead, or not commit at all.
 */
module RefreshJudgement {
  import opened Options
  import opened TokenFamilies
  import opened RefreshProtocol
  import opened RefreshInvariant
  import opened RefreshSteps
  import opened RefreshWrites
  import opened RefreshTheorems

  /** Where the presentation of token `id` of family `f` can be once it has been judged. */
  ghost predicate Judged(s: State, t: TxnId, id: TokenId, f: FamilyId, benign: bool) {
    && t in s.txns && s.txns[t].req.Refresh?
    && match s.txns[t].pc
       case Updating(families, _, _) => !benign && families == {f}
       case Ready(o) => o == if benign then Conflict(id) else Killed({f})
       case Done(o) => o == Aborted || (if benign then o == Conflict(id) else o == Killed({f}) && Dead(s.db, f))
       case _ => false
  }

  lemma {:induction false} OwnMoves(s: State, a: Action, s': State, id: TokenId, f: FamilyId, benign: bool)
    requires a.StartUpdate? || a.UpdateRow? || a.EndUpdate? || a.Abort?
    requires a.t in s.txns && StepOf(s, a) == Some(s') && Judged(s, a.t, id, f, benign)
    ensures Judged(s', a.t, id, f, benign)
  {}

  lemma {:induction false} OwnMovesOnly(s: State, a: Action, s': State, id: TokenId, f: FamilyId, benign: bool)
    requires !Outer(a) && a.t in s.txns && TxnOk(s, a.t) && StepOf(s, a) == Some(s') && Judged(s, a.t, id, f, benign)
    ensures a.StartUpdate? || a.UpdateRow? || a.EndUpdate? || a.Abort? || a.Commit?
  {}

  lemma {:induction false} OwnCommit(s: State, t: TxnId, cca: Option<Stamp>, s': State, id: TokenId, f: FamilyId,
                                     benign: bool)
    requires AllOk(s) && t in s.txns && StepCommit(s, t, cca) == Some(s') && Judged(s, t, id, f, benign)
    ensures Judged(s', t, id, f, benign)
  {
    hide TxnOk;
    CommitShape(s, s', t, cca);
    if !benign {
      ReadyIsOk(s, t, Killed({f}));
      RevocationKills(s, s', t, {f}, f);
    }
  }

  lemma {:induction false} JudgedOwn(s: State, a: Action, s': State, id: TokenId, f: FamilyId, benign: bool)
    requires AllOk(s) && !Outer(a) && a.t in s.txns && StepOf(s, a) == Some(s') && Judged(s, a.t, id, f, benign)
    ensures Judged(s', a.t, id, f, benign)
  {
    hide TxnOk;
    assert TxnOk(s, a.t);
    OwnMovesOnly(s, a, s', id, f, benign);
    if a.Commit? { OwnCommit(s, a.t, a.cca, s', id, f, benign); } else { OwnMoves(s, a, s', id, f, benign); }
  }

  lemma {:induction false} JudgedStep(s: State, a: Action, s': State, t: TxnId, id: TokenId, f: FamilyId, benign: bool)
    requires Inv(s) && Step(s, a) == Some(s') && Judged(s, t, id, f, benign)
    ensures Judged(s', t, id, f, benign)
  {
    hide TxnOk, StepOf, TableOk, Apart, Owned, RefreshInvariant.RotatedOnce;
    if a.Deliver? || a.Expire? || a.t != t {
      OthersStand(s, a, s', t);
      if s.txns[t].pc == Done(Killed({f})) && Dead(s.db, f) { DeadStays(s, a, s', f); }
    } else if !a.Begin? {
      StepIsOf(s, a, s');
      JudgedOwn(s, a, s', id, f, benign);
    }
  }

  lemma {:induction false} JudgedRun(s: State, actions: seq<Action>, s': State, t: TxnId, id: TokenId, f: FamilyId,
                                     benign: bool)
    requires Inv(s) && Run(s, actions) == Some(s') && Judged(s, t, id, f, benign)
    ensures Judged(s', t, id, f, benign)
    decreases |actions|
  {
    hide Inv, Step, Judged;
    if actions != [] {
      var next := Step(s, actions[0]).value;
      StepKeepsInv(s, actions[0], next);
      JudgedStep(s, actions[0], next, t, id, f, benign);
      JudgedRun(next, actions[1..], s', t, id, f, benign);
    }
  }

  /** A judgement, in the columns of the replacement: as the session read it during the replay, else as it is now. */
  lemma {:induction false} JudgesByColumns(s: State, t: TxnId, dbNow: Time, s': State, child: Option<Row>, benign: bool)
    requires t in s.txns && TxnOk(s, t) && StepJudge(s, t, dbNow) == Some(s')
    requires s.txns[t].pc.Checking? ==>
      child == if s.txns[t].pc.seen.Some? then s.txns[t].pc.seen
               else if s.txns[t].pc.row.replacedBy.Some? && s.txns[t].pc.row.replacedBy.value in s.db
               then Some(s.db[s.txns[t].pc.row.replacedBy.value]) else None
    requires benign <==>
      child.Some? && !child.value.revoked && child.value.replacedBy.None?
      && dbNow <= child.value.created + s.cfg.grace
    ensures s.txns[t].pc.Checking? && Judged(s', t, s.txns[t].pc.id, s.txns[t].pc.row.family, benign)
  {}

  /** The replacement a session read is the row still there, possibly revoked or used since. */
  lemma {:induction false} SeenIsTheReplacement(s: State, t: TxnId)
    requires t in s.txns && TxnOk(s, t) && s.txns[t].pc.Checking?
    ensures var pc := s.txns[t].pc;
      && pc.id in s.db && s.db[pc.id] == pc.row && Presents(s.txns[t].req, pc.row)
      && (pc.seen.Some? ==>
            && pc.row.replacedBy.Some? && pc.row.replacedBy.value in s.db
            && var now := s.db[pc.row.replacedBy.value];
               && pc.seen.value.created == now.created && (!now.revoked ==> !pc.seen.value.revoked)
               && (now.replacedBy.None? ==> pc.seen.value.replacedBy.None?))
  {}

  /** Whatever ran in between: a presentation whose spent token was judged with a replacement that was read unrevoked,
      unused and created at most `grace` ago ends in the conflict or aborts; with any other it ends in the token's
      family being dead, or aborts, and never in the conflict. */
  lemma {:induction false} JudgementIsFinal(s: State, t: TxnId, dbNow: Time, judged: State, actions: seq<Action>,
                                            s': State, child: Option<Row>, benign: bool)
    requires Reachable(s) && Step(s, Judge(t, dbNow)) == Some(judged) && Run(judged, actions) == Some(s')
    requires t in s.txns && s.txns[t].pc.Checking? ==>
      child == if s.txns[t].pc.seen.Some? then s.txns[t].pc.seen
               else if s.txns[t].pc.row.replacedBy.Some? && s.txns[t].pc.row.replacedBy.value in s.db
               then Some(s.db[s.txns[t].pc.row.replacedBy.value]) else None
    requires benign <==>
      child.Some? && !child.value.revoked && child.value.replacedBy.None?
      && dbNow <= child.value.created + s.cfg.grace
    ensures t in s.txns && s.txns[t].pc.Checking? && t in s'.txns
    ensures var id, f, pc := s.txns[t].pc.id, s.txns[t].pc.row.family, s'.txns[t].pc;
      && (benign ==> pc == Ready(Conflict(id)) || pc == Done(Conflict(id)) || pc == Done(Aborted))
      && (!benign && pc.Done? ==>
            pc.outcome == Aborted || (pc.outcome == Killed({f})
              && forall r :: r in s'.db && s'.db[r].family == f ==> s'.db[r].revoked))
      && (!benign && pc.Ready? ==> pc.outcome == Killed({f}))
  {
    hide Inv, Step, StepOf, StepJudge, TxnOk, Reachable;
    ReachableInv(s);
    StepKeepsInv(s, Judge(t, dbNow), judged);
    JudgeStep(s, t, dbNow, judged);
    JudgesByColumns(s, t, dbNow, judged, child, benign);
    JudgedRun(judged, actions, s', t, s.txns[t].pc.id, s.txns[t].pc.row.family, benign);
  }

  lemma {:induction false} JudgeStep(s: State, t: TxnId, dbNow: Time, s': State)
    requires Inv(s) && Step(s, Judge(t, dbNow)) == Some(s')
    ensures t in s.txns && TxnOk(s, t) && StepJudge(s, t, dbNow) == Some(s') && s.txns[t].pc.Checking?
  {
    hide TableOk, Apart, Owned, TxnOk;
  }

  /** In the clocks alone: judged later than its replacement's creation and the grace period, a presentation never ends
      in the conflict, and if it commits every token of the family is revoked. */
  lemma {:induction false} LateIsReuse(s: State, t: TxnId, dbNow: Time, judged: State, actions: seq<Action>, s': State,
                                       child: TokenId)
    requires Reachable(s) && Step(s, Judge(t, dbNow)) == Some(judged) && Run(judged, actions) == Some(s')
    requires t in s.txns && s.txns[t].pc.Checking? && s.txns[t].pc.row.replacedBy == Some(child)
    requires child in s.db && dbNow > s.db[child].created + s.cfg.grace
    ensures t in s'.txns && s'.txns[t].pc != Done(Conflict(s.txns[t].pc.id))
    ensures s'.txns[t].pc.Done? && s'.txns[t].pc.outcome != Aborted ==>
      forall r :: r in s'.db && s'.db[r].family == s.txns[t].pc.row.family ==> s'.db[r].revoked
  {
    ReachableInv(s);
    assert TxnOk(s, t);
    SeenIsTheReplacement(s, t);
    hide Inv, Step, StepOf, TxnOk, Reachable;
    var seen := if s.txns[t].pc.seen.Some? then s.txns[t].pc.seen else Some(s.db[child]);
    JudgementIsFinal(s, t, dbNow, judged, actions, s', seen, false);
  }

  /** ... and judged in time, its replacement unrevoked and unused, it never ends in a revocation. */
  lemma {:induction false} InTimeIsADuplicate(s: State, t: TxnId, dbNow: Time, judged: State, actions: seq<Action>,
                                              s': State, child: TokenId)
    requires Reachable(s) && Step(s, Judge(t, dbNow)) == Some(judged) && Run(judged, actions) == Some(s')
    requires t in s.txns && s.txns[t].pc.Checking? && s.txns[t].pc.row.replacedBy == Some(child)
    requires child in s.db && !s.db[child].revoked && s.db[child].replacedBy.None?
      && dbNow <= s.db[child].created + s.cfg.grace
    ensures t in s'.txns && s'.txns[t].pc in
      {Ready(Conflict(s.txns[t].pc.id)), Done(Conflict(s.txns[t].pc.id)), Done(Aborted)}
  {
    ReachableInv(s);
    assert TxnOk(s, t);
    SeenIsTheReplacement(s, t);
    hide Inv, Step, StepOf, TxnOk, Reachable;
    var seen := if s.txns[t].pc.seen.Some? then s.txns[t].pc.seen else Some(s.db[child]);
    JudgementIsFinal(s, t, dbNow, judged, actions, s', seen, true);
  }
}
