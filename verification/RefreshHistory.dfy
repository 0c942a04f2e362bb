/**
 When a replay hands out a live token, in terms of what happened before it.

 A run is followed state by state. A token that a replay returns is dead exactly if some mass
 revocation listed the user's families before the token's family was opened, began its UPDATE
 when the token was there, and committed: in between, a login of that user has committed.
 */
module RefreshHistory {
  import opened Options
  import opened TokenFamilies
  import opened RefreshProtocol
  import opened RefreshInvariant
  import opened RefreshSteps
  import opened RefreshWrites
  import opened RefreshTheorems
  import opened RefreshOutcomes

  datatype History = History(states: seq<State>, actions: seq<Action>)

  ghost predicate Goes(h: History, n: nat)
    requires n < |h.actions| && n + 1 < |h.states|
  {
    Step(h.states[n], h.actions[n]) == Some(h.states[n + 1])
  }

  ghost predicate IsRun(h: History) {
    && |h.states| == |h.actions| + 1 && Initial(h.states[0])
    && forall n {:trigger Goes(h, n)} :: 0 <= n < |h.actions| ==> Goes(h, n)
  }

  function Last(h: History): State
    requires |h.states| > 0
  {
    h.states[|h.states| - 1]
  }

  // ---- runs and states ------------------------------------------------------------------------------

  /** Every reachable state has a history. */
  lemma {:induction false} ReachableHasHistory(s: State) returns (h: History)
    requires Reachable(s)
    ensures IsRun(h) && Last(h) == s
  {
    var s0, actions :| Initial(s0) && Run(s0, actions) == Some(s);
    h := HistoryOf(History([s0], []), actions, s);
  }

  lemma {:induction false} HistoryOf(before: History, actions: seq<Action>, s: State) returns (h: History)
    requires IsRun(before) && Run(Last(before), actions) == Some(s)
    ensures IsRun(h) && Last(h) == s
    decreases |actions|
  {
    if actions == [] {
      h := before;
    } else {
      var next := Step(Last(before), actions[0]).value;
      var longer := History(before.states + [next], before.actions + [actions[0]]);
      forall n | 0 <= n < |longer.actions| ensures Goes(longer, n) {
        if n < |before.actions| { assert Goes(before, n); }
      }
      h := HistoryOf(longer, actions[1..], s);
    }
  }

  lemma {:induction false} Prefix(h: History, n: nat)
    requires IsRun(h) && n <= |h.actions|
    ensures Inv(h.states[n])
  {
    if n == 0 {
      InitialInv(h.states[0]);
    } else {
      Prefix(h, n - 1);
      assert Goes(h, n - 1);
      StepKeepsInv(h.states[n - 1], h.actions[n - 1], h.states[n]);
    }
  }

  lemma {:induction false} Between(h: History, i: nat, k: nat)
    requires IsRun(h) && i <= k <= |h.actions|
    ensures Run(h.states[i], h.actions[i..k]) == Some(h.states[k])
    decreases k - i
  {
    if i < k {
      assert Goes(h, i);
      Between(h, i + 1, k);
      assert h.actions[i..k][1..] == h.actions[i + 1..k];
    }
  }

  lemma {:induction false} TableBetween(h: History, i: nat, k: nat)
    requires IsRun(h) && i <= k <= |h.actions|
    ensures TableEvolves(h.states[i].db, h.states[k].db)
  {
    Prefix(h, i);
    Between(h, i, k);
    RunKeepsInv(h.states[i], h.actions[i..k], h.states[k]);
  }

  // ---- the progress of a mass revocation ------------------------------------------------------------

  /** `t`, a mass revocation, listed `families` at `i`. */
  ghost predicate Listed(h: History, t: TxnId, families: set<FamilyId>, i: nat)
    requires IsRun(h)
  {
    && i < |h.actions| && h.actions[i].ListFamilies? && h.actions[i].t == t
    && t in h.states[i].txns && h.states[i].txns[t].req.RevokeAll?
    && families == LiveFamilies(h.states[i].db, h.states[i].txns[t].req.user)
  }

  /** ... and began its UPDATE at `k`, finding `ids` among the rows not revoked. */
  ghost predicate Began(h: History, t: TxnId, families: set<FamilyId>, i: nat, k: nat, ids: set<TokenId>)
    requires IsRun(h)
  {
    && Listed(h, t, families, i) && i < k < |h.actions| && h.actions[k] == StartUpdate(t)
    && t in h.states[k].txns && h.states[k].txns[t].req == h.states[i].txns[t].req
    && forall id :: id in ids ==> id in h.states[k].db && !h.states[k].db[id].revoked
  }

  ghost predicate HasListed(h: History, n: nat, t: TxnId, families: set<FamilyId>)
    requires IsRun(h) && n <= |h.actions| && t in h.states[n].txns
  {
    exists i: nat :: i < n && Listed(h, t, families, i) && h.states[i].txns[t].req == h.states[n].txns[t].req
  }

  ghost predicate HasBegun(h: History, n: nat, t: TxnId, families: set<FamilyId>, ids: set<TokenId>)
    requires IsRun(h) && n <= |h.actions| && t in h.states[n].txns
  {
    exists i: nat, k: nat :: k < n && Began(h, t, families, i, k, ids)
      && h.states[i].txns[t].req == h.states[n].txns[t].req
  }

  /** What is known of the past of `t` at its place. */
  ghost predicate Told(h: History, n: nat, t: TxnId)
    requires IsRun(h) && n <= |h.actions| && t in h.states[n].txns
  {
    var x := h.states[n].txns[t];
    x.req.RevokeAll? ==>
      match x.pc
      case Locking(fs, _) => HasListed(h, n, t, fs)
      case Locked(fs) => HasListed(h, n, t, fs)
      case Updating(fs, started, targets) =>
        if started then HasBegun(h, n, t, fs, targets + x.writes.Keys) else HasListed(h, n, t, fs)
      case Ready(o) => o.Killed? ==> HasBegun(h, n, t, o.families, x.writes.Keys)
      case _ => true
  }

  /** A statement of a mass revocation: from where to where. */
  lemma {:induction false} RevokeStep(s: State, a: Action, s': State)
    requires !Outer(a) && a.t in s.txns && TxnOk(s, a.t) && StepOf(s, a) == Some(s') && s.txns[a.t].req.RevokeAll?
    ensures a.ListFamilies? || a.Acquire? || a.Fetch? || a.StartUpdate? || a.UpdateRow? || a.EndUpdate? || a.Commit?
      || a.Abort?
  {}

  lemma {:induction false} RevokeLocks(s: State, a: Action, s': State)
    requires (a.ListFamilies? || a.Acquire? || a.Fetch?) && a.t in s.txns && StepOf(s, a) == Some(s')
    requires s.txns[a.t].req.RevokeAll?
    ensures a.t in s'.txns && s'.txns[a.t].req == s.txns[a.t].req
    ensures var pc, pc' := s.txns[a.t].pc, s'.txns[a.t].pc;
      && (pc'.Locking? || pc'.Locked? || (pc'.Updating? && !pc'.started))
      && if a.ListFamilies? then pc'.families == LiveFamilies(s.db, s.txns[a.t].req.user)
         else (pc.Locking? || pc.Locked?) && pc'.families == pc.families
  {}

  lemma {:induction false} RevokeUpdates(s: State, a: Action, s': State)
    requires (a.StartUpdate? || a.UpdateRow? || a.EndUpdate?) && a.t in s.txns && TxnOk(s, a.t)
      && StepOf(s, a) == Some(s')
    requires s.txns[a.t].req.RevokeAll?
    ensures a.t in s'.txns && s'.txns[a.t].req == s.txns[a.t].req && s.txns[a.t].pc.Updating?
    ensures var x, x' := s.txns[a.t], s'.txns[a.t];
      && (a.StartUpdate? ==>
            && !x.pc.started && x'.pc.Updating? && x'.pc.started && x'.pc.families == x.pc.families
               && x'.writes == map[]
            && forall id :: id in x'.pc.targets ==> id in s.db && !s.db[id].revoked)
      && (a.UpdateRow? ==>
            && x.pc.started && x'.pc.Updating? && x'.pc.started && x'.pc.families == x.pc.families
            && x'.pc.targets + x'.writes.Keys <= x.pc.targets + x.writes.Keys)
      && (a.EndUpdate? ==>
            x.pc.started && x'.pc == Ready(Killed(x.pc.families)) && x'.writes == x.writes && x.pc.targets == {})
  {}

  lemma {:induction false} ListedStays(h: History, n: nat, t: TxnId, families: set<FamilyId>)
    requires IsRun(h) && n < |h.actions| && t in h.states[n].txns && t in h.states[n + 1].txns
    requires h.states[n + 1].txns[t].req == h.states[n].txns[t].req && HasListed(h, n, t, families)
    ensures HasListed(h, n + 1, t, families)
  {
    var i: nat :| i < n && Listed(h, t, families, i) && h.states[i].txns[t].req == h.states[n].txns[t].req;
  }

  lemma {:induction false} BegunStays(h: History, n: nat, t: TxnId, families: set<FamilyId>, ids: set<TokenId>,
                                      fewer: set<TokenId>)
    requires IsRun(h) && n < |h.actions| && t in h.states[n].txns && t in h.states[n + 1].txns
    requires h.states[n + 1].txns[t].req == h.states[n].txns[t].req && HasBegun(h, n, t, families, ids) && fewer <= ids
    ensures HasBegun(h, n + 1, t, families, fewer)
  {
    var i: nat, k: nat :| k < n && Began(h, t, families, i, k, ids)
      && h.states[i].txns[t].req == h.states[n].txns[t].req;
    assert Began(h, t, families, i, k, fewer);
  }

  /** Only a transaction's own statements change what it wrote, too. */
  lemma {:induction false} OthersWrites(s: State, a: Action, s': State, t: TxnId)
    requires Step(s, a) == Some(s') && t in s.txns && (a.Deliver? || a.Expire? || a.t != t)
    ensures t in s'.txns && s'.txns[t].pc == s.txns[t].pc && s'.txns[t].req == s.txns[t].req
      && s'.txns[t].writes == s.txns[t].writes
  {
    if a.Deliver? { DeliverIsRedis(s, a.c, s'); }
    else if a.Expire? || a.Begin? {}
    else {
      StepIsOf(s, a, s');
      if a.Commit? { CommitShape(s, s', a.t, a.cca); } else { StepIsOwn(s, a, s'); }
    }
  }

  lemma {:induction false} ToldByOthers(h: History, n: nat, t: TxnId)
    requires IsRun(h) && n < |h.actions| && t in h.states[n].txns && Told(h, n, t)
    requires h.actions[n].Deliver? || h.actions[n].Expire? || h.actions[n].t != t
    ensures t in h.states[n + 1].txns && Told(h, n + 1, t)
  {
    assert Goes(h, n);
    OthersWrites(h.states[n], h.actions[n], h.states[n + 1], t);
    hide HasListed, HasBegun;
    var x := h.states[n].txns[t];
    if x.req.RevokeAll? {
      match x.pc
      case Locking(fs, _) => ListedStays(h, n, t, fs);
      case Locked(fs) => ListedStays(h, n, t, fs);
      case Updating(fs, started, targets) =>
        if started {
          BegunStays(h, n, t, fs, targets + x.writes.Keys, targets + x.writes.Keys);
        } else {
          ListedStays(h, n, t, fs);
        }
      case Ready(o) => if o.Killed? { BegunStays(h, n, t, o.families, x.writes.Keys, x.writes.Keys); }
      case _ =>
    }
  }

  lemma {:induction false} ToldOfLocks(h: History, n: nat)
    requires IsRun(h) && n < |h.actions|
    requires var a, s := h.actions[n], h.states[n];
      && (a.ListFamilies? || a.Acquire? || a.Fetch?) && a.t in s.txns && s.txns[a.t].req.RevokeAll?
      && StepOf(s, a) == Some(h.states[n + 1]) && Told(h, n, a.t)
    ensures h.actions[n].t in h.states[n + 1].txns && Told(h, n + 1, h.actions[n].t)
  {
    var a, s := h.actions[n], h.states[n];
    RevokeLocks(s, a, h.states[n + 1]);
    var fs := h.states[n + 1].txns[a.t].pc.families;
    if a.ListFamilies? { assert Listed(h, a.t, fs, n); } else { ListedStays(h, n, a.t, fs); }
  }

  lemma {:induction false} ToldOfUpdate(h: History, n: nat)
    requires IsRun(h) && n < |h.actions|
    requires var a, s := h.actions[n], h.states[n];
      && (a.StartUpdate? || a.UpdateRow? || a.EndUpdate?) && a.t in s.txns && s.txns[a.t].req.RevokeAll?
         && TxnOk(s, a.t)
      && StepOf(s, a) == Some(h.states[n + 1]) && Told(h, n, a.t)
    ensures h.actions[n].t in h.states[n + 1].txns && Told(h, n + 1, h.actions[n].t)
  {
    hide TxnOk, StepOf, Inv, Initial;
    var a, s := h.actions[n], h.states[n];
    RevokeUpdates(s, a, h.states[n + 1]);
    var x, x' := s.txns[a.t], h.states[n + 1].txns[a.t];
    var fs := x.pc.families;
    if a.StartUpdate? {
      var i: nat :| i < n && Listed(h, a.t, fs, i) && h.states[i].txns[a.t].req == s.txns[a.t].req;
      assert x'.pc.targets + x'.writes.Keys == x'.pc.targets;
      assert Began(h, a.t, fs, i, n, x'.pc.targets + x'.writes.Keys);
    } else {
      BegunStays(h, n, a.t, fs, x.pc.targets + x.writes.Keys,
        (if a.UpdateRow? then x'.pc.targets else {}) + x'.writes.Keys);
      if a.EndUpdate? { assert {} + x'.writes.Keys == x'.writes.Keys; }
    }
  }

  lemma {:induction false} ToldByOwn(h: History, n: nat, t: TxnId)
    requires IsRun(h) && n < |h.actions| && t in h.states[n].txns && Told(h, n, t) && Inv(h.states[n])
    requires !Outer(h.actions[n]) && h.actions[n].t == t
    ensures t in h.states[n + 1].txns && Told(h, n + 1, t)
  {
    hide Told;
    var a, s := h.actions[n], h.states[n];
    assert Goes(h, n);
    OwnKeepsRequest(s, a, h.states[n + 1]);
    StepIsOf(s, a, h.states[n + 1]);
    assert TxnOk(s, t);
    if s.txns[t].req.RevokeAll? {
      RevokeStep(s, a, h.states[n + 1]);
      if a.ListFamilies? || a.Acquire? || a.Fetch? { ToldOfLocks(h, n); }
      else if a.StartUpdate? || a.UpdateRow? || a.EndUpdate? { ToldOfUpdate(h, n); }
      else { ToldAtEnd(h, n, t); }
    } else {
      ToldOfNone(h, n + 1, t);
    }
  }

  lemma {:induction false} ToldOfNone(h: History, n: nat, t: TxnId)
    requires IsRun(h) && n <= |h.actions| && t in h.states[n].txns
    requires !h.states[n].txns[t].req.RevokeAll? || h.states[n].txns[t].pc.Start?
    ensures Told(h, n, t)
  {}

  lemma {:induction false} ToldAtEnd(h: History, n: nat, t: TxnId)
    requires IsRun(h) && n < |h.actions| && t in h.states[n].txns && t in h.states[n + 1].txns
    requires (h.actions[n].Commit? || h.actions[n].Abort?) && h.actions[n].t == t
    requires StepOf(h.states[n], h.actions[n]) == Some(h.states[n + 1])
    ensures Told(h, n + 1, t)
  {
    var a, s := h.actions[n], h.states[n];
    if a.Commit? { CommitShape(s, h.states[n + 1], t, a.cca); }
  }

  lemma {:induction false} AlwaysTold(h: History, n: nat, t: TxnId)
    requires IsRun(h) && n <= |h.actions| && t in h.states[n].txns
    ensures Told(h, n, t)
    decreases n
  {
    hide Told, Inv, StepOf;
    if n > 0 {
      var a, s := h.actions[n - 1], h.states[n - 1];
      assert Goes(h, n - 1);
      if t !in s.txns {
        NewcomerStarts(s, a, h.states[n], t);
        ToldOfNone(h, n, t);
      } else {
        AlwaysTold(h, n - 1, t);
        Prefix(h, n - 1);
        if a.Deliver? || a.Expire? || a.t != t { ToldByOthers(h, n - 1, t); }
        else { ToldByOwn(h, n - 1, t); }
      }
    }
  }

  // ---- what a blind revocation has overlooked -------------------------------------------------------

  /** Mass revocation `r` listed its user's families at `i`, before the family of `id` was opened; it began its UPDATE
      at `k`, when token `id` of that user was there; and it committed at `m`. */
  ghost predicate Overlooks(h: History, r: TxnId, i: nat, k: nat, m: nat, id: TokenId)
    requires IsRun(h)
  {
    && i < k < m < |h.actions|
    && h.actions[i].ListFamilies? && h.actions[i].t == r && h.actions[k] == StartUpdate(r)
    && h.actions[m].Commit? && h.actions[m].t == r
    && r in h.states[k].txns && h.states[k].txns[r].req.RevokeAll?
    && id in h.states[k].db && h.states[k].db[id].user == h.states[k].txns[r].req.user
    && !HasFamily(h.states[i].db, h.states[k].db[id].family)
  }

  ghost predicate Overlooked(h: History, n: nat, id: TokenId)
    requires IsRun(h) && n <= |h.actions|
  {
    exists r, i: nat, k: nat, m: nat :: m < n && Overlooks(h, r, i, k, m, id)
  }

  lemma UnlistedIsRevoked(db: Table, user: UserId, r: TokenId)
    requires r in db && db[r].user == user && db[r].family !in LiveFamilies(db, user)
    ensures db[r].revoked
  {}

  /** A live token of a listed user's unlisted family belongs to a family opened since. */
  lemma {:induction false} UnlistedIsNew(h: History, t: TxnId, families: set<FamilyId>, i: nat, k: nat,
                                         ids: set<TokenId>, id: TokenId)
    requires IsRun(h) && Began(h, t, families, i, k, ids) && id in ids
    requires h.states[k].db[id].family !in families && h.states[k].db[id].user == h.states[k].txns[t].req.user
    ensures !HasFamily(h.states[i].db, h.states[k].db[id].family)
  {
    var f := h.states[k].db[id].family;
    var before, later := h.states[i], h.states[k];
    if HasFamily(before.db, f) {
      Prefix(h, i);
      Prefix(h, k);
      TableBetween(h, i, k);
      forall r | r in before.db && before.db[r].family == f ensures before.db[r].revoked {
        assert r in later.db && Evolves(before.db[r], later.db[r]);
        assert later.db[r].user == later.db[id].user;
        UnlistedIsRevoked(before.db, later.txns[t].req.user, r);
      }
      assert Dead(before.db, f);
      Between(h, i, k);
      DeadForever(before, h.actions[i..k], later, f);
      assert false;
    }
  }

  /** What a mass revocation commits blindly: a row of its user, of a family it has not listed. */
  lemma {:induction false} BlindWrites(s: State, a: Action, s': State, id: TokenId)
    requires AllOk(s) && Step(s, a) == Some(s') && id in s'.blind && id !in s.blind
    ensures a.Commit? && a.t in s.txns && s.txns[a.t].req.RevokeAll? && s.txns[a.t].pc.Ready?
      && s.txns[a.t].pc.outcome.Killed?
    ensures id in s.txns[a.t].writes && id in s.db && s.db[id].user == s.txns[a.t].req.user
    ensures s.db[id].family !in s.txns[a.t].pc.outcome.families
  {
    hide TxnOk, Step, StepOf;
    BlindOnlyWhenUnlisted(s, a, s', id);
    ReadyIsOk(s, a.t, s.txns[a.t].pc.outcome);
  }

  /** What a mass revocation commits without having listed it, it has overlooked. */
  lemma {:induction false} BlindIsOverlooked(h: History, n: nat, id: TokenId)
    requires IsRun(h) && n < |h.actions| && id in h.states[n + 1].blind && id !in h.states[n].blind
    ensures Overlooked(h, n + 1, id)
  {
    hide TxnOk, Step, StepOf, TableOk, Apart, Owned, RefreshInvariant.RotatedOnce;
    var a, s := h.actions[n], h.states[n];
    assert Goes(h, n);
    Prefix(h, n);
    BlindWrites(s, a, h.states[n + 1], id);
    var t := a.t;
    var families := s.txns[t].pc.outcome.families;
    AlwaysTold(h, n, t);
    var i: nat, k: nat :| k < n && Began(h, t, families, i, k, s.txns[t].writes.Keys)
      && h.states[i].txns[t].req == s.txns[t].req;
    TableBetween(h, k, n);
    assert Evolves(h.states[k].db[id], s.db[id]);
    UnlistedIsNew(h, t, families, i, k, s.txns[t].writes.Keys, id);
    assert Overlooks(h, t, i, k, n, id);
  }

  lemma {:induction false} AllBlindOverlooked(h: History, n: nat, id: TokenId)
    requires IsRun(h) && n <= |h.actions| && id in h.states[n].blind
    ensures Overlooked(h, n, id)
    decreases n
  {
    if n > 0 {
      if id in h.states[n - 1].blind {
        AllBlindOverlooked(h, n - 1, id);
        var r, i: nat, k: nat, m: nat :| m < n - 1 && Overlooks(h, r, i, k, m, id);
      } else {
        BlindIsOverlooked(h, n - 1, id);
      }
    }
  }

  // ---- what an overlooking revocation does ------------------------------------------------------------

  /** Mass revocation `r` is in its UPDATE, `id` among the rows it will have revoked at its end; or it is over. */
  ghost predicate Coming(s: State, r: TxnId, id: TokenId) {
    && r in s.txns && s.txns[r].req.RevokeAll? && id in s.db && s.db[id].user == s.txns[r].req.user
    && match s.txns[r].pc
       case Updating(_, started, targets) => started && (id in targets || id in s.txns[r].writes || s.db[id].revoked)
       case Ready(o) => o.Killed? && (id in s.txns[r].writes || s.db[id].revoked)
       case Done(_) => true
       case _ => false
  }

  lemma {:induction false} ComingByOwn(s: State, a: Action, s': State, id: TokenId)
    requires !Outer(a) && a.t in s.txns && TxnOk(s, a.t) && StepOf(s, a) == Some(s') && Coming(s, a.t, id)
    requires a.UpdateRow? || a.EndUpdate? || a.Abort?
    ensures Coming(s', a.t, id)
  {}

  lemma {:induction false} ComingOnly(s: State, a: Action, s': State, id: TokenId)
    requires !Outer(a) && a.t in s.txns && TxnOk(s, a.t) && StepOf(s, a) == Some(s') && Coming(s, a.t, id)
    ensures a.UpdateRow? || a.EndUpdate? || a.Abort? || a.Commit?
  {}

  lemma {:induction false} ComingCommits(s: State, a: Action, s': State, id: TokenId)
    requires a.Commit? && a.t in s.txns && TxnOk(s, a.t) && StepOf(s, a) == Some(s') && Coming(s, a.t, id)
    ensures Coming(s', a.t, id) && s'.db[id].revoked
  {
    CommitShape(s, s', a.t, a.cca);
  }

  lemma {:induction false} ComingStep(s: State, a: Action, s': State, r: TxnId, id: TokenId)
    requires Inv(s) && Step(s, a) == Some(s') && Coming(s, r, id)
    ensures Coming(s', r, id)
    ensures a.Commit? && a.t == r ==> s'.db[id].revoked
  {
    hide TxnOk, StepOf, TableOk, Apart, Owned, RefreshInvariant.RotatedOnce;
    StepKeepsInv(s, a, s');
    assert Evolves(s.db[id], s'.db[id]);
    if a.Deliver? || a.Expire? || a.t != r {
      OthersWrites(s, a, s', r);
    } else if !a.Begin? {
      StepIsOf(s, a, s');
      assert TxnOk(s, r);
      ComingOnly(s, a, s', id);
      if a.Commit? { ComingCommits(s, a, s', id); } else { ComingByOwn(s, a, s', id); }
    }
  }

  lemma {:induction false} ComingBegins(s: State, r: TxnId, s': State, id: TokenId)
    requires r in s.txns && s.txns[r].req.RevokeAll? && StepStartUpdate(s, r) == Some(s')
    requires id in s.db && s.db[id].user == s.txns[r].req.user
    ensures Coming(s', r, id)
  {}

  lemma {:induction false} ComingAlong(h: History, r: TxnId, k: nat, n: nat, id: TokenId)
    requires IsRun(h) && k <= n <= |h.actions| && Coming(h.states[k], r, id)
    ensures Coming(h.states[n], r, id)
    decreases n - k
  {
    if k < n {
      ComingAlong(h, r, k, n - 1, id);
      Prefix(h, n - 1);
      assert Goes(h, n - 1);
      ComingStep(h.states[n - 1], h.actions[n - 1], h.states[n], r, id);
    }
  }

  /** Once it has committed, the overlooked token is revoked. */
  lemma {:induction false} OverlookedIsRevoked(h: History, r: TxnId, i: nat, k: nat, m: nat, id: TokenId)
    requires IsRun(h) && Overlooks(h, r, i, k, m, id)
    ensures id in Last(h).db && Last(h).db[id].revoked
  {
    assert Goes(h, k);
    StepIsOf(h.states[k], h.actions[k], h.states[k + 1]);
    ComingBegins(h.states[k], r, h.states[k + 1], id);
    ComingAlong(h, r, k + 1, m, id);
    Prefix(h, m);
    assert Goes(h, m);
    ComingStep(h.states[m], h.actions[m], h.states[m + 1], r, id);
    TableBetween(h, m + 1, |h.actions|);
    assert Evolves(h.states[m + 1].db[id], Last(h).db[id]);
  }

  // ---- the results ------------------------------------------------------------------------------------

  /** A replay that commits returns a live token, exactly if no mass revocation that had listed the user's families
      before that token's family existed, and began its UPDATE when the token did, has committed before. */
  lemma {:induction false} ReplayIsLiveExactly(h: History, t: TxnId, cca: Option<Stamp>, s': State, id: TokenId,
                                               child: TokenId, token: Hash)
    requires IsRun(h) && Step(Last(h), Commit(t, cca)) == Some(s')
    requires t in Last(h).txns && Last(h).txns[t].pc == Ready(Replayed(id, child, token))
    ensures child in s'.db && s'.db[child].hash == token
    ensures Live(s'.db[child]) <==> !exists r, i: nat, k: nat, m: nat :: Overlooks(h, r, i, k, m, child)
  {
    var n := |h.actions|;
    Between(h, 0, n);
    assert h.actions[0..n] == h.actions;
    assert Reachable(Last(h));
    ReplayReturnsTheLastToken(Last(h), t, cca, s', id, child, token);
    if child in Last(h).blind {
      AllBlindOverlooked(h, n, child);
    }
    if r, i: nat, k: nat, m: nat :| Overlooks(h, r, i, k, m, child) {
      OverlookedIsRevoked(h, r, i, k, m, child);
    }
  }

  /** So it is for every reachable state: some run that ends in it tells whether the token is live. */
  lemma {:induction false} ReachableReplayIsLiveExactly(s: State, t: TxnId, cca: Option<Stamp>, s': State, id: TokenId,
                                                        child: TokenId, token: Hash) returns (h: History)
    requires Reachable(s) && Step(s, Commit(t, cca)) == Some(s')
    requires t in s.txns && s.txns[t].pc == Ready(Replayed(id, child, token))
    ensures IsRun(h) && Last(h) == s && child in s'.db && s'.db[child].hash == token
    ensures Live(s'.db[child]) <==> !exists r, i: nat, k: nat, m: nat :: Overlooks(h, r, i, k, m, child)
  {
    h := ReachableHasHistory(s);
    ReplayIsLiveExactly(h, t, cca, s', id, child, token);
  }

  /** A login of `user` commits at `j`. */
  ghost predicate LoginCommits(h: History, j: nat, user: UserId)
    requires IsRun(h)
  {
    && j < |h.actions| && h.actions[j].Commit? && h.actions[j].t in h.states[j].txns
    && h.states[j].txns[h.actions[j].t].req == Login(user)
  }

  lemma WasThere(db: Table, id: TokenId)
    requires id in db
    ensures HasFamily(db, db[id].family)
  {}

  /** A row waiting to be inserted into a new family is a login's. */
  lemma {:induction false} NewFamilyIsALogin(s: State, t: TxnId, o: Outcome, id: TokenId)
    requires t in s.txns && ReadyOk(s, t, s.txns[t], o) && id in s.txns[t].writes
    requires !HasFamily(s.db, s.txns[t].writes[id].family)
    ensures s.txns[t].req == Login(s.txns[t].writes[id].user)
  {
    if o.Rotated? { WasThere(s.db, o.id); }
    else if o.Killed? { WasThere(s.db, id); }
  }

  /** A family appears only with the commit of a login. */
  lemma {:induction false} FamilyIsOpenedByLogin(s: State, a: Action, s': State, id: TokenId)
    requires AllOk(s) && Step(s, a) == Some(s') && id in s'.db && !HasFamily(s.db, s'.db[id].family)
    ensures a.Commit? && a.t in s.txns && s.txns[a.t].req == Login(s'.db[id].user)
  {
    hide TxnOk, ReadyOk, StepOf, Step;
    if !a.Commit? {
      TableStaysUnlessCommit(s, a, s');
      assert false;
    } else {
      CommitStep(s, a.t, a.cca, s');
      ReadyIsOk(s, a.t, s.txns[a.t].pc.outcome);
      assert id !in s.db || id in s.txns[a.t].writes;
      NewFamilyIsALogin(s, a.t, s.txns[a.t].pc.outcome, id);
    }
  }

  lemma {:induction false} OwnersAgree(s: State, a: Action, s': State, r: TokenId, id: TokenId)
    requires Inv(s) && Step(s, a) == Some(s') && r in s.db && id in s'.db && s'.db[id].family == s.db[r].family
    ensures s'.db[id].user == s.db[r].user
  {
    StepKeepsInv(s, a, s');
    assert Evolves(s.db[r], s'.db[r]);
  }

  /** An overlooked family was opened by a login that committed between the listing and the UPDATE. */
  lemma {:induction false} OverlookedIsNew(h: History, i: nat, k: nat, id: TokenId) returns (j: nat)
    requires IsRun(h) && i <= k <= |h.actions| && id in h.states[k].db
    requires !HasFamily(h.states[i].db, h.states[k].db[id].family)
    ensures i <= j < k && LoginCommits(h, j, h.states[k].db[id].user)
    decreases k - i
  {
    hide Step, Inv;
    if i == k {
      WasThere(h.states[k].db, id);
    } else {
      assert Goes(h, k - 1);
      Prefix(h, k - 1);
      if HasFamily(h.states[k - 1].db, h.states[k].db[id].family) {
        var r :| r in h.states[k - 1].db && h.states[k - 1].db[r].family == h.states[k].db[id].family;
        OwnersAgree(h.states[k - 1], h.actions[k - 1], h.states[k], r, id);
        j := OverlookedIsNew(h, i, k - 1, r);
      } else {
        InvIsAllOk(h.states[k - 1]);
        FamilyIsOpenedByLogin(h.states[k - 1], h.actions[k - 1], h.states[k], id);
        j := k - 1;
      }
    }
  }

  lemma InvIsAllOk(s: State)
    requires Inv(s)
    ensures AllOk(s)
  {}

  /** A login of the user of mass revocation `r` commits at `j`, after `r` listed and before it began its UPDATE. */
  ghost predicate LoginBetween(h: History, r: TxnId, i: nat, j: nat, k: nat)
    requires IsRun(h)
  {
    && i < j < k < |h.actions| && h.actions[i].ListFamilies? && h.actions[i].t == r && h.actions[k] == StartUpdate(r)
    && r in h.states[k].txns && h.states[k].txns[r].req.RevokeAll? && LoginCommits(h, j, h.states[k].txns[r].req.user)
  }

  lemma {:induction false} OverlooksALogin(h: History, r: TxnId, i: nat, k: nat, m: nat, id: TokenId)
    requires IsRun(h) && Overlooks(h, r, i, k, m, id)
    ensures exists j: nat :: LoginBetween(h, r, i, j, k)
  {
    hide Initial, Goes, HasFamily;
    var j := OverlookedIsNew(h, i, k, id);
    assert LoginBetween(h, r, i, j, k);
  }

  /** If no login of the user commits between the listing and the UPDATE of any mass revocation, every replay that
      commits returns a live token. */
  lemma {:induction false} ReplaysAreLiveWithoutLogins(h: History, t: TxnId, cca: Option<Stamp>, s': State,
                                                       id: TokenId, child: TokenId, token: Hash)
    requires IsRun(h) && Step(Last(h), Commit(t, cca)) == Some(s')
    requires t in Last(h).txns && Last(h).txns[t].pc == Ready(Replayed(id, child, token))
    requires forall r, i: nat, j: nat, k: nat :: !LoginBetween(h, r, i, j, k)
    ensures child in s'.db && s'.db[child].hash == token && Live(s'.db[child])
  {
    ReplayIsLiveExactly(h, t, cca, s', id, child, token);
    hide Step, Initial, Goes, HasFamily;
    if r, i: nat, k: nat, m: nat :| Overlooks(h, r, i, k, m, child) {
      OverlooksALogin(h, r, i, k, m, child);
    }
  }
}
