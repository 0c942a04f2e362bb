/**
 What stands behind the answer to a refresh, in terms of what happened before it.

 A replay that is granted goes back to one rotation: the entry it was granted on was left by
 the commit of the transaction that rotated the same token, for the user agent and subnet of
 that transaction's client and with the account's stamp of then, and the presentation has
 since read the replacement untouched and vetted window, account and client. A rotation and a
 refusal go back to the reading of a live row, its expiry and the account.
 */
module RefreshCauses {
  import opened Options
  import opened TokenFamilies
  import opened RefreshProtocol
  import opened RefreshInvariant
  import opened RefreshSteps
  import opened RefreshWrites
  import opened RefreshTheorems
  import opened ReplayBudget
  import opened RefreshHistory

  // ---- what happened --------------------------------------------------------------------------------

  /** At `m`, `u` committed the rotation of the token hashed `hash` that `entry` tells of, for the client and with the
      account's stamp it tells of. */
  ghost predicate Rotates(h: History, m: nat, u: TxnId, hash: Hash, entry: Entry)
    requires IsRun(h)
  {
    && m < |h.actions| && h.actions[m] == Commit(u, entry.cca) && u in h.states[m].txns
    && var x := h.states[m].txns[u];
       && x.req.Refresh? && x.req.hash == hash && x.req.ua == Some(entry.ua) && x.req.subnet == Some(entry.subnet)
       && x.pc.Ready? && x.pc.outcome.Rotated? && x.pc.outcome.newId == entry.tokenId
       && entry.tokenId in x.writes && x.writes[entry.tokenId].hash == entry.token
  }

  ghost predicate FromRotation(h: History, n: nat, hash: Hash, entry: Entry)
    requires IsRun(h)
  {
    exists m: nat, u :: m < n && Rotates(h, m, u, hash, entry)
  }

  /** At `r`, when it was `now`, `t` read the row `child` the entry names: with its hash, untouched and unexpired. */
  ghost predicate Reads(h: History, r: nat, t: TxnId, now: Time, entry: Entry, child: Row)
    requires IsRun(h)
  {
    && r < |h.actions| && h.actions[r] == ReadChild(t, now)
    && entry.tokenId in h.states[r].db && h.states[r].db[entry.tokenId] == child
    && child.hash == entry.token && !child.revoked && child.replacedBy.None? && now < child.expires
  }

  /** At `v`, when it was `dbNow` for the database, `t` found it within the window and the account as the entry says. */
  ghost predicate Vets(h: History, v: nat, t: TxnId, dbNow: Time, account: Account, entry: Entry, child: Row)
    requires IsRun(h)
  {
    && v < |h.actions| && h.actions[v] == Vet(t, dbNow, Some(account))
    && dbNow <= child.created + h.states[v].cfg.window && account.active && account.cca == entry.cca
  }

  ghost predicate HasRead(h: History, n: nat, t: TxnId, hash: Hash, entry: Entry, child: Row)
    requires IsRun(h)
  {
    exists r: nat, now :: r < n && FromRotation(h, r, hash, entry) && Reads(h, r, t, now, entry, child)
  }

  ghost predicate HasVetted(h: History, n: nat, t: TxnId, req: Request, entry: Entry, child: Row)
    requires IsRun(h) && req.Refresh?
  {
    && req.ua == Some(entry.ua) && req.subnet == Some(entry.subnet)
    && exists v: nat, dbNow, account ::
         v < n && HasRead(h, v, t, req.hash, entry, child) && Vets(h, v, t, dbNow, account, entry, child)
  }

  ghost predicate HasReplayed(h: History, n: nat, t: TxnId, req: Request, child: TokenId, token: Hash)
    requires IsRun(h) && req.Refresh?
  {
    exists entry: Entry, row: Row :: entry.tokenId == child && entry.token == token
      && HasVetted(h, n, t, req, entry, row)
  }

  /** At `r`, `t` held the row `id` of the presented token, and it was live. */
  ghost predicate HoldsLive(h: History, r: nat, t: TxnId, hash: Hash, id: TokenId)
    requires IsRun(h) && r < |h.actions|
  {
    && id in h.states[r].db && h.states[r].db[id].hash == hash && !h.states[r].db[id].revoked
    && h.states[r].db[id].replacedBy.None?
  }

  ghost predicate Refused(h: History, r: nat, t: TxnId, hash: Hash, id: TokenId)
    requires IsRun(h)
  {
    && r < |h.actions| && HoldsLive(h, r, t, hash, id) && h.actions[r].Refuse? && h.actions[r].t == t
    && (h.states[r].db[id].expires <= h.actions[r].now || h.actions[r].account.None?
       || !h.actions[r].account.value.active)
  }

  ghost predicate Granted(h: History, r: nat, t: TxnId, hash: Hash, id: TokenId, newId: TokenId)
    requires IsRun(h)
  {
    && r < |h.actions| && HoldsLive(h, r, t, hash, id) && h.actions[r].Rotate? && h.actions[r].t == t
    && h.actions[r].newId == newId && newId !in h.states[r].db
    && h.actions[r].now < h.states[r].db[id].expires && h.actions[r].account.Some?
    && h.actions[r].account.value.active
  }

  ghost predicate FoundNobody(h: History, r: nat, t: TxnId, hash: Hash)
    requires IsRun(h)
  {
    && r < |h.actions| && h.actions[r] == FindNone(t)
    && forall id :: id in h.states[r].db ==> h.states[r].db[id].hash != hash
  }

  ghost predicate OutcomeCause(h: History, n: nat, t: TxnId, req: Request, o: Outcome)
    requires IsRun(h) && req.Refresh?
  {
    match o
    case Unknown => exists r: nat :: r < n && FoundNobody(h, r, t, req.hash)
    case Expired(id) => exists r: nat :: r < n && Refused(h, r, t, req.hash, id)
    case Rotated(id, newId) => exists r: nat :: r < n && Granted(h, r, t, req.hash, id, newId)
    case Replayed(_, child, token) => HasReplayed(h, n, t, req, child, token)
    case _ => true
  }

  // ---- the entries ----------------------------------------------------------------------------------

  /** Every entry, stored, on its way or yet to be sent, is of a committed rotation. */
  ghost predicate EntriesKnown(h: History, n: nat)
    requires IsRun(h) && n <= |h.actions|
  {
    var s := h.states[n];
    && (forall k :: k in s.entries ==> FromRotation(h, n, k, s.entries[k].entry))
    && (forall k, e, o :: LateRemember(k, e, o) in s.inflight ==> FromRotation(h, n, k, e))
    && (forall t :: t in s.txns && s.txns[t].req.Refresh? && s.txns[t].pc.Remembering? ==>
          FromRotation(h, n, s.txns[t].req.hash, s.txns[t].pc.entry))
  }

  /** `e` was about to be stored for `k`. */
  ghost predicate Sent(s: State, k: Hash, e: Entry) {
    || (k in s.entries && s.entries[k].entry == e)
    || (exists o :: LateRemember(k, e, o) in s.inflight)
    || (exists t :: t in s.txns && s.txns[t].req.Refresh? && s.txns[t].req.hash == k && s.txns[t].pc.Remembering?
          && s.txns[t].pc.entry == e)
  }

  /** Nothing is stored, sent or remembered that was not before, but for what `t` has just committed. */
  ghost predicate OnlySent(s: State, s': State, t: TxnId) {
    && (forall k :: k in s'.entries ==> Sent(s, k, s'.entries[k].entry))
    && (forall k, e, o :: LateRemember(k, e, o) in s'.inflight ==> Sent(s, k, e))
    && (forall u :: u in s'.txns && u != t && s'.txns[u].pc.Remembering? ==> u in s.txns && s'.txns[u] == s.txns[u])
  }

  lemma {:induction false} NoneFromRemembering(s: State, a: Action, s': State)
    requires Alone(a) && a.t in s.txns && StepOf(s, a) == Some(s')
    ensures !s.txns[a.t].pc.Remembering?
  {}

  lemma {:induction false} AloneSends(s: State, s': State, t: TxnId)
    requires RedisAlone(s, s', t)
    ensures OnlySent(s, s', t)
  {}

  lemma {:induction false} ClaimSends(s: State, t: TxnId, reply: Reply, s': State)
    requires t in s.txns && StepClaim(s, t, reply) == Some(s')
    ensures OnlySent(s, s', t) && !s'.txns[t].pc.Remembering?
  {}

  lemma {:induction false} ReturnSends(s: State, t: TxnId, reply: Reply, s': State)
    requires t in s.txns && StepReturn(s, t, reply) == Some(s')
    ensures OnlySent(s, s', t) && !s'.txns[t].pc.Remembering?
  {}

  lemma {:induction false} RememberSends(s: State, t: TxnId, reply: Reply, s': State)
    requires t in s.txns && StepRemember(s, t, reply) == Some(s')
    ensures OnlySent(s, s', t) && !s'.txns[t].pc.Remembering?
  {
    assert Sent(s, s.txns[t].req.hash, s.txns[t].pc.entry);
  }

  lemma {:induction false} DeliverSends(s: State, c: Command, s': State)
    requires StepDeliver(s, c) == Some(s')
    ensures forall k :: k in s'.entries ==> Sent(s, k, s'.entries[k].entry)
    ensures forall k, e, o :: LateRemember(k, e, o) in s'.inflight ==> Sent(s, k, e)
    ensures s'.txns.Keys == s.txns.Keys
    ensures forall u :: u in s.txns ==> s'.txns[u].pc == s.txns[u].pc && s'.txns[u].req == s.txns[u].req
  {
    if c.LateRemember? { assert Sent(s, c.hash, c.entry); }
  }

  /** What a commit leaves to be remembered. */
  lemma {:induction false} CommitSends(s: State, t: TxnId, cca: Option<Stamp>, s': State)
    requires t in s.txns && StepCommit(s, t, cca) == Some(s')
    ensures s'.entries == s.entries && s'.inflight == s.inflight && s.txns[t].pc.Ready?
    ensures t in s'.txns && s'.txns[t].req == s.txns[t].req
    ensures forall u :: u in s'.txns && u != t ==> u in s.txns && s'.txns[u] == s.txns[u]
    ensures var x, pc := s.txns[t], s'.txns[t].pc;
      && (pc == Done(x.pc.outcome) || (pc.Remembering? && pc.outcome == x.pc.outcome))
      && (pc.Remembering? ==>
            && x.req.Refresh? && x.req.ua == Some(pc.entry.ua) && x.req.subnet == Some(pc.entry.subnet)
            && x.pc.outcome.Rotated? && x.pc.outcome.newId == pc.entry.tokenId && pc.entry.tokenId in x.writes
            && x.writes[pc.entry.tokenId].hash == pc.entry.token && pc.entry.cca == cca)
  {}

  lemma {:induction false} FromRotationStays(h: History, n: nat, k: Hash, e: Entry)
    requires IsRun(h) && n < |h.actions| && FromRotation(h, n, k, e)
    ensures FromRotation(h, n + 1, k, e)
  {
    var m: nat, u :| m < n && Rotates(h, m, u, k, e);
  }

  lemma {:induction false} SentIsKnown(h: History, n: nat, k: Hash, e: Entry)
    requires IsRun(h) && n < |h.actions| && EntriesKnown(h, n) && Sent(h.states[n], k, e)
    ensures FromRotation(h, n + 1, k, e)
  {
    hide FromRotation, Goes, Initial;
    FromRotationStays(h, n, k, e);
  }

  lemma {:induction false} KnownAfter(h: History, n: nat, t: TxnId)
    requires IsRun(h) && n < |h.actions| && EntriesKnown(h, n) && OnlySent(h.states[n], h.states[n + 1], t)
    requires t in h.states[n + 1].txns ==> !h.states[n + 1].txns[t].pc.Remembering?
    ensures EntriesKnown(h, n + 1)
  {
    hide FromRotation, Goes, Initial, Sent;
    var s, s' := h.states[n], h.states[n + 1];
    forall k | k in s'.entries ensures FromRotation(h, n + 1, k, s'.entries[k].entry) {
      SentIsKnown(h, n, k, s'.entries[k].entry);
    }
    forall k, e, o | LateRemember(k, e, o) in s'.inflight ensures FromRotation(h, n + 1, k, e) {
      SentIsKnown(h, n, k, e);
    }
    forall u | u in s'.txns && s'.txns[u].req.Refresh? && s'.txns[u].pc.Remembering?
      ensures FromRotation(h, n + 1, s'.txns[u].req.hash, s'.txns[u].pc.entry)
    {
      FromRotationStays(h, n, s'.txns[u].req.hash, s'.txns[u].pc.entry);
    }
  }

  lemma {:induction false} KnownAfterOuter(h: History, n: nat)
    requires IsRun(h) && n < |h.actions| && EntriesKnown(h, n) && Outer(h.actions[n])
    ensures EntriesKnown(h, n + 1)
  {
    assert Goes(h, n);
    hide FromRotation;
    var s, a, s' := h.states[n], h.actions[n], h.states[n + 1];
    match a
    case Begin(t, req) =>
      AloneBegin(s, t, req);
      AloneSends(s, s', t);
      KnownAfter(h, n, t);
    case Expire(k) =>
      forall k | k in s'.entries ensures FromRotation(h, n + 1, k, s'.entries[k].entry) {
        FromRotationStays(h, n, k, s.entries[k].entry);
      }
      KnownElsewhere(h, n);
    case Deliver(c) =>
      DeliverSends(s, c, s');
      forall k | k in s'.entries ensures FromRotation(h, n + 1, k, s'.entries[k].entry) {
        SentIsKnown(h, n, k, s'.entries[k].entry);
      }
      KnownElsewhere(h, n);
  }

  lemma {:induction false} KnownElsewhere(h: History, n: nat)
    requires IsRun(h) && n < |h.actions| && EntriesKnown(h, n)
    ensures var s, s' := h.states[n], h.states[n + 1];
      && (s'.inflight <= s.inflight ==>
            forall k, e, o :: LateRemember(k, e, o) in s'.inflight ==> FromRotation(h, n + 1, k, e))
      && ((s'.txns.Keys == s.txns.Keys && forall u :: u in s.txns ==>
            s'.txns[u].pc == s.txns[u].pc && s'.txns[u].req == s.txns[u].req) ==>
            forall t :: t in s'.txns && s'.txns[t].req.Refresh? && s'.txns[t].pc.Remembering? ==>
              FromRotation(h, n + 1, s'.txns[t].req.hash, s'.txns[t].pc.entry))
  {
    hide FromRotation, Goes, Initial;
    forall k, e | FromRotation(h, n, k, e) ensures FromRotation(h, n + 1, k, e) { FromRotationStays(h, n, k, e); }
  }

  lemma {:induction false} KnownAfterCommit(h: History, n: nat, t: TxnId, cca: Option<Stamp>)
    requires IsRun(h) && n < |h.actions| && EntriesKnown(h, n) && h.actions[n] == Commit(t, cca)
    requires t in h.states[n].txns && StepCommit(h.states[n], t, cca) == Some(h.states[n + 1])
    ensures EntriesKnown(h, n + 1)
  {
    hide FromRotation, Goes, Initial;
    var s, s' := h.states[n], h.states[n + 1];
    CommitSends(s, t, cca, s');
    hide StepCommit;
    forall k, e | FromRotation(h, n, k, e) ensures FromRotation(h, n + 1, k, e) { FromRotationStays(h, n, k, e); }
    if s'.txns[t].req.Refresh? && s'.txns[t].pc.Remembering? {
      JustRotated(h, n, t, s'.txns[t].req.hash, s'.txns[t].pc.entry);
    }
  }

  lemma {:induction false} JustRotated(h: History, n: nat, t: TxnId, hash: Hash, e: Entry)
    requires IsRun(h) && Rotates(h, n, t, hash, e)
    ensures FromRotation(h, n + 1, hash, e)
  {}

  lemma {:induction false} AlwaysKnown(h: History, n: nat)
    requires IsRun(h) && n <= |h.actions|
    ensures EntriesKnown(h, n)
  {
    hide Step, StepOf, FromRotation;
    if n > 0 {
      AlwaysKnown(h, n - 1);
      assert Goes(h, n - 1);
      var s, a, s' := h.states[n - 1], h.actions[n - 1], h.states[n];
      if Outer(a) { KnownAfterOuter(h, n - 1); }
      else {
        StepIsOf(s, a, s');
        KnownAfterStatement(h, n - 1);
      }
    }
  }

  lemma {:induction false} KnownAfterStatement(h: History, n: nat)
    requires IsRun(h) && n < |h.actions| && EntriesKnown(h, n) && !Outer(h.actions[n])
    requires h.actions[n].t in h.states[n].txns && StepOf(h.states[n], h.actions[n]) == Some(h.states[n + 1])
    ensures EntriesKnown(h, n + 1)
  {
    hide FromRotation, Goes, Initial, OnlySent, EntriesKnown;
    var s, a, s' := h.states[n], h.actions[n], h.states[n + 1];
    if Alone(a) {
      StepIsAlone(s, a, s');
      NoneFromRemembering(s, a, s');
      AloneSends(s, s', a.t);
      KnownAfter(h, n, a.t);
    } else {
      match a
      case Commit(t, cca) => KnownAfterCommit(h, n, t, cca);
      case Claim(t, reply) => ClaimSends(s, t, reply, s'); KnownAfter(h, n, t);
      case Return(t, reply) => ReturnSends(s, t, reply, s'); KnownAfter(h, n, t);
      case Remember(t, reply) => RememberSends(s, t, reply, s'); KnownAfter(h, n, t);
    }
  }

  // ---- the presentations ----------------------------------------------------------------------------

  /** What is known of the past of a refresh at its place. */
  ghost predicate Explained(h: History, n: nat, t: TxnId)
    requires IsRun(h) && n <= |h.actions| && t in h.states[n].txns
  {
    var x := h.states[n].txns[t];
    x.req.Refresh? ==>
      match x.pc
      case Loaded(_, _, entry) => FromRotation(h, n, x.req.hash, entry)
      case Vetting(_, _, entry, child) => HasRead(h, n, t, x.req.hash, entry, child)
      case Cleared(_, _, entry, child) => HasVetted(h, n, t, x.req, entry, child)
      case Charged(_, _, entry, child) => HasVetted(h, n, t, x.req, entry, child)
      case Ready(o) => OutcomeCause(h, n, t, x.req, o)
      case Remembering(o, _) => OutcomeCause(h, n, t, x.req, o)
      case Done(o) => OutcomeCause(h, n, t, x.req, o)
      case _ => true
  }

  lemma {:induction false} HasReadStays(h: History, n: nat, t: TxnId, hash: Hash, entry: Entry, child: Row)
    requires IsRun(h) && n < |h.actions| && HasRead(h, n, t, hash, entry, child)
    ensures HasRead(h, n + 1, t, hash, entry, child)
  {
    hide FromRotation, Reads;
    var r: nat, now :| r < n && FromRotation(h, r, hash, entry) && Reads(h, r, t, now, entry, child);
  }

  lemma {:induction false} HasVettedStays(h: History, n: nat, t: TxnId, req: Request, entry: Entry, child: Row)
    requires IsRun(h) && n < |h.actions| && req.Refresh? && HasVetted(h, n, t, req, entry, child)
    ensures HasVetted(h, n + 1, t, req, entry, child)
  {
    hide HasRead, Vets;
    var v: nat, dbNow, account :|
      v < n && HasRead(h, v, t, req.hash, entry, child) && Vets(h, v, t, dbNow, account, entry, child);
  }

  lemma {:induction false} HasReplayedStays(h: History, n: nat, t: TxnId, req: Request, child: TokenId, token: Hash)
    requires IsRun(h) && n < |h.actions| && req.Refresh? && HasReplayed(h, n, t, req, child, token)
    ensures HasReplayed(h, n + 1, t, req, child, token)
  {
    hide HasVetted;
    var entry: Entry, row: Row :|
      entry.tokenId == child && entry.token == token && HasVetted(h, n, t, req, entry, row);
    HasVettedStays(h, n, t, req, entry, row);
  }

  lemma {:induction false} CauseStays(h: History, n: nat, t: TxnId, req: Request, o: Outcome)
    requires IsRun(h) && n < |h.actions| && req.Refresh? && OutcomeCause(h, n, t, req, o)
    ensures OutcomeCause(h, n + 1, t, req, o)
  {
    hide HasReplayed, FoundNobody, Refused, Granted, Goes, Initial;
    if o.Replayed? { HasReplayedStays(h, n, t, req, o.child, o.token); }
  }

  lemma {:induction false} ExplainedStays(h: History, n: nat, t: TxnId)
    requires IsRun(h) && n < |h.actions| && t in h.states[n].txns && Explained(h, n, t)
    requires t in h.states[n + 1].txns && h.states[n + 1].txns[t].pc == h.states[n].txns[t].pc
      && h.states[n + 1].txns[t].req == h.states[n].txns[t].req
    ensures Explained(h, n + 1, t)
  {
    hide HasRead, HasVetted, OutcomeCause, FromRotation, Goes, Initial;
    var x := h.states[n].txns[t];
    if x.req.Refresh? {
      match x.pc
      case Loaded(_, _, entry) => FromRotationStays(h, n, x.req.hash, entry);
      case Vetting(_, _, entry, child) => HasReadStays(h, n, t, x.req.hash, entry, child);
      case Cleared(_, _, entry, child) => HasVettedStays(h, n, t, x.req, entry, child);
      case Charged(_, _, entry, child) => HasVettedStays(h, n, t, x.req, entry, child);
      case Ready(o) => CauseStays(h, n, t, x.req, o);
      case Remembering(o, _) => CauseStays(h, n, t, x.req, o);
      case Done(o) => CauseStays(h, n, t, x.req, o);
      case _ =>
    }
  }

  /** Places of which nothing is told. */
  predicate Quiet(pc: Pc) {
    match pc
    case Start => true
    case Locking(_, _) => true
    case Locked(_) => true
    case Fetched(_, _) => true
    case Returning(_, _, _) => true
    case Checking(_, _, _) => true
    case Updating(_, _, _) => true
    case Ready(o) => QuietOutcome(o)
    case Done(o) => QuietOutcome(o)
    case _ => false
  }

  predicate QuietOutcome(o: Outcome) { o.LoggedIn? || o.Conflict? || o.Killed? || o.Aborted? }

  lemma QuietIsExplained(h: History, n: nat, t: TxnId)
    requires IsRun(h) && n <= |h.actions| && t in h.states[n].txns
    requires Quiet(h.states[n].txns[t].pc) || !h.states[n].txns[t].req.Refresh?
    ensures Explained(h, n, t)
  {}

  predicate QuietMove(a: Action) {
    a.Open? || a.Find? || a.ListFamilies? || a.Acquire? || a.Fetch? || a.SkipReplay? || a.Judge? || a.Return?
    || a.StartUpdate? || a.UpdateRow? || a.EndUpdate? || a.Abort?
  }

  lemma {:induction false} QuietLooks(s: State, a: Action, s': State)
    requires (a.Open? || a.Find? || a.ListFamilies? || a.Acquire? || a.Fetch? || a.SkipReplay?) && a.t in s.txns
      && StepOf(s, a) == Some(s')
    ensures a.t in s'.txns && Quiet(s'.txns[a.t].pc)
  {}

  lemma {:induction false} QuietUpdates(s: State, a: Action, s': State)
    requires (a.StartUpdate? || a.UpdateRow? || a.EndUpdate?) && a.t in s.txns && StepOf(s, a) == Some(s')
    ensures a.t in s'.txns && Quiet(s'.txns[a.t].pc)
  {}

  lemma {:induction false} QuietReturn(s: State, t: TxnId, reply: Reply, s': State)
    requires t in s.txns && StepReturn(s, t, reply) == Some(s')
    ensures t in s'.txns && Quiet(s'.txns[t].pc)
  {}

  lemma {:induction false} QuietAbort(s: State, t: TxnId, s': State)
    requires t in s.txns && StepAbort(s, t) == Some(s')
    ensures t in s'.txns && Quiet(s'.txns[t].pc)
  {}

  lemma {:induction false} QuietMoves(s: State, a: Action, s': State)
    requires QuietMove(a) && a.t in s.txns && StepOf(s, a) == Some(s')
    ensures a.t in s'.txns && Quiet(s'.txns[a.t].pc)
  {
    if a.Judge? { JudgeGoes(s, a.t, a.dbNow, s'); }
    else if a.Return? { QuietReturn(s, a.t, a.reply, s'); }
    else if a.Abort? { QuietAbort(s, a.t, s'); }
    else if a.StartUpdate? || a.UpdateRow? || a.EndUpdate? { QuietUpdates(s, a, s'); }
    else { QuietLooks(s, a, s'); }
  }

  /** What the statements see that decide an unspent token. */
  lemma {:induction false} LiveDecisions(s: State, a: Action, s': State)
    requires (a.FindNone? || a.Refuse? || a.Rotate?) && a.t in s.txns && TxnOk(s, a.t) && StepOf(s, a) == Some(s')
    requires s.txns[a.t].req.Refresh?
    ensures a.t in s'.txns && s'.txns[a.t].req == s.txns[a.t].req
    ensures a.FindNone? ==>
      && s'.txns[a.t].pc == Ready(Unknown)
      && forall id :: id in s.db ==> s.db[id].hash != s.txns[a.t].req.hash
    ensures a.Refuse? || a.Rotate? ==>
      && s.txns[a.t].pc.Fetched? && s.txns[a.t].pc.id in s.db
      && var row := s.db[s.txns[a.t].pc.id];
         && row.hash == s.txns[a.t].req.hash && !row.revoked && row.replacedBy.None?
         && (a.Refuse? ==>
               && (row.expires <= a.now || a.account.None? || !a.account.value.active)
               && s'.txns[a.t].pc == Ready(Expired(s.txns[a.t].pc.id)))
         && (a.Rotate? ==>
               && a.now < row.expires && a.account.Some? && a.account.value.active && a.newId !in s.db
               && s'.txns[a.t].pc == Ready(Rotated(s.txns[a.t].pc.id, a.newId)))
  {
    if a.FindNone? { assert forall id :: id in s.db ==> !Presents(s.txns[a.t].req, s.db[id]); }
  }

  lemma {:induction false} ExplainedByLive(h: History, n: nat, t: TxnId)
    requires IsRun(h) && n < |h.actions| && t in h.states[n].txns && TxnOk(h.states[n], t)
    requires (h.actions[n].FindNone? || h.actions[n].Refuse? || h.actions[n].Rotate?) && h.actions[n].t == t
    requires h.states[n].txns[t].req.Refresh? && StepOf(h.states[n], h.actions[n]) == Some(h.states[n + 1])
    ensures t in h.states[n + 1].txns && Explained(h, n + 1, t)
  {
    LiveDecisions(h.states[n], h.actions[n], h.states[n + 1]);
    hide StepOf, TxnOk, Goes, Initial;
    var x := h.states[n].txns[t];
    match h.actions[n]
    case FindNone(_) => assert FoundNobody(h, n, t, x.req.hash);
    case Refuse(_, _, _) => assert Refused(h, n, t, x.req.hash, x.pc.id);
    case Rotate(_, _, _, newId, _, _, _) => assert Granted(h, n, t, x.req.hash, x.pc.id, newId);
  }

  /** What the statements of a replay see. */
  lemma {:induction false} LoadSees(s: State, t: TxnId, decoded: bool, reply: Reply, s': State)
    requires t in s.txns && StepLoad(s, t, decoded, reply) == Some(s')
    ensures t in s'.txns && s'.txns[t].req == s.txns[t].req && s.txns[t].req.Refresh?
    ensures var pc := s'.txns[t].pc;
      pc.Checking? || (pc.Loaded? && s.txns[t].req.hash in s.entries
        && pc.entry == s.entries[s.txns[t].req.hash].entry)
  {}

  lemma {:induction false} ReadSees(s: State, t: TxnId, now: Time, s': State)
    requires t in s.txns && StepReadChild(s, t, now) == Some(s')
    ensures t in s'.txns && s'.txns[t].req == s.txns[t].req && s.txns[t].pc.Loaded?
    ensures var e, pc := s.txns[t].pc.entry, s'.txns[t].pc;
      pc.Checking? || (pc.Vetting? && pc.entry == e && e.tokenId in s.db && s.db[e.tokenId] == pc.child
        && pc.child.hash == e.token && !pc.child.revoked && pc.child.replacedBy.None? && now < pc.child.expires)
  {}

  lemma {:induction false} VetSees(s: State, t: TxnId, dbNow: Time, account: Option<Account>, s': State)
    requires t in s.txns && StepVet(s, t, dbNow, account) == Some(s')
    ensures t in s'.txns && s'.txns[t].req == s.txns[t].req && s.txns[t].pc.Vetting? && s.txns[t].req.Refresh?
    ensures var x, pc := s.txns[t], s'.txns[t].pc;
      pc.Checking? || (pc.Cleared? && pc.entry == x.pc.entry && pc.child == x.pc.child
        && dbNow <= pc.child.created + s.cfg.window && account.Some? && account.value.active
        && account.value.cca == pc.entry.cca && x.req.ua == Some(pc.entry.ua) && x.req.subnet == Some(pc.entry.subnet))
  {}

  lemma {:induction false} ClaimSees(s: State, t: TxnId, reply: Reply, s': State)
    requires t in s.txns && StepClaim(s, t, reply) == Some(s')
    ensures t in s'.txns && s'.txns[t].req == s.txns[t].req && s.txns[t].pc.Cleared?
    ensures var pc, pc' := s.txns[t].pc, s'.txns[t].pc;
      pc'.Checking? || (pc'.Charged? && pc'.entry == pc.entry && pc'.child == pc.child)
  {}

  lemma {:induction false} BudgetSees(s: State, t: TxnId, within: Option<bool>, s': State)
    requires t in s.txns && StepBudget(s, t, within) == Some(s')
    ensures t in s'.txns && s'.txns[t].req == s.txns[t].req && s.txns[t].pc.Charged?
    ensures var pc, pc' := s.txns[t].pc, s'.txns[t].pc;
      pc'.Checking? || pc'.Returning? || pc' == Ready(Replayed(pc.id, pc.entry.tokenId, pc.entry.token))
  {
    BudgetGoes(s, s', t, within);
    hide StepBudget;
  }

  lemma {:induction false} ExplainedByRead(h: History, n: nat, t: TxnId)
    requires IsRun(h) && n < |h.actions| && t in h.states[n].txns && Explained(h, n, t) && EntriesKnown(h, n)
    requires (h.actions[n].Load? || h.actions[n].ReadChild?) && h.actions[n].t == t
    requires h.states[n].txns[t].req.Refresh? && StepOf(h.states[n], h.actions[n]) == Some(h.states[n + 1])
    ensures t in h.states[n + 1].txns && Explained(h, n + 1, t)
  {
    hide FromRotation, Goes, Initial, StepLoad, StepReadChild;
    var s, a, s' := h.states[n], h.actions[n], h.states[n + 1];
    var x := s.txns[t];
    if a.Load? {
      LoadSees(s, t, a.decoded, a.reply, s');
      if s'.txns[t].pc.Loaded? { FromRotationStays(h, n, x.req.hash, s'.txns[t].pc.entry); }
    } else {
      ReadSees(s, t, a.now, s');
      if s'.txns[t].pc.Vetting? { assert Reads(h, n, t, a.now, x.pc.entry, s'.txns[t].pc.child); }
    }
  }

  lemma {:induction false} ExplainedByVet(h: History, n: nat, t: TxnId)
    requires IsRun(h) && n < |h.actions| && t in h.states[n].txns && Explained(h, n, t)
    requires (h.actions[n].Vet? || h.actions[n].Claim? || h.actions[n].Budget?) && h.actions[n].t == t
    requires h.states[n].txns[t].req.Refresh? && StepOf(h.states[n], h.actions[n]) == Some(h.states[n + 1])
    ensures t in h.states[n + 1].txns && Explained(h, n + 1, t)
  {
    hide HasRead, Goes, Initial, StepVet, StepClaim, StepBudget;
    var s, a, s' := h.states[n], h.actions[n], h.states[n + 1];
    var x := s.txns[t];
    match a
    case Vet(_, dbNow, account) =>
      VetSees(s, t, dbNow, account, s');
      if s'.txns[t].pc.Cleared? { assert Vets(h, n, t, dbNow, account.value, x.pc.entry, x.pc.child); }
    case Claim(_, reply) =>
      ClaimSees(s, t, reply, s');
      if s'.txns[t].pc.Charged? { HasVettedStays(h, n, t, x.req, x.pc.entry, x.pc.child); }
    case Budget(_, within) =>
      BudgetSees(s, t, within, s');
      if s'.txns[t].pc.Ready? { HasVettedStays(h, n, t, x.req, x.pc.entry, x.pc.child); }
  }

  lemma {:induction false} RememberEnds(s: State, t: TxnId, reply: Reply, s': State)
    requires t in s.txns && StepRemember(s, t, reply) == Some(s')
    ensures t in s'.txns && s'.txns[t].req == s.txns[t].req && s.txns[t].pc.Remembering?
    ensures s'.txns[t].pc == Done(s.txns[t].pc.outcome)
  {}

  lemma {:induction false} ExplainedByEnd(h: History, n: nat, t: TxnId)
    requires IsRun(h) && n < |h.actions| && t in h.states[n].txns && Explained(h, n, t)
    requires (h.actions[n].Commit? || h.actions[n].Remember?) && h.actions[n].t == t
    requires h.states[n].txns[t].req.Refresh? && StepOf(h.states[n], h.actions[n]) == Some(h.states[n + 1])
    ensures t in h.states[n + 1].txns && Explained(h, n + 1, t)
  {
    hide OutcomeCause, Goes, Initial, StepCommit, StepRemember;
    var s, a, s' := h.states[n], h.actions[n], h.states[n + 1];
    if a.Commit? { CommitSends(s, t, a.cca, s'); } else { RememberEnds(s, t, a.reply, s'); }
    CauseStays(h, n, t, s.txns[t].req, s.txns[t].pc.outcome);
  }

  lemma {:induction false} ExplainedByOwn(h: History, n: nat, t: TxnId)
    requires IsRun(h) && n < |h.actions| && t in h.states[n].txns && Explained(h, n, t) && EntriesKnown(h, n)
    requires !Outer(h.actions[n]) && h.actions[n].t == t && TxnOk(h.states[n], t)
    requires StepOf(h.states[n], h.actions[n]) == Some(h.states[n + 1])
    requires t in h.states[n + 1].txns && h.states[n + 1].txns[t].req == h.states[n].txns[t].req
    ensures Explained(h, n + 1, t)
  {
    hide Explained, EntriesKnown, Goes, Initial, StepOf, TxnOk;
    var s, a := h.states[n], h.actions[n];
    if !s.txns[t].req.Refresh? { QuietIsExplained(h, n + 1, t); }
    else if QuietMove(a) { QuietMoves(s, a, h.states[n + 1]); QuietIsExplained(h, n + 1, t); }
    else if a.FindNone? || a.Refuse? || a.Rotate? { ExplainedByLive(h, n, t); }
    else if a.Load? || a.ReadChild? { ExplainedByRead(h, n, t); }
    else if a.Vet? || a.Claim? || a.Budget? { ExplainedByVet(h, n, t); }
    else { ExplainedByEnd(h, n, t); }
  }

  lemma {:induction false} AlwaysExplained(h: History, n: nat, t: TxnId)
    requires IsRun(h) && n <= |h.actions| && t in h.states[n].txns
    ensures Explained(h, n, t)
    decreases n
  {
    hide Explained, EntriesKnown, Inv, Step, StepOf, TxnOk;
    if n > 0 {
      var s, a, s' := h.states[n - 1], h.actions[n - 1], h.states[n];
      assert Goes(h, n - 1);
      if t !in s.txns {
        NewcomerStarts(s, a, s', t);
        QuietIsExplained(h, n, t);
      } else {
        AlwaysExplained(h, n - 1, t);
        AlwaysKnown(h, n - 1);
        Prefix(h, n - 1);
        if a.Deliver? || a.Expire? || a.t != t {
          OthersStand(s, a, s', t);
          ExplainedStays(h, n - 1, t);
        } else {
          OwnStatement(s, a, s', t);
          ExplainedByOwn(h, n - 1, t);
        }
      }
    }
  }

  lemma OwnStatement(s: State, a: Action, s': State, t: TxnId)
    requires Inv(s) && Step(s, a) == Some(s') && t in s.txns && !a.Deliver? && !a.Expire? && a.t == t
    ensures !Outer(a) && TxnOk(s, t) && StepOf(s, a) == Some(s') && t in s'.txns && s'.txns[t].req == s.txns[t].req
  {
    assert !a.Begin?;
    OwnKeepsRequest(s, a, s');
    StepIsOf(s, a, s');
  }

  // ---- which answers are open -------------------------------------------------------------------------

  /** An unspent token under its lock is refused exactly if it has expired or the account is missing or inactive, and
      otherwise can be rotated exactly into a new id and hash; nothing else is open to it but giving up. */
  lemma {:induction false} UnspentTokensAreDecided(s: State, t: TxnId, now: Time, account: Option<Account>,
                                                   newId: TokenId, hash: Hash, created: Time, expires: Time)
    requires t in s.txns && s.txns[t].pc.Fetched? && !s.txns[t].pc.row.revoked && s.txns[t].pc.row.replacedBy.None?
    ensures var row := s.txns[t].pc.row;
      && (Step(s, Refuse(t, now, account)).Some? <==>
            row.expires <= now || account.None? || !account.value.active)
      && (Step(s, Rotate(t, now, account, newId, hash, created, expires)).Some? <==>
            && now < row.expires && account.Some? && account.value.active
            && FreshId(s, newId) && FreshHash(s, hash))
      && Step(s, SkipReplay(t)).None?
      && (forall decoded, reply :: Step(s, Load(t, decoded, reply)).None?)
  {
    hide FreshId, FreshHash;
  }

  /** A spent one is looked up for a replay exactly if Redis is there and the window is open. */
  lemma {:induction false} SpentTokensAreLoaded(s: State, t: TxnId, decoded: bool, reply: Reply)
    requires t in s.txns && s.txns[t].pc.Fetched? && s.txns[t].req.Refresh?
    requires s.txns[t].pc.row.revoked || s.txns[t].pc.row.replacedBy.Some?
    ensures Step(s, Load(t, decoded, reply)).Some? <==> s.txns[t].req.redis && s.cfg.window > 0
    ensures Step(s, SkipReplay(t)).Some? <==> !(s.txns[t].req.redis && s.cfg.window > 0)
    ensures forall now, account :: Step(s, Refuse(t, now, account)).None?
  {}

  /** The two rows a rotation writes. */
  lemma {:induction false} RotationsWriteBothRows(s: State, t: TxnId, now: Time, account: Option<Account>,
                                                  newId: TokenId, hash: Hash, created: Time, expires: Time, s': State)
    requires Step(s, Rotate(t, now, account, newId, hash, created, expires)) == Some(s')
    ensures t in s.txns && s.txns[t].pc.Fetched? && t in s'.txns
    ensures var id, row := s.txns[t].pc.id, s.txns[t].pc.row;
      s'.txns[t].writes == map[id := Row(row.user, row.family, row.hash, row.created, row.expires, true, Some(newId)),
                               newId := Row(row.user, row.family, hash, created, expires, false, None)]
  {
    hide FreshId, FreshHash;
  }

  /** A committed rotation is remembered for a replay exactly if Redis is there, the window is open, and the request had
      a user agent and a known address: for these and the account's stamp. */
  lemma {:induction false} RotationsAreRemembered(s: State, t: TxnId, cca: Option<Stamp>, s': State, id: TokenId,
                                                  newId: TokenId)
    requires Inv(s) && Step(s, Commit(t, cca)) == Some(s') && t in s.txns && s.txns[t].pc == Ready(Rotated(id, newId))
    ensures t in s'.txns && s.txns[t].req.Refresh? && newId in s'.db
    ensures var req, pc := s.txns[t].req, s'.txns[t].pc;
      if req.redis && s.cfg.window > 0 && req.ua.Some? && req.subnet.Some?
      then pc == Remembering(Rotated(id, newId), Entry(s'.db[newId].hash, newId, req.ua.value, req.subnet.value, cca))
      else pc == Done(Rotated(id, newId))
  {
    hide TableOk, Apart, Owned, RefreshInvariant.RotatedOnce, BlindRevoked;
    assert TxnOk(s, t);
  }

  // ---- the results ----------------------------------------------------------------------------------

  /** A replay that is granted answers the client of the rotation. Some transaction `u` committed at `m` a rotation of
      the same token into the replacement that is handed back, for a request with the same user agent and subnet; the
      presentation then read the replacement at `r`, with the handed-back hash, unrevoked, unused and unexpired; and at
      `v` found it within the window, and the account active with the stamp it had at the commit. */
  lemma {:induction false} ReplaysAnswerTheRotatingClient(h: History, t: TxnId, id: TokenId, child: TokenId,
                                                          token: Hash)
      returns (m: nat, u: TxnId, r: nat, v: nat)
    requires IsRun(h) && t in Last(h).txns && Last(h).txns[t].req.Refresh?
    requires Last(h).txns[t].pc == Done(Replayed(id, child, token))
    ensures m < r < v < |h.actions|
    ensures h.actions[m].Commit? && h.actions[m].t == u && u in h.states[m].txns
    ensures var x, req := h.states[m].txns[u], Last(h).txns[t].req;
      && x.req.Refresh? && x.req.hash == req.hash && x.req.ua == req.ua && x.req.ua.Some?
      && x.req.subnet == req.subnet && x.req.subnet.Some?
      && x.pc.Ready? && x.pc.outcome.Rotated? && x.pc.outcome.newId == child
      && child in x.writes && x.writes[child].hash == token
    ensures h.actions[r].ReadChild? && h.actions[r].t == t && child in h.states[r].db
    ensures var row := h.states[r].db[child];
      && row.hash == token && !row.revoked && row.replacedBy.None? && h.actions[r].now < row.expires
      && h.actions[v].Vet? && h.actions[v].t == t && h.actions[v].dbNow <= row.created + h.states[v].cfg.window
    ensures h.actions[v].account.Some? && h.actions[v].account.value.active
      && h.actions[v].account.value.cca == h.actions[m].cca
  {
    AlwaysExplained(h, |h.actions|, t);
    hide Goes, Initial;
    var req := Last(h).txns[t].req;
    var entry: Entry, row: Row :|
      entry.tokenId == child && entry.token == token && HasVetted(h, |h.actions|, t, req, entry, row);
    m, u, r, v := VettedWhen(h, |h.actions|, t, req, entry, row);
  }

  lemma {:induction false} VettedWhen(h: History, n: nat, t: TxnId, req: Request, entry: Entry, child: Row)
      returns (m: nat, u: TxnId, r: nat, v: nat)
    requires IsRun(h) && req.Refresh? && HasVetted(h, n, t, req, entry, child)
    ensures m < r < v < n && Rotates(h, m, u, req.hash, entry)
    ensures r < |h.actions| && h.actions[r].ReadChild? && Reads(h, r, t, h.actions[r].now, entry, child)
    ensures v < |h.actions| && h.actions[v].Vet? && h.actions[v].account.Some?
      && Vets(h, v, t, h.actions[v].dbNow, h.actions[v].account.value, entry, child)
  {
    hide Goes, Initial, Rotates;
    var v0: nat, dbNow, account :|
      v0 < n && HasRead(h, v0, t, req.hash, entry, child) && Vets(h, v0, t, dbNow, account, entry, child);
    var r0: nat, now :| r0 < v0 && FromRotation(h, r0, req.hash, entry) && Reads(h, r0, t, now, entry, child);
    var m0: nat, u0 :| m0 < r0 && Rotates(h, m0, u0, req.hash, entry);
    m, u, r, v := m0, u0, r0, v0;
  }

  /** The other answers to an unspent token have their causes as well: a rotation found the row live and unexpired and
      the account active; a refusal found it live, and expired or the account missing or inactive; an unknown token was
      no row's. */
  lemma {:induction false} LiveAnswersHaveCauses(h: History, t: TxnId) returns (r: nat)
    requires IsRun(h) && t in Last(h).txns && Last(h).txns[t].req.Refresh? && Last(h).txns[t].pc.Done?
    requires var o := Last(h).txns[t].pc.outcome; o.Rotated? || o.Expired? || o.Unknown?
    ensures r < |h.actions|
    ensures var o, a, hash := Last(h).txns[t].pc.outcome, h.actions[r], Last(h).txns[t].req.hash;
      && (o.Unknown? ==> a == FindNone(t) && forall id :: id in h.states[r].db ==> h.states[r].db[id].hash != hash)
      && (!o.Unknown? ==>
            && (a.Rotate? || a.Refuse?) && a.t == t && o.id in h.states[r].db
            && var row := h.states[r].db[o.id];
               && row.hash == hash && !row.revoked && row.replacedBy.None?
               && (o.Rotated? <==> a.now < row.expires && a.account.Some? && a.account.value.active)
               && (o.Rotated? ==> a.Rotate? && a.newId == o.newId))
  {
    AlwaysExplained(h, |h.actions|, t);
    hide Goes, Initial;
    var o, hash := Last(h).txns[t].pc.outcome, Last(h).txns[t].req.hash;
    match o
    case Unknown => var n: nat :| n < |h.actions| && FoundNobody(h, n, t, hash); r := n;
    case Expired(id) => var n: nat :| n < |h.actions| && Refused(h, n, t, hash, id); r := n;
    case Rotated(id, newId) => var n: nat :| n < |h.actions| && Granted(h, n, t, hash, id, newId); r := n;
  }
}
