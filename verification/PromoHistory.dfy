/**
 Why a redemption succeeds or is refused, in terms of what happened before it.

 A run is followed state by state. Behind every committed redemption stand a lookup, a check and
 a claim of the same transaction that found the code fit for that user; behind every refusal the
 statement that found otherwise, in the order of the checks.
 */
module PromoHistory {
  import opened Options
  import opened PromoProtocol
  import opened PromoInvariant

  datatype History = History(states: seq<State>, actions: seq<Action>)

  ghost predicate Goes(h: History, n: nat)
    requires n < |h.actions| && n + 1 < |h.states|
  {
    Step(h.states[n], h.actions[n]) == Some(h.states[n + 1])
  }

  ghost predicate IsRun(h: History) {
    && |h.states| == |h.actions| + 1 && h.states[0] == EMPTY
    && forall n {:trigger Goes(h, n)} :: 0 <= n < |h.actions| ==> Goes(h, n)
  }

  function Last(h: History): State
    requires |h.states| > 0
  {
    h.states[|h.states| - 1]
  }

  /** Every reachable state has a history. */
  lemma {:induction false} ReachableHasHistory(s: State) returns (h: History)
    requires Reachable(s)
    ensures IsRun(h) && Last(h) == s
  {
    var actions :| Run(EMPTY, actions) == Some(s);
    h := HistoryOf(History([EMPTY], []), actions, s);
  }

  lemma {:induction false} HistoryOf(before: History, actions: seq<Action>, s: State) returns (h: History)
    requires IsRun(before) && Run(Last(before), actions) == Some(s)
    ensures IsRun(h) && Last(h) == s
    decreases |actions|
  {
    if actions == [] {
      h := before;
    } else {
      var next := Step(Last(before), actions[0]).value;
      var longer := History(before.states + [next], before.actions + [actions[0]]);
      forall n | 0 <= n < |longer.actions| ensures Goes(longer, n) {
        if n < |before.actions| { assert Goes(before, n); }
      }
      h := HistoryOf(longer, actions[1..], s);
    }
  }

  lemma {:induction false} Prefix(h: History, n: nat)
    requires IsRun(h) && n <= |h.actions|
    ensures Inv(h.states[n])
  {
    if n > 0 {
      Prefix(h, n - 1);
      assert Goes(h, n - 1);
      StepKeepsInv(h.states[n - 1], h.actions[n - 1], h.states[n]);
    }
  }

  // ---- what a redemption has seen -------------------------------------------------------------------

  /** At `f`, `t` looked up the code it redeems for `user` and found `id`. */
  ghost predicate LookedUp(h: History, f: nat, t: TxnId, user: UserId, id: CodeId)
    requires IsRun(h)
  {
    && f < |h.actions| && h.actions[f] == Find(t, id) && t in h.states[f].txns && h.states[f].txns[t].req.Redeem?
    && h.states[f].txns[t].req.user == user
    && id in h.states[f].codes && h.states[f].codes[id].hash == h.states[f].txns[t].req.hash
  }

  /** ... and at `c`, when it was `now`, it checked what it had found. */
  ghost predicate Checked(h: History, f: nat, c: nat, t: TxnId, user: UserId, id: CodeId, now: Time)
    requires IsRun(h)
  {
    && LookedUp(h, f, t, user, id) && f < c < |h.actions| && h.actions[c] == Check(t, now)
    && h.states[f].codes[id].batch in h.states[c].batches
  }

  /** Neither the code, as looked up, nor its batch was disabled. */
  ghost predicate Enabled(h: History, f: nat, c: nat, id: CodeId)
    requires f < |h.states| && c < |h.states| && id in h.states[f].codes
    requires h.states[f].codes[id].batch in h.states[c].batches
  {
    h.states[f].codes[id].status != Disabled && !h.states[c].batches[h.states[f].codes[id].batch].disabled
  }

  /** The batch had no end, or one that was still to come. */
  ghost predicate Unexpired(h: History, f: nat, c: nat, id: CodeId, now: Time)
    requires f < |h.states| && c < |h.states| && id in h.states[f].codes
    requires h.states[f].codes[id].batch in h.states[c].batches
  {
    var expires := h.states[c].batches[h.states[f].codes[id].batch].expires;
    expires == None || now < expires.value
  }

  /** Neither the batch nor the code was bound to anybody else. */
  ghost predicate Theirs(h: History, f: nat, c: nat, id: CodeId, user: UserId)
    requires f < |h.states| && c < |h.states| && id in h.states[f].codes
    requires h.states[f].codes[id].batch in h.states[c].batches
  {
    var batch := h.states[c].batches[h.states[f].codes[id].batch].bound;
    var code := h.states[f].codes[id].bound;
    (batch == None || batch == Some(user)) && (code == None || code == Some(user))
  }

  ghost predicate Entitled(h: History, f: nat, c: nat, t: TxnId, user: UserId, id: CodeId, now: Time)
    requires IsRun(h)
  {
    Checked(h, f, c, t, user, id, now) && Enabled(h, f, c, id) && Unexpired(h, f, c, id, now)
      && Theirs(h, f, c, id, user)
  }

  /** At `l`, `t` claimed a slot of code `id`, or found (`granted` false) that the code is not active or has none. */
  ghost predicate Claims(h: History, l: nat, t: TxnId, id: CodeId, granted: bool)
    requires IsRun(h)
  {
    && l < |h.actions| && h.actions[l] == Claim(t) && id in h.states[l].codes
    && (granted <==> h.states[l].codes[id].status == Active && h.states[l].codes[id].used < h.states[l].codes[id].max)
  }

  ghost predicate WasEntitled(h: History, n: nat, t: TxnId, user: UserId, id: CodeId)
    requires IsRun(h)
  {
    exists f: nat, c: nat, now :: c < n && Entitled(h, f, c, t, user, id, now)
  }

  ghost predicate HasClaimed(h: History, n: nat, t: TxnId, user: UserId, id: CodeId, granted: bool)
    requires IsRun(h)
  {
    exists f: nat, c: nat, now, l: nat :: c < l < n && Entitled(h, f, c, t, user, id, now)
      && Claims(h, l, t, id, granted)
  }

  /** What stands behind a refusal. */
  ghost predicate Cause(h: History, n: nat, t: TxnId, user: UserId, hash: Hash, e: Error)
    requires IsRun(h) && n <= |h.actions|
  {
    match e
    case InvalidCode =>
      exists f: nat :: f < n && h.actions[f] == FindNone(t)
        && forall id :: id in h.states[f].codes ==> h.states[f].codes[id].hash != hash
    case CodeDisabled =>
      exists f: nat, c: nat, id: CodeId, now :: c < n && Checked(h, f, c, t, user, id, now) && !Enabled(h, f, c, id)
    case CodeExpired =>
      exists f: nat, c: nat, id: CodeId, now :: c < n && Checked(h, f, c, t, user, id, now) && Enabled(h, f, c, id)
        && !Unexpired(h, f, c, id, now)
    case NotYourCode =>
      exists f: nat, c: nat, id: CodeId, now :: c < n && Checked(h, f, c, t, user, id, now) && Enabled(h, f, c, id)
        && Unexpired(h, f, c, id, now) && !Theirs(h, f, c, id, user)
    case CodeExhausted => exists id: CodeId :: HasClaimed(h, n, t, user, id, false)
    case AlreadyRedeemed =>
      exists id: CodeId, r: nat :: r < n && HasClaimed(h, r, t, user, id, true) && h.actions[r] == Record(t)
        && (user, id) in h.states[r].redemptions
  }

  /** What is known of the past of `t` at its place. */
  ghost predicate Told(h: History, n: nat, t: TxnId)
    requires IsRun(h) && n <= |h.actions| && t in h.states[n].txns
  {
    var x := h.states[n].txns[t];
    x.req.Redeem? ==>
      match x.pc
      case Found(id, row) =>
        exists f: nat :: f < n && LookedUp(h, f, t, x.req.user, id) && h.states[f].codes[id] == row
      case Cleared(id) => WasEntitled(h, n, t, x.req.user, id)
      case Holding(id, _) => HasClaimed(h, n, t, x.req.user, id, true)
      case Recorded(id) => HasClaimed(h, n, t, x.req.user, id, true)
      case Failed(e) => Cause(h, n, t, x.req.user, x.req.hash, e)
      case Done(o) =>
        && (o.Refused? ==> Cause(h, n, t, x.req.user, x.req.hash, o.error))
        && (o.Claimed? ==> o.user == x.req.user && HasClaimed(h, n, t, x.req.user, o.id, true))
      case _ => true
  }

  // ---- how it comes about ---------------------------------------------------------------------------

  lemma {:induction false} OthersStay(s: State, a: Action, s': State, t: TxnId)
    requires Step(s, a) == Some(s') && t in s.txns && (a.Generate? || a.t != t)
    ensures t in s'.txns && s'.txns[t] == s.txns[t]
  {}

  lemma {:induction false} NewcomerStarts(s: State, a: Action, s': State, t: TxnId)
    requires Step(s, a) == Some(s') && t !in s.txns && t in s'.txns
    ensures s'.txns[t].pc == Start
  {}

  /** Where a statement takes a redemption, and what it has just seen. */
  lemma {:induction false} Lookups(s: State, a: Action, s': State)
    requires (a.Find? || a.FindNone?) && a.t in s.txns && s.txns[a.t].req.Redeem? && StepOf(s, a) == Some(s')
    ensures a.t in s'.txns && s'.txns[a.t].req == s.txns[a.t].req
    ensures a.Find? ==>
      && a.id in s.codes && s.codes[a.id].hash == s.txns[a.t].req.hash
      && s'.txns[a.t].pc == Found(a.id, s.codes[a.id])
    ensures a.FindNone? ==>
      && s'.txns[a.t].pc == Failed(InvalidCode)
      && forall id :: id in s.codes ==> s.codes[id].hash != s.txns[a.t].req.hash
  {}

  /** A check clears a code exactly if its batch is there, neither is disabled, the batch has not expired and neither is
      bound to another user; otherwise each condition has its own error, in this order. */
  lemma {:induction false} CheckDecides(s: State, t: TxnId, now: Time, s': State)
    requires Step(s, Check(t, now)) == Some(s')
    ensures t in s.txns && s.txns[t].req.Redeem? && s.txns[t].pc.Found?
    ensures t in s'.txns && s'.txns[t].req == s.txns[t].req
    ensures var row, user := s.txns[t].pc.row, s.txns[t].req.user; var pc := s'.txns[t].pc;
      && (pc == Cleared(s.txns[t].pc.id) <==>
            && row.batch in s.batches && !s.batches[row.batch].disabled && row.status != Disabled
            && (s.batches[row.batch].expires == None || now < s.batches[row.batch].expires.value)
            && (s.batches[row.batch].bound == None || s.batches[row.batch].bound == Some(user))
            && (row.bound == None || row.bound == Some(user)))
      && (pc == Failed(InvalidCode) <==> row.batch !in s.batches)
      && (pc == Failed(CodeDisabled) <==>
            row.batch in s.batches && (s.batches[row.batch].disabled || row.status == Disabled))
      && (pc == Failed(CodeExpired) <==>
            && row.batch in s.batches && !s.batches[row.batch].disabled && row.status != Disabled
            && s.batches[row.batch].expires.Some? && s.batches[row.batch].expires.value <= now)
      && (pc == Failed(NotYourCode) <==>
            && row.batch in s.batches && !s.batches[row.batch].disabled && row.status != Disabled
            && (s.batches[row.batch].expires == None || now < s.batches[row.batch].expires.value)
            && ((s.batches[row.batch].bound.Some? && s.batches[row.batch].bound.value != user)
               || (row.bound.Some? && row.bound.value != user)))
      && (pc == Cleared(s.txns[t].pc.id) || (pc.Failed?
            && (pc.error.InvalidCode? || pc.error.CodeDisabled? || pc.error.CodeExpired? || pc.error.NotYourCode?)))
  {}

  lemma {:induction false} Writes(s: State, a: Action, s': State)
    requires (a.Claim? || a.Record?) && a.t in s.txns && TxnOk(s, a.t) && StepOf(s, a) == Some(s')
      && s.txns[a.t].req.Redeem?
    ensures a.t in s'.txns && s'.txns[a.t].req == s.txns[a.t].req
    ensures var pc, pc' := s.txns[a.t].pc, s'.txns[a.t].pc;
      && (a.Claim? ==>
            && pc.Cleared? && pc.id in s.codes && (pc'.Holding? || pc' == Failed(CodeExhausted))
            && (pc'.Holding? ==>
                  pc'.id == pc.id && s.codes[pc.id].status == Active && s.codes[pc.id].used < s.codes[pc.id].max)
            && (pc'.Failed? ==> s.codes[pc.id].status != Active || s.codes[pc.id].used >= s.codes[pc.id].max))
      && (a.Record? ==>
            && pc.Holding? && (pc' == Recorded(pc.id) || pc' == Failed(AlreadyRedeemed))
            && (pc'.Failed? <==> (s.txns[a.t].req.user, pc.id) in s.redemptions))
  {}

  lemma {:induction false} Ends(s: State, a: Action, s': State)
    requires (a.Commit? || a.Abort?) && a.t in s.txns && TxnOk(s, a.t) && StepOf(s, a) == Some(s')
      && s.txns[a.t].req.Redeem?
    ensures a.t in s'.txns && s'.txns[a.t].req == s.txns[a.t].req
    ensures var pc, pc' := s.txns[a.t].pc, s'.txns[a.t].pc;
      && (a.Commit? ==> pc.Recorded? && pc' == Done(Claimed(s.txns[a.t].req.user, pc.id)))
      && (a.Abort? ==> pc' == Done(if pc.Failed? then Refused(pc.error) else RolledBack))
  {}

  lemma {:induction false} OnlyThese(s: State, a: Action, s': State)
    requires !a.Generate? && !a.Begin? && a.t in s.txns && TxnOk(s, a.t) && StepOf(s, a) == Some(s')
      && s.txns[a.t].req.Redeem?
    ensures a.Find? || a.FindNone? || a.Check? || a.Claim? || a.Record? || a.Commit? || a.Abort?
  {}

  // ---- and is remembered ------------------------------------------------------------------------------

  lemma {:induction false} CauseStays(h: History, n: nat, t: TxnId, user: UserId, hash: Hash, e: Error)
    requires IsRun(h) && n < |h.actions| && Cause(h, n, t, user, hash, e)
    ensures Cause(h, n + 1, t, user, hash, e)
  {
    hide Goes, Checked, Enabled, Unexpired, Theirs, Entitled, Claims;
    if e == CodeExhausted {
      var id :| HasClaimed(h, n, t, user, id, false);
      assert HasClaimed(h, n + 1, t, user, id, false);
    }
  }

  lemma {:induction false} ToldStays(h: History, n: nat, t: TxnId)
    requires IsRun(h) && n < |h.actions| && t in h.states[n].txns && Told(h, n, t)
    requires t in h.states[n + 1].txns && h.states[n + 1].txns[t] == h.states[n].txns[t]
    ensures Told(h, n + 1, t)
  {
    hide Goes, Cause, LookedUp, Entitled, Claims;
    var x := h.states[n].txns[t];
    if x.req.Redeem? {
      if x.pc.Failed? { CauseStays(h, n, t, x.req.user, x.req.hash, x.pc.error); }
      if x.pc.Done? && x.pc.outcome.Refused? { CauseStays(h, n, t, x.req.user, x.req.hash, x.pc.outcome.error); }
    }
  }

  lemma {:induction false} ToldByLookup(h: History, n: nat, t: TxnId)
    requires IsRun(h) && n < |h.actions| && (h.actions[n].Find? || h.actions[n].FindNone?) && h.actions[n].t == t
    requires t in h.states[n].txns && h.states[n].txns[t].req.Redeem?
    requires StepOf(h.states[n], h.actions[n]) == Some(h.states[n + 1])
    ensures t in h.states[n + 1].txns && Told(h, n + 1, t)
  {
    Lookups(h.states[n], h.actions[n], h.states[n + 1]);
    if h.actions[n].Find? { assert LookedUp(h, n, t, h.states[n].txns[t].req.user, h.actions[n].id); }
    hide Goes, StepOf;
  }

  lemma {:induction false} ToldByCheck(h: History, n: nat, t: TxnId)
    requires IsRun(h) && n < |h.actions| && h.actions[n].Check? && h.actions[n].t == t
    requires t in h.states[n].txns && h.states[n].txns[t].req.Redeem? && h.states[n].txns[t].pc.Found?
    requires Step(h.states[n], h.actions[n]) == Some(h.states[n + 1]) && Told(h, n, t)
    requires h.states[n].txns[t].pc.row.batch in h.states[n].batches
    ensures t in h.states[n + 1].txns && Told(h, n + 1, t)
  {
    var x, now := h.states[n].txns[t], h.actions[n].now;
    CheckDecides(h.states[n], t, now, h.states[n + 1]);
    hide Step, Goes;
    var f: nat :| f < n && LookedUp(h, f, t, x.req.user, x.pc.id) && h.states[f].codes[x.pc.id] == x.pc.row;
    assert Checked(h, f, n, t, x.req.user, x.pc.id, now);
    var pc := h.states[n + 1].txns[t].pc;
    if pc.Cleared? { assert Entitled(h, f, n, t, x.req.user, x.pc.id, now); }
    else if pc.error.CodeDisabled? { assert !Enabled(h, f, n, x.pc.id); }
    else {
      assert Enabled(h, f, n, x.pc.id);
      if pc.error.NotYourCode? { assert Unexpired(h, f, n, x.pc.id, now); }
    }
  }

  lemma {:induction false} ToldByClaim(h: History, n: nat, t: TxnId)
    requires IsRun(h) && n < |h.actions| && h.actions[n] == Claim(t)
    requires t in h.states[n].txns && h.states[n].txns[t].req.Redeem? && TxnOk(h.states[n], t)
    requires StepOf(h.states[n], h.actions[n]) == Some(h.states[n + 1]) && Told(h, n, t)
    ensures t in h.states[n + 1].txns && Told(h, n + 1, t)
  {
    Writes(h.states[n], h.actions[n], h.states[n + 1]);
    hide StepOf, Goes, Entitled, TxnOk, WasEntitled, HasClaimed;
    var x := h.states[n].txns[t];
    var granted := h.states[n + 1].txns[t].pc.Holding?;
    assert Claims(h, n, t, x.pc.id, granted);
    ClaimRemembered(h, n, t, x.req.user, x.pc.id, granted);
  }

  lemma {:induction false} ClaimRemembered(h: History, n: nat, t: TxnId, user: UserId, id: CodeId, granted: bool)
    requires IsRun(h) && n < |h.actions| && WasEntitled(h, n, t, user, id) && Claims(h, n, t, id, granted)
    ensures HasClaimed(h, n + 1, t, user, id, granted)
  {
    hide Goes, Entitled, Claims;
    var f: nat, c: nat, now :| c < n && Entitled(h, f, c, t, user, id, now);
  }

  lemma {:induction false} ToldByRecord(h: History, n: nat, t: TxnId)
    requires IsRun(h) && n < |h.actions| && h.actions[n] == Record(t)
    requires t in h.states[n].txns && h.states[n].txns[t].req.Redeem? && TxnOk(h.states[n], t)
    requires StepOf(h.states[n], h.actions[n]) == Some(h.states[n + 1]) && Told(h, n, t)
    ensures t in h.states[n + 1].txns && Told(h, n + 1, t)
  {
    Writes(h.states[n], h.actions[n], h.states[n + 1]);
    var x := h.states[n].txns[t];
    hide StepOf, Goes, Entitled, TxnOk, Claims;
    assert HasClaimed(h, n, t, x.req.user, x.pc.id, true);
    assert HasClaimed(h, n + 1, t, x.req.user, x.pc.id, true);
  }

  lemma {:induction false} ToldByEnd(h: History, n: nat, t: TxnId)
    requires IsRun(h) && n < |h.actions| && (h.actions[n].Commit? || h.actions[n].Abort?) && h.actions[n].t == t
    requires t in h.states[n].txns && h.states[n].txns[t].req.Redeem? && TxnOk(h.states[n], t)
    requires StepOf(h.states[n], h.actions[n]) == Some(h.states[n + 1]) && Told(h, n, t)
    ensures t in h.states[n + 1].txns && Told(h, n + 1, t)
  {
    Ends(h.states[n], h.actions[n], h.states[n + 1]);
    hide StepOf, Goes, Entitled, TxnOk, Cause, Claims;
    var x := h.states[n].txns[t];
    if x.pc.Failed? { CauseStays(h, n, t, x.req.user, x.req.hash, x.pc.error); }
  }

  lemma InvParts(s: State, t: TxnId)
    requires Inv(s) && t in s.txns
    ensures TxnOk(s, t)
    ensures forall id :: id in s.codes ==> s.codes[id].batch in s.batches
  {
    forall id | id in s.codes ensures s.codes[id].batch in s.batches { assert CodeOk(s, id); }
  }

  lemma {:induction false} BatchesOnlyGrow(h: History, f: nat, n: nat)
    requires IsRun(h) && f <= n <= |h.actions|
    ensures h.states[f].batches.Keys <= h.states[n].batches.Keys
  {
    if f < n {
      BatchesOnlyGrow(h, f, n - 1);
      assert Goes(h, n - 1);
    }
  }

  lemma {:induction false} FoundBatchIsThere(h: History, n: nat, t: TxnId)
    requires IsRun(h) && n < |h.actions| && t in h.states[n].txns && h.states[n].txns[t].req.Redeem?
    requires h.states[n].txns[t].pc.Found? && Told(h, n, t)
    ensures h.states[n].txns[t].pc.row.batch in h.states[n].batches
  {
    var x := h.states[n].txns[t];
    var f: nat :| f < n && LookedUp(h, f, t, x.req.user, x.pc.id) && h.states[f].codes[x.pc.id] == x.pc.row;
    Prefix(h, f);
    InvParts(h.states[f], t);
    BatchesOnlyGrow(h, f, n);
  }

  lemma {:induction false} AlwaysTold(h: History, n: nat, t: TxnId)
    requires IsRun(h) && n <= |h.actions| && t in h.states[n].txns
    ensures Told(h, n, t)
    decreases n
  {
    hide Step, StepOf, TxnOk, Told, Inv;
    if n > 0 {
      var s, a, s' := h.states[n - 1], h.actions[n - 1], h.states[n];
      assert Goes(h, n - 1);
      if t !in s.txns {
        NewcomerStarts(s, a, s', t);
        ToldOfStart(h, n, t);
      } else {
        AlwaysTold(h, n - 1, t);
        Prefix(h, n - 1);
        InvParts(s, t);
        if a.Generate? || a.t != t {
          OthersStay(s, a, s', t);
          ToldStays(h, n - 1, t);
        } else {
          ToldByOwn(h, n - 1, t);
        }
      }
    }
  }

  lemma ToldOfStart(h: History, n: nat, t: TxnId)
    requires IsRun(h) && n <= |h.actions| && t in h.states[n].txns && h.states[n].txns[t].pc == Start
    ensures Told(h, n, t)
  {}

  lemma StepIsOf(s: State, a: Action, s': State)
    requires Step(s, a) == Some(s') && !a.Generate? && a.t in s.txns
    ensures !a.Begin? && StepOf(s, a) == Some(s')
  {}

  lemma {:induction false} ToldByOwn(h: History, n: nat, t: TxnId)
    requires IsRun(h) && n < |h.actions| && !h.actions[n].Generate? && h.actions[n].t == t
    requires t in h.states[n].txns && TxnOk(h.states[n], t)
    requires Step(h.states[n], h.actions[n]) == Some(h.states[n + 1]) && Told(h, n, t)
    ensures t in h.states[n + 1].txns && Told(h, n + 1, t)
  {
    hide Step, StepOf, TxnOk, Told, Goes;
    var s, a, s' := h.states[n], h.actions[n], h.states[n + 1];
    StepIsOf(s, a, s');
    if s.txns[t].req.Redeem? {
      OnlyThese(s, a, s');
      if a.Find? || a.FindNone? { ToldByLookup(h, n, t); }
      else if a.Check? {
        CheckDecides(s, t, a.now, s');
        FoundBatchIsThere(h, n, t);
        ToldByCheck(h, n, t);
      }
      else if a.Claim? { ToldByClaim(h, n, t); }
      else if a.Record? { ToldByRecord(h, n, t); }
      else { ToldByEnd(h, n, t); }
    } else {
      RequestStays(s, a, s');
      ToldOfKill(h, n + 1, t);
    }
  }

  lemma RequestStays(s: State, a: Action, s': State)
    requires !a.Generate? && !a.Begin? && a.t in s.txns && StepOf(s, a) == Some(s')
    ensures a.t in s'.txns && s'.txns[a.t].req == s.txns[a.t].req
  {}

  lemma ToldOfKill(h: History, n: nat, t: TxnId)
    requires IsRun(h) && n <= |h.actions| && t in h.states[n].txns && h.states[n].txns[t].req.Kill?
    ensures Told(h, n, t)
  {}

  // ---- the results ------------------------------------------------------------------------------------

  /** A refused redemption has its cause: nobody had the hash when it looked; or the code it had found, or its batch,
      was disabled; or, being enabled, the batch had expired; or, being both, one of them was bound to somebody else;
      or all that was well, and no slot was left when it claimed; or the user had redeemed the code when it
      recorded. */
  lemma {:induction false} RefusalsHaveCauses(h: History, t: TxnId)
    requires IsRun(h) && t in Last(h).txns && Last(h).txns[t].req.Redeem? && Last(h).txns[t].pc.Done?
    requires Last(h).txns[t].pc.outcome.Refused?
    ensures var x := Last(h).txns[t]; Cause(h, |h.actions|, t, x.req.user, x.req.hash, x.pc.outcome.error)
  {
    AlwaysTold(h, |h.actions|, t);
  }

  lemma {:induction false} RedemptionsAreCommitted(h: History, n: nat, user: UserId, id: CodeId)
      returns (t: TxnId, m: nat)
    requires IsRun(h) && n <= |h.actions| && (user, id) in h.states[n].redemptions
    ensures m < n && h.actions[m] == Commit(t) && t in h.states[m].txns && h.states[m].txns[t].req.Redeem?
      && h.states[m].txns[t].req.user == user && h.states[m].txns[t].pc == Recorded(id)
    decreases n
  {
    assert n > 0;
    assert Goes(h, n - 1);
    if (user, id) in h.states[n - 1].redemptions {
      t, m := RedemptionsAreCommitted(h, n - 1, user, id);
    } else {
      NewRedemption(h.states[n - 1], h.actions[n - 1], h.states[n], user, id);
      t, m := h.actions[n - 1].t, n - 1;
    }
  }

  lemma {:induction false} NewRedemption(s: State, a: Action, s': State, user: UserId, id: CodeId)
    requires Step(s, a) == Some(s') && (user, id) in s'.redemptions && (user, id) !in s.redemptions
    ensures a.Commit? && a.t in s.txns && s.txns[a.t].req.Redeem? && s.txns[a.t].req.user == user
      && s.txns[a.t].pc == Recorded(id)
  {}

  /** Behind every committed redemption: a lookup at `f` that found the code by the presented hash, a check at `c`, when
      it was `now`, of code and batch, a claim at `l` that found a slot, and the commit at `m`. */
  lemma {:induction false} RedemptionsAreEntitled(h: History, user: UserId, id: CodeId)
      returns (t: TxnId, f: nat, c: nat, now: Time, l: nat, m: nat)
    requires IsRun(h) && (user, id) in Last(h).redemptions
    ensures f < c < l < m < |h.actions|
    ensures h.actions[f] == Find(t, id) && h.actions[c] == Check(t, now) && h.actions[l] == Claim(t)
      && h.actions[m] == Commit(t)
    ensures t in h.states[f].txns && h.states[f].txns[t].req.Redeem? && h.states[f].txns[t].req.user == user
    ensures id in h.states[f].codes && id in h.states[l].codes && h.states[f].codes[id].batch in h.states[c].batches
    ensures var code := h.states[f].codes[id]; var batch := h.states[c].batches[code.batch];
      && code.hash == h.states[f].txns[t].req.hash && code.status != Disabled && !batch.disabled
      && (batch.expires == None || now < batch.expires.value)
      && (batch.bound == None || batch.bound == Some(user)) && (code.bound == None || code.bound == Some(user))
    ensures h.states[l].codes[id].status == Active && h.states[l].codes[id].used < h.states[l].codes[id].max
  {
    t, m := RedemptionsAreCommitted(h, |h.actions|, user, id);
    AlwaysTold(h, m, t);
    assert HasClaimed(h, m, t, user, id, true);
    var f0: nat, c0: nat, now0, l0: nat :| c0 < l0 < m && Entitled(h, f0, c0, t, user, id, now0)
      && Claims(h, l0, t, id, true);
    f, c, now, l := f0, c0, now0, l0;
  }

  /** After a kill, no check of a code of the batch clears, whenever the code was looked up. */
  lemma {:induction false} ChecksFailAfterAKill(s: State, actions: seq<Action>, s': State, t: TxnId, b: BatchId,
                                                u: TxnId, now: Time, next: State)
    requires Reachable(s) && t in s.txns && s.txns[t].pc == Done(Killed(b)) && Run(s, actions) == Some(s')
    requires u in s'.txns && s'.txns[u].pc.Found? && s'.txns[u].pc.row.batch == b
    requires Step(s', Check(u, now)) == Some(next)
    ensures u in next.txns && next.txns[u].pc == Failed(CodeDisabled)
  {
    KillIsFinal(s, actions, s', t, b);
    CheckDecides(s', u, now, next);
  }

  /** A kill of a batch that is not there is refused; of any other it takes on every code of the batch there is. */
  lemma {:induction false} KillsTakeTheWholeBatch(s: State, t: TxnId, s': State)
    requires Step(s, StartKill(t)) == Some(s')
    ensures t in s.txns && s.txns[t].req.Kill? && t in s'.txns
    ensures var b, pc := s.txns[t].req.batch, s'.txns[t].pc;
      && (b !in s.batches ==> pc == Failed(InvalidCode))
      && (b in s.batches ==>
            pc.Disabling? && forall id :: id in pc.targets <==> id in s.codes && s.codes[id].batch == b)
  {}
}
