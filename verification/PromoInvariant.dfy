/**
 Promo codes are conserved: whatever redemptions and kills interleave and roll back, a code's
 counter is the number of its committed redemptions.
 */
module PromoInvariant {
  import opened Options
  import opened PromoProtocol

  // ---- the invariant ------------------------------------------------------------------------------

  /** Who has redeemed code `id`. */
  function Redeemers(redemptions: set<(UserId, CodeId)>, id: CodeId): set<(UserId, CodeId)> {
    set r | r in redemptions && r.1 == id
  }

  /** A committed code: its counter counts its redemptions, within its maximum, and active means a slot is left. */
  ghost predicate CodeOk(s: State, id: CodeId)
    requires id in s.codes
  {
    var c := s.codes[id];
    && c.used == |Redeemers(s.redemptions, id)| && c.used <= c.max
    && (c.status == Active ==> c.used < c.max)
    && c.batch in s.batches
  }

  ghost predicate CodesOk(s: State) {
    && (forall id {:trigger CodeOk(s, id)} :: id in s.codes ==> CodeOk(s, id))
    && (forall r :: r in s.redemptions ==> r.1 in s.codes)
  }

  predicate HeldBy(s: State, id: CodeId, t: TxnId) { id in s.locks && s.locks[id] == t }

  /** A claim in progress: the code is locked and still as it was when it was claimed. */
  ghost predicate ClaimOk(s: State, t: TxnId, x: Txn, id: CodeId) {
    && x.req.Redeem? && HeldBy(s, id, t) && id in s.codes && Claimable(s.codes[id])
  }

  ghost predicate KillOk(s: State, t: TxnId, x: Txn, targets: set<CodeId>) {
    && x.req.Kill? && x.req.batch in s.batches
    && (forall id :: id in x.writes ==> id in s.codes && HeldBy(s, id, t) && s.codes[id].batch == x.req.batch
                                        && x.writes[id] == s.codes[id].(status := Disabled))
    && (forall id :: id in s.codes && s.codes[id].batch == x.req.batch ==> id in targets || id in x.writes)
    && (forall id :: id in targets ==> id in s.codes && s.codes[id].batch == x.req.batch)
  }

  /** Batch `b` is disabled, and so is each of its codes. */
  ghost predicate AllDisabled(s: State, b: BatchId) {
    b in s.batches && s.batches[b].disabled && forall id :: id in s.codes && s.codes[id].batch == b ==>
      s.codes[id].status == Disabled
  }

  ghost predicate TxnOk(s: State, t: TxnId)
    requires t in s.txns
  {
    var x := s.txns[t];
    match x.pc
    case Start => x.writes == map[]
    case Found(_, _) => x.req.Redeem? && x.writes == map[]
    case Cleared(_) => x.req.Redeem? && x.writes == map[]
    case Holding(id, spent) =>
      && ClaimOk(s, t, x, id) && x.writes == map[id := s.codes[id].(used := s.codes[id].used + 1)]
      && (spent <==> s.codes[id].used + 1 >= s.codes[id].max)
    case Recorded(id) =>
      && ClaimOk(s, t, x, id) && (x.req.user, id) !in s.redemptions
      && x.writes == map[id := s.codes[id].(used := s.codes[id].used + 1,
                                            status := if s.codes[id].used + 1 >= s.codes[id].max then Redeemed
                                              else Active)]
    case Disabling(started, targets) => started && KillOk(s, t, x, targets)
    case Ready => KillOk(s, t, x, {})
    case Failed(_) => true
    case Done(o) =>
      && x.writes == map[]
      && (o.Claimed? ==> (o.user, o.id) in s.redemptions)
      && (o.Killed? ==> AllDisabled(s, o.batch))
  }

  ghost predicate AllOk(s: State) {
    forall t {:trigger TxnOk(s, t)} :: t in s.txns ==> TxnOk(s, t)
  }

  /** No redemption belongs to two transactions. */
  ghost predicate OnceEach(s: State) {
    forall t, u ::
      t in s.txns && s.txns[t].pc.Done? && s.txns[t].pc.outcome.Claimed? && u in s.txns && s.txns[u].pc == s.txns[t].pc
      ==> t == u
  }

  ghost predicate Inv(s: State) { CodesOk(s) && AllOk(s) && OnceEach(s) }

  // ---- what a step leaves to another transaction ---------------------------------------------------

  ghost predicate KeepsFor(s: State, s': State, u: TxnId) {
    && u in s.txns && u in s'.txns && s'.txns[u] == s.txns[u]
    && (forall id :: HeldBy(s, id, u) ==> HeldBy(s', id, u))
    && (forall id :: id in s.codes ==> id in s'.codes && s'.codes[id].batch == s.codes[id].batch)
    && (forall id :: id in s.codes && HeldBy(s, id, u) ==> s'.codes[id] == s.codes[id])
    && (forall id :: id in s.codes && s.codes[id].status == Disabled ==> s'.codes[id].status == Disabled)
    && (forall id :: id in s'.codes && id !in s.codes ==> s'.codes[id].batch !in s.batches)
    && s.batches.Keys <= s'.batches.Keys
    && (forall b :: b in s.batches && s.batches[b].disabled ==> s'.batches[b].disabled)
    && s.redemptions <= s'.redemptions
    && (forall r :: r in s'.redemptions && r !in s.redemptions ==> !HeldBy(s, r.1, u))
  }

  lemma {:induction false} FrameKill(s: State, s': State, u: TxnId, targets: set<CodeId>)
    requires KeepsFor(s, s', u) && KillOk(s, u, s.txns[u], targets)
    ensures KillOk(s', u, s'.txns[u], targets)
  {}

  lemma {:induction false} FrameDisabled(s: State, s': State, u: TxnId, b: BatchId)
    requires KeepsFor(s, s', u) && AllDisabled(s, b)
    ensures AllDisabled(s', b)
  {}

  lemma {:induction false} Frame(s: State, s': State, u: TxnId)
    requires KeepsFor(s, s', u) && TxnOk(s, u)
    ensures TxnOk(s', u)
  {
    var x := s.txns[u];
    match x.pc
    case Start =>
    case Found(_, _) =>
    case Cleared(_) =>
    case Holding(id, spent) =>
    case Recorded(id) =>
    case Disabling(started, targets) => FrameKill(s, s', u, targets);
    case Ready => FrameKill(s, s', u, {});
    case Failed(_) =>
    case Done(o) => if o.Killed? { FrameDisabled(s, s', u, o.batch); }
  }

  ghost predicate OthersKept(s: State, s': State, t: TxnId) {
    && s'.txns.Keys == s.txns.Keys + {t}
    && forall u {:trigger KeepsFor(s, s', u)} :: u in s.txns && u != t ==> KeepsFor(s, s', u)
  }

  lemma {:induction false} AllFromOthers(s: State, s': State, t: TxnId)
    requires AllOk(s) && OthersKept(s, s', t) && TxnOk(s', t)
    ensures AllOk(s')
  {
    forall u | u in s'.txns ensures TxnOk(s', u) {
      if u != t {
        assert KeepsFor(s, s', u);
        Frame(s, s', u);
      }
    }
  }

  // ---- steps that commit nothing --------------------------------------------------------------------

  /** The tables stay; `t` moves, and may take locks nobody else has. */
  ghost predicate Quiet(s: State, s': State, t: TxnId) {
    && t in s'.txns && s'.txns.Keys == s.txns.Keys + {t}
    && s'.codes == s.codes && s'.batches == s.batches && s'.redemptions == s.redemptions
    && (forall u :: u in s.txns && u != t ==> s'.txns[u] == s.txns[u])
    && (forall id, u :: u != t && HeldBy(s, id, u) ==> HeldBy(s', id, u))
    && !(s'.txns[t].pc.Done? && s'.txns[t].pc.outcome.Claimed?)
  }

  lemma {:induction false} QuietKeepsInv(s: State, s': State, t: TxnId)
    requires Inv(s) && Quiet(s, s', t) && TxnOk(s', t)
    ensures Inv(s')
  {
    forall u | u in s.txns && u != t ensures KeepsFor(s, s', u) {}
    AllFromOthers(s, s', t);
    forall id | id in s'.codes ensures CodeOk(s', id) { assert CodeOk(s, id); }
  }

  predicate Statement(a: Action) { !a.Generate? && !a.Begin? }

  lemma {:induction false} LookupsAreQuiet(s: State, a: Action, s': State)
    requires (a.Find? || a.FindNone? || a.Check? || a.Abort? || a.EndKill?) && a.t in s.txns && TxnOk(s, a.t)
      && StepOf(s, a) == Some(s')
    ensures Quiet(s, s', a.t) && TxnOk(s', a.t)
  {}

  lemma {:induction false} ClaimIsQuiet(s: State, t: TxnId, s': State)
    requires t in s.txns && TxnOk(s, t) && StepClaim(s, t) == Some(s')
    ensures Quiet(s, s', t)
    ensures TxnOk(s', t)
  {
    OthersHold(s, s', s.txns[t].pc.id, t);
  }

  lemma {:induction false} OthersHold(s: State, s': State, id: CodeId, t: TxnId)
    requires Free(s.locks, id, t) && (s'.locks == s.locks || s'.locks == s.locks[id := t])
    ensures forall r, u :: u != t && HeldBy(s, r, u) ==> HeldBy(s', r, u)
  {}

  lemma {:induction false} RecordIsQuiet(s: State, t: TxnId, s': State)
    requires t in s.txns && TxnOk(s, t) && StepRecord(s, t) == Some(s')
    ensures Quiet(s, s', t) && TxnOk(s', t)
  {}

  lemma {:induction false} StartKillIsQuiet(s: State, t: TxnId, s': State)
    requires t in s.txns && TxnOk(s, t) && StepStartKill(s, t) == Some(s')
    ensures Quiet(s, s', t) && TxnOk(s', t)
  {}

  lemma {:induction false} DisableRowIsQuiet(s: State, t: TxnId, id: CodeId, s': State)
    requires t in s.txns && TxnOk(s, t) && StepDisableRow(s, t, id) == Some(s')
    ensures Quiet(s, s', t)
    ensures TxnOk(s', t)
  {
    OthersHold(s, s', id, t);
  }

  // ---- commits --------------------------------------------------------------------------------------

  /** A committed redemption: one code counted once more, one redemption more. */
  ghost predicate RedeemCommits(s: State, s': State, t: TxnId, id: CodeId) {
    && t in s.txns && s.txns[t].pc == Recorded(id) && s.txns[t].req.Redeem?
    && s' == Close(s, t, Claimed(s.txns[t].req.user, id)).(codes := s.codes + s.txns[t].writes,
                                                          redemptions := s.redemptions + {(s.txns[t].req.user, id)})
  }

  lemma {:induction false} LocksOfOthers(s: State, s': State, t: TxnId, u: TxnId)
    requires s'.locks == Without(s.locks, t) && u != t
    ensures forall id :: HeldBy(s, id, u) <==> HeldBy(s', id, u)
  {}

  lemma {:induction false} RedeemKeepsFor(s: State, s': State, t: TxnId, id: CodeId, u: TxnId)
    requires RedeemCommits(s, s', t, id) && TxnOk(s, t) && u in s.txns && u != t
    ensures KeepsFor(s, s', u)
  {
    LocksOfOthers(s, s', t, u);
  }

  lemma {:induction false} RedeemersGrow(s: State, s': State, t: TxnId, id: CodeId)
    requires RedeemCommits(s, s', t, id) && TxnOk(s, t)
    ensures |Redeemers(s'.redemptions, id)| == |Redeemers(s.redemptions, id)| + 1
    ensures forall c :: c != id ==> Redeemers(s'.redemptions, c) == Redeemers(s.redemptions, c)
  {
    var r := (s.txns[t].req.user, id);
    assert Redeemers(s'.redemptions, id) == Redeemers(s.redemptions, id) + {r};
  }

  lemma {:induction false} RedeemCodesOk(s: State, s': State, t: TxnId, id: CodeId)
    requires CodesOk(s) && RedeemCommits(s, s', t, id) && TxnOk(s, t)
    ensures CodesOk(s')
  {
    RedeemersGrow(s, s', t, id);
    forall c | c in s'.codes ensures CodeOk(s', c) { assert CodeOk(s, c); }
  }

  lemma {:induction false} NotClaimedBefore(s: State, t: TxnId, id: CodeId, u: TxnId)
    requires AllOk(s) && t in s.txns && u in s.txns && s.txns[t].pc == Recorded(id) && s.txns[t].req.Redeem?
    ensures s.txns[u].pc != Done(Claimed(s.txns[t].req.user, id))
  {
    assert TxnOk(s, t) && TxnOk(s, u);
  }

  lemma {:induction false} RedeemKeepsInv(s: State, s': State, t: TxnId, id: CodeId)
    requires Inv(s) && RedeemCommits(s, s', t, id)
    ensures Inv(s')
  {
    assert TxnOk(s, t);
    forall u | u in s.txns && u != t ensures KeepsFor(s, s', u) { RedeemKeepsFor(s, s', t, id, u); }
    AllFromOthers(s, s', t);
    RedeemCodesOk(s, s', t, id);
    forall u | u in s.txns && u != t ensures s.txns[u].pc != Done(Claimed(s.txns[t].req.user, id)) {
      NotClaimedBefore(s, t, id, u);
    }
  }

  ghost predicate KillCommits(s: State, s': State, t: TxnId) {
    && t in s.txns && s.txns[t].pc == Ready && s.txns[t].req.Kill? && s.txns[t].req.batch in s.batches
    && s' == Close(s, t, Killed(s.txns[t].req.batch)).(codes := s.codes + s.txns[t].writes,
               batches := s.batches[s.txns[t].req.batch := s.batches[s.txns[t].req.batch].(disabled := true)])
  }

  lemma {:induction false} KillKeepsFor(s: State, s': State, t: TxnId, u: TxnId)
    requires KillCommits(s, s', t) && TxnOk(s, t) && u in s.txns && u != t
    ensures KeepsFor(s, s', u)
  {
    LocksOfOthers(s, s', t, u);
  }

  lemma {:induction false} KillCodesOk(s: State, s': State, t: TxnId)
    requires CodesOk(s) && KillCommits(s, s', t) && TxnOk(s, t)
    ensures CodesOk(s') && TxnOk(s', t)
  {
    forall c | c in s'.codes ensures CodeOk(s', c) { assert CodeOk(s, c); }
  }

  lemma {:induction false} KillKeepsInv(s: State, s': State, t: TxnId)
    requires Inv(s) && KillCommits(s, s', t)
    ensures Inv(s')
  {
    assert TxnOk(s, t);
    forall u | u in s.txns && u != t ensures KeepsFor(s, s', u) { KillKeepsFor(s, s', t, u); }
    KillCodesOk(s, s', t);
    AllFromOthers(s, s', t);
  }

  lemma {:induction false} CommitKeepsInv(s: State, t: TxnId, s': State)
    requires Inv(s) && t in s.txns && StepCommit(s, t) == Some(s')
    ensures Inv(s')
  {
    if s.txns[t].pc.Recorded? { RedeemKeepsInv(s, s', t, s.txns[t].pc.id); } else { KillKeepsInv(s, s', t); }
  }

  lemma {:induction false} GenerateKeepsInv(s: State, batch: BatchId, header: Batch, rows: Codes, s': State)
    requires Inv(s) && StepGenerate(s, batch, header, rows) == Some(s')
    ensures Inv(s')
  {
    forall u | u in s'.txns ensures TxnOk(s', u) {
      assert TxnOk(s, u);
      GenerateKeepsFor(s, batch, header, rows, s', u);
      Frame(s, s', u);
    }
    forall c | c in s'.codes ensures CodeOk(s', c) {
      if c in s.codes { assert CodeOk(s, c); } else { assert Redeemers(s'.redemptions, c) == {}; }
    }
  }

  lemma {:induction false} GenerateKeepsFor(s: State, batch: BatchId, header: Batch, rows: Codes, s': State, u: TxnId)
    requires CodesOk(s) && StepGenerate(s, batch, header, rows) == Some(s') && u in s.txns
    ensures KeepsFor(s, s', u)
  {}

  lemma {:induction false} StatementKeepsInv(s: State, a: Action, s': State)
    requires Inv(s) && Statement(a) && a.t in s.txns && StepOf(s, a) == Some(s')
    ensures Inv(s')
  {
    assert TxnOk(s, a.t);
    match a
    case Claim(t) => ClaimIsQuiet(s, t, s'); QuietKeepsInv(s, s', t);
    case Record(t) => RecordIsQuiet(s, t, s'); QuietKeepsInv(s, s', t);
    case StartKill(t) => StartKillIsQuiet(s, t, s'); QuietKeepsInv(s, s', t);
    case DisableRow(t, id) => DisableRowIsQuiet(s, t, id, s'); QuietKeepsInv(s, s', t);
    case Commit(t) => CommitKeepsInv(s, t, s');
    case _ => LookupsAreQuiet(s, a, s'); QuietKeepsInv(s, s', a.t);
  }

  lemma {:induction false} StepKeepsInv(s: State, a: Action, s': State)
    requires Inv(s) && Step(s, a) == Some(s')
    ensures Inv(s')
  {
    match a
    case Generate(batch, header, rows) => GenerateKeepsInv(s, batch, header, rows, s');
    case Begin(t, req) => QuietKeepsInv(s, s', t);
    case _ => StatementKeepsInv(s, a, s');
  }

  lemma {:induction false} RunKeepsInv(s: State, actions: seq<Action>, s': State)
    requires Inv(s) && Run(s, actions) == Some(s')
    ensures Inv(s')
    decreases |actions|
  {
    if actions != [] {
      var next := Step(s, actions[0]).value;
      StepKeepsInv(s, actions[0], next);
      RunKeepsInv(next, actions[1..], s');
    }
  }

  lemma {:induction false} ReachableInv(s: State)
    requires Reachable(s)
    ensures Inv(s)
  {
    var actions :| Run(EMPTY, actions) == Some(s);
    RunKeepsInv(EMPTY, actions, s);
  }

  // ---- conservation ---------------------------------------------------------------------------------

  /** In every reachable state: a code's counter is the number of its committed redemptions, never above its
      maximum, and an active code has a slot left. */
  lemma {:induction false} ActivationsAreConserved(s: State, id: CodeId)
    requires Reachable(s) && id in s.codes
    ensures s.codes[id].used == |Redeemers(s.redemptions, id)| <= s.codes[id].max
    ensures s.codes[id].status == Active ==> s.codes[id].used < s.codes[id].max
  {
    ReachableInv(s);
    assert CodeOk(s, id);
  }

  /** Two successful redemptions of a code by the same user are the same redemption. */
  lemma {:induction false} OncePerUser(s: State, t: TxnId, u: TxnId, user: UserId, id: CodeId)
    requires Reachable(s) && t in s.txns && u in s.txns
    requires s.txns[t].pc == Done(Claimed(user, id)) && s.txns[u].pc == Done(Claimed(user, id))
    ensures t == u && (user, id) in s.redemptions
  {
    ReachableInv(s);
    assert TxnOk(s, t);
  }

  // ---- kills ----------------------------------------------------------------------------------------

  lemma {:induction false} RunStaysReachable(s: State, actions: seq<Action>, s': State)
    requires Inv(s) && Run(s, actions) == Some(s')
    ensures Inv(s') && forall t :: t in s.txns && s.txns[t].pc.Done? ==> t in s'.txns && s'.txns[t] == s.txns[t]
    decreases |actions|
  {
    if actions != [] {
      var next := Step(s, actions[0]).value;
      StepKeepsInv(s, actions[0], next);
      forall t | t in s.txns && s.txns[t].pc.Done? ensures t in next.txns && next.txns[t] == s.txns[t] {
        DoneStays(s, actions[0], next, t);
      }
      RunStaysReachable(next, actions[1..], s');
    }
  }

  lemma {:induction false} DoneStays(s: State, a: Action, s': State, t: TxnId)
    requires Step(s, a) == Some(s') && t in s.txns && s.txns[t].pc.Done?
    ensures t in s'.txns && s'.txns[t] == s.txns[t]
  {}

  /** Once a kill has committed, its batch and every code of it are disabled, now and after any further run ... */
  lemma {:induction false} KillIsFinal(s: State, actions: seq<Action>, s': State, t: TxnId, b: BatchId)
    requires Reachable(s) && t in s.txns && s.txns[t].pc == Done(Killed(b)) && Run(s, actions) == Some(s')
    ensures AllDisabled(s', b) && s'.batches[b].disabled
  {
    ReachableInv(s);
    RunStaysReachable(s, actions, s');
    assert TxnOk(s', t);
  }

  /** ... so no claim of a code of the batch succeeds, not even of a redemption that had passed every check before. */
  lemma {:induction false} NothingIsClaimedAfterAKill(s: State, actions: seq<Action>, s': State, t: TxnId, b: BatchId,
                                                      u: TxnId, next: State)
    requires Reachable(s) && t in s.txns && s.txns[t].pc == Done(Killed(b)) && Run(s, actions) == Some(s')
    requires u in s'.txns && s'.txns[u].pc.Cleared? && s'.txns[u].pc.id in s'.codes
      && s'.codes[s'.txns[u].pc.id].batch == b
    requires Step(s', Claim(u)) == Some(next)
    ensures u in next.txns && next.txns[u].pc == Failed(CodeExhausted) && next.codes == s'.codes
  {
    KillIsFinal(s, actions, s', t, b);
  }

  /** A step in a state where all of a batch's codes are disabled adds none, enables none, and redeems none. */
  lemma {:induction false} DisabledBatchRests(s: State, a: Action, s': State, b: BatchId)
    requires Inv(s) && Step(s, a) == Some(s') && AllDisabled(s, b)
    ensures AllDisabled(s', b)
    ensures forall id :: id in s'.codes && s'.codes[id].batch == b ==>
      id in s.codes && s.codes[id].batch == b && Redeemers(s'.redemptions, id) == Redeemers(s.redemptions, id)
  {
    if a.Commit? {
      assert TxnOk(s, a.t);
      CommitOfOthers(s, a.t, s', b);
    } else {
      RedemptionsRest(s, a, s');
    }
  }

  /** Only a commit redeems, or changes a code; only a generation adds codes, of a new batch. */
  lemma {:induction false} RedemptionsRest(s: State, a: Action, s': State)
    requires Step(s, a) == Some(s') && !a.Commit?
    ensures s'.redemptions == s.redemptions && s.batches.Keys <= s'.batches.Keys
    ensures forall id :: id in s.codes ==> id in s'.codes && s'.codes[id] == s.codes[id]
    ensures forall id :: id in s'.codes && id !in s.codes ==> s'.codes[id].batch !in s.batches
  {}

  lemma {:induction false} CommitOfOthers(s: State, t: TxnId, s': State, b: BatchId)
    requires t in s.txns && TxnOk(s, t) && StepCommit(s, t) == Some(s') && AllDisabled(s, b)
    ensures AllDisabled(s', b)
    ensures forall id :: id in s'.codes && s'.codes[id].batch == b ==>
      id in s.codes && s.codes[id].batch == b && Redeemers(s'.redemptions, id) == Redeemers(s.redemptions, id)
  {
    forall id | id in s'.codes && s'.codes[id].batch == b
      ensures id in s.codes && s.codes[id].batch == b && s'.codes[id].status == Disabled
      ensures Redeemers(s'.redemptions, id) == Redeemers(s.redemptions, id)
    {
      if s.txns[t].pc.Recorded? { assert s.txns[t].pc.id != id; }
    }
  }

  lemma {:induction false} DisabledBatchRestsAlong(s: State, actions: seq<Action>, s': State, b: BatchId)
    requires Inv(s) && Run(s, actions) == Some(s') && AllDisabled(s, b)
    ensures forall id :: id in s'.codes && s'.codes[id].batch == b ==>
      id in s.codes && s.codes[id].batch == b && Redeemers(s'.redemptions, id) == Redeemers(s.redemptions, id)
    decreases |actions|
  {
    hide Inv, AllDisabled, Step;
    if actions != [] {
      var next := Step(s, actions[0]).value;
      StepKeepsInv(s, actions[0], next);
      DisabledBatchRests(s, actions[0], next, b);
      DisabledBatchRestsAlong(next, actions[1..], s', b);
    }
  }

  /** After a kill has committed, no run adds a code to the batch, or a redemption to one of its codes. */
  lemma {:induction false} RedemptionsEndWithAKill(s: State, actions: seq<Action>, s': State, t: TxnId, b: BatchId,
                                                   id: CodeId)
    requires Reachable(s) && t in s.txns && s.txns[t].pc == Done(Killed(b)) && Run(s, actions) == Some(s')
    requires id in s'.codes && s'.codes[id].batch == b
    ensures id in s.codes && s.codes[id].batch == b
    ensures Redeemers(s'.redemptions, id) == Redeemers(s.redemptions, id) && s'.codes[id].used == s.codes[id].used
  {
    ReachableInv(s);
    RunKeepsInv(s, actions, s');
    assert TxnOk(s, t);
    DisabledBatchRestsAlong(s, actions, s', b);
    assert CodeOk(s, id) && CodeOk(s', id);
  }
}
