/**
 What the stored count of a replay entry counts.

 `claim` takes a use, asks the address budget, and gives the use back when that is spent. Any of
 its Redis calls may take effect without an answer, late, or never. Along a run each
 presentation leaves a trail: how its claim was answered and whether the script took a use, what
 the limiter said, and what became of giving the use back. The count stored with an entry is
 exactly the number of presentations that took a use and did not give it back, and the trail
 says when a refused presentation is one of them.
 */
module ReplayAccounting {
  import opened Options
  import opened TokenFamilies
  import opened RefreshProtocol
  import opened RefreshInvariant
  import opened RefreshSteps
  import opened RefreshWrites
  import opened RefreshTheorems
  import opened ReplayBudget
  import opened BlindRevocation

  /** `granted`: the script took a use. `returned`: a release of it reached Redis. */
  datatype Trail = Trail(claim: Option<Reply>, granted: bool, limiter: Option<Option<bool>>, release: Option<Reply>,
    returned: bool)

  const UNTRIED := Trail(None, false, None, None, false)

  type Trails = map<TxnId, Trail>

  function TrailOf(m: Trails, t: TxnId): Trail { if t in m then m[t] else UNTRIED }

  predicate TookEffect(reply: Reply) { reply.Answered? || reply.ReplyLost? }

  /** The trails after action `a` in `s`. */
  function Followed(m: Trails, s: State, a: Action): Trails {
    match a
    case Claim(t, reply) =>
      if t in s.txns && s.txns[t].req.Refresh?
      then m[t := TrailOf(m, t).(claim := Some(reply),
                                 granted := TookEffect(reply)
                                   && ClaimGranted(s.entries, s.txns[t].req.hash, s.cfg.maxUses))]
      else m
    case Budget(t, within) => m[t := TrailOf(m, t).(limiter := Some(within))]
    case Return(t, reply) => m[t := TrailOf(m, t).(release := Some(reply), returned := TookEffect(reply))]
    case Deliver(c) => Late(m, s, c)
    case _ => m
  }

  function Late(m: Trails, s: State, c: Command): Trails {
    match c
    case LateRemember(_, _, _) => m
    case LateClaim(h, t) => m[t := TrailOf(m, t).(granted := ClaimGranted(s.entries, h, s.cfg.maxUses))]
    case LateRelease(_, t) => m[t := TrailOf(m, t).(returned := true)]
  }

  /** The trails of a run from `s`. */
  ghost function Along(s: State, m: Trails, actions: seq<Action>): Trails
    decreases |actions|
  {
    if actions == [] then m
    else
      var next := Step(s, actions[0]);
      if next.None? then m else Along(next.value, Followed(m, s, actions[0]), actions[1..])
  }

  predicate Spent(x: Trail) { x.granted && !x.returned }

  predicate PresentsHash(x: Txn, h: Hash) { x.req.Refresh? && x.req.hash == h }

  /** The presentations of `h` that took a use and did not give it back. */
  ghost function Kept(s: State, m: Trails, h: Hash): set<TxnId> {
    set t | t in s.txns && PresentsHash(s.txns[t], h) && Spent(TrailOf(m, t))
  }

  // ---- the invariant --------------------------------------------------------------------------------

  /** Where a presentation is with respect to `claim`. */
  datatype Stage = Before | InHand | GivingBack | Granted | Refused | Gone

  function StageOf(pc: Pc): Stage {
    match pc
    case Charged(_, _, _, _) => InHand
    case Returning(_, _, _) => GivingBack
    case Checking(_, _, _) => Refused
    case Updating(_, _, _) => Refused
    case Ready(o) => if o.Replayed? then Granted else if o.Conflict? || o.Killed? then Refused else Before
    case Done(o) =>
      if o.Replayed? then Granted else if o.Conflict? || o.Killed? then Refused else if o.Aborted? then Gone else Before
    case _ => Before
  }

  predicate Held(x: Trail, limiter: Option<Option<bool>>) {
    x == Trail(Some(Answered), true, limiter, None, false)
  }

  /** The trail of a presentation whose replay was refused. */
  predicate RefusedTrail(x: Trail) {
    match x.claim
    case None => x == UNTRIED
    case Some(reply) =>
      if reply.Answered? && x.granted then
        if x.limiter == Some(Some(false))
        then x.release.Some? && (x.release.value.Late? || x.returned == TookEffect(x.release.value))
        else Held(x, Some(None))
      else x.limiter.None? && x.release.None? && !x.returned && (reply.Dropped? ==> !x.granted)
  }

  predicate TrailFits(stage: Stage, x: Trail) {
    match stage
    case Before => x == UNTRIED
    case InHand => Held(x, None)
    case GivingBack => Held(x, Some(Some(false)))
    case Granted => Held(x, Some(Some(true)))
    case Refused => RefusedTrail(x)
    case Gone => true
  }

  ghost predicate TrailsFit(s: State, m: Trails) {
    && (forall t :: t in s.txns ==> TrailFits(StageOf(s.txns[t].pc), TrailOf(m, t)))
    && (forall t :: t !in s.txns ==> TrailOf(m, t) == UNTRIED)
  }

  predicate Over(stage: Stage) { stage.Refused? || stage.Gone? }

  ghost predicate LatesFit(s: State, m: Trails) {
    && (forall h, t :: LateClaim(h, t) in s.inflight ==>
          && t in s.txns && PresentsHash(s.txns[t], h) && Over(StageOf(s.txns[t].pc))
          && TrailOf(m, t) == Trail(Some(Reply.Late), false, None, None, false))
    && (forall h, t :: LateRelease(h, t) in s.inflight ==>
          && t in s.txns && PresentsHash(s.txns[t], h) && Over(StageOf(s.txns[t].pc))
          && TrailOf(m, t) == Trail(Some(Answered), true, Some(Some(false)), Some(Reply.Late), false))
  }

  ghost predicate CountsFit(s: State, m: Trails) {
    forall h :: h in s.entries ==> s.entries[h].uses == |Kept(s, m, h)|
  }

  /** A token of which a use was taken is rotated, and its entry will not be stored again. */
  ghost predicate KeptFit(s: State, m: Trails) {
    && (forall h {:trigger Kept(s, m, h)} :: Kept(s, m, h) != {} ==> RotatedHash(s.db, h))
    && (forall h, u :: Source(s, u, h) ==> Kept(s, m, h) == {})
  }

  ghost predicate AInv(s: State, m: Trails) {
    TrailsFit(s, m) && LatesFit(s, m) && CountsFit(s, m) && KeptFit(s, m)
  }

  // ---- steps that take and give back nothing ----------------------------------------------------------

  predicate StageMoves(a: Stage, b: Stage) { b == a || b.Gone? || (a.Before? && b.Refused?) }

  ghost predicate StagesMove(s: State, s': State) {
    && s.txns.Keys <= s'.txns.Keys
    && (forall t :: t in s.txns ==>
          s'.txns[t].req == s.txns[t].req && StageMoves(StageOf(s.txns[t].pc), StageOf(s'.txns[t].pc)))
    && (forall t :: t in s'.txns && t !in s.txns ==> s'.txns[t].pc == Start)
  }

  /** What such a step may do to Redis: forget entries, or store one of which no use was taken. */
  ghost predicate RedisRests(s: State, s': State, m: Trails) {
    && (forall h :: h in s'.entries ==>
          (h in s.entries && s'.entries[h].uses == s.entries[h].uses)
            || (s'.entries[h].uses == 0 && Kept(s, m, h) == {}))
    && (forall c :: c in s'.inflight && !c.LateRemember? ==> c in s.inflight)
    && (forall u, h :: Source(s', u, h) ==> Kept(s, m, h) == {})
  }

  lemma {:induction false} RestKeeps(s: State, s': State, m: Trails)
    requires AInv(s, m) && StagesMove(s, s') && RedisRests(s, s', m) && TableEvolves(s.db, s'.db)
    ensures AInv(s', m)
  {
    RestTrails(s, s', m);
    hide TrailsFit, LatesFit, RotatedHash, Source, StageOf;
    forall h ensures Kept(s', m, h) == Kept(s, m, h) {}
    forall h | Kept(s', m, h) != {} ensures RotatedHash(s'.db, h) {
      RotatedHashStays(s.db, s'.db, h);
    }
  }

  lemma {:induction false} RestTrails(s: State, s': State, m: Trails)
    requires TrailsFit(s, m) && LatesFit(s, m) && StagesMove(s, s')
    requires forall c :: c in s'.inflight && !c.LateRemember? ==> c in s.inflight
    ensures TrailsFit(s', m) && LatesFit(s', m)
  {
    assert StageOf(Start) == Before;
    hide StageOf;
  }

  // ---- steps that do ----------------------------------------------------------------------------------

  /** One presentation moves, with its trail. */
  ghost predicate OneMoves(s: State, s': State, m: Trails, t: TxnId, x: Trail) {
    && t in s.txns && s'.txns.Keys == s.txns.Keys && s'.db == s.db && s'.cfg == s.cfg
    && s'.txns[t].req == s.txns[t].req && s.txns[t].req.Refresh?
    && (forall u :: u in s.txns && u != t ==> s'.txns[u] == s.txns[u])
    && TrailFits(StageOf(s'.txns[t].pc), x)
    && (forall u, h :: Source(s', u, h) ==> Source(s, u, h))
  }

  lemma {:induction false} KeptMoves(s: State, s': State, m: Trails, t: TxnId, x: Trail, k: Hash)
    requires OneMoves(s, s', m, t, x)
    ensures Kept(s', m[t := x], k) ==
      if k != s.txns[t].req.hash then Kept(s, m, k) else if Spent(x) then Kept(s, m, k) + {t} else Kept(s, m, k) - {t}
  {
    hide StageOf, TrailFits, Source;
  }

  /** What is in flight about `t`, or about others, is told by their trails. */
  ghost predicate LatesMove(s: State, s': State, t: TxnId, x: Trail)
    requires t in s'.txns
  {
    forall c :: c in s'.inflight && !c.LateRemember? ==>
      if c.owner != t then c in s.inflight
      else
        && PresentsHash(s'.txns[t], c.hash) && Over(StageOf(s'.txns[t].pc))
        && x == if c.LateClaim? then Trail(Some(Reply.Late), false, None, None, false)
                else Trail(Some(Answered), true, Some(Some(false)), Some(Reply.Late), false)
  }

  lemma {:induction false} MoveFits(s: State, s': State, m: Trails, t: TxnId, x: Trail)
    requires TrailsFit(s, m) && LatesFit(s, m) && OneMoves(s, s', m, t, x) && LatesMove(s, s', t, x)
    ensures TrailsFit(s', m[t := x]) && LatesFit(s', m[t := x])
  {
    hide TrailFits, Source;
    forall h, u | LateClaim(h, u) in s'.inflight && u != t ensures LateClaim(h, u) in s.inflight {
      assert LateClaim(h, u).owner == u;
    }
    forall h, u | LateRelease(h, u) in s'.inflight && u != t ensures LateRelease(h, u) in s.inflight {
      assert LateRelease(h, u).owner == u;
    }
    forall h | LateClaim(h, t) in s'.inflight
      ensures PresentsHash(s'.txns[t], h) && Over(StageOf(s'.txns[t].pc))
        && x == Trail(Some(Reply.Late), false, None, None, false)
    {
      assert LateClaim(h, t).owner == t;
    }
    forall h | LateRelease(h, t) in s'.inflight
      ensures PresentsHash(s'.txns[t], h) && Over(StageOf(s'.txns[t].pc))
      ensures x == Trail(Some(Answered), true, Some(Some(false)), Some(Reply.Late), false)
    {
      assert LateRelease(h, t).owner == t;
    }
  }

  /** Neither the count nor the presentations that hold a use change. */
  lemma {:induction false} PlainMove(s: State, s': State, m: Trails, t: TxnId, x: Trail)
    requires AInv(s, m) && OneMoves(s, s', m, t, x) && LatesMove(s, s', t, x)
    requires Spent(x) == Spent(TrailOf(m, t)) && s'.entries == s.entries
    ensures AInv(s', m[t := x])
  {
    MoveFits(s, s', m, t, x);
    forall k ensures Kept(s', m[t := x], k) == Kept(s, m, k) { KeptMoves(s, s', m, t, x, k); }
    SameFits(s, s', m, m[t := x]);
  }

  lemma {:induction false} SameFits(s: State, s': State, m: Trails, m': Trails)
    requires CountsFit(s, m) && KeptFit(s, m) && s'.db == s.db && s'.entries == s.entries
    requires forall k :: Kept(s', m', k) == Kept(s, m, k)
    requires forall u, k :: Source(s', u, k) ==> Source(s, u, k)
    ensures CountsFit(s', m') && KeptFit(s', m')
  {
    hide Source, RotatedHash, Kept;
  }

  /** The script takes a use: one presentation more holds one. */
  lemma {:induction false} TakingMove(s: State, s': State, m: Trails, t: TxnId, x: Trail)
    requires AInv(s, m) && SourcesOk(s) && KnownOk(s) && OneMoves(s, s', m, t, x) && LatesMove(s, s', t, x)
    requires Spent(x) && !Spent(TrailOf(m, t)) && ClaimGranted(s.entries, s.txns[t].req.hash, s.cfg.maxUses)
    requires s'.entries == Claimed(s.entries, s.txns[t].req.hash, s.cfg.maxUses)
    ensures AInv(s', m[t := x])
  {
    MoveFits(s, s', m, t, x);
    var h := s.txns[t].req.hash;
    assert RotatedHash(s.db, h);
    assert forall u :: !Source(s, u, h);
    hide StageOf, TrailFits, Source, RotatedHash, LatesMove, OneMoves;
    forall k ensures Kept(s', m[t := x], k) == if k == h then Kept(s, m, k) + {t} else Kept(s, m, k) {
      KeptMoves(s, s', m, t, x, k);
    }
    assert t !in Kept(s, m, h) && |Kept(s, m, h) + {t}| == |Kept(s, m, h)| + 1;
    TakenFits(s, s', m, m[t := x], t, h);
  }

  lemma {:induction false} TakenFits(s: State, s': State, m: Trails, m': Trails, t: TxnId, h: Hash)
    requires CountsFit(s, m) && KeptFit(s, m) && s'.db == s.db && ClaimGranted(s.entries, h, s.cfg.maxUses)
    requires s'.entries == Claimed(s.entries, h, s.cfg.maxUses) && RotatedHash(s.db, h)
    requires forall k :: Kept(s', m', k) == if k == h then Kept(s, m, k) + {t} else Kept(s, m, k)
    requires t !in Kept(s, m, h)
    requires forall u, k :: Source(s', u, k) ==> Source(s, u, k) && k != h
    ensures CountsFit(s', m') && KeptFit(s', m')
  {
    hide Source, RotatedHash, Kept;
  }

  /** A release reaches Redis: one presentation fewer holds a use. */
  lemma {:induction false} GivingMove(s: State, s': State, m: Trails, t: TxnId, x: Trail)
    requires AInv(s, m) && OneMoves(s, s', m, t, x) && LatesMove(s, s', t, x)
    requires !Spent(x) && Spent(TrailOf(m, t)) && s'.entries == Released(s.entries, s.txns[t].req.hash)
    ensures AInv(s', m[t := x])
  {
    MoveFits(s, s', m, t, x);
    var h := s.txns[t].req.hash;
    forall k ensures Kept(s', m[t := x], k) == if k == h then Kept(s, m, k) - {t} else Kept(s, m, k) {
      KeptMoves(s, s', m, t, x, k);
    }
    assert t in Kept(s, m, h);
    GivenFits(s, s', m, m[t := x], t, h);
  }

  lemma {:induction false} GivenFits(s: State, s': State, m: Trails, m': Trails, t: TxnId, h: Hash)
    requires CountsFit(s, m) && KeptFit(s, m) && s'.db == s.db && s'.entries == Released(s.entries, h)
    requires forall k :: Kept(s', m', k) == if k == h then Kept(s, m, k) - {t} else Kept(s, m, k)
    requires t in Kept(s, m, h)
    requires forall u, k :: Source(s', u, k) ==> Source(s, u, k)
    ensures CountsFit(s', m') && KeptFit(s', m')
  {
    hide Source, RotatedHash, Kept;
    assert |Kept(s, m, h) - {t}| == |Kept(s, m, h)| - 1;
  }

  // ---- each statement ---------------------------------------------------------------------------------

  predicate Plain(a: Action) { Alone(a) && !a.Budget? }

  lemma {:induction false} LookupRests(s: State, a: Action, s': State)
    requires (a.Open? || a.Find? || a.FindNone? || a.ListFamilies? || a.Refuse? || a.Rotate?) && a.t in s.txns
      && StepOf(s, a) == Some(s')
    ensures a.t in s'.txns && StageMoves(StageOf(s.txns[a.t].pc), StageOf(s'.txns[a.t].pc))
  {}

  lemma {:induction false} LockRests(s: State, a: Action, s': State)
    requires (a.Acquire? || a.Fetch? || a.Abort? || a.SkipReplay? || a.Load?) && a.t in s.txns
      && StepOf(s, a) == Some(s')
    ensures a.t in s'.txns && StageMoves(StageOf(s.txns[a.t].pc), StageOf(s'.txns[a.t].pc))
  {}

  lemma {:induction false} ReadRests(s: State, t: TxnId, now: Time, s': State)
    requires t in s.txns && StepReadChild(s, t, now) == Some(s')
    ensures t in s'.txns && StageMoves(StageOf(s.txns[t].pc), StageOf(s'.txns[t].pc))
  {}

  lemma {:induction false} VetRests(s: State, t: TxnId, dbNow: Time, account: Option<Account>, s': State)
    requires t in s.txns && StepVet(s, t, dbNow, account) == Some(s')
    ensures t in s'.txns && StageMoves(StageOf(s.txns[t].pc), StageOf(s'.txns[t].pc))
  {}

  lemma {:induction false} JudgeRests(s: State, t: TxnId, dbNow: Time, s': State)
    requires t in s.txns && StepJudge(s, t, dbNow) == Some(s')
    ensures t in s'.txns && StageMoves(StageOf(s.txns[t].pc), StageOf(s'.txns[t].pc))
  {
    JudgeGoes(s, t, dbNow, s');
  }

  lemma {:induction false} UpdateRests(s: State, a: Action, s': State)
    requires (a.StartUpdate? || a.UpdateRow? || a.EndUpdate?) && a.t in s.txns && StepOf(s, a) == Some(s')
    ensures a.t in s'.txns && StageMoves(StageOf(s.txns[a.t].pc), StageOf(s'.txns[a.t].pc))
  {}

  lemma {:induction false} PlainRests(s: State, a: Action, s': State)
    requires Plain(a) && a.t in s.txns && StepOf(s, a) == Some(s')
    ensures a.t in s'.txns && StageMoves(StageOf(s.txns[a.t].pc), StageOf(s'.txns[a.t].pc))
  {
    match a
    case ReadChild(t, now) => ReadRests(s, t, now, s');
    case Vet(t, dbNow, account) => VetRests(s, t, dbNow, account, s');
    case Judge(t, dbNow) => JudgeRests(s, t, dbNow, s');
    case _ =>
      if a.Open? || a.Find? || a.FindNone? || a.ListFamilies? || a.Refuse? || a.Rotate? { LookupRests(s, a, s'); }
      else if a.StartUpdate? || a.UpdateRow? || a.EndUpdate? { UpdateRests(s, a, s'); }
      else { LockRests(s, a, s'); }
  }

  lemma {:induction false} AloneSources(s: State, s': State, t: TxnId, m: Trails)
    requires RedisAlone(s, s', t) && AInv(s, m) && SourcesOk(s)
    ensures RedisRests(s, s', m)
  {
    forall u, h | Source(s', u, h) ensures Source(s, u, h) {
      if u == t && !s'.txns[u].pc.Remembering? { var e :| LateRemember(h, e, u) in s.inflight; }
    }
  }

  lemma {:induction false} PlainKeeps(s: State, a: Action, s': State, m: Trails)
    requires AInv(s, m) && SourcesOk(s) && Plain(a) && a.t in s.txns && StepOf(s, a) == Some(s')
      && TableEvolves(s.db, s'.db)
    ensures AInv(s', Followed(m, s, a))
  {
    hide StepOf, StageOf, AInv, SourcesOk, TableEvolves, RedisAlone, StagesMove, RedisRests;
    PlainRests(s, a, s');
    StepIsAlone(s, a, s');
    AloneStages(s, s', a.t);
    AloneSources(s, s', a.t, m);
    RestKeeps(s, s', m);
    assert Followed(m, s, a) == m;
  }

  lemma {:induction false} AloneStages(s: State, s': State, t: TxnId)
    requires t in s.txns && RedisAlone(s, s', t) && StageMoves(StageOf(s.txns[t].pc), StageOf(s'.txns[t].pc))
    ensures StagesMove(s, s')
  {
    hide StageOf;
  }

  lemma {:induction false} BeginKeeps(s: State, t: TxnId, req: Request, s': State, m: Trails)
    requires AInv(s, m) && SourcesOk(s) && Step(s, Begin(t, req)) == Some(s')
    ensures AInv(s', m)
  {
    AloneBegin(s, t, req);
    AloneSources(s, s', t, m);
    RestKeeps(s, s', m);
  }

  lemma {:induction false} ExpireKeeps(s: State, h: Hash, s': State, m: Trails)
    requires AInv(s, m) && Step(s, Expire(h)) == Some(s')
    ensures AInv(s', m)
  {
    forall u, k | Source(s', u, k) ensures Source(s, u, k) {}
    RestKeeps(s, s', m);
  }

  lemma {:induction false} CommitStages(s: State, s': State, t: TxnId, o: Outcome)
    requires Commits(s, s', t, o)
    ensures StagesMove(s, s')
  {}

  /** Only a token never rotated before gets an entry to store, and of that one no use was taken. */
  lemma {:induction false} CommitRests(s: State, s': State, t: TxnId, o: Outcome, m: Trails)
    requires KeptFit(s, m) && HashesUnique(s.db) && CommitsAlone(s, s', t, o) && ReadyOk(s, t, s.txns[t], o)
    ensures RedisRests(s, s', m)
  {
    forall u, h | Source(s', u, h) ensures Kept(s, m, h) == {} {
      if u == t && s'.txns[t].pc.Remembering? {
        assert !RotatedHash(s.db, h);
      } else {
        assert Source(s, u, h);
      }
    }
  }

  lemma {:induction false} CommitKeeps(s: State, t: TxnId, cca: Option<Stamp>, s': State, m: Trails)
    requires AInv(s, m) && AllOk(s) && HashesUnique(s.db) && t in s.txns && StepCommit(s, t, cca) == Some(s')
      && TableEvolves(s.db, s'.db)
    ensures AInv(s', m)
  {
    CommitStepAlone(s, t, cca, s');
    var o := s.txns[t].pc.outcome;
    hide StepCommit, StageOf;
    ReadyIsOk(s, t, o);
    CommitStages(s, s', t, o);
    CommitRests(s, s', t, o, m);
    RestKeeps(s, s', m);
  }

  lemma {:induction false} RememberGoes(s: State, t: TxnId, reply: Reply, s': State)
    requires t in s.txns && StepRemember(s, t, reply) == Some(s') && s.txns[t].pc.outcome.Rotated?
    ensures StagesMove(s, s') && s'.db == s.db && s.txns[t].pc.Remembering? && s.txns[t].req.Refresh?
    ensures forall u :: u in s'.txns && s'.txns[u].pc.Remembering? ==> u in s.txns && s'.txns[u] == s.txns[u]
    ensures forall u :: u in s'.txns ==> u in s.txns && s'.txns[u].req == s.txns[u].req
    ensures var x := s.txns[t];
      && (s'.entries == s.entries || s'.entries == Remembered(s.entries, x.req.hash, x.pc.entry))
      && s'.inflight <= s.inflight + {LateRemember(x.req.hash, x.pc.entry, t)}
  {}

  lemma {:induction false} RememberRests(s: State, t: TxnId, reply: Reply, s': State, m: Trails)
    requires KeptFit(s, m) && t in s.txns && StepRemember(s, t, reply) == Some(s') && s.txns[t].pc.outcome.Rotated?
    ensures StagesMove(s, s') && RedisRests(s, s', m) && s'.db == s.db
  {
    RememberGoes(s, t, reply, s');
    hide StepRemember, StagesMove, RotatedHash;
    assert Source(s, t, s.txns[t].req.hash);
    forall u, h | Source(s', u, h) ensures Source(s, u, h) {
      if !s'.txns[u].pc.Remembering? { var e :| LateRemember(h, e, u) in s'.inflight; }
    }
  }

  lemma {:induction false} RememberKeeps(s: State, t: TxnId, reply: Reply, s': State, m: Trails)
    requires AInv(s, m) && AllOk(s) && t in s.txns && StepRemember(s, t, reply) == Some(s')
    ensures AInv(s', m)
  {
    assert s.txns[t].pc.outcome.Rotated? by { assert TxnOk(s, t); }
    RememberRests(s, t, reply, s', m);
    hide StepRemember, AllOk;
    RestKeeps(s, s', m);
  }

  lemma {:induction false} LateRememberKeeps(s: State, c: Command, s': State, m: Trails)
    requires AInv(s, m) && SourcesOk(s) && c.LateRemember? && StepDeliver(s, c) == Some(s')
    ensures AInv(s', m)
  {
    assert c == LateRemember(c.hash, c.entry, c.owner);
    assert Source(s, c.owner, c.hash);
    forall u, h | Source(s', u, h) ensures Source(s, u, h) {
      if !s'.txns[u].pc.Remembering? {
        var e :| LateRemember(h, e, u) in s'.inflight;
        assert LateRemember(h, e, u) in s.inflight;
      }
    }
    RestKeeps(s, s', m);
  }

  /** A statement of `t` that does not start to remember moves `t` alone. */
  lemma {:induction false} Alters(s: State, s': State, m: Trails, t: TxnId, x: Trail)
    requires SameButOne(s, s', t) && s.txns[t].req.Refresh? && !s'.txns[t].pc.Remembering?
    requires forall c :: c in s'.inflight && c.LateRemember? ==> c in s.inflight
    requires TrailFits(StageOf(s'.txns[t].pc), x)
    ensures OneMoves(s, s', m, t, x)
  {
    hide StageOf, TrailFits;
    forall u, h | Source(s', u, h) ensures Source(s, u, h) {
      if !s'.txns[u].pc.Remembering? {
        var e :| LateRemember(h, e, u) in s'.inflight;
        assert LateRemember(h, e, u) in s.inflight;
      }
    }
  }

  /** Nothing about a presentation is in flight before its claim, or while it holds a use. */
  lemma {:induction false} NothingInFlight(s: State, m: Trails, t: TxnId)
    requires AInv(s, m) && t in s.txns && !Over(StageOf(s.txns[t].pc))
    ensures TrailFits(StageOf(s.txns[t].pc), TrailOf(m, t))
    ensures forall c :: c in s.inflight && !c.LateRemember? ==> c.owner != t
  {
    hide StageOf, TrailFits;
    forall c | c in s.inflight && !c.LateRemember? ensures c.owner != t {
      if c.LateClaim? { assert c == LateClaim(c.hash, c.owner); } else { assert c == LateRelease(c.hash, c.owner); }
    }
  }

  lemma {:induction false} ClaimGoes(s: State, t: TxnId, reply: Reply, s': State)
    requires t in s.txns && StepClaim(s, t, reply) == Some(s')
    ensures SameButOne(s, s', t) && s.txns[t].req.Refresh? && s.txns[t].pc.Cleared?
    ensures var h := s.txns[t].req.hash;
      && s'.entries == (if TookEffect(reply) then Claimed(s.entries, h, s.cfg.maxUses) else s.entries)
      && s'.inflight == s.inflight + (if reply.Late? then {LateClaim(h, t)} else {})
      && if reply.Answered? && ClaimGranted(s.entries, h, s.cfg.maxUses) then s'.txns[t].pc.Charged?
         else s'.txns[t].pc.Checking?
  {}

  lemma {:induction false} ClaimKeeps(s: State, t: TxnId, reply: Reply, s': State, m: Trails)
    requires AInv(s, m) && SourcesOk(s) && KnownOk(s) && t in s.txns && StepClaim(s, t, reply) == Some(s')
    ensures AInv(s', Followed(m, s, Action.Claim(t, reply)))
  {
    hide AInv, SourcesOk, KnownOk, OneMoves;
    var h := s.txns[t].req.hash;
    var granted := TookEffect(reply) && ClaimGranted(s.entries, h, s.cfg.maxUses);
    var x := Trail(Some(reply), granted, None, None, false);
    ClaimGoes(s, t, reply, s');
    hide StepClaim;
    NothingInFlight(s, m, t);
    assert TrailOf(m, t) == UNTRIED;
    Alters(s, s', m, t, x);
    assert LatesMove(s, s', t, x);
    hide SameButOne, LatesMove, StageOf, TrailFits;
    if granted { TakingMove(s, s', m, t, x); } else { PlainMove(s, s', m, t, x); }
  }

  lemma {:induction false} BudgetSays(s: State, t: TxnId, within: Option<bool>, s': State)
    requires t in s.txns && StepBudget(s, t, within) == Some(s')
    ensures SameButOne(s, s', t) && s.txns[t].req.Refresh? && s.txns[t].pc.Charged? && s'.entries == s.entries
      && s'.inflight == s.inflight
    ensures within == Some(true) ==> s'.txns[t].pc.Ready? && s'.txns[t].pc.outcome.Replayed?
    ensures within == Some(false) ==> s'.txns[t].pc.Returning?
    ensures within == None ==> s'.txns[t].pc.Checking?
  {}

  lemma {:induction false} BudgetKeeps(s: State, t: TxnId, within: Option<bool>, s': State, m: Trails)
    requires AInv(s, m) && t in s.txns && StepBudget(s, t, within) == Some(s')
    ensures AInv(s', Followed(m, s, Budget(t, within)))
  {
    hide AInv, OneMoves;
    var x := TrailOf(m, t).(limiter := Some(within));
    BudgetSays(s, t, within, s');
    hide StepBudget;
    NothingInFlight(s, m, t);
    assert Held(TrailOf(m, t), None);
    if within.Some? {
      if within.value { assert within == Some(true); } else { assert within == Some(false); }
    }
    Alters(s, s', m, t, x);
    hide SameButOne;
    PlainMove(s, s', m, t, x);
  }

  lemma {:induction false} ReturnKeeps(s: State, t: TxnId, reply: Reply, s': State, m: Trails)
    requires AInv(s, m) && t in s.txns && StepReturn(s, t, reply) == Some(s')
    ensures AInv(s', Followed(m, s, Return(t, reply)))
  {
    hide AInv, OneMoves;
    var x := TrailOf(m, t).(release := Some(reply), returned := TookEffect(reply));
    ReturnGoes(s, t, reply, s');
    hide StepReturn;
    NothingInFlight(s, m, t);
    assert Held(TrailOf(m, t), Some(Some(false)));
    Alters(s, s', m, t, x);
    hide SameButOne;
    if TookEffect(reply) { GivingMove(s, s', m, t, x); } else { PlainMove(s, s', m, t, x); }
  }

  /** A late command is the only one about its presentation. */
  lemma {:induction false} OnlyOneLate(s: State, m: Trails, c: Command)
    requires AInv(s, m) && c in s.inflight && !c.LateRemember?
    ensures forall d :: d in s.inflight && !d.LateRemember? && d.owner == c.owner ==> d == c
    ensures c.owner in s.txns && PresentsHash(s.txns[c.owner], c.hash) && Over(StageOf(s.txns[c.owner].pc))
    ensures TrailFits(StageOf(s.txns[c.owner].pc), TrailOf(m, c.owner))
    ensures TrailOf(m, c.owner) == if c.LateClaim? then Trail(Some(Reply.Late), false, None, None, false)
                                   else Trail(Some(Answered), true, Some(Some(false)), Some(Reply.Late), false)
  {
    hide StageOf, TrailFits;
    forall d | d in s.inflight && !d.LateRemember? && d.owner == c.owner ensures d == c {
      if d.LateClaim? { assert d == LateClaim(d.hash, d.owner); } else { assert d == LateRelease(d.hash, d.owner); }
      if c.LateClaim? { assert c == LateClaim(c.hash, c.owner); } else { assert c == LateRelease(c.hash, c.owner); }
    }
    assert c == LateClaim(c.hash, c.owner) || c == LateRelease(c.hash, c.owner);
  }

  /** Delivering it moves that presentation's trail, not its place. */
  lemma {:induction false} LateGoes(s: State, c: Command, s': State)
    requires !c.LateRemember? && c.owner in s.txns && StepDeliver(s, c) == Some(s')
    ensures c in s.inflight && SameButOne(s, s', c.owner) && s'.txns[c.owner].pc == s.txns[c.owner].pc
      && s'.inflight == s.inflight - {c}
    ensures s'.entries == if c.LateClaim? then Claimed(s.entries, c.hash, s.cfg.maxUses)
      else Released(s.entries, c.hash)
  {}

  lemma {:induction false} LateClaimKeeps(s: State, h: Hash, t: TxnId, s': State, m: Trails)
    requires AInv(s, m) && SourcesOk(s) && KnownOk(s) && StepDeliver(s, LateClaim(h, t)) == Some(s')
    ensures AInv(s', Followed(m, s, Deliver(LateClaim(h, t))))
  {
    hide AInv, SourcesOk, KnownOk, OneMoves;
    var granted := ClaimGranted(s.entries, h, s.cfg.maxUses);
    var x := TrailOf(m, t).(granted := granted);
    OnlyOneLate(s, m, LateClaim(h, t));
    LateGoes(s, LateClaim(h, t), s');
    hide StepDeliver, StageOf;
    Alters(s, s', m, t, x);
    hide SameButOne;
    if granted { TakingMove(s, s', m, t, x); } else { PlainMove(s, s', m, t, x); }
  }

  lemma {:induction false} LateReleaseKeeps(s: State, h: Hash, t: TxnId, s': State, m: Trails)
    requires AInv(s, m) && StepDeliver(s, LateRelease(h, t)) == Some(s')
    ensures AInv(s', Followed(m, s, Deliver(LateRelease(h, t))))
  {
    hide AInv, OneMoves;
    var x := TrailOf(m, t).(returned := true);
    OnlyOneLate(s, m, LateRelease(h, t));
    LateGoes(s, LateRelease(h, t), s');
    hide StepDeliver, StageOf;
    Alters(s, s', m, t, x);
    hide SameButOne;
    GivingMove(s, s', m, t, x);
  }

  // ---- runs -------------------------------------------------------------------------------------------

  lemma {:induction false} OuterKeeps(s: State, a: Action, s': State, m: Trails)
    requires AInv(s, m) && SourcesOk(s) && KnownOk(s) && Outer(a) && Step(s, a) == Some(s')
    ensures AInv(s', Followed(m, s, a))
  {
    match a
    case Begin(t, req) => BeginKeeps(s, t, req, s', m);
    case Expire(h) => ExpireKeeps(s, h, s', m);
    case Deliver(c) =>
      match c
      case LateRemember(_, _, _) => LateRememberKeeps(s, c, s', m);
      case LateClaim(h, t) => LateClaimKeeps(s, h, t, s', m);
      case LateRelease(h, t) => LateReleaseKeeps(s, h, t, s', m);
  }

  lemma {:induction false} StatementKeeps(s: State, a: Action, s': State, m: Trails)
    requires AInv(s, m) && SourcesOk(s) && KnownOk(s) && AllOk(s) && HashesUnique(s.db) && TableEvolves(s.db, s'.db)
    requires !Outer(a) && a.t in s.txns && StepOf(s, a) == Some(s')
    ensures AInv(s', Followed(m, s, a))
  {
    hide AInv, SourcesOk, KnownOk, AllOk, Followed, HashesUnique, TableEvolves;
    hide StepClaim, StepBudget, StepReturn, StepCommit, StepRemember;
    match a
    case Claim(t, reply) => ClaimKeeps(s, t, reply, s', m);
    case Budget(t, within) => BudgetKeeps(s, t, within, s', m);
    case Return(t, reply) => ReturnKeeps(s, t, reply, s', m);
    case Commit(t, cca) => CommitKeeps(s, t, cca, s', m); NothingFollowed(m, s, a);
    case Remember(t, reply) => RememberKeeps(s, t, reply, s', m); NothingFollowed(m, s, a);
    case _ => PlainKeeps(s, a, s', m);
  }

  lemma NothingFollowed(m: Trails, s: State, a: Action)
    requires a.Commit? || a.Remember?
    ensures Followed(m, s, a) == m
  {}

  lemma {:induction false} StepKeeps(s: State, a: Action, s': State, m: Trails)
    requires Inv(s) && RInv(s) && AInv(s, m) && Step(s, a) == Some(s')
    ensures AInv(s', Followed(m, s, a))
  {
    hide AInv, TxnOk, Followed, StepOf;
    if Outer(a) {
      OuterKeeps(s, a, s', m);
    } else {
      StepKeepsInv(s, a, s');
      StepIsOf(s, a, s');
      StatementKeeps(s, a, s', m);
    }
  }

  lemma {:induction false} RunKeeps(s: State, actions: seq<Action>, s': State, m: Trails)
    requires Inv(s) && RInv(s) && AInv(s, m) && Run(s, actions) == Some(s')
    ensures AInv(s', Along(s, m, actions))
    decreases |actions|
  {
    hide Inv, RInv, AInv, Followed, Step;
    if actions != [] {
      var next := Step(s, actions[0]).value;
      StepKeepsInv(s, actions[0], next);
      StepKeepsRInv(s, actions[0], next);
      StepKeeps(s, actions[0], next, m);
      RunKeeps(next, actions[1..], s', Followed(m, s, actions[0]));
    }
  }

  lemma {:induction false} FromTheStart(s0: State, actions: seq<Action>, s: State)
    requires Initial(s0) && Run(s0, actions) == Some(s)
    ensures AInv(s, Along(s0, map[], actions))
  {
    InitialInv(s0);
    InitialRInv(s0);
    forall h ensures Kept(s0, map[], h) == {} {}
    RunKeeps(s0, actions, s, map[]);
  }

  /** After any run, the count stored with an entry is the number of presentations of its token that took a use and
      did not give it back. */
  lemma {:induction false} UsesAreCounted(s0: State, actions: seq<Action>, s: State, h: Hash)
    requires Initial(s0) && Run(s0, actions) == Some(s) && h in s.entries
    ensures s.entries[h].uses == |Kept(s, Along(s0, map[], actions), h)|
  {
    FromTheStart(s0, actions, s);
  }

  /** The ways a use stays counted though nothing was replayed: the script took it, and the answer was lost or came too
      late, the limiter did not answer, or the release was dropped or has not arrived. */
  predicate LeftCounted(x: Trail) {
    && x.granted
    && (x.claim == Some(ReplyLost) || x.claim == Some(Reply.Late)
        || x.limiter == Some(None)
        || x.release == Some(Dropped) || (x.release == Some(Reply.Late) && !x.returned))
  }

  /** A refused presentation is counted exactly in those cases; with every call answered, and a limiter that answers,
      it counts nothing. */
  lemma {:induction false} RefusalCountsExactly(s0: State, actions: seq<Action>, s: State, t: TxnId)
    requires Initial(s0) && Run(s0, actions) == Some(s)
    requires t in s.txns && s.txns[t].req.Refresh? && StageOf(s.txns[t].pc).Refused?
    ensures var m := Along(s0, map[], actions);
      t in Kept(s, m, s.txns[t].req.hash) <==> LeftCounted(TrailOf(m, t))
  {
    FromTheStart(s0, actions, s);
  }

  /** A successful replay is always counted. */
  lemma {:induction false} ReplaysAreCounted(s0: State, actions: seq<Action>, s: State, h: Hash)
    requires Initial(s0) && Run(s0, actions) == Some(s)
    ensures Replays(s, h) <= Kept(s, Along(s0, map[], actions), h)
  {
    FromTheStart(s0, actions, s);
  }

  /** A refusal that counts: the script takes a use, and its answer is lost. */
  lemma {:induction false} LostAnswerCounts() returns (s: State, s': State)
    ensures Reachable(s) && Step(s, Action.Claim(4, ReplyLost)) == Some(s') && 4 in s'.txns && s'.txns[4].pc.Checking?
    ensures s.entries == map[1000 := Stored(ENTRY, 0)] && s'.entries == map[1000 := Stored(ENTRY, 1)]
  {
    s := ReplayCleared();
    s' := StepClaim(s, 4, ReplyLost).value;
  }

  /** Another one: the limiter does not answer, and the use is not given back. */
  lemma {:induction false} SilentLimiterCounts() returns (s: State, s1: State, s2: State)
    ensures Reachable(s) && Step(s, Action.Claim(4, Answered)) == Some(s1) && Step(s1, Budget(4, None)) == Some(s2)
    ensures 4 in s2.txns && s2.txns[4].pc.Checking?
    ensures s.entries == map[1000 := Stored(ENTRY, 0)] && s2.entries == map[1000 := Stored(ENTRY, 1)]
  {
    s := ReplayCleared();
    s1 := StepClaim(s, 4, Answered).value;
    s2 := StepBudget(s1, 4, None).value;
  }
}
