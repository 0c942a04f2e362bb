/**
 Promo codes as a state machine over statements: redemptions and batch kills interleave, one
 statement at a time, under READ COMMITTED.

 A claim is one guarded UPDATE: it waits for the row lock of its code and re-checks the guard
 on the row as then committed. A transaction's writes are its own until it commits and are
 gone if it rolls back; a refused redemption always rolls back.
 */
module PromoProtocol {
  import opened Options

  type UserId = nat
  type CodeId = nat
  type BatchId = nat
  type Hash = nat
  type TxnId = nat
  type Time = int

  datatype CodeStatus = Active | Redeemed | Disabled

  datatype Code = Code(batch: BatchId, hash: Hash, used: int, max: int, status: CodeStatus, bound: Option<UserId>)

  datatype Batch = Batch(disabled: bool, bound: Option<UserId>, expires: Option<Time>)

  type Codes = map<CodeId, Code>

  datatype Request = Redeem(user: UserId, hash: Hash) | Kill(batch: BatchId)

  datatype Error = InvalidCode | CodeDisabled | CodeExpired | NotYourCode | CodeExhausted | AlreadyRedeemed

  datatype Outcome = Claimed(user: UserId, id: CodeId) | Killed(batch: BatchId) | Refused(error: Error) | RolledBack

  /** `spent`: the claim took the code's last slot. */
  datatype Pc =
    | Start
    | Found(id: CodeId, row: Code)
    | Cleared(id: CodeId)
    | Holding(id: CodeId, spent: bool)
    | Recorded(id: CodeId)
    | Disabling(started: bool, targets: set<CodeId>)
    | Ready
    | Failed(error: Error)
    | Done(outcome: Outcome)

  datatype Txn = Txn(req: Request, pc: Pc, writes: Codes)

  /** `redemptions` holds the committed rows of the redemption table. */
  datatype State = State(codes: Codes, batches: map<BatchId, Batch>, redemptions: set<(UserId, CodeId)>,
                         locks: map<CodeId, TxnId>, txns: map<TxnId, Txn>)

  datatype Action =
    | Generate(batch: BatchId, header: Batch, rows: Codes)
    | Begin(t: TxnId, req: Request)
    | Find(t: TxnId, id: CodeId)
    | FindNone(t: TxnId)
    | Check(t: TxnId, now: Time)
    | Claim(t: TxnId)
    | Record(t: TxnId)
    | StartKill(t: TxnId)
    | DisableRow(t: TxnId, id: CodeId)
    | EndKill(t: TxnId)
    | Commit(t: TxnId)
    | Abort(t: TxnId)

  // ---- helpers ------------------------------------------------------------------------------------

  predicate Free(locks: map<CodeId, TxnId>, id: CodeId, t: TxnId) { id in locks ==> locks[id] == t }

  function Without(locks: map<CodeId, TxnId>, t: TxnId): map<CodeId, TxnId> {
    map id | id in locks && locks[id] != t :: locks[id]
  }

  function At(s: State, t: TxnId, pc: Pc): State
    requires t in s.txns
  {
    s.(txns := s.txns[t := s.txns[t].(pc := pc)])
  }

  function Close(s: State, t: TxnId, o: Outcome): State
    requires t in s.txns
  {
    s.(locks := Without(s.locks, t), txns := s.txns[t := s.txns[t].(pc := Done(o), writes := map[])])
  }

  /** The checks on the code and its batch, in their order. */
  function Refusal(row: Code, batch: Option<Batch>, user: UserId, now: Time): Option<Error> {
    if batch.None? then Some(InvalidCode)
    else if batch.value.disabled || row.status == Disabled then Some(CodeDisabled)
    else if batch.value.expires.Some? && batch.value.expires.value <= now then Some(CodeExpired)
    else if batch.value.bound.Some? && batch.value.bound.value != user then Some(NotYourCode)
    else if row.bound.Some? && row.bound.value != user then Some(NotYourCode)
    else None
  }

  /** The guard of the claiming UPDATE. */
  predicate Claimable(c: Code) { c.status == Active && c.used < c.max }

  // ---- one statement ------------------------------------------------------------------------------

  /** A new batch and its codes: unused, active, with hashes nobody has. */
  ghost function StepGenerate(s: State, batch: BatchId, header: Batch, rows: Codes): Option<State> {
    if batch !in s.batches && rows.Keys !! s.codes.Keys && !header.disabled
       && (forall id :: id in rows ==>
             rows[id].batch == batch && rows[id].used == 0 && rows[id].max >= 1 && rows[id].status == Active)
       && (forall a, b :: a in rows && b in s.codes ==> rows[a].hash != s.codes[b].hash)
       && (forall a, b :: a in rows && b in rows && a != b ==> rows[a].hash != rows[b].hash)
    then Some(s.(batches := s.batches[batch := header], codes := s.codes + rows))
    else None
  }

  function StepFind(s: State, t: TxnId, id: CodeId): Option<State>
    requires t in s.txns
  {
    var x := s.txns[t];
    if x.pc.Start? && x.req.Redeem? && id in s.codes
      && s.codes[id].hash == x.req.hash then Some(At(s, t, Found(id, s.codes[id]))) else None
  }

  ghost function StepFindNone(s: State, t: TxnId): Option<State>
    requires t in s.txns
  {
    var x := s.txns[t];
    if x.pc.Start? && x.req.Redeem? && forall id :: id in s.codes ==> s.codes[id].hash != x.req.hash
    then Some(At(s, t, Failed(InvalidCode))) else None
  }

  function StepCheck(s: State, t: TxnId, now: Time): Option<State>
    requires t in s.txns
  {
    var x := s.txns[t];
    if x.pc.Found? && x.req.Redeem? then
      var refusal := Refusal(x.pc.row, Lookup(s.batches, x.pc.row.batch), x.req.user, now);
      Some(At(s, t, if refusal.Some? then Failed(refusal.value) else Cleared(x.pc.id)))
    else None
  }

  /** UPDATE ... SET used = used + 1 WHERE Claimable: takes the row, or finds nothing to take. */
  function StepClaim(s: State, t: TxnId): Option<State>
    requires t in s.txns
  {
    var x := s.txns[t];
    if !x.pc.Cleared? || x.pc.id !in s.codes || !Free(s.locks, x.pc.id, t) then None
    else if Claimable(s.codes[x.pc.id]) then
      var id := x.pc.id;
      var c := s.codes[id].(used := s.codes[id].used + 1);
      Some(s.(locks := s.locks[id := t],
        txns := s.txns[t := x.(pc := Holding(id, c.used >= c.max), writes := map[id := c])]))
    else Some(At(s, t, Failed(CodeExhausted)))
  }

  /** The flush: the status of a spent code, and the redemption row, unique per user and code. */
  function StepRecord(s: State, t: TxnId): Option<State>
    requires t in s.txns
  {
    var x := s.txns[t];
    if !x.pc.Holding? || !x.req.Redeem? || x.pc.id !in x.writes then None
    else if (x.req.user, x.pc.id) in s.redemptions then Some(At(s, t, Failed(AlreadyRedeemed)))
    else
      var c := x.writes[x.pc.id];
      Some(s.(txns := s.txns[t :=
        x.(pc := Recorded(x.pc.id), writes := map[x.pc.id := if x.pc.spent then c.(status := Redeemed) else c])]))
  }

  ghost function StepStartKill(s: State, t: TxnId): Option<State>
    requires t in s.txns
  {
    var x := s.txns[t];
    if !x.pc.Start? || !x.req.Kill? then None
    else if x.req.batch !in s.batches then Some(At(s, t, Failed(InvalidCode)))
    else Some(At(s, t, Disabling(true, set id | id in s.codes && s.codes[id].batch == x.req.batch)))
  }

  function StepDisableRow(s: State, t: TxnId, id: CodeId): Option<State>
    requires t in s.txns
  {
    var x := s.txns[t];
    if !x.pc.Disabling? || id !in x.pc.targets || id !in s.codes || !Free(s.locks, id, t) then None
    else Some(s.(locks := s.locks[id := t],
                 txns := s.txns[t := x.(pc := Disabling(true, x.pc.targets - {id}),
                   writes := x.writes[id := s.codes[id].(status := Disabled)])]))
  }

  function StepEndKill(s: State, t: TxnId): Option<State>
    requires t in s.txns
  {
    var x := s.txns[t];
    if x.pc.Disabling? && x.pc.targets == {} then Some(At(s, t, Ready)) else None
  }

  function StepCommit(s: State, t: TxnId): Option<State>
    requires t in s.txns
  {
    var x := s.txns[t];
    if x.pc.Recorded? && x.req.Redeem? then
      Some(Close(s, t, Claimed(x.req.user, x.pc.id)).(codes := s.codes + x.writes,
        redemptions := s.redemptions + {(x.req.user, x.pc.id)}))
    else if x.pc.Ready? && x.req.Kill? && x.req.batch in s.batches then
      Some(Close(s, t, Killed(x.req.batch)).(codes := s.codes + x.writes,
                                             batches := s.batches[x.req.batch :=
                                               s.batches[x.req.batch].(disabled := true)]))
    else None
  }

  function StepAbort(s: State, t: TxnId): Option<State>
    requires t in s.txns
  {
    var pc := s.txns[t].pc;
    if pc.Done? then None else Some(Close(s, t, if pc.Failed? then Refused(pc.error) else RolledBack))
  }

  ghost function StepOf(s: State, a: Action): Option<State>
    requires !a.Generate? && !a.Begin? && a.t in s.txns
  {
    match a
    case Find(t, id) => StepFind(s, t, id)
    case FindNone(t) => StepFindNone(s, t)
    case Check(t, now) => StepCheck(s, t, now)
    case Claim(t) => StepClaim(s, t)
    case Record(t) => StepRecord(s, t)
    case StartKill(t) => StepStartKill(s, t)
    case DisableRow(t, id) => StepDisableRow(s, t, id)
    case EndKill(t) => StepEndKill(s, t)
    case Commit(t) => StepCommit(s, t)
    case Abort(t) => StepAbort(s, t)
  }

  ghost function Step(s: State, a: Action): Option<State> {
    match a
    case Generate(batch, header, rows) => StepGenerate(s, batch, header, rows)
    case Begin(t, req) => if t in s.txns then None else Some(s.(txns := s.txns[t := Txn(req, Start, map[])]))
    case _ => if a.t in s.txns then StepOf(s, a) else None
  }

  const EMPTY := State(map[], map[], {}, map[], map[])

  ghost function Run(s: State, actions: seq<Action>): Option<State>
    decreases |actions|
  {
    if actions == [] then Some(s)
    else
      var next := Step(s, actions[0]);
      if next.None? then None else Run(next.value, actions[1..])
  }

  ghost predicate Reachable(s: State) {
    exists actions :: Run(EMPTY, actions) == Some(s)
  }
}
