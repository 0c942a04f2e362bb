/**
 The refresh-token protocol as a state machine over its statements.

 Any number of transactions (login, refresh, logout, mass revocation) interleave, one
 statement at a time. What the database gives them is spelled out:

 * a statement reads the rows committed when it starts (READ COMMITTED); a transaction's own
   writes stay in `writes` until it commits, and are lost when it aborts;
 * `pg_advisory_xact_lock` on a family's key, held until the transaction ends, re-entrant;
 * a row lock on every row read FOR UPDATE or written, held until the transaction ends; an
   UPDATE fixes its candidate rows when it starts, waits for the lock of each one, and
   re-checks the condition on the row as then committed.

 Redis scripts are atomic, but a call may also take effect without its answer arriving, take
 effect at any later moment (`inflight`), or never. Clocks, the account row and the answer of
 the per-address limiter are parameters of the actions, so every value of them is covered.
 */
module RefreshProtocol {
  import opened Options
  import opened TokenFamilies

  type TxnId = nat
  type Key = int

  datatype Settings = Settings(grace: nat, window: nat, maxUses: nat, keyOf: FamilyId -> Key)

  datatype Request =
    | Login(user: UserId)
    | Refresh(hash: Hash, ua: Option<Agent>, subnet: Option<Subnet>, redis: bool)
    | Logout(hash: Hash)
    | RevokeAll(user: UserId)

  datatype Outcome =
    | LoggedIn(id: TokenId)
    | Unknown                                  // no row has the presented hash
    | Expired(id: TokenId)                     // a live row, past its expiry or of an inactive account
    | Rotated(id: TokenId, newId: TokenId)
    | Replayed(id: TokenId, child: TokenId, token: Hash)
    | Conflict(id: TokenId)
    | Killed(families: set<FamilyId>)          // reuse detected, logout, or mass revocation
    | Aborted

  /** Where a transaction is. `id` and `row` are the presented token as read under the family lock. */
  datatype Pc =
    | Start
    | Locking(families: set<FamilyId>, todo: seq<Key>)
    | Locked(families: set<FamilyId>)
    | Fetched(id: TokenId, row: Row)
    | Loaded(id: TokenId, row: Row, entry: Entry)
    | Vetting(id: TokenId, row: Row, entry: Entry, child: Row)
    | Cleared(id: TokenId, row: Row, entry: Entry, child: Row)
    | Charged(id: TokenId, row: Row, entry: Entry, child: Row)
    | Returning(id: TokenId, row: Row, child: Row)
    | Checking(id: TokenId, row: Row, seen: Option<Row>)
    | Updating(families: set<FamilyId>, started: bool, targets: set<TokenId>)
    | Ready(outcome: Outcome)
    | Remembering(outcome: Outcome, entry: Entry)
    | Done(outcome: Outcome)

  /** `unit`: this transaction has taken a use of its token's replay entry and not given it back. */
  datatype Txn = Txn(req: Request, pc: Pc, writes: Table, unit: bool)

  datatype Stored = Stored(entry: Entry, uses: int)

  datatype Command =
    | LateRemember(hash: Hash, entry: Entry, owner: TxnId)
    | LateClaim(hash: Hash, owner: TxnId)
    | LateRelease(hash: Hash, owner: TxnId)

  /** `blind` records, for the theorems only, the tokens revoked by a mass revocation that had not
      listed (and so not locked) their family. */
  datatype State = State(cfg: Settings, db: Table, locks: map<Key, TxnId>, rowLocks: map<TokenId, TxnId>,
                         txns: map<TxnId, Txn>, entries: map<Hash, Stored>, inflight: set<Command>,
                         blind: set<TokenId>)

  datatype Reply = Answered | ReplyLost | Late | Dropped

  datatype Action =
    | Begin(t: TxnId, req: Request)
    | Open(t: TxnId, id: TokenId, row: Row)                     // login: insert the first row
    | Find(t: TxnId, id: TokenId)
    | FindNone(t: TxnId)
    | ListFamilies(t: TxnId, todo: seq<Key>)
    | Acquire(t: TxnId)
    | Fetch(t: TxnId, id: TokenId)
    | Refuse(t: TxnId, now: Time, account: Option<Account>)
    | Rotate(t: TxnId, now: Time, account: Option<Account>, newId: TokenId, hash: Hash, created: Time, expires: Time)
    | SkipReplay(t: TxnId)
    | Load(t: TxnId, decoded: bool, reply: Reply)
    | ReadChild(t: TxnId, now: Time)
    | Vet(t: TxnId, dbNow: Time, account: Option<Account>)
    | Claim(t: TxnId, reply: Reply)
    | Budget(t: TxnId, within: Option<bool>)                    // None: the limiter did not answer
    | Return(t: TxnId, reply: Reply)
    | Judge(t: TxnId, dbNow: Time)
    | StartUpdate(t: TxnId)
    | UpdateRow(t: TxnId, id: TokenId)
    | EndUpdate(t: TxnId)
    | Commit(t: TxnId, cca: Option<Stamp>)
    | Abort(t: TxnId)
    | Remember(t: TxnId, reply: Reply)
    | Deliver(c: Command)
    | Expire(hash: Hash)

  // ---- helpers ----------------------------------------------------------------------------

  function At(s: State, t: TxnId, pc: Pc): State
    requires t in s.txns
  {
    s.(txns := s.txns[t := s.txns[t].(pc := pc)])
  }

  predicate Free<K>(locks: map<K, TxnId>, k: K, t: TxnId) {
    k in locks ==> locks[k] == t
  }

  function Without<K>(locks: map<K, TxnId>, t: TxnId): map<K, TxnId> {
    map k | k in locks && locks[k] != t :: locks[k]
  }

  /** Ends the transaction: its locks are released and its writes are gone from the transaction. */
  function Close(s: State, t: TxnId, pc: Pc): State
    requires t in s.txns
  {
    s.(locks := Without(s.locks, t), rowLocks := Without(s.rowLocks, t),
       txns := s.txns[t := s.txns[t].(pc := pc, writes := map[])])
  }

  predicate Presents(req: Request, row: Row) {
    (req.Refresh? || req.Logout?) && row.hash == req.hash
  }

  /** The condition of the UPDATE: a family's rows, or every row of a user, that are not revoked. */
  predicate InScope(req: Request, families: set<FamilyId>, row: Row) {
    !row.revoked && if req.RevokeAll? then row.user == req.user else row.family in families
  }

  ghost predicate FreshId(s: State, id: TokenId) {
    id !in s.db && forall u :: u in s.txns ==> id !in s.txns[u].writes
  }

  ghost predicate FreshHash(s: State, h: Hash) {
    && (forall r :: r in s.db ==> s.db[r].hash != h)
    && (forall u, r :: u in s.txns && r in s.txns[u].writes ==> s.txns[u].writes[r].hash != h)
  }

  ghost predicate FreshFamily(s: State, f: FamilyId) {
    && !HasFamily(s.db, f)
    && (forall u, r :: u in s.txns && r in s.txns[u].writes ==> s.txns[u].writes[r].family != f)
  }

  ghost function LiveFamilies(db: Table, user: UserId): set<FamilyId> {
    set id | id in db && db[id].user == user && !db[id].revoked :: db[id].family
  }

  /** `todo` is the families' lock keys in ascending order. */
  ghost predicate KeyOrder(cfg: Settings, families: set<FamilyId>, todo: seq<Key>) {
    && (forall i, j :: 0 <= i < j < |todo| ==> todo[i] <= todo[j])
    && (forall f :: f in families ==> cfg.keyOf(f) in todo)
    && (forall k :: k in todo ==> exists f :: f in families && cfg.keyOf(f) == k)
  }

  // ---- the Redis scripts ------------------------------------------------------------------

  function Remembered(entries: map<Hash, Stored>, h: Hash, e: Entry): map<Hash, Stored> {
    entries[h := Stored(e, 0)]
  }

  predicate ClaimGranted(entries: map<Hash, Stored>, h: Hash, maxUses: nat) {
    h in entries && entries[h].uses + 1 <= maxUses
  }

  /** `_CLAIM`: one use more, unless the entry is gone or the cap is reached. */
  function Claimed(entries: map<Hash, Stored>, h: Hash, maxUses: nat): map<Hash, Stored> {
    if ClaimGranted(entries, h, maxUses) then entries[h := entries[h].(uses := entries[h].uses + 1)] else entries
  }

  /** `_RELEASE`: one use less, never below zero, never recreating the entry. */
  function Released(entries: map<Hash, Stored>, h: Hash): map<Hash, Stored> {
    if h in entries && entries[h].uses > 0 then entries[h := entries[h].(uses := entries[h].uses - 1)] else entries
  }

  // ---- one statement ----------------------------------------------------------------------

  /** The state after `a`, or None when `a` is not possible (or must wait) in `s`. */
  ghost function Step(s: State, a: Action): Option<State> {
    match a
    case Begin(t, req) =>
      if t in s.txns then None else Some(s.(txns := s.txns[t := Txn(req, Start, map[], false)]))
    case Deliver(c) => StepDeliver(s, c)
    case Expire(h) => Some(s.(entries := s.entries - {h}))
    case _ => if a.t in s.txns then StepOf(s, a) else None
  }

  /** A statement of an existing transaction. */
  ghost function StepOf(s: State, a: Action): Option<State>
    requires !a.Begin? && !a.Deliver? && !a.Expire? && a.t in s.txns
  {
    match a
    case Open(t, id, row) => StepOpen(s, t, id, row)
    case Find(t, id) => StepFind(s, t, id)
    case FindNone(t) => StepFindNone(s, t)
    case ListFamilies(t, todo) => StepList(s, t, todo)
    case Acquire(t) => StepAcquire(s, t)
    case Fetch(t, id) => StepFetch(s, t, id)
    case Refuse(t, now, account) => StepRefuse(s, t, now, account)
    case Rotate(t, now, account, newId, hash, created, expires) =>
      StepRotate(s, t, now, account, newId, hash, created, expires)
    case SkipReplay(t) => StepSkip(s, t)
    case Load(t, decoded, reply) => StepLoad(s, t, decoded, reply)
    case ReadChild(t, now) => StepReadChild(s, t, now)
    case Vet(t, dbNow, account) => StepVet(s, t, dbNow, account)
    case Claim(t, reply) => StepClaim(s, t, reply)
    case Budget(t, within) => StepBudget(s, t, within)
    case Return(t, reply) => StepReturn(s, t, reply)
    case Judge(t, dbNow) => StepJudge(s, t, dbNow)
    case StartUpdate(t) => StepStartUpdate(s, t)
    case UpdateRow(t, id) => StepUpdateRow(s, t, id)
    case EndUpdate(t) => StepEndUpdate(s, t)
    case Commit(t, cca) => StepCommit(s, t, cca)
    case Abort(t) => StepAbort(s, t)
    case Remember(t, reply) => StepRemember(s, t, reply)
  }

  // The first statement: insert (login), look the token up, or list the user's live families.

  ghost function StepOpen(s: State, t: TxnId, id: TokenId, row: Row): Option<State>
    requires t in s.txns
  {
    var x := s.txns[t];
    if x.pc.Start? && x.req.Login? && row.user == x.req.user && Live(row) && FreshId(s, id) && FreshHash(s, row.hash)
      && FreshFamily(s, row.family)
    then Some(s.(txns := s.txns[t := x.(pc := Ready(LoggedIn(id)), writes := map[id := row])]))
    else None
  }

  function StepFind(s: State, t: TxnId, id: TokenId): Option<State>
    requires t in s.txns
  {
    var x := s.txns[t];
    if x.pc.Start? && id in s.db && Presents(x.req, s.db[id])
    then Some(At(s, t, Locking({s.db[id].family}, [s.cfg.keyOf(s.db[id].family)])))
    else None
  }

  ghost function StepFindNone(s: State, t: TxnId): Option<State>
    requires t in s.txns
  {
    var x := s.txns[t];
    if x.pc.Start? && (x.req.Refresh? || x.req.Logout?) && forall id :: id in s.db ==> !Presents(x.req, s.db[id])
    then Some(At(s, t, Ready(Unknown)))
    else None
  }

  ghost function StepList(s: State, t: TxnId, todo: seq<Key>): Option<State>
    requires t in s.txns
  {
    var x := s.txns[t];
    if x.pc.Start? && x.req.RevokeAll? && KeyOrder(s.cfg, LiveFamilies(s.db, x.req.user), todo)
    then Some(At(s, t, AfterLocking(LiveFamilies(s.db, x.req.user), todo)))
    else None
  }

  function AfterLocking(families: set<FamilyId>, todo: seq<Key>): Pc {
    if todo == [] then Locked(families) else Locking(families, todo)
  }

  /** Takes the next advisory lock, if nobody else holds it. */
  function StepAcquire(s: State, t: TxnId): Option<State>
    requires t in s.txns
  {
    var pc := s.txns[t].pc;
    if pc.Locking? && pc.todo != [] && Free(s.locks, pc.todo[0], t)
    then Some(At(s.(locks := s.locks[pc.todo[0] := t]), t, AfterLocking(pc.families, pc.todo[1..])))
    else None
  }

  /** SELECT ... FOR UPDATE of the presented row, or straight to the UPDATE of a logout or mass revocation. */
  function StepFetch(s: State, t: TxnId, id: TokenId): Option<State>
    requires t in s.txns
  {
    var x := s.txns[t];
    if !x.pc.Locked? then None
    else if !x.req.Refresh? then Some(At(s, t, Updating(x.pc.families, false, {})))
    else if id in s.db && Presents(x.req, s.db[id]) && Free(s.rowLocks, id, t)
    then Some(At(s.(rowLocks := s.rowLocks[id := t]), t, Fetched(id, s.db[id])))
    else None
  }

  // The presented row is live: refuse it, or rotate it.

  function StepRefuse(s: State, t: TxnId, now: Time, account: Option<Account>): Option<State>
    requires t in s.txns
  {
    var x := s.txns[t];
    if x.pc.Fetched? && Live(x.pc.row) && (x.pc.row.expires <= now || account.None? || !account.value.active)
    then Some(At(s, t, Ready(Expired(x.pc.id)))) else None
  }

  ghost function StepRotate(s: State, t: TxnId, now: Time, account: Option<Account>,
                            newId: TokenId, hash: Hash, created: Time, expires: Time): Option<State>
    requires t in s.txns
  {
    var x := s.txns[t];
    if x.pc.Fetched? && Live(x.pc.row) && x.pc.row.expires > now && account.Some? && account.value.active
       && FreshId(s, newId) && FreshHash(s, hash)
    then Some(s.(txns := s.txns[t := x.(pc := Ready(Rotated(x.pc.id, newId)),
                                        writes := RotationWrites(x.pc.id, x.pc.row, newId, hash, created, expires))]))
    else None
  }

  // The presented row is spent: the replay's reads, and the judgement between duplicate and reuse.

  predicate ReplayOn(s: State, x: Txn) {
    x.req.Refresh? && x.req.redis && s.cfg.window > 0
  }

  function StepSkip(s: State, t: TxnId): Option<State>
    requires t in s.txns
  {
    var x := s.txns[t];
    if x.pc.Fetched? && !Live(x.pc.row) && !ReplayOn(s, x)
    then Some(At(s, t, Checking(x.pc.id, x.pc.row, None))) else None
  }

  function StepLoad(s: State, t: TxnId, decoded: bool, reply: Reply): Option<State>
    requires t in s.txns
  {
    var x := s.txns[t];
    if x.pc.Fetched? && !Live(x.pc.row) && ReplayOn(s, x) then
      var h := x.req.hash;
      if reply.Answered? && decoded && h in s.entries && x.pc.row.replacedBy == Some(s.entries[h].entry.tokenId)
      then Some(At(s, t, Loaded(x.pc.id, x.pc.row, s.entries[h].entry)))
      else Some(At(s, t, Checking(x.pc.id, x.pc.row, None)))
    else None
  }

  function StepReadChild(s: State, t: TxnId, now: Time): Option<State>
    requires t in s.txns
  {
    var x := s.txns[t];
    if x.pc.Loaded? then
      var child := Lookup(s.db, x.pc.entry.tokenId);
      if ReplacementUsable(child, x.pc.entry, now)
      then Some(At(s, t, Vetting(x.pc.id, x.pc.row, x.pc.entry, child.value)))
      else Some(At(s, t, Checking(x.pc.id, x.pc.row, child)))
    else None
  }

  function StepVet(s: State, t: TxnId, dbNow: Time, account: Option<Account>): Option<State>
    requires t in s.txns
  {
    var x := s.txns[t];
    if x.pc.Vetting? && x.req.Refresh? then
      if ReplayMatches(x.pc.child, x.pc.entry, dbNow, s.cfg.window, account, x.req.ua, x.req.subnet)
      then Some(At(s, t, Cleared(x.pc.id, x.pc.row, x.pc.entry, x.pc.child)))
      else Some(At(s, t, Checking(x.pc.id, x.pc.row, Some(x.pc.child))))
    else None
  }

  /** The replacement as the session last saw it, else as it is now. */
  function ChildSeen(s: State, row: Row, seen: Option<Row>): Option<Row> {
    if seen.Some? then seen
    else if row.replacedBy.Some? then Lookup(s.db, row.replacedBy.value) else None
  }

  function StepJudge(s: State, t: TxnId, dbNow: Time): Option<State>
    requires t in s.txns
  {
    var x := s.txns[t];
    if x.pc.Checking? then
      if IsBenignDuplicate(x.pc.row, ChildSeen(s, x.pc.row, x.pc.seen), dbNow, s.cfg.grace)
      then Some(At(s, t, Ready(Conflict(x.pc.id))))
      else Some(At(s, t, Updating({x.pc.row.family}, false, {})))
    else None
  }

  // `claim`: take a use, then a unit of the address budget, and give the use back if there is none.

  function StepClaim(s: State, t: TxnId, reply: Reply): Option<State>
    requires t in s.txns
  {
    var x := s.txns[t];
    if !x.req.Refresh? || !x.pc.Cleared? then None else
    var h := x.req.hash;
    var refused := x.(pc := Checking(x.pc.id, x.pc.row, Some(x.pc.child)));
    match reply
    case Answered =>
      if ClaimGranted(s.entries, h, s.cfg.maxUses)
      then Some(s.(entries := Claimed(s.entries, h, s.cfg.maxUses),
                   txns := s.txns[t := x.(pc := Charged(x.pc.id, x.pc.row, x.pc.entry, x.pc.child), unit := true)]))
      else Some(s.(txns := s.txns[t := refused]))
    case ReplyLost => Some(s.(entries := Claimed(s.entries, h, s.cfg.maxUses), txns := s.txns[t := refused]))
    case Late => Some(s.(txns := s.txns[t := refused], inflight := s.inflight + {LateClaim(h, t)}))
    case Dropped => Some(s.(txns := s.txns[t := refused]))
  }

  function StepBudget(s: State, t: TxnId, within: Option<bool>): Option<State>
    requires t in s.txns
  {
    var x := s.txns[t];
    if !x.req.Refresh? || !x.pc.Charged? then None
    else if within == Some(true) then Some(At(s, t, Ready(Replayed(x.pc.id, x.pc.entry.tokenId, x.pc.entry.token))))
    else if within == Some(false) then Some(At(s, t, Returning(x.pc.id, x.pc.row, x.pc.child)))
    else Some(At(s, t, Checking(x.pc.id, x.pc.row, Some(x.pc.child))))
  }

  function StepReturn(s: State, t: TxnId, reply: Reply): Option<State>
    requires t in s.txns
  {
    var x := s.txns[t];
    if !x.req.Refresh? || !x.pc.Returning? then None else
    var h := x.req.hash;
    var y := x.(pc := Checking(x.pc.id, x.pc.row, Some(x.pc.child)));
    match reply
    case Answered => Some(s.(entries := Released(s.entries, h), txns := s.txns[t := y.(unit := false)]))
    case ReplyLost => Some(s.(entries := Released(s.entries, h), txns := s.txns[t := y.(unit := false)]))
    case Late => Some(s.(txns := s.txns[t := y], inflight := s.inflight + {LateRelease(h, t)}))
    case Dropped => Some(s.(txns := s.txns[t := y]))
  }

  // UPDATE ... SET revoked = true WHERE InScope.

  ghost function StepStartUpdate(s: State, t: TxnId): Option<State>
    requires t in s.txns
  {
    var x := s.txns[t];
    if x.pc.Updating? && !x.pc.started
    then Some(At(s, t, Updating(x.pc.families, true, set id | id in s.db && InScope(x.req, x.pc.families, s.db[id]))))
    else None
  }

  function StepUpdateRow(s: State, t: TxnId, id: TokenId): Option<State>
    requires t in s.txns
  {
    var x := s.txns[t];
    if !x.pc.Updating? || !x.pc.started || id !in x.pc.targets || id !in s.db || !Free(s.rowLocks, id, t) then None
    else
      var pc := Updating(x.pc.families, true, x.pc.targets - {id});
      if InScope(x.req, x.pc.families, s.db[id])
      then Some(s.(rowLocks := s.rowLocks[id := t],
                   txns := s.txns[t := x.(pc := pc, writes := x.writes[id := Revoked(s.db[id])])]))
      else Some(At(s, t, pc))
  }

  function StepEndUpdate(s: State, t: TxnId): Option<State>
    requires t in s.txns
  {
    var x := s.txns[t];
    if x.pc.Updating? && x.pc.started && x.pc.targets == {} then Some(At(s, t, Ready(Killed(x.pc.families)))) else None
  }

  /** The entry a committed rotation leaves, if there is a user-agent and a known address to match later. */
  function EntryFor(s: State, x: Txn, w: Table, cca: Option<Stamp>): Option<Entry> {
    if x.pc.Ready? && x.pc.outcome.Rotated? && x.pc.outcome.newId in w && ReplayOn(s, x) && x.req.ua.Some?
      && x.req.subnet.Some?
    then Some(Entry(w[x.pc.outcome.newId].hash, x.pc.outcome.newId, x.req.ua.value, x.req.subnet.value, cca))
    else None
  }

  ghost function BlindlyRevoked(s: State, x: Txn): set<TokenId> {
    if x.req.RevokeAll? && x.pc.Ready? && x.pc.outcome.Killed?
    then set id | id in x.writes && x.writes[id].family !in x.pc.outcome.families
    else {}
  }

  function StepAbort(s: State, t: TxnId): Option<State>
    requires t in s.txns
  {
    if s.txns[t].pc.Remembering? || s.txns[t].pc.Done? then None else Some(Close(s, t, Done(Aborted)))
  }

  ghost function StepCommit(s: State, t: TxnId, cca: Option<Stamp>): Option<State>
    requires t in s.txns
  {
    var x := s.txns[t];
    if !x.pc.Ready? then None else
    var entry := EntryFor(s, x, x.writes, cca);
    var pc := if entry.Some? then Remembering(x.pc.outcome, entry.value) else Done(x.pc.outcome);
    Some(Close(s, t, pc).(db := s.db + x.writes, blind := s.blind + BlindlyRevoked(s, x)))
  }

  /** After the commit, outside any lock. */
  function StepRemember(s: State, t: TxnId, reply: Reply): Option<State>
    requires t in s.txns
  {
    var x := s.txns[t];
    if !x.pc.Remembering? || !x.req.Refresh? then None else
    var done := x.(pc := Done(x.pc.outcome));
    match reply
    case Answered => Some(s.(txns := s.txns[t := done], entries := Remembered(s.entries, x.req.hash, x.pc.entry)))
    case ReplyLost => Some(s.(txns := s.txns[t := done], entries := Remembered(s.entries, x.req.hash, x.pc.entry)))
    case Late => Some(s.(txns := s.txns[t := done], inflight := s.inflight + {LateRemember(x.req.hash, x.pc.entry, t)}))
    case Dropped => Some(s.(txns := s.txns[t := done]))
  }

  /** A call that timed out reaches Redis after all. */
  function StepDeliver(s: State, c: Command): Option<State> {
    if c !in s.inflight then None else
    match c
    case LateRemember(h, e, _) =>
      Some(s.(inflight := s.inflight - {c}, entries := Remembered(s.entries, h, e)))
    case LateClaim(h, _) =>
      Some(s.(inflight := s.inflight - {c}, entries := Claimed(s.entries, h, s.cfg.maxUses)))
    case LateRelease(h, t) =>
      Some(s.(inflight := s.inflight - {c}, entries := Released(s.entries, h),
              txns := if t in s.txns then s.txns[t := s.txns[t].(unit := false)] else s.txns))
  }

  // ---- runs -------------------------------------------------------------------------------

  ghost predicate Initial(s: State) {
    s.db == map[] && s.locks == map[] && s.rowLocks == map[] && s.txns == map[] && s.entries == map[] &&
    s.inflight == {} && s.blind == {}
  }

  /** The state after performing `actions` one after the other, if each is possible in its turn. */
  ghost function Run(s: State, actions: seq<Action>): Option<State>
    decreases |actions|
  {
    if actions == [] then Some(s)
    else
      var next := Step(s, actions[0]);
      if next.None? then None else Run(next.value, actions[1..])
  }

  ghost predicate Reachable(s: State) {
    exists s0, actions :: Initial(s0) && Run(s0, actions) == Some(s)
  }
}
