/**
 The refresh-token operations as uninterrupted code on the rows, and the Redis scripts as the
 commands they issue. They share the rows, decisions and table updates with the interleaved
 protocol, and each of them keeps every family one chain.
 */
module TokenStore {
  import opened Options
  import opened TokenFamilies
  import opened RefreshProtocol

  /** The rows of `w`'s scope, revoked. */
  ghost predicate RevokesExactly(db: Table, db': Table, scope: set<TokenId>) {
    && db'.Keys == db.Keys
    && forall id :: id in db ==> db'[id] == if id in scope then Revoked(db[id]) else db[id]
  }

  lemma {:induction false} RevokesKeepsTable(db: Table, db': Table, scope: set<TokenId>)
    requires TableOk(db) && RevokesExactly(db, db', scope)
    ensures TableOk(db') && TableEvolves(db, db')
  {
    var w: Table := map id | id in scope && id in db :: Revoked(db[id]);
    RevocationKeepsTable(db, w);
    assert db' == db + w;
  }

  function LiveOfFamily(db: Table, f: FamilyId): set<TokenId> {
    set id | id in db && db[id].family == f && !db[id].revoked
  }

  function LiveOfUser(db: Table, user: UserId): set<TokenId> {
    set id | id in db && db[id].user == user && !db[id].revoked
  }

  /** What a presentation is decided on, besides the rows: clocks, account, a loaded replay entry with the
      client's fingerprint, whether its use was claimed, and the row a rotation would insert. */
  datatype Presentation = Presentation(hash: Hash, now: Time, dbNow: Time, account: Option<Account>,
    entry: Option<Entry>,
                                       ua: Option<Agent>, subnet: Option<Subnet>, claimed: bool,
                                       newId: TokenId, newHash: Hash, newExpires: Time)

  /** The replacement can be handed back. */
  predicate CanReplay(db: Table, row: Row, p: Presentation, window: nat) {
    && window > 0 && p.entry.Some? && row.replacedBy == Some(p.entry.value.tokenId)
    && ReplacementUsable(Lookup(db, p.entry.value.tokenId), p.entry.value, p.now)
    && ReplayMatches(db[p.entry.value.tokenId], p.entry.value, p.dbNow, window, p.account, p.ua, p.subnet)
    && p.claimed
  }

  predicate AccountFit(a: Option<Account>) { a.Some? && a.value.active }

  class Tokens {
    var rows: Table
    ghost var locked: seq<Key>

    constructor ()
      ensures rows == map[] && locked == [] && TableOk(rows)
    {
      rows, locked := map[], [];
    }

    /** `issue_token_pair`: a new family's first token. */
    method Issue(id: TokenId, row: Row)
      requires TableOk(rows) && id !in rows && Live(row) && !HasFamily(rows, row.family) && forall r :: r in rows ==>
        rows[r].hash != row.hash
      modifies `rows
      ensures TableOk(rows) && rows == old(rows)[id := row]
    {
      LoginKeepsTable(rows, id, row);
      assert rows[id := row] == rows + map[id := row];
      rows := rows[id := row];
    }

    /** UPDATE ... SET revoked over `scope`, row by row in any order. */
    method Revoke(scope: set<TokenId>)
      requires TableOk(rows) && scope <= rows.Keys
      modifies `rows
      ensures TableOk(rows) && RevokesExactly(old(rows), rows, scope)
    {
      var todo := scope;
      while todo != {}
        invariant todo <= scope && rows.Keys == old(rows).Keys
        invariant forall id :: id in rows ==> rows[id] == if id in scope
          && id !in todo then Revoked(old(rows)[id]) else old(rows)[id]
        decreases |todo|
      {
        var id :| id in todo;
        todo := todo - {id};
        rows := rows[id := Revoked(rows[id])];
      }
      RevokesKeepsTable(old(rows), rows, scope);
    }

    /** `_revoke_family`: no token of the family is live any more, and no other row changes. */
    method RevokeFamily(f: FamilyId)
      requires TableOk(rows)
      modifies `rows
      ensures TableOk(rows) && RevokesExactly(old(rows), rows, LiveOfFamily(old(rows), f))
      ensures HasFamily(old(rows), f) ==> Dead(rows, f)
    {
      Revoke(LiveOfFamily(rows, f));
    }

    /** The row a token's hash names, if any. */
    method Find(hash: Hash) returns (found: Option<TokenId>)
      ensures found.Some? ==> found.value in rows && rows[found.value].hash == hash
      ensures found.None? ==> forall id :: id in rows ==> rows[id].hash != hash
    {
      found := None;
      var todo := rows.Keys;
      while todo != {} && found.None?
        invariant todo <= rows.Keys
        invariant found.Some? ==> found.value in rows && rows[found.value].hash == hash
        invariant found.None? ==> forall id :: id in rows && id !in todo ==> rows[id].hash != hash
        decreases |todo|
      {
        var id :| id in todo;
        todo := todo - {id};
        if rows[id].hash == hash { found := Some(id); }
      }
    }

    /** `logout`: the family of the presented token is dead; an unknown token changes nothing. */
    method Logout(hash: Hash)
      requires TableOk(rows)
      modifies `rows
      ensures TableOk(rows)
      ensures (forall id :: id in old(rows) ==> old(rows)[id].hash != hash) ==> rows == old(rows)
      ensures forall id :: id in old(rows) && old(rows)[id].hash == hash ==>
        RevokesExactly(old(rows), rows, LiveOfFamily(old(rows), old(rows)[id].family))
          && Dead(rows, old(rows)[id].family)
    {
      var found := Find(hash);
      if found.Some? { RevokeFamily(rows[found.value].family); }
    }

    /** `_rotate_locked` without interruption: exactly one of the outcomes, each with what it does to the rows. */
    method Present(p: Presentation, grace: nat, window: nat) returns (o: Outcome)
      requires TableOk(rows) && p.newId !in rows && forall r :: r in rows ==> rows[r].hash != p.newHash
      modifies `rows
      ensures TableOk(rows)
      ensures o == Unknown <==> forall id :: id in old(rows) ==> old(rows)[id].hash != p.hash
      ensures o == Unknown ==> rows == old(rows)
      ensures forall id :: id in old(rows) && old(rows)[id].hash == p.hash ==>
        Presented(old(rows), rows, id, p, grace, window, o)
      ensures forall id ::
        id in old(rows) && old(rows)[id].hash == p.hash && (old(rows)[id].revoked || old(rows)[id].replacedBy.Some?)
        && !o.Replayed? ==>
        var next := old(rows)[id].replacedBy;
        && (o == Conflict(id) <==>
              next.Some? && next.value in old(rows) && !old(rows)[next.value].revoked
              && old(rows)[next.value].replacedBy.None? && p.dbNow <= old(rows)[next.value].created + grace)
        && (o != Conflict(id) ==>
              o == Killed({old(rows)[id].family})
              && forall r :: r in rows && rows[r].family == old(rows)[id].family ==> rows[r].revoked)
    {
      var found := Find(p.hash);
      if found.None? { return Unknown; }
      var id := found.value;
      o := Decide(id, p, grace, window);
      PresentedInColumns(old(rows), rows, id, p, grace, window, o);
      assert forall r :: r in old(rows) && old(rows)[r].hash == p.hash ==> r == id;
    }

    /** ... of the row it found. */
    method Decide(id: TokenId, p: Presentation, grace: nat, window: nat) returns (o: Outcome)
      requires TableOk(rows) && p.newId !in rows && forall r :: r in rows ==> rows[r].hash != p.newHash
      requires id in rows && rows[id].hash == p.hash
      modifies `rows
      ensures TableOk(rows) && o != Unknown && Presented(old(rows), rows, id, p, grace, window, o)
    {
      var row := rows[id];
      if row.revoked || row.replacedBy.Some? {
        if CanReplay(rows, row, p, window) { return Replayed(id, p.entry.value.tokenId, p.entry.value.token); }
        var child := if row.replacedBy.Some? then Lookup(rows, row.replacedBy.value) else None;
        if IsBenignDuplicate(row, child, p.dbNow, grace) { return Conflict(id); }
        RevokeFamily(row.family);
        return Killed({row.family});
      }
      if row.expires <= p.now || !AccountFit(p.account) { return Expired(id); }
      Rotate(id, p);
      return Rotated(id, p.newId);
    }

    /** The rotation's two writes. */
    method Rotate(id: TokenId, p: Presentation)
      requires TableOk(rows) && id in rows && Live(rows[id]) && p.newId !in rows && forall r :: r in rows ==>
        rows[r].hash != p.newHash
      modifies `rows
      ensures TableOk(rows) && Rotation(old(rows), rows, id, p.newId)
      ensures rows[p.newId] == Row(old(rows)[id].user, old(rows)[id].family, p.newHash, p.dbNow, p.newExpires, false,
        None)
      ensures rows == old(rows) + RotationWrites(id, old(rows)[id], p.newId, p.newHash, p.dbNow, p.newExpires)
    {
      var row := rows[id];
      RotationKeepsTable(rows, id, p.newId, p.newHash, p.dbNow, p.newExpires);
      rows := rows[p.newId := Row(row.user, row.family, p.newHash, p.dbNow, p.newExpires, false, None)];
      rows := rows[id := row.(revoked := true, replacedBy := Some(p.newId))];
      assert rows == old(rows) + RotationWrites(id, row, p.newId, p.newHash, p.dbNow, p.newExpires);
    }

    /** `revoke_all_user_tokens`: locks every live family in key order, then revokes the user's live tokens. */
    method RevokeAll(user: UserId, keyOf: FamilyId -> Key) returns (count: nat)
      requires TableOk(rows)
      modifies this
      ensures TableOk(rows) && RevokesExactly(old(rows), rows, LiveOfUser(old(rows), user))
        && count == |LiveOfUser(old(rows), user)|
      ensures forall f :: f in LiveFamilies(old(rows), user) ==> Dead(rows, f)
      ensures old(locked) <= locked
        && KeyOrder(Settings(0, 0, 0, keyOf), LiveFamilies(old(rows), user), locked[|old(locked)|..])
    {
      var scope := LiveOfUser(rows, user);
      var families := set id | id in scope :: rows[id].family;
      assert families == LiveFamilies(rows, user);
      LockInOrder(families, keyOf);
      Revoke(scope);
      count := |scope|;
      forall f | f in families ensures Dead(rows, f) { UserFamilyDies(old(rows), rows, user, f); }
    }

    /** One lock after the other, smallest key first. */
    method LockInOrder(families: set<FamilyId>, keyOf: FamilyId -> Key)
      modifies `locked
      ensures old(locked) <= locked && KeyOrder(Settings(0, 0, 0, keyOf), families, locked[|old(locked)|..])
    {
      var todo := families;
      ghost var taken: seq<Key> := [];
      while todo != {}
        invariant todo <= families && locked == old(locked) + taken
        invariant forall i, j :: 0 <= i < j < |taken| ==> taken[i] <= taken[j]
        invariant forall i, f :: 0 <= i < |taken| && f in todo ==> taken[i] <= keyOf(f)
        invariant forall f :: f in families && f !in todo ==> keyOf(f) in taken
        invariant forall k :: k in taken ==> exists f :: f in families && keyOf(f) == k
        decreases |todo|
      {
        var f := Smallest(todo, keyOf);
        todo := todo - {f};
        taken := taken + [keyOf(f)];
        locked := locked + [keyOf(f)];
      }
      assert locked[|old(locked)|..] == taken;
    }

    method Smallest(families: set<FamilyId>, keyOf: FamilyId -> Key) returns (f: FamilyId)
      requires families != {}
      ensures f in families && forall g :: g in families ==> keyOf(f) <= keyOf(g)
    {
      f :| f in families;
      var todo := families - {f};
      while todo != {}
        invariant todo <= families && f in families
        invariant forall g :: g in families && g !in todo ==> keyOf(f) <= keyOf(g)
        decreases |todo|
      {
        var g :| g in todo;
        todo := todo - {g};
        if keyOf(g) < keyOf(f) { f := g; }
      }
    }
  }

  /** What presenting the token of row `id` comes to. */
  ghost predicate Presented(db: Table, db': Table, id: TokenId, p: Presentation, grace: nat, window: nat, o: Outcome)
    requires id in db
  {
    var row := db[id];
    var child := if row.replacedBy.Some? then Lookup(db, row.replacedBy.value) else None;
    if Live(row) then
      if row.expires > p.now && AccountFit(p.account)
      then o == Rotated(id, p.newId) && Rotation(db, db', id, p.newId) else o == Expired(id) && db' == db
    else if CanReplay(db, row, p, window) then o == Replayed(id, p.entry.value.tokenId, p.entry.value.token)
      && db' == db
    else if IsBenignDuplicate(row, child, p.dbNow, grace) then o == Conflict(id) && db' == db
    else o == Killed({row.family}) && RevokesExactly(db, db', LiveOfFamily(db, row.family)) && Dead(db', row.family)
  }

  /** The outcomes in the columns they are decided on. An unspent token is rotated exactly if it has not expired and the
      account is there and active. A spent one is replayed exactly if the entry names its replacement, which is there
      with the entry's hash, unrevoked, unused, unexpired and within the window, the account is active and its stamp
      the entry's, and user agent and subnet are the entry's; otherwise it is a conflict exactly if its replacement is
      there, unrevoked, unused and within the grace period, and else every token of its family is revoked. */
  lemma {:induction false} PresentedInColumns(db: Table, db': Table, id: TokenId, p: Presentation, grace: nat,
                                              window: nat, o: Outcome)
    requires id in db && Presented(db, db', id, p, grace, window, o)
    ensures o.Rotated? || o.Expired? <==> !db[id].revoked && db[id].replacedBy.None?
    ensures o.Rotated? <==>
      !db[id].revoked && db[id].replacedBy.None? && p.now < db[id].expires && p.account.Some? && p.account.value.active
    ensures o.Replayed? <==>
      && (db[id].revoked || db[id].replacedBy.Some?) && window > 0 && p.entry.Some? && p.claimed
      && db[id].replacedBy == Some(p.entry.value.tokenId) && p.entry.value.tokenId in db
      && var e, child := p.entry.value, db[p.entry.value.tokenId];
         && child.hash == e.token && !child.revoked && child.replacedBy.None? && p.now < child.expires
         && p.dbNow <= child.created + window && p.account.Some? && p.account.value.active
         && p.account.value.cca == e.cca && p.ua == Some(e.ua) && p.subnet == Some(e.subnet)
    ensures o.Replayed? ==> o == Replayed(id, p.entry.value.tokenId, p.entry.value.token)
    ensures (db[id].revoked || db[id].replacedBy.Some?) && !o.Replayed? ==>
      var next := db[id].replacedBy;
      && (o == Conflict(id) <==>
            next.Some? && next.value in db && !db[next.value].revoked && db[next.value].replacedBy.None?
            && p.dbNow <= db[next.value].created + grace)
      && (o != Conflict(id) ==>
            o == Killed({db[id].family}) && forall r :: r in db' && db'[r].family == db[id].family ==> db'[r].revoked)
    ensures !o.Rotated? && !o.Killed? ==> db' == db
  {}

  lemma {:induction false} UserFamilyDies(db: Table, db': Table, user: UserId, f: FamilyId)
    requires OneOwnerPerFamily(db) && RevokesExactly(db, db', LiveOfUser(db, user)) && f in LiveFamilies(db, user)
    ensures Dead(db', f)
  {
    var r :| r in db && db[r].family == f && db[r].user == user;
    assert r in db' && db'[r].family == f;
  }

  /** A replay hands back the one token of the family that can be live, and it is. */
  lemma {:induction false} ReplayedIsTheLiveToken(db: Table, id: TokenId, p: Presentation, grace: nat, window: nat,
                                                  o: Outcome)
    requires TableOk(db) && id in db && !Live(db[id]) && CanReplay(db, db[id], p, window)
    requires Presented(db, db, id, p, grace, window, o)
    ensures o.Replayed? && o.child in db && Live(db[o.child]) && db[o.child].family == db[id].family
      && db[o.child].hash == o.token
    ensures forall r :: r in db && db[r].family == db[id].family && !db[r].revoked ==> r == o.child
  {
    ChainConsequences(db, id, id);
    forall r | r in db && db[r].family == db[id].family && r != o.child ensures db[r].revoked {
      ChainConsequences(db, o.child, r);
    }
  }

  // ---- the Redis scripts ----------------------------------------------------------------------------

  class ReplayEntries {
    var entries: map<Hash, Stored>

    constructor ()
      ensures entries == map[]
    {
      entries := map[];
    }

    /** `_REMEMBER`: DEL, HSET with zero uses. */
    method Remember(h: Hash, e: Entry)
      modifies this
      ensures entries == Remembered(old(entries), h, e)
      ensures entries == old(entries)[h := Stored(e, 0)]
    {
      entries := entries - {h};
      entries := entries[h := Stored(e, 0)];
    }

    method AddUses(h: Hash, n: int) returns (uses: int)
      requires h in entries
      modifies this
      ensures entries == old(entries)[h := old(entries)[h].(uses := old(entries)[h].uses + n)]
        && uses == old(entries)[h].uses + n
    {
      entries := entries[h := entries[h].(uses := entries[h].uses + n)];
      uses := entries[h].uses;
    }

    /** `_CLAIM`: -1 without an entry, -2 (and nothing counted) at the cap, else the new count. */
    method Claim(h: Hash, maxUses: nat) returns (uses: int)
      modifies this
      ensures entries == Claimed(old(entries), h, maxUses)
      ensures uses == if h !in old(entries) then -1 else if old(entries)[h].uses < maxUses
        then old(entries)[h].uses + 1 else -2
      ensures forall k :: k in entries <==> k in old(entries)
      ensures forall k :: k in entries ==>
        entries[k] == if k == h && old(entries)[h].uses < maxUses
                      then Stored(old(entries)[h].entry, old(entries)[h].uses + 1) else old(entries)[k]
    {
      if h !in entries { return -1; }
      uses := AddUses(h, 1);
      if uses > maxUses {
        var back := AddUses(h, -1);
        assert entries == old(entries);
        return -2;
      }
    }

    /** `_RELEASE`. */
    method Release(h: Hash)
      modifies this
      ensures entries == Released(old(entries), h)
      ensures forall k :: k in entries <==> k in old(entries)
      ensures forall k :: k in entries ==>
        entries[k] == if k == h && old(entries)[h].uses > 0
                      then Stored(old(entries)[h].entry, old(entries)[h].uses - 1) else old(entries)[k]
    {
      if h !in entries { return; }
      if entries[h].uses <= 0 { return; }
      var uses := AddUses(h, -1);
    }

    /** `claim` with every answer arriving: a use and a unit of the address budget, or nothing of either. */
    method ClaimWithin(h: Hash, maxUses: nat, within: bool) returns (granted: bool)
      requires h in entries ==> entries[h].uses >= 0
      modifies this
      ensures granted <==> ClaimGranted(old(entries), h, maxUses) && within
      ensures entries == if granted then Claimed(old(entries), h, maxUses) else old(entries)
    {
      var uses := Claim(h, maxUses);
      if uses == -1 || uses == -2 { return false; }
      if !within {
        Release(h);
        assert entries == old(entries);
        return false;
      }
      return true;
    }
  }
}
