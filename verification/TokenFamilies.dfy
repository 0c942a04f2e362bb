/**
 Refresh-token rows and the shape every family of them keeps: one `replacedBy` chain.

 A login opens a family; each rotation revokes the presented token, points it at its
 replacement and inserts the replacement in the same family. This module holds what both
 the concurrent protocol (`RefreshProtocol`) and the imperative store (`TokenStore`) use:
 the rows, the decisions taken on them, and how a revocation or a rotation changes a table.
 */
module TokenFamilies {
  import opened Options

  type UserId = nat
  type TokenId = nat
  type FamilyId = nat
  type Hash = nat // the hash of an opaque token; hashing is injective, so it also stands for the token
  type Time = int
  type Agent = nat
  type Subnet = nat
  type Stamp = nat

  datatype Row = Row(user: UserId, family: FamilyId, hash: Hash, created: Time, expires: Time,
                     revoked: bool, replacedBy: Option<TokenId>)

  type Table = map<TokenId, Row>

  /** What a rotation leaves in Redis for a later replay of the rotated token. */
  datatype Entry = Entry(token: Hash, tokenId: TokenId, ua: Agent, subnet: Subnet, cca: Option<Stamp>)

  datatype Account = Account(active: bool, cca: Option<Stamp>)

  predicate Live(row: Row) {
    !row.revoked && row.replacedBy.None?
  }

  // ---- decisions --------------------------------------------------------------------------

  /** Whether `child` is the untouched replacement of `row`, young enough on the database clock. */
  predicate IsBenignDuplicate(row: Row, child: Option<Row>, dbNow: Time, grace: nat) {
    row.replacedBy.Some? && child.Some? && Live(child.value) && dbNow - child.value.created <= grace
  }

  /** The checks on the replacement row itself: identity, unused, unrevoked, unexpired. */
  predicate ReplacementUsable(child: Option<Row>, entry: Entry, appNow: Time) {
    && child.Some? && child.value.hash == entry.token
    && Live(child.value) && child.value.expires > appNow
  }

  /** The checks on the window, the account and the client. */
  predicate ReplayMatches(child: Row, entry: Entry, dbNow: Time, window: nat, account: Option<Account>,
                          ua: Option<Agent>, subnet: Option<Subnet>)
  {
    && dbNow - child.created <= window
    && account.Some? && account.value.active && account.value.cca == entry.cca
    && ua == Some(entry.ua)
    && subnet == Some(entry.subnet)
  }

  // ---- table updates ----------------------------------------------------------------------

  function Revoked(row: Row): Row { row.(revoked := true) }

  /** The two writes of a rotation: the replacement row, and the presented row pointing at it. */
  function RotationWrites(id: TokenId, row: Row, newId: TokenId, hash: Hash, created: Time, expires: Time): Table {
    map[id := row.(revoked := true, replacedBy := Some(newId)),
        newId := Row(row.user, row.family, hash, created, expires, false, None)]
  }

  /** `w` only revokes rows that are in `db`. */
  ghost predicate OnlyRevokes(db: Table, w: Table) {
    forall id :: id in w ==> id in db && w[id] == Revoked(db[id])
  }

  /** What no committed change ever does to a row: move it, un-revoke it, or re-point it. */
  predicate Evolves(a: Row, b: Row) {
    && b.user == a.user && b.family == a.family && b.hash == a.hash
    && b.created == a.created && b.expires == a.expires
    && (a.revoked ==> b.revoked)
    && (a.replacedBy.Some? ==> b.replacedBy == a.replacedBy)
  }

  ghost predicate TableEvolves(db: Table, db': Table) {
    forall id :: id in db ==> id in db' && Evolves(db[id], db'[id])
  }

  // ---- the chain --------------------------------------------------------------------------

  ghost predicate HasFamily(db: Table, f: FamilyId) {
    exists id :: id in db && db[id].family == f
  }

  /** Place `i` of `c` was rotated into place `i + 1`. */
  ghost predicate Linked(db: Table, c: seq<TokenId>, i: nat)
    requires i + 1 < |c| && c[i] in db
  {
    db[c[i]].revoked && db[c[i]].replacedBy == Some(c[i + 1])
  }

  /** `c` lists the tokens of family `f` exactly once each, oldest first: every one but the last
      is revoked and points at the next, and the last points nowhere. */
  ghost predicate IsChain(db: Table, f: FamilyId, c: seq<TokenId>) {
    && |c| > 0
    && (forall i, j :: 0 <= i < j < |c| ==> c[i] != c[j])
    && (forall i :: 0 <= i < |c| ==> c[i] in db && db[c[i]].family == f)
    && (forall id :: id in db && db[id].family == f ==> id in c)
    && (forall i {:trigger Linked(db, c, i)} :: 0 <= i < |c| - 1 ==> Linked(db, c, i))
    && db[c[|c| - 1]].replacedBy == None
  }

  ghost predicate Chained(db: Table) {
    forall f {:trigger HasFamily(db, f)} :: HasFamily(db, f) ==> exists c :: IsChain(db, f, c)
  }

  ghost predicate OneOwnerPerFamily(db: Table) {
    forall a, b :: a in db && b in db && db[a].family == db[b].family ==> db[a].user == db[b].user
  }

  ghost predicate HashesUnique(db: Table) {
    forall a, b :: a in db && b in db && db[a].hash == db[b].hash ==> a == b
  }

  ghost predicate TableOk(db: Table) {
    Chained(db) && OneOwnerPerFamily(db) && HashesUnique(db)
  }

  /** No token of `f` can be used again. */
  ghost predicate Dead(db: Table, f: FamilyId) {
    HasFamily(db, f) && forall id :: id in db && db[id].family == f ==> db[id].revoked
  }

  /** Unpacks a chain: no two tokens share a replacement, a replacement stays in the family, and
      an unrevoked token is the end of the chain, hence the only one of its family. */
  lemma {:induction false} ChainConsequences(db: Table, a: TokenId, b: TokenId)
    requires Chained(db) && a in db && b in db && db[a].family == db[b].family
    ensures db[a].replacedBy.Some? ==>
              && db[a].revoked
              && db[a].replacedBy.value in db && db[a].replacedBy.value != a
              && db[db[a].replacedBy.value].family == db[a].family
    ensures a != b && db[a].replacedBy.Some? ==> db[b].replacedBy != db[a].replacedBy
    ensures a != b && !db[a].revoked ==> db[b].revoked && db[b].replacedBy.Some?
    ensures a != b ==> db[a].replacedBy.Some? || db[b].replacedBy.Some?
  {
    assert HasFamily(db, db[a].family);
    var c :| IsChain(db, db[a].family, c);
    var i :| 0 <= i < |c| && c[i] == a;
    var j :| 0 <= j < |c| && c[j] == b;
    if i + 1 < |c| { assert Linked(db, c, i); }
    if j + 1 < |c| { assert Linked(db, c, j); }
  }

  /** A chain whose rows were at most revoked, and whose family gained no row, is still the chain. */
  lemma {:induction false} ChainStays(db: Table, db': Table, f: FamilyId, c: seq<TokenId>)
    requires IsChain(db, f, c)
    requires forall id :: id in db && db[id].family == f ==>
      id in db' && (db'[id] == db[id] || db'[id] == Revoked(db[id]))
    requires forall id :: id in db' && db'[id].family == f ==> id in db && db[id].family == f
    ensures IsChain(db', f, c)
  {
    forall i | 0 <= i < |c| - 1 ensures Linked(db', c, i) {
      assert Linked(db, c, i);
    }
  }

  /** A rotation of the last token appends the replacement. */
  lemma {:induction false} ChainGrows(db: Table, db': Table, c: seq<TokenId>, newId: TokenId)
    requires |c| > 0 && c[|c| - 1] in db && newId !in db
    requires var last := c[|c| - 1]; var f := db[last].family;
      && IsChain(db, f, c)
      && last in db' && db'[last] == db[last].(revoked := true, replacedBy := Some(newId))
      && newId in db' && db'[newId].family == f && db'[newId].replacedBy == None
      && (forall id :: id in db && id != last ==> id in db' && db'[id] == db[id])
      && (forall id :: id in db' ==> id in db || id == newId)
    ensures IsChain(db', db[c[|c| - 1]].family, c + [newId])
  {
    var d := c + [newId];
    forall i | 0 <= i < |d| - 1 ensures d[i] in db' && Linked(db', d, i) {
      if i < |c| - 1 { assert Linked(db, c, i); assert c[i] != c[|c| - 1]; }
    }
  }

  lemma {:induction false} RevocationKeepsTable(db: Table, w: Table)
    requires TableOk(db) && OnlyRevokes(db, w)
    ensures TableOk(db + w) && TableEvolves(db, db + w)
  {
    var db' := db + w;
    forall f | HasFamily(db', f) ensures exists c :: IsChain(db', f, c) {
      var id :| id in db' && db'[id].family == f;
      assert HasFamily(db, f) by { assert id in db && db[id].family == f; }
      var c :| IsChain(db, f, c);
      ChainStays(db, db', f, c);
    }
  }

  /** `db'` is `db` after the last token `id` of a chain was rotated into `newId`. */
  ghost predicate Rotation(db: Table, db': Table, id: TokenId, newId: TokenId) {
    && id in db && Live(db[id]) && newId !in db
    && db'.Keys == db.Keys + {newId}
    && db'[id] == db[id].(revoked := true, replacedBy := Some(newId))
    && db'[newId].user == db[id].user && db'[newId].family == db[id].family && Live(db'[newId])
    && (forall r :: r in db && r != id ==> db'[r] == db[r])
  }

  lemma {:induction false} LiveIsLast(db: Table, f: FamilyId, c: seq<TokenId>, i: nat)
    requires IsChain(db, f, c) && i < |c| && !db[c[i]].revoked
    ensures i == |c| - 1
  {
    assert forall k :: 0 <= k < |c| - 1 && Linked(db, c, k) ==> db[c[k]].revoked;
  }

  lemma {:induction false} RotationKeepsChains(db: Table, db': Table, id: TokenId, newId: TokenId)
    requires Chained(db) && Rotation(db, db', id, newId)
    ensures Chained(db')
  {
    forall f | HasFamily(db', f) ensures exists c :: IsChain(db', f, c) {
      var r :| r in db' && db'[r].family == f;
      var r' := if r == newId then id else r;
      assert HasFamily(db, f) by { assert r' in db && db[r'].family == f; }
      var c :| IsChain(db, f, c);
      if f == db[id].family {
        var i :| 0 <= i < |c| && c[i] == id;
        LiveIsLast(db, f, c, i);
        ChainGrows(db, db', c, newId);
      } else {
        ChainStays(db, db', f, c);
      }
    }
  }

  lemma {:induction false} RotationKeepsTable(db: Table, id: TokenId, newId: TokenId, hash: Hash, created: Time,
                                              expires: Time)
    requires TableOk(db) && id in db && Live(db[id]) && newId !in db
    requires forall r :: r in db ==> db[r].hash != hash
    ensures var db' := db + RotationWrites(id, db[id], newId, hash, created, expires);
            TableOk(db') && TableEvolves(db, db') && Rotation(db, db', id, newId)
  {
    var db' := db + RotationWrites(id, db[id], newId, hash, created, expires);
    assert db'.Keys == db.Keys + {newId};
    assert Rotation(db, db', id, newId);
    RotationKeepsChains(db, db', id, newId);
  }

  lemma {:induction false} LoginKeepsTable(db: Table, newId: TokenId, row: Row)
    requires TableOk(db) && newId !in db && Live(row) && !HasFamily(db, row.family)
    requires forall r :: r in db ==> db[r].hash != row.hash
    ensures TableOk(db + map[newId := row]) && TableEvolves(db, db + map[newId := row])
  {
    var db' := db + map[newId := row];
    forall f | HasFamily(db', f) ensures exists c :: IsChain(db', f, c) {
      if f == row.family {
        assert IsChain(db', f, [newId]);
      } else {
        var r :| r in db' && db'[r].family == f;
        assert HasFamily(db, f) by { assert r in db && db[r].family == f; }
        var c :| IsChain(db, f, c);
        ChainStays(db, db', f, c);
      }
    }
  }
}
