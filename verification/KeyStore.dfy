/**
  The api_keys table and the store object over it: create, revoke, rotate, look up.
*/
module KeyStore {
  import opened Prelude

  type Time = int
  type Uuid = nat

  /** A row, without its audit columns (name, created_at, last_used_at). */
  datatype KeyRecord = KeyRecord(
    id: Uuid, workspace: Uuid, keyId: string, hash: string, env: string, role: string,
    expires: Option<Time>, revoked: Option<Time>, predecessor: Option<Uuid>)

  type Table = map<Uuid, KeyRecord>  // by primary key

  /** Is the record usable at `now`? */
  predicate Active(r: KeyRecord, now: Time) {
    r.revoked == None && (r.expires.Some? ==> now < r.expires.value)
  }

  ghost predicate Wellformed(t: Table) {
    && (forall id | id in t :: t[id].id == id)
    && (forall a, b | a in t && b in t && t[a].keyId == t[b].keyId :: a == b)  // key_id is UNIQUE
  }

  ghost predicate HasKeyId(t: Table, keyId: string) {
    exists id :: id in t && t[id].keyId == keyId
  }

  /** SELECT ... WHERE key_id = $1 LIMIT 1 */
  ghost predicate Finds(t: Table, keyId: string, r: Option<KeyRecord>) {
    match r
    case Some(rec) => rec.id in t && t[rec.id] == rec && rec.keyId == keyId
    case None => !HasKeyId(t, keyId)
  }

  lemma FindsOne(t: Table, keyId: string, r: Option<KeyRecord>, r': Option<KeyRecord>)
    requires Wellformed(t) && Finds(t, keyId, r) && Finds(t, keyId, r')
    ensures r == r'
  {
  }

  /** UPDATE ... SET revoked_at = now() WHERE id = $1 AND revoked_at IS NULL */
  function Revoked(t: Table, id: Uuid, now: Time): Table {
    if id in t && t[id].revoked == None then t[id := t[id].(revoked := Some(now))] else t
  }

  /** UPDATE ... SET expires_at = now() + overlap WHERE id = $1 AND revoked_at IS NULL */
  function Expiring(t: Table, id: Uuid, at: Time): Table {
    if id in t && t[id].revoked == None then t[id := t[id].(expires := Some(at))] else t
  }

  predicate Fresh(t: Table, id: Uuid, keyId: string) {
    id !in t && forall x | x in t :: t[x].keyId != keyId
  }

  /** The successor of `was`: same workspace, environment and role, no expiry. */
  function Successor(was: KeyRecord, id: Uuid, keyId: string, hash: string): KeyRecord {
    KeyRecord(id, was.workspace, keyId, hash, was.env, was.role, None, None, Some(was.id))
  }

  function Rotated(t: Table, oldId: Uuid, id: Uuid, keyId: string, hash: string, until: Time): Table
    requires oldId in t
  {
    Expiring(t[id := Successor(t[oldId], id, keyId, hash)], oldId, until)
  }

  /** `t'` has one more row, and `oldId` got a deadline unless it was revoked. */
  ghost predicate IsRotation(t: Table, t': Table, oldId: Uuid, id: Uuid, until: Time) {
    && oldId in t && id !in t && t'.Keys == t.Keys + {id}
    && (forall x | x in t && x != oldId :: t'[x] == t[x])
    && t'[oldId] == if t[oldId].revoked == None then t[oldId].(expires := Some(until)) else t[oldId]
  }

  lemma RotatedIs(t: Table, oldId: Uuid, id: Uuid, keyId: string, hash: string, until: Time)
    requires oldId in t && id !in t
    ensures IsRotation(t, Rotated(t, oldId, id, keyId, hash, until), oldId, id, until)
    ensures Rotated(t, oldId, id, keyId, hash, until)[id] == Successor(t[oldId], id, keyId, hash)
  {
  }

  /** A new row takes over workspace, environment and role; the old one gets a deadline unless revoked. */
  ghost predicate TakesOver(t: Table, t': Table, oldId: Uuid, id: Uuid, keyId: string, hash: string, until: Time) {
    && oldId in t && id !in t && t'.Keys == t.Keys + {id}
    && t'[id] == KeyRecord(id, t[oldId].workspace, keyId, hash, t[oldId].env, t[oldId].role, None, None, Some(oldId))
    && t'[oldId] == (if t[oldId].revoked.Some? then t[oldId] else t[oldId].(expires := Some(until)))
    && forall x | x in t && x != oldId :: t'[x] == t[x]
  }

  lemma RotatedTakesOver(t: Table, oldId: Uuid, id: Uuid, keyId: string, hash: string, until: Time)
    requires Wellformed(t) && oldId in t && id !in t
    ensures TakesOver(t, Rotated(t, oldId, id, keyId, hash, until), oldId, id, keyId, hash, until)
  {
    RotatedIs(t, oldId, id, keyId, hash, until);
  }

  lemma RotatedWellformed(t: Table, oldId: Uuid, id: Uuid, keyId: string, hash: string, until: Time)
    requires Wellformed(t) && oldId in t && Fresh(t, id, keyId)
    ensures Wellformed(Rotated(t, oldId, id, keyId, hash, until))
  {
    var t1 := t[id := Successor(t[oldId], id, keyId, hash)];
    assert Wellformed(t1);
  }

  predicate ValidEnv(env: string) {
    env == "live" || env == "dev" || env == "test"
  }

  class Store {
    var table: Table

    ghost predicate Valid()
      reads this
    {
      Wellformed(table)
    }

    constructor ()
      ensures Valid() && table == map[]
    {
      table := map[];
    }

    method FindByKeyID(keyId: string) returns (r: Option<KeyRecord>)
      requires Valid()
      ensures Finds(table, keyId, r)
    {
      if id :| id in table && table[id].keyId == keyId {
        r := Some(table[id]);
      } else {
        r := None;
      }
    }

    /** `roleOk` is the outcome of the two role checks; a duplicate id or key_id violates a constraint. */
    method Create(rec: KeyRecord, roleOk: bool) returns (ok: bool)
      requires Valid()
      modifies this
      ensures Valid()
      ensures ok <==> (rec.env == "live" || rec.env == "dev" || rec.env == "test") && roleOk
                      && rec.id !in old(table) && forall x | x in old(table) :: old(table)[x].keyId != rec.keyId
      ensures table == if ok then old(table)[rec.id := rec.(revoked := None, predecessor := None)] else old(table)
    {
      ok := ValidEnv(rec.env) && roleOk && Fresh(table, rec.id, rec.keyId);
      if ok {
        table := table[rec.id := rec.(revoked := None, predecessor := None)];
      }
    }

    /** The row is inactive for good; a row revoked before keeps its time. */
    method Revoke(id: Uuid, now: Time)
      requires Valid()
      modifies this
      ensures Valid() && table == Revoked(old(table), id, now)
      ensures table.Keys == old(table).Keys && forall x | x in table && x != id :: table[x] == old(table)[x]
      ensures id in table ==>
        var was := old(table)[id];
        && table[id] == was.(revoked := if was.revoked.Some? then was.revoked else Some(now))
        && forall t: Time :: !Active(table[id], t)
    {
      if id in table && table[id].revoked == None {
        table := table[id := table[id].(revoked := Some(now))];
      }
    }

    /** In one transaction; false is ErrKeyNotFound or a violated constraint, and changes nothing. */
    method Rotate(oldId: Uuid, id: Uuid, keyId: string, hash: string, overlap: Time, now: Time) returns (ok: bool)
      requires Valid()
      modifies this
      ensures Valid()
      ensures ok <==> oldId in old(table) && id !in old(table) && forall x | x in old(table) :: old(table)[x].keyId != keyId
      ensures table == if ok then Rotated(old(table), oldId, id, keyId, hash, now + overlap) else old(table)
      ensures ok ==> TakesOver(old(table), table, oldId, id, keyId, hash, now + overlap)
    {
      if oldId !in table {
        return false;
      }
      var was := table[oldId];
      if !Fresh(table, id, keyId) {
        return false;
      }
      RotatedTakesOver(table, oldId, id, keyId, hash, now + overlap);
      RotatedWellformed(table, oldId, id, keyId, hash, now + overlap);
      table := table[id := Successor(was, id, keyId, hash)];
      if table[oldId].revoked == None {
        table := table[oldId := table[oldId].(expires := Some(now + overlap))];
      }
      return true;
    }
  }
}
