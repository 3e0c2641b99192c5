/**
  The in-memory cache of verified keys: an LRU with a time limit per entry and a set
  of row ids flagged as revoked. The cache key is the full token (its SHA-256, taken
  as injective).
*/
module VerifyCaching {
  import opened Prelude
  import opened KeyStore
  import Lru

  datatype Entry = Entry(rec: KeyRecord, verifiedAt: Time)

  type Entries = seq<(string, Entry)>

  /** What a lookup may return: present, within its time limit, and not flagged. */
  function Usable(c: Entries, flags: set<Uuid>, token: string, ttl: Time, now: Time): Option<KeyRecord> {
    match Lru.Find(c, token)
    case None => None
    case Some(e) => if now - e.verifiedAt > ttl || e.rec.id in flags then None else Some(e.rec)
  }

  class VerifyCache {
    var entries: Entries
    var flags: set<Uuid>
    const size: nat
    const ttl: Time

    ghost predicate Valid()
      reads this
    {
      size > 0 && ttl > 0 && |entries| <= size
      && forall i, j | 0 <= i < j < |entries| :: entries[i].0 != entries[j].0
    }

    /** Non-positive arguments select the defaults. */
    constructor (size: int, ttl: Time)
      ensures Valid() && entries == [] && flags == {}
      ensures this.size == (if size <= 0 then 1024 else size)
      ensures this.ttl == if ttl <= 0 then 300_000_000_000 else ttl
    {
      this.size := if size <= 0 then 1024 else size;
      this.ttl := if ttl <= 0 then 300_000_000_000 else ttl;
      entries := [];
      flags := {};
    }

    method Get(token: string, now: Time) returns (r: Option<KeyRecord>)
      requires Valid()
      modifies this
      ensures Valid() && flags == old(flags)
      ensures r == Usable(old(entries), flags, token, ttl, now)
      // an entry that is used moves to the front, one that may not be used is dropped
      ensures r.Some? ==> entries != [] && entries[0].0 == token
      ensures Lru.Find(entries, token) == if r.Some? then Lru.Find(old(entries), token) else None
      // no other entry is lost or changed, and they keep their order
      ensures Lru.Remove(entries, token) == Lru.Remove(old(entries), token)
      ensures forall k | k != token :: Lru.Find(entries, k) == Lru.Find(old(entries), k)
    {
      var found := Lru.Find(entries, token);
      if found.None? {
        return None;
      }
      var e := found.value;
      TouchFinds(entries, token);
      RemoveFinds(entries, token);
      RemoveAgain(entries, token);
      if now - e.verifiedAt > ttl || e.rec.id in flags {
        entries := Lru.Remove(entries, token);
        return None;
      }
      entries := Lru.Touch(entries, token);
      return Some(e.rec);
    }

    /** The flag of the row is cleared first, for every token of that row. */
    method Put(token: string, rec: KeyRecord, now: Time)
      requires Valid()
      modifies this
      ensures Valid() && flags == old(flags) - {rec.id}
      ensures Lru.Find(entries, token) == Some(Entry(rec, now))
      // the new entry is in front, then the others in their order, less the oldest if it no longer fits
      ensures entries != [] && entries[0] == (token, Entry(rec, now))
      ensures var others := Lru.Remove(old(entries), token);
              entries[1..] == if |others| < size then others else others[..|others| - 1]
      ensures |old(entries)| < size || Lru.Has(old(entries), token) ==>
                forall k | k != token :: Lru.Find(entries, k) == Lru.Find(old(entries), k)
    {
      flags := flags - {rec.id};
      AddFinds(entries, token, Entry(rec, now), size);
      entries := Lru.Add(entries, token, Entry(rec, now), size);
    }

    /** None is the empty id. */
    method RevokeByDBID(id: Option<Uuid>)
      requires Valid()
      modifies this
      ensures Valid() && entries == old(entries)
      ensures flags == if id.None? then old(flags) else old(flags) + {id.value}
    {
      if id.None? {
        return;
      }
      flags := flags + {id.value};
    }
  }

  // ---- look-ups after LRU operations ------------------------------------------------

  ghost predicate Unique(c: Entries) {
    forall i, j | 0 <= i < j < |c| :: c[i].0 != c[j].0
  }

  lemma FindAt(c: Entries, i: nat)
    requires Unique(c) && i < |c|
    ensures Lru.Find(c, c[i].0) == Some(c[i].1)
  {
  }

  lemma RemoveFinds(c: Entries, token: string)
    requires Unique(c) && Lru.Has(c, token)
    ensures Unique(Lru.Remove(c, token)) && !Lru.Has(Lru.Remove(c, token), token) && |Lru.Remove(c, token)| == |c| - 1
    ensures forall k | k != token :: Lru.Find(Lru.Remove(c, token), k) == Lru.Find(c, k)
  {
    var d, p := Lru.Remove(c, token), Lru.Index(c, token);
    Lru.RemoveAt(c, token);
    assert Unique(d) by {
      forall i, j | 0 <= i < j < |d| ensures d[i].0 != d[j].0 {
        assert c[if i < p then i else i + 1].0 != c[if j < p then j else j + 1].0;
      }
    }
    forall i | 0 <= i < |d| ensures d[i].0 != token {
      assert c[if i < p then i else i + 1].0 != c[p].0;
    }
    forall k | k != token ensures Lru.Find(d, k) == Lru.Find(c, k) {
      if Lru.Has(c, k) {
        var i := Lru.Index(c, k);
        assert d[if i < p then i else i - 1] == c[i];
        FindAt(d, if i < p then i else i - 1);
      }
    }
  }

  /** Without the token, the entries are the same after it was touched or removed. */
  lemma RemoveAgain(c: Entries, token: string)
    requires Unique(c) && Lru.Has(c, token)
    ensures Lru.Remove(Lru.Touch(c, token), token) == Lru.Remove(c, token)
    ensures Lru.Remove(Lru.Remove(c, token), token) == Lru.Remove(c, token)
  {
    RemoveFinds(c, token);
    var d, rest := Lru.Touch(c, token), Lru.Remove(c, token);
    assert d[0].0 == token && d[1..] == rest;
  }

  /** Prepending an entry for a new key. */
  lemma ConsFinds(c: Entries, token: string, e: Entry)
    requires Unique(c) && !Lru.Has(c, token)
    ensures Unique([(token, e)] + c) && Lru.Find([(token, e)] + c, token) == Some(e)
    ensures forall k | k != token :: Lru.Find([(token, e)] + c, k) == Lru.Find(c, k)
  {
    var d := [(token, e)] + c;
    assert d[1..] == c;
  }

  lemma TouchFinds(c: Entries, token: string)
    requires Unique(c) && Lru.Has(c, token)
    ensures Unique(Lru.Touch(c, token)) && |Lru.Touch(c, token)| == |c|
    ensures forall k :: Lru.Find(Lru.Touch(c, token), k) == Lru.Find(c, k)
  {
    RemoveFinds(c, token);
    ConsFinds(Lru.Remove(c, token), token, c[Lru.Index(c, token)].1);
  }

  /** Dropping the last entry. */
  lemma InitFinds(c: Entries)
    requires Unique(c) && c != []
    ensures Unique(c[..|c| - 1])
    ensures forall k | Lru.Has(c[..|c| - 1], k) :: Lru.Find(c[..|c| - 1], k) == Lru.Find(c, k)
    ensures |c| > 1 ==> Lru.Find(c[..|c| - 1], c[0].0) == Some(c[0].1)
  {
    var d := c[..|c| - 1];
    forall k | Lru.Has(d, k) ensures Lru.Find(d, k) == Lru.Find(c, k) {
      FindAt(c, Lru.Index(d, k));
    }
    if |c| > 1 { FindAt(d, 0); }
  }

  lemma AddFinds(c: Entries, token: string, e: Entry, size: nat)
    requires Unique(c) && 0 < size && |c| <= size
    ensures var d := Lru.Add(c, token, e, size);
            && Unique(d) && |d| <= size && Lru.Find(d, token) == Some(e)
            && (forall k | k != token && Lru.Has(d, k) :: Lru.Find(d, k) == Lru.Find(c, k))
            && (|c| < size || Lru.Has(c, token) ==> forall k | k != token :: Lru.Find(d, k) == Lru.Find(c, k))
  {
    var r := Lru.Remove(c, token);
    if Lru.Has(c, token) { RemoveFinds(c, token); }
    ConsFinds(r, token, e);
    var full := [(token, e)] + r;
    if |full| > size {
      InitFinds(full);
    }
  }
}
