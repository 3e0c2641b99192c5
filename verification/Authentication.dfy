/**
  The authentication middleware: a header is parsed, resolved through the cache or the
  key table, and the record is checked for revocation and expiry.
*/
module Authentication {
  import opened Prelude
  import opened Base64
  import opened ApiKey
  import opened SecretHash
  import opened KeyStore
  import opened VerifyCaching
  import Lru

  /** `Aborted`: the handler panicked, which is answered with status 500. */
  datatype Outcome = MissingOrInvalid | InvalidKey | Inactive | Aborted | Accepted(rec: KeyRecord)

  /** The row of the key id holds a hash that Argon2id panics on. */
  ghost predicate Broken(t: Table, k: ParsedKey) {
    exists id :: id in t && t[id].keyId == k.keyId && Read(t[id].hash).Some? && Panicky(Read(t[id].hash).value.cost)
  }

  /** The table lets `k` in as `rec`: the row of its key id, and a secret that hashes to what is stored. */
  ghost predicate Grants(t: Table, k: ParsedKey, argon: Argon, rec: KeyRecord) {
    rec.id in t && t[rec.id] == rec && rec.keyId == k.keyId && Matches(k.secret, rec.hash, argon)
  }

  /** Revoked, or past its expiry. */
  ghost predicate Ended(rec: KeyRecord, now: Time) {
    rec.revoked.Some? || (rec.expires.Some? && rec.expires.value <= now)
  }

  class Middleware {
    const store: Store
    const cache: VerifyCache
    const argon: Argon

    ghost predicate Valid()
      reads store, cache
    {
      store.Valid() && cache.Valid()
    }

    constructor (store: Store, cache: VerifyCache, argon: Argon)
      requires store.Valid() && cache.Valid()
      ensures this.store == store && this.cache == cache && this.argon == argon && Valid()
    {
      this.store, this.cache, this.argon := store, cache, argon;
    }

    /** A usable cache entry answers; otherwise the table does, and its answer is cached. */
    method Resolve(k: ParsedKey, now: Time, later: Time) returns (r: Option<KeyRecord>, panicked: bool)
      requires Valid()
      modifies cache
      ensures Valid()
      ensures var hit := Usable(old(cache.entries), old(cache.flags), k.full, cache.ttl, now);
              if hit.Some? then r == hit && !panicked && cache.flags == old(cache.flags)
              else
                && (panicked <==> Broken(store.table, k))
                && (r.Some? ==> Grants(store.table, k, argon, r.value))
                && (r.None? ==> forall rec :: !Grants(store.table, k, argon, rec))
                && (r.Some? ==> Lru.Find(cache.entries, k.full) == Some(Entry(r.value, later)))
                && cache.flags == if r.Some? then old(cache.flags) - {r.value.id} else old(cache.flags)
    {
      panicked := false;
      r := cache.Get(k.full, now);
      if r.Some? {
        return;
      }
      var found := store.FindByKeyID(k.keyId);
      if found.None? {
        return None, false;
      }
      var v := VerifySecret(k.secret, found.value.hash, argon);
      BrokenRow(store.table, k, found.value);
      if v != Good {
        OnlyRow(store.table, k, argon, found.value);
        return None, v == Panic;
      }
      cache.Put(k.full, found.value, later);
      return found, false;
    }

    /** The clock is read at the look-up, at the caching and at the check. */
    method Authenticate(header: string, now: Time, later: Time, last: Time) returns (r: Outcome)
      requires Valid()
      modifies cache
      ensures Valid()
      ensures r == MissingOrInvalid <==> ParseBearer(header).None?
      // a record is good until it is revoked or its expiry is reached
      ensures r.Accepted? ==> r.rec.revoked.None? && (r.rec.expires.Some? ==> last < r.rec.expires.value)
      ensures ParseBearer(header).Some? ==>
                var k := ParseBearer(header).value;
                var hit := Usable(old(cache.entries), old(cache.flags), k.full, cache.ttl, now);
                if hit.Some? then r == if Ended(hit.value, last) then Inactive else Accepted(hit.value)
                else
                  && (r == Aborted <==> Broken(store.table, k))
                  && (r == InvalidKey || r == Aborted <==> forall rec :: !Grants(store.table, k, argon, rec))
                  && (r.Accepted? ==> Grants(store.table, k, argon, r.rec))
                  && (r == Inactive ==> forall rec | Grants(store.table, k, argon, rec) :: Ended(rec, last))
    {
      var parsed := ParseBearer(header);
      if parsed.None? {
        return MissingOrInvalid;
      }
      var rec, panicked := Resolve(parsed.value, now, later);
      if panicked {
        return Aborted;
      }
      if rec.None? {
        return InvalidKey;
      }
      if !Active(rec.value, last) {
        return Inactive;
      }
      return Accepted(rec.value);
    }
  }

  lemma BrokenRow(t: Table, k: ParsedKey, rec: KeyRecord)
    requires Wellformed(t) && Finds(t, k.keyId, Some(rec))
    ensures Broken(t, k) <==> Read(rec.hash).Some? && Panicky(Read(rec.hash).value.cost)
  {
  }

  lemma OnlyRow(t: Table, k: ParsedKey, argon: Argon, rec: KeyRecord)
    requires Wellformed(t) && Finds(t, k.keyId, Some(rec)) && !Matches(k.secret, rec.hash, argon)
    ensures forall other :: !Grants(t, k, argon, other)
  {
  }

  /**
    A key that was minted, hashed and stored lets its holder in: whatever the random bytes,
    the salt and the space around the token, the header parses to a key the row grants.
  */
  lemma MintedKeyIsGranted(t: Table, rec: KeyRecord, env: string, id: seq<Byte>, secret: seq<Byte>, salt: seq<Byte>,
                           argon: Argon, w: string, w': string, w'': string)
    requires ValidEnv(env) && |id| == ID_BYTES && |secret| == SECRET_BYTES && IsArgon(argon)
    requires Blank(w) && Blank(w') && Blank(w'')
    requires rec.id in t && t[rec.id] == rec
    requires rec.keyId == Encode(id, Url) && rec.hash == HashSecret(Encode(secret, Url), salt, argon)
    ensures var k := ParseBearer(w + ("Bearer " + w' + Mint(env, id, secret).value.full) + w'');
            k.Some? && Grants(t, k.value, argon, rec)
  {
    ParseMinted(env, id, secret, w, w', w'');
    VerifiesIffSameHash(Encode(secret, Url), Encode(secret, Url), salt, argon);
  }

  /** Any other key the row grants carries its key id and a secret with the same hash. */
  lemma GrantedOnlyByHash(t: Table, rec: KeyRecord, k: ParsedKey, secret: string, salt: seq<Byte>, argon: Argon)
    requires IsArgon(argon) && rec.id in t && t[rec.id] == rec && rec.hash == HashSecret(secret, salt, argon)
    ensures Grants(t, k, argon, rec) <==>
            k.keyId == rec.keyId &&
            argon(k.secret, salt, 2, 65536, 2) == argon(secret, salt, 2, 65536, 2)
  {
    VerifiesIffSameHash(secret, k.secret, salt, argon);
  }
}
