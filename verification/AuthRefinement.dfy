/**
  The cache object and the middleware against the step system: a request whose steps nothing
  interrupts does what `Middleware.Resolve` promises.
*/
module AuthRefinement {
  import opened Prelude
  import opened KeyStore
  import opened AuthProtocol
  import Caching = VerifyCaching
  import Lru

  /** What a cache look-up gives in a state. */
  ghost function Hit(c: Config, s: State, token: Token): Option<KeyRecord> {
    if token in s.cache && s.clock - s.cache[token].verifiedAt <= c.ttl && s.cache[token].copy.rec.id !in s.flags
    then Some(s.cache[token].copy.rec) else None
  }

  /** The object holds what the state holds; `text` is the token string under which an entry is kept. */
  ghost predicate Mirrors(entries: Caching.Entries, flags: set<Uuid>, s: State, text: Token -> string) {
    && flags == s.flags
    && forall token ::
         match Lru.Find(entries, text(token))
         case None => token !in s.cache
         case Some(e) =>
           token in s.cache && s.cache[token].copy.rec == e.rec && s.cache[token].verifiedAt == e.verifiedAt
  }

  lemma LookUpsAgree(c: Config, s: State, entries: Caching.Entries, flags: set<Uuid>, text: Token -> string, token: Token)
    requires Mirrors(entries, flags, s, text)
    ensures Caching.Usable(entries, flags, text(token), c.ttl, s.clock) == Hit(c, s, token)
  {
    match Lru.Find(entries, text(token)) {
      case None => assert token !in s.cache;
      case Some(e) => assert token in s.cache;
    }
  }

  /** Fetch, CheckAge and CheckFlag in a row. */
  lemma LookUp(c: Config, s: State, pid: nat) returns (steps: seq<Step>)
    requires pid in s.requests && s.requests[pid].pc == Arrived
    ensures CanRun(c, s, steps)
    ensures var t := Final(c, s, steps); var token := s.requests[pid].token; var hit := Hit(c, s, token);
            && t.clock == s.clock && t.table == s.table && t.flags == s.flags
            && pid in t.requests && t.requests[pid].token == token
            && (hit.Some? ==> t.requests[pid].pc == Resolved(s.cache[token].copy, s.clock) && t.cache == s.cache)
            && (hit.None? ==> t.requests[pid].pc == Missed && t.cache == s.cache - {token})
  {
    var token := s.requests[pid].token;
    Extend(c, s, [], By(pid, Fetch));
    steps := [] + [By(pid, Fetch)];
    if token in s.cache {
      steps := CheckBoth(c, s, steps, pid);
    }
  }

  /** CheckAge and CheckFlag in a row. */
  lemma CheckBoth(c: Config, s: State, steps0: seq<Step>, pid: nat) returns (steps: seq<Step>)
    requires CanRun(c, s, steps0) && pid in Final(c, s, steps0).requests && Final(c, s, steps0).requests[pid].pc.Fetched?
    ensures CanRun(c, s, steps)
    ensures var u, t := Final(c, s, steps0), Final(c, s, steps); var token, e := u.requests[pid].token, u.requests[pid].pc.e;
            && t.clock == u.clock && t.table == u.table && t.flags == u.flags
            && pid in t.requests && t.requests[pid].token == token
            && if u.clock - e.verifiedAt <= c.ttl && e.copy.rec.id !in u.flags
               then t.requests[pid].pc == Resolved(e.copy, u.clock) && t.cache == u.cache
               else t.requests[pid].pc == Missed && t.cache == u.cache - {token}
  {
    var u := Final(c, s, steps0);
    Extend(c, s, steps0, By(pid, CheckAge));
    steps := steps0 + [By(pid, CheckAge)];
    if u.clock - u.requests[pid].pc.e.verifiedAt <= c.ttl {
      Extend(c, s, steps, By(pid, CheckFlag));
      steps := steps + [By(pid, CheckFlag)];
    }
  }

  /** Find and Verify in a row, then ClearFlag and Add. */
  lemma {:induction false} FallBack(c: Config, s: State, steps0: seq<Step>, pid: nat, found: Option<KeyRecord>) returns (steps: seq<Step>)
    requires c.d >= 0 && CanRun(c, s, steps0)
    requires var t := Final(c, s, steps0);
             pid in t.requests && t.requests[pid].pc == Missed && Finds(t.table, t.requests[pid].token.keyId, found)
    ensures CanRun(c, s, steps)
    ensures var t, u := Final(c, s, steps0), Final(c, s, steps); var token := t.requests[pid].token;
            && u.clock == t.clock && u.table == t.table && pid in u.requests
            && if found.Some? && c.verify(token.secret, found.value.hash) then
                 var copy := Copy(found.value, t.clock);
                 && u.requests[pid].pc == Resolved(copy, t.clock)
                 && u.cache == t.cache[token := Entry(copy, t.clock)] && u.flags == t.flags - {found.value.id}
               else u.requests[pid].pc == Unknown && u.cache == t.cache && u.flags == t.flags
  {
    var t := Final(c, s, steps0);
    Extend(c, s, steps0, By(pid, Find(found)));
    steps := steps0 + [By(pid, Find(found))];
    if found.Some? {
      Extend(c, s, steps, By(pid, Verify));
      steps := steps + [By(pid, Verify)];
      if c.verify(t.requests[pid].token.secret, found.value.hash) {
        Extend(c, s, steps, By(pid, ClearFlag));
        steps := steps + [By(pid, ClearFlag)];
        Extend(c, s, steps, By(pid, Add));
        steps := steps + [By(pid, Add)];
      }
    }
  }

  lemma PutAfterDrop(cache: map<Token, Entry>, token: Token, e: Entry)
    ensures (cache - {token})[token := e] == cache[token := e]
  {
  }

  /**
    Theorem. Uninterrupted, the steps of a request resolve its token as `Resolve` does: a
    usable entry answers and changes nothing but the order of the entries; otherwise the one
    row of the key id answers if the secret verifies, its flag is cleared and it is cached.
  */
  lemma UninterruptedResolve(c: Config, s: State, pid: nat, found: Option<KeyRecord>) returns (steps: seq<Step>)
    requires Sane(c) && pid in s.requests && s.requests[pid].pc == Arrived
    requires Finds(s.table, s.requests[pid].token.keyId, found)
    ensures CanRun(c, s, steps)
    ensures var t := Final(c, s, steps); var token := s.requests[pid].token; var hit := Hit(c, s, token);
            && pid in t.requests && t.table == s.table
            && if hit.Some? then
                 t.requests[pid].pc == Resolved(s.cache[token].copy, s.clock) && t.cache == s.cache && t.flags == s.flags
               else if found.Some? && c.verify(token.secret, found.value.hash) then
                 var copy := Copy(found.value, s.clock);
                 && t.requests[pid].pc == Resolved(copy, s.clock)
                 && t.cache == s.cache[token := Entry(copy, s.clock)] && t.flags == s.flags - {found.value.id}
               else t.requests[pid].pc == Unknown && t.cache == s.cache - {token} && t.flags == s.flags
  {
    steps := LookUp(c, s, pid);
    var token := s.requests[pid].token;
    if Hit(c, s, token).None? {
      steps := FallBack(c, s, steps, pid, found);
      if found.Some? {
        PutAfterDrop(s.cache, token, Entry(Copy(found.value, s.clock), s.clock));
      }
    }
  }
}
