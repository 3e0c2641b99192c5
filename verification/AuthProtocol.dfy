/**
  One gateway's authentication as a step system.

  Requests resolve their token through the verify cache or the key table, while keys
  are created, rotated and revoked (here or by other gateways), entries are evicted,
  and rows are flagged. Every access to the cache, the flag set or the table is one
  step, and steps interleave freely.

  Two delays are bounded, because staleness depends on them: `d` from reading a row
  to adding it to the cache, `e` from the cache's answer to the check that the key is
  active.
*/
module AuthProtocol {
  import opened Prelude
  import opened KeyStore

  datatype Token = Token(env: string, keyId: string, secret: string)

  /** `verify` is the Argon2id check of a secret against a stored hash. */
  datatype Config = Config(ttl: Time, d: Time, e: Time, overlap: Time, verify: (string, string) -> bool)

  predicate Sane(c: Config) {
    c.ttl > 0 && c.d >= 0 && c.e >= 0 && c.overlap >= 0
  }

  /** A record in someone's hands; `readAt` (history) is when its row was read. */
  datatype Copy = Copy(rec: KeyRecord, readAt: Time)

  datatype Entry = Entry(copy: Copy, verifiedAt: Time)

  datatype Pc =
    | Arrived                        // next: look in the LRU
    | Fetched(e: Entry)              // next: check its age
    | Young(e: Entry, at: Time)      // next: check the flag
    | Missed                         // next: SELECT the row
    | Looked(copy: Copy)             // next: verify the secret
    | Verified(copy: Copy)           // next: clear the flag
    | Cleared(copy: Copy)            // next: add to the LRU
    | Resolved(copy: Copy, at: Time) // next: is the key active?
    | Accepted(copy: Copy, at: Time)
    | Inactive(copy: Copy, at: Time) // 401 key_inactive
    | Unknown                        // 401 invalid_api_key

  datatype Request = Request(token: Token, pc: Pc)

  datatype State = State(
    clock: Time,
    table: Table,
    log: seq<(Time, Table)>,          // history: every version of the table, with the time it appeared
    rotated: map<Uuid, Time>,       // history: the latest rotation of each row
    cache: map<Token, Entry>,
    flags: set<Uuid>,
    requests: map<nat, Request>)

  datatype Act = Fetch | CheckAge | CheckFlag | Find(found: Option<KeyRecord>) | Verify | ClearFlag | Add | Decide

  datatype Step =
    | Tick(to: Time)
    | Create(rec: KeyRecord)
    | Rotate(oldId: Uuid, id: Uuid, keyId: string, hash: string, began: Time)  // the commit; `now()` was read at `began`
    | Revoke(id: Uuid)
    | Flag(id: Uuid)                // RevokeFromCache
    | Evict(token: Token)             // the LRU is full
    | Arrive(pid: nat, token: Token)
    | By(pid: nat, act: Act)

  ghost predicate Enabled(c: Config, s: State, st: Step) {
    match st
    case Tick(to) => s.clock <= to
    case Create(rec) => KeyStore.Fresh(s.table, rec.id, rec.keyId)
    case Rotate(oldId, id, keyId, _, began) => oldId in s.table && KeyStore.Fresh(s.table, id, keyId) && began <= s.clock
    case Arrive(pid, _) => pid !in s.requests
    case By(pid, act) => pid in s.requests && MayAct(c, s, s.requests[pid], act)
    case _ => true
  }

  ghost predicate MayAct(c: Config, s: State, r: Request, act: Act) {
    match act
    case Fetch => r.pc.Arrived?
    case CheckAge => r.pc.Fetched?
    case CheckFlag => r.pc.Young?
    case Find(found) => r.pc.Missed? && Finds(s.table, r.token.keyId, found)
    case Verify => r.pc.Looked?
    case ClearFlag => r.pc.Verified?
    case Add => r.pc.Cleared? && s.clock - r.pc.copy.readAt <= c.d
    case Decide => r.pc.Resolved? && s.clock - r.pc.at <= c.e
  }

  /** The request after its own step. */
  ghost function Moved(c: Config, s: State, pid: nat, act: Act): Pc
    requires Enabled(c, s, By(pid, act))
  {
    var r := s.requests[pid];
    match act
    case Fetch => if r.token in s.cache then Fetched(s.cache[r.token]) else Missed
    case CheckAge => if s.clock - r.pc.e.verifiedAt > c.ttl then Missed else Young(r.pc.e, s.clock)
    case CheckFlag => if r.pc.e.copy.rec.id in s.flags then Missed else Resolved(r.pc.e.copy, r.pc.at)
    case Find(found) => if found.Some? then Looked(Copy(found.value, s.clock)) else Unknown
    case Verify => if c.verify(r.token.secret, r.pc.copy.rec.hash) then Verified(r.pc.copy) else Unknown
    case ClearFlag => Cleared(r.pc.copy)
    case Add => Resolved(r.pc.copy, s.clock)
    case Decide => if Active(r.pc.copy.rec, s.clock) then Accepted(r.pc.copy, s.clock) else Inactive(r.pc.copy, s.clock)
  }

  /** Does the step drop the token's entry from the LRU? */
  ghost predicate Drops(c: Config, s: State, pid: nat, act: Act)
    requires Enabled(c, s, By(pid, act))
  {
    (act.CheckAge? || act.CheckFlag?) && Moved(c, s, pid, act) == Missed
  }

  ghost function CacheAfter(c: Config, s: State, pid: nat, act: Act): map<Token, Entry>
    requires Enabled(c, s, By(pid, act))
  {
    var r := s.requests[pid];
    if Drops(c, s, pid, act) then s.cache - {r.token}
    else if act.Add? then s.cache[r.token := Entry(r.pc.copy, s.clock)]
    else s.cache
  }

  ghost function FlagsAfter(c: Config, s: State, pid: nat, act: Act): set<Uuid>
    requires Enabled(c, s, By(pid, act))
  {
    if act.ClearFlag? then s.flags - {s.requests[pid].pc.copy.rec.id} else s.flags
  }

  ghost function WithTable(s: State, t: Table): State {
    s.(table := t, log := s.log + [(s.clock, t)])
  }

  ghost function Next(c: Config, s: State, st: Step): State
    requires Enabled(c, s, st)
  {
    match st
    case Tick(to) => s.(clock := to)
    case Create(rec) => WithTable(s, s.table[rec.id := rec.(revoked := None)])
    case Rotate(oldId, id, keyId, hash, began) =>
      WithTable(s, Rotated(s.table, oldId, id, keyId, hash, began + c.overlap)).(rotated := s.rotated[oldId := s.clock])
    case Revoke(id) => WithTable(s, Revoked(s.table, id, s.clock))
    case Flag(id) => s.(flags := s.flags + {id})
    case Evict(token) => s.(cache := s.cache - {token})
    case Arrive(pid, token) => s.(requests := s.requests[pid := Request(token, Arrived)])
    case By(pid, act) =>
      s.(cache := CacheAfter(c, s, pid, act), flags := FlagsAfter(c, s, pid, act),
         requests := s.requests[pid := s.requests[pid].(pc := Moved(c, s, pid, act))])
  }

  ghost function Init(t: Table): State {
    State(0, t, [(0, t)], map[], map[], {}, map[])
  }

  ghost predicate CanRun(c: Config, s: State, steps: seq<Step>)
    decreases |steps|
  {
    steps == [] || (Enabled(c, s, steps[0]) && CanRun(c, Next(c, s, steps[0]), steps[1..]))
  }

  ghost function Final(c: Config, s: State, steps: seq<Step>): State
    requires CanRun(c, s, steps)
    decreases |steps|
  {
    if steps == [] then s else Final(c, Next(c, s, steps[0]), steps[1..])
  }

  lemma {:induction false} Extend(c: Config, s: State, steps: seq<Step>, st: Step)
    requires CanRun(c, s, steps) && Enabled(c, Final(c, s, steps), st)
    ensures CanRun(c, s, steps + [st]) && Final(c, s, steps + [st]) == Next(c, Final(c, s, steps), st)
    decreases |steps|
  {
    if steps == [] {
      assert steps + [st] == [st];
    } else {
      Extend(c, Next(c, s, steps[0]), steps[1..], st);
      assert (steps + [st])[1..] == steps[1..] + [st];
    }
  }

  // ---- the table really held it -----------------------------------------------------------

  /** Version `i` of the table was current at time `at`. */
  ghost predicate CurrentAt(s: State, i: nat, at: Time) {
    i < |s.log| && s.log[i].0 <= at && (i + 1 < |s.log| ==> at <= s.log[i + 1].0)
  }

  ghost predicate HeldIn(t: Table, rec: KeyRecord) {
    rec.id in t && t[rec.id] == rec
  }

  ghost predicate Held(s: State, rec: KeyRecord, at: Time) {
    exists i: nat :: CurrentAt(s, i, at) && HeldIn(s.log[i].1, rec)
  }

  ghost predicate LogOk(c: Config, s: State) {
    && s.log != [] && s.log[|s.log| - 1].1 == s.table
    && (forall i | 0 <= i < |s.log| :: s.log[i].0 <= s.clock)
    && (forall i, j | 0 <= i < j < |s.log| :: s.log[i].0 <= s.log[j].0)
    && (forall i | 0 <= i < |s.log| :: VersionOk(c, s, i))
    && (forall id | id in s.rotated :: id in s.table && s.rotated[id] <= s.clock)
  }

  /** Version `i` ended before time `v`. */
  ghost predicate EndedBy(s: State, i: nat, v: Time) {
    i + 1 < |s.log| && s.log[i + 1].0 <= v
  }

  ghost predicate VersionOk(c: Config, s: State, i: nat)
    requires i < |s.log|
  {
    forall id | id in s.log[i].1 ::
      && id in s.table && s.log[i].1[id].keyId == s.table[id].keyId
      // rows before their revocation belong to versions that ended by then
      && (s.table[id].revoked.Some? ==> s.log[i].1[id].revoked.Some? || EndedBy(s, i, s.table[id].revoked.value))
      // rows since their latest rotation carry the deadline it wrote, unless revoked
      && (id in s.rotated ==> EndedBy(s, i, s.rotated[id]) || Dated(s.log[i].1[id], s.table[id], s.rotated[id] + c.overlap))
  }

  /** Revoked, or with the deadline of `row`, which is no later than `latest`. */
  ghost predicate Dated(rec: KeyRecord, row: KeyRecord, latest: Time) {
    rec.revoked.Some? || (rec.expires.Some? && rec.expires == row.expires && rec.expires.value <= latest)
  }

  ghost predicate Matches(c: Config, token: Token, rec: KeyRecord) {
    rec.keyId == token.keyId && c.verify(token.secret, rec.hash)
  }

  ghost predicate CopyOk(s: State, copy: Copy) {
    copy.readAt <= s.clock && Held(s, copy.rec, copy.readAt)
  }

  ghost predicate EntryOk(c: Config, s: State, token: Token, e: Entry) {
    && CopyOk(s, e.copy) && Matches(c, token, e.copy.rec)
    && e.verifiedAt <= s.clock && e.verifiedAt - e.copy.readAt <= c.d
  }

  ghost predicate RequestOk(c: Config, s: State, r: Request) {
    match r.pc
    case Fetched(e) => EntryOk(c, s, r.token, e)
    case Young(e, at) => EntryOk(c, s, r.token, e) && at <= s.clock && at - e.verifiedAt <= c.ttl
    case Looked(copy) => CopyOk(s, copy) && copy.rec.keyId == r.token.keyId
    case Verified(copy) => CopyOk(s, copy) && Matches(c, r.token, copy.rec)
    case Cleared(copy) => CopyOk(s, copy) && Matches(c, r.token, copy.rec)
    case Resolved(copy, at) =>
      CopyOk(s, copy) && Matches(c, r.token, copy.rec) && at <= s.clock && at - copy.readAt <= c.ttl + c.d
    case Accepted(copy, at) =>
      && CopyOk(s, copy) && Matches(c, r.token, copy.rec) && at <= s.clock
      && at - copy.readAt <= c.ttl + c.d + c.e && Active(copy.rec, at)
    case Inactive(copy, at) => CopyOk(s, copy) && Matches(c, r.token, copy.rec) && !Active(copy.rec, at)
    case _ => true
  }

  ghost predicate Inv(c: Config, s: State) {
    && LogOk(c, s) && Wellformed(s.table)
    && (forall t | t in s.cache :: EntryOk(c, s, t, s.cache[t]))
    && (forall pid | pid in s.requests :: RequestOk(c, s, s.requests[pid]))
  }

  // ---- every step keeps the invariant --------------------------------------------------------

  /** Time passes and versions are appended; nothing else happens to the history. */
  ghost predicate Extends(s: State, s': State) {
    && s.clock <= s'.clock && |s.log| <= |s'.log|
    && (forall i | 0 <= i < |s.log| :: s'.log[i] == s.log[i])
    && (forall i | |s.log| <= i < |s'.log| :: s.clock <= s'.log[i].0)
  }

  lemma HeldStable(s: State, s': State, rec: KeyRecord, at: Time)
    requires Held(s, rec, at) && at <= s.clock && Extends(s, s')
    ensures Held(s', rec, at)
  {
    var i: nat :| CurrentAt(s, i, at) && HeldIn(s.log[i].1, rec);
    assert CurrentAt(s', i, at);
  }

  lemma EntryStable(c: Config, s: State, s': State, token: Token, e: Entry)
    requires EntryOk(c, s, token, e) && Extends(s, s')
    ensures EntryOk(c, s', token, e)
  {
    HeldStable(s, s', e.copy.rec, e.copy.readAt);
  }

  lemma RequestStable(c: Config, s: State, s': State, r: Request)
    requires RequestOk(c, s, r) && Extends(s, s')
    ensures RequestOk(c, s', r)
  {
    match r.pc {
      case Fetched(e) => EntryStable(c, s, s', r.token, e);
      case Young(e, _) => EntryStable(c, s, s', r.token, e);
      case Looked(copy) => HeldStable(s, s', copy.rec, copy.readAt);
      case Verified(copy) => HeldStable(s, s', copy.rec, copy.readAt);
      case Cleared(copy) => HeldStable(s, s', copy.rec, copy.readAt);
      case Resolved(copy, _) => HeldStable(s, s', copy.rec, copy.readAt);
      case Accepted(copy, _) => HeldStable(s, s', copy.rec, copy.readAt);
      case Inactive(copy, _) => HeldStable(s, s', copy.rec, copy.readAt);
      case _ =>
    }
  }

  lemma StepExtends(c: Config, s: State, st: Step)
    requires Enabled(c, s, st)
    ensures Extends(s, Next(c, s, st))
  {
  }

  /** What a new version of the table may do to the old one. */
  ghost predicate Follows(c: Config, s: State, t: Table, rotated: map<Uuid, Time>) {
    && (forall id | id in s.table :: id in t && t[id].keyId == s.table[id].keyId)
    && (forall id | id in s.table && t[id].revoked != s.table[id].revoked :: s.table[id].revoked == None && t[id].revoked == Some(s.clock))
    && (forall id | id in s.rotated :: id in rotated)
    && (forall id | id in rotated :: id in t && Dated(t[id], t[id], rotated[id] + c.overlap))
    && (forall id | id in rotated && rotated[id] != s.clock ::
          id in s.rotated && rotated[id] == s.rotated[id] && id in s.table && t[id].expires == s.table[id].expires)
  }

  lemma NewVersionOk(c: Config, s: State, s': State, t: Table)
    requires LogOk(c, s) && Follows(c, s, t, s'.rotated)
    requires s'.clock == s.clock && s'.table == t && s'.log == s.log + [(s.clock, t)]
    ensures LogOk(c, s')
  {
    var n := |s.log|;
    forall i | 0 <= i < |s'.log| ensures VersionOk(c, s', i) {
      if i < n {
        assert VersionOk(c, s, i) && s'.log[i] == s.log[i];
        forall id | id in s.log[i].1
          ensures id in t && s.log[i].1[id].keyId == t[id].keyId
          ensures t[id].revoked.Some? ==> s.log[i].1[id].revoked.Some? || EndedBy(s', i, t[id].revoked.value)
          ensures id in s'.rotated ==> EndedBy(s', i, s'.rotated[id]) || Dated(s.log[i].1[id], t[id], s'.rotated[id] + c.overlap)
        {
          assert s'.log[i + 1].0 <= s.clock;
        }
      }
    }
  }

  lemma LatestIsDated(c: Config, s: State, id: Uuid)
    requires LogOk(c, s) && id in s.rotated
    ensures id in s.table && Dated(s.table[id], s.table[id], s.rotated[id] + c.overlap)
  {
    assert VersionOk(c, s, |s.log| - 1);
  }

  /** What the steps that change the table need to know about it. */
  ghost predicate Current(c: Config, s: State) {
    forall id | id in s.rotated :: id in s.table && Dated(s.table[id], s.table[id], s.rotated[id] + c.overlap)
  }

  lemma LogGivesCurrent(c: Config, s: State)
    requires LogOk(c, s)
    ensures Current(c, s)
  {
    forall id | id in s.rotated ensures id in s.table && Dated(s.table[id], s.table[id], s.rotated[id] + c.overlap) {
      LatestIsDated(c, s, id);
    }
  }

  lemma RotateFollows(c: Config, s: State, t: Table, rotated: map<Uuid, Time>, oldId: Uuid, id: Uuid, until: Time)
    requires Current(c, s) && IsRotation(s.table, t, oldId, id, until) && until <= s.clock + c.overlap
    requires rotated == s.rotated[oldId := s.clock]
    ensures Follows(c, s, t, rotated)
  {
    forall x | x in rotated ensures x in t && Dated(t[x], t[x], rotated[x] + c.overlap) {
      assert x != oldId ==> x in s.rotated && t[x] == s.table[x];
    }
  }

  lemma RevokeFollows(c: Config, s: State, t: Table, id: Uuid)
    requires Current(c, s) && t == Revoked(s.table, id, s.clock)
    ensures Follows(c, s, t, s.rotated)
  {
  }

  lemma CreateFollows(c: Config, s: State, t: Table, rec: KeyRecord)
    requires Current(c, s) && KeyStore.Fresh(s.table, rec.id, rec.keyId) && t == s.table[rec.id := rec.(revoked := None)]
    ensures Follows(c, s, t, s.rotated)
  {
  }

  lemma SameVersionOk(c: Config, s: State, s': State)
    requires LogOk(c, s) && s'.log == s.log && s'.table == s.table && s'.rotated == s.rotated && s.clock <= s'.clock
    ensures LogOk(c, s')
  {
    forall i | 0 <= i < |s.log| ensures VersionOk(c, s', i) {
      assert VersionOk(c, s, i);
    }
  }

  lemma LogStaysOk(c: Config, s: State, st: Step, s': State)
    requires LogOk(c, s) && Enabled(c, s, st) && s' == Next(c, s, st)
    ensures LogOk(c, s')
  {
    LogGivesCurrent(c, s);
    match st {
      case Create(rec) => CreateFollows(c, s, s'.table, rec);
      case Rotate(oldId, id, keyId, hash, began) =>
        RotatedIs(s.table, oldId, id, keyId, hash, began + c.overlap);
        RotateFollows(c, s, s'.table, s'.rotated, oldId, id, began + c.overlap);
      case Revoke(id) => RevokeFollows(c, s, s'.table, id);
      case _ =>
    }
    if st.Create? || st.Rotate? || st.Revoke? {
      NewVersionOk(c, s, s', s'.table);
    } else {
      SameVersionOk(c, s, s');
    }
  }

  lemma TableStaysWellformed(c: Config, s: State, st: Step, s': State)
    requires Wellformed(s.table) && Enabled(c, s, st) && s' == Next(c, s, st)
    ensures Wellformed(s'.table)
  {
    if st.Rotate? {
      RotatedWellformed(s.table, st.oldId, st.id, st.keyId, st.hash, st.began + c.overlap);
    }
  }

  /** A row keeps its key_id. */
  lemma KeyIdFixed(c: Config, s: State, rec: KeyRecord, at: Time)
    requires LogOk(c, s) && Held(s, rec, at)
    ensures rec.id in s.table && rec.keyId == s.table[rec.id].keyId
  {
    var i: nat :| CurrentAt(s, i, at) && HeldIn(s.log[i].1, rec);
    assert VersionOk(c, s, i);
  }

  lemma JustRead(c: Config, s: State, rec: KeyRecord)
    requires LogOk(c, s) && HeldIn(s.table, rec)
    ensures Held(s, rec, s.clock)
  {
    assert CurrentAt(s, |s.log| - 1, s.clock);
  }

  /** The acting request, judged in the old state. */
  lemma MovedOk(c: Config, s: State, pid: nat, act: Act)
    requires Inv(c, s) && Sane(c) && Enabled(c, s, By(pid, act))
    ensures RequestOk(c, s, s.requests[pid].(pc := Moved(c, s, pid, act)))
  {
    assert RequestOk(c, s, s.requests[pid]);
    if act.Find? && act.found.Some? {
      JustRead(c, s, act.found.value);
    }
  }

  lemma EntriesStayOk(c: Config, s: State, st: Step, s': State)
    requires Inv(c, s) && Enabled(c, s, st) && s' == Next(c, s, st) && Extends(s, s')
    ensures forall t | t in s'.cache :: EntryOk(c, s', t, s'.cache[t])
  {
    forall t | t in s'.cache ensures EntryOk(c, s', t, s'.cache[t]) {
      if st.By? && st.act.Add? && t == s.requests[st.pid].token {
        assert RequestOk(c, s, s.requests[st.pid]);
        EntryStable(c, s, s', t, s'.cache[t]);
      } else {
        EntryStable(c, s, s', t, s.cache[t]);
      }
    }
  }

  lemma RequestsStayOk(c: Config, s: State, st: Step, s': State)
    requires Inv(c, s) && Sane(c) && Enabled(c, s, st) && s' == Next(c, s, st) && Extends(s, s')
    ensures forall pid | pid in s'.requests :: RequestOk(c, s', s'.requests[pid])
  {
    forall pid | pid in s'.requests ensures RequestOk(c, s', s'.requests[pid]) {
      if st.By? && st.pid == pid {
        MovedOk(c, s, pid, st.act);
        RequestStable(c, s, s', s'.requests[pid]);
      } else if pid in s.requests {
        RequestStable(c, s, s', s.requests[pid]);
      }
    }
  }

  lemma StepKeepsInv(c: Config, s: State, st: Step)
    requires Inv(c, s) && Sane(c) && Enabled(c, s, st)
    ensures Inv(c, Next(c, s, st))
  {
    var s' := Next(c, s, st);
    StepExtends(c, s, st);
    LogStaysOk(c, s, st, s');
    TableStaysWellformed(c, s, st, s');
    EntriesStayOk(c, s, st, s');
    RequestsStayOk(c, s, st, s');
  }

  lemma {:induction false} RunKeepsInv(c: Config, s: State, steps: seq<Step>)
    requires Inv(c, s) && Sane(c) && CanRun(c, s, steps)
    ensures Inv(c, Final(c, s, steps))
    decreases |steps|
  {
    if steps != [] {
      StepKeepsInv(c, s, steps[0]);
      RunKeepsInv(c, Next(c, s, steps[0]), steps[1..]);
    }
  }

  lemma Reachable(c: Config, t: Table, steps: seq<Step>)
    requires Sane(c) && Wellformed(t) && CanRun(c, Init(t), steps)
    ensures Inv(c, Final(c, Init(t), steps))
  {
    RunKeepsInv(c, Init(t), steps);
  }

  // ---- theorems over every run ------------------------------------------------------------------

  /** The longest time a row can stay in use after it was read. */
  function Lag(c: Config): Time {
    c.ttl + c.d + c.e
  }

  /**
    Theorem (bounded staleness). Every accepted request used a row that the table held at some
    instant no more than ttl + d + e before, that matches its token, and that was active.
  */
  lemma BoundedStaleness(c: Config, t: Table, steps: seq<Step>, pid: nat)
    requires Sane(c) && Wellformed(t) && CanRun(c, Init(t), steps)
    requires var s := Final(c, Init(t), steps); pid in s.requests && s.requests[pid].pc.Accepted?
    ensures var s := Final(c, Init(t), steps); var r := s.requests[pid];
            && Held(s, r.pc.copy.rec, r.pc.copy.readAt)
            && r.pc.at - Lag(c) <= r.pc.copy.readAt <= s.clock
            && Matches(c, r.token, r.pc.copy.rec) && Active(r.pc.copy.rec, r.pc.at)
  {
    Reachable(c, t, steps);
    assert RequestOk(c, Final(c, Init(t), steps), Final(c, Init(t), steps).requests[pid]);
  }

  /** Theorem. A key revoked at `v` is not accepted later than v + ttl + d + e. */
  lemma RevokedIsCutOff(c: Config, t: Table, steps: seq<Step>, pid: nat)
    requires Sane(c) && Wellformed(t) && CanRun(c, Init(t), steps)
    requires var s := Final(c, Init(t), steps); pid in s.requests && s.requests[pid].pc.Accepted?
    ensures var s := Final(c, Init(t), steps); var a := s.requests[pid].pc;
            && a.copy.rec.id in s.table
            && (s.table[a.copy.rec.id].revoked.Some? ==> a.at <= s.table[a.copy.rec.id].revoked.value + Lag(c))
  {
    Reachable(c, t, steps);
    var s := Final(c, Init(t), steps);
    var r := s.requests[pid];
    assert RequestOk(c, s, r);
    var i: nat :| CurrentAt(s, i, r.pc.copy.readAt) && HeldIn(s.log[i].1, r.pc.copy.rec);
    assert VersionOk(c, s, i);
  }

  /** Since version `n`, which appeared at `v`, the row is revoked. */
  ghost predicate RevokedSince(s: State, id: Uuid, n: nat, v: Time) {
    n < |s.log| && s.log[n].0 == v && forall i | n <= i < |s.log| :: id in s.log[i].1 && s.log[i].1[id].revoked.Some?
  }

  lemma RevokeStarts(c: Config, s: State, id: Uuid)
    requires id in s.table
    ensures RevokedSince(Next(c, s, Revoke(id)), id, |s.log|, s.clock)
  {
  }

  /** No step undoes a revocation. */
  lemma StepKeepsRevoked(c: Config, s: State, st: Step, id: Uuid, n: nat, v: Time)
    requires LogOk(c, s) && Enabled(c, s, st) && RevokedSince(s, id, n, v)
    ensures RevokedSince(Next(c, s, st), id, n, v)
  {
    var s' := Next(c, s, st);
    assert id in s.table && s.table[id].revoked.Some?;
    if st.Rotate? {
      RotatedIs(s.table, st.oldId, st.id, st.keyId, st.hash, st.began + c.overlap);
    }
    assert id in s'.table && s'.table[id].revoked.Some?;
    forall i | n <= i < |s'.log| ensures id in s'.log[i].1 && s'.log[i].1[id].revoked.Some? {
      assert i < |s.log| ==> s'.log[i] == s.log[i];
    }
  }

  lemma {:induction false} RunKeepsRevoked(c: Config, s: State, steps: seq<Step>, id: Uuid, n: nat, v: Time)
    requires Inv(c, s) && Sane(c) && CanRun(c, s, steps) && RevokedSince(s, id, n, v)
    ensures Inv(c, Final(c, s, steps)) && RevokedSince(Final(c, s, steps), id, n, v)
    decreases |steps|
  {
    if steps != [] {
      StepKeepsInv(c, s, steps[0]);
      StepKeepsRevoked(c, s, steps[0], id, n, v);
      RunKeepsRevoked(c, Next(c, s, steps[0]), steps[1..], id, n, v);
    }
  }

  /** A row that is revoked since `v` was read by an accepted request no later than `v`. */
  lemma ReadBeforeRevoked(c: Config, s: State, pid: nat, n: nat, v: Time)
    requires Inv(c, s) && pid in s.requests && s.requests[pid].pc.Accepted?
    requires RevokedSince(s, s.requests[pid].pc.copy.rec.id, n, v)
    ensures s.requests[pid].pc.at <= v + Lag(c)
  {
    var r := s.requests[pid];
    assert RequestOk(c, s, r);
    var i: nat :| CurrentAt(s, i, r.pc.copy.readAt) && HeldIn(s.log[i].1, r.pc.copy.rec);
    assert i < n;
    assert i + 1 < n ==> s.log[i + 1].0 <= s.log[n].0;
  }

  /**
    Theorem (revocation). In every run, once the row `id` has been revoked at time `v`, and
    whatever happens afterwards, no request is accepted with it later than v + ttl + d + e.
  */
  lemma {:induction false} RevokeCutsOff(c: Config, t: Table, steps: seq<Step>, id: Uuid, more: seq<Step>, pid: nat)
    requires Sane(c) && Wellformed(t) && CanRun(c, Init(t), steps) && id in Final(c, Init(t), steps).table
    requires CanRun(c, Next(c, Final(c, Init(t), steps), Revoke(id)), more)
    requires var s := Final(c, Next(c, Final(c, Init(t), steps), Revoke(id)), more);
             pid in s.requests && s.requests[pid].pc.Accepted? && s.requests[pid].pc.copy.rec.id == id
    ensures var v := Final(c, Init(t), steps).clock;
            Final(c, Next(c, Final(c, Init(t), steps), Revoke(id)), more).requests[pid].pc.at <= v + c.ttl + c.d + c.e
  {
    var s0 := Final(c, Init(t), steps);
    var s1 := Next(c, s0, Revoke(id));
    Reachable(c, t, steps);
    StepKeepsInv(c, s0, Revoke(id));
    RevokeStarts(c, s0, id);
    RunKeepsRevoked(c, s1, more, id, |s0.log|, s0.clock);
    ReadBeforeRevoked(c, Final(c, s1, more), pid, |s0.log|, s0.clock);
  }

  /**
    Theorem. An old key is accepted only before the deadline its row carries, which is no
    later than the commit of its latest rotation plus the overlap, or within the lag of that
    commit. So where the deadline lies beyond the lag it is the cut-off, whatever is cached or
    in flight, and whether or not this gateway was told.
  */
  lemma RotatedIsCutOff(c: Config, t: Table, steps: seq<Step>, pid: nat)
    requires Sane(c) && Wellformed(t) && CanRun(c, Init(t), steps)
    requires var s := Final(c, Init(t), steps); pid in s.requests && s.requests[pid].pc.Accepted?
    ensures var s := Final(c, Init(t), steps); var a := s.requests[pid].pc; var id := a.copy.rec.id;
            id in s.rotated ==>
              || a.at <= s.rotated[id] + Lag(c)
              || (id in s.table && s.table[id].expires.Some? && a.at < s.table[id].expires.value <= s.rotated[id] + c.overlap)
  {
    Reachable(c, t, steps);
    var s := Final(c, Init(t), steps);
    var r := s.requests[pid];
    assert RequestOk(c, s, r);
    var i: nat :| CurrentAt(s, i, r.pc.copy.readAt) && HeldIn(s.log[i].1, r.pc.copy.rec);
    assert VersionOk(c, s, i);
  }

  // ---- the cache is transparent ---------------------------------------------------------------------

  /** What `resolve` returns without a cache. */
  ghost predicate Direct(c: Config, t: Table, token: Token, r: Option<KeyRecord>) {
    match r
    case Some(rec) => Finds(t, token.keyId, r) && c.verify(token.secret, rec.hash)
    case None => forall rec | Finds(t, token.keyId, Some(rec)) :: !c.verify(token.secret, rec.hash)
  }

  lemma DirectOne(c: Config, t: Table, token: Token, r: Option<KeyRecord>, r': Option<KeyRecord>)
    requires Wellformed(t) && Direct(c, t, token, r) && Direct(c, t, token, r')
    ensures r == r'
  {
    if r.Some? && r'.Some? {
      FindsOne(t, token.keyId, r, r');
    }
  }

  /** Both tables have the same row, or none, under this key_id. */
  ghost predicate SameRow(t: Table, t': Table, keyId: string) {
    forall rec :: Finds(t, keyId, Some(rec)) <==> Finds(t', keyId, Some(rec))
  }

  /** The step creates, rotates or revokes the key with this key_id. */
  ghost predicate Touches(s: State, st: Step, keyId: string) {
    match st
    case Create(rec) => rec.keyId == keyId
    case Rotate(oldId, _, newKeyId, _, _) => newKeyId == keyId || (oldId in s.table && s.table[oldId].keyId == keyId)
    case Revoke(id) => id in s.table && s.table[id].keyId == keyId
    case _ => false
  }

  /** Every version of the table has the row of `t`. */
  ghost predicate Steady(s: State, t: Table, keyId: string) {
    forall i | 0 <= i < |s.log| :: SameRow(t, s.log[i].1, keyId)
  }

  lemma StepKeepsRow(c: Config, s: State, st: Step, keyId: string)
    requires Wellformed(s.table) && Enabled(c, s, st) && !Touches(s, st, keyId)
    ensures SameRow(s.table, Next(c, s, st).table, keyId)
  {
    if st.Rotate? {
      RotatedIs(s.table, st.oldId, st.id, st.keyId, st.hash, st.began + c.overlap);
    }
  }

  lemma StepKeepsSteady(c: Config, s: State, st: Step, t: Table, keyId: string)
    requires LogOk(c, s) && Wellformed(s.table) && Enabled(c, s, st) && !Touches(s, st, keyId) && Steady(s, t, keyId)
    ensures Steady(Next(c, s, st), t, keyId)
  {
    var s' := Next(c, s, st);
    StepKeepsRow(c, s, st, keyId);
    assert SameRow(t, s.log[|s.log| - 1].1, keyId);
    forall i | 0 <= i < |s'.log| ensures SameRow(t, s'.log[i].1, keyId) {
      if i < |s.log| {
        assert s'.log[i] == s.log[i];
      } else {
        assert s'.log[i].1 == s'.table;
      }
    }
  }

  /** What was ever read under the key_id is the row of `t`. */
  lemma ReadIsRow(s: State, t: Table, rec: KeyRecord, at: Time)
    requires Steady(s, t, rec.keyId) && Held(s, rec, at)
    ensures Finds(t, rec.keyId, Some(rec))
  {
    var i: nat :| CurrentAt(s, i, at) && HeldIn(s.log[i].1, rec);
    assert Finds(s.log[i].1, rec.keyId, Some(rec));
  }

  /** The request's answer so far is the answer without a cache. */
  ghost predicate AsDirect(c: Config, t: Table, token: Token, pc: Pc) {
    && (pc.Resolved? || pc.Accepted? || pc.Inactive? ==> Direct(c, t, token, Some(pc.copy.rec)))
    && (pc.Unknown? ==> Direct(c, t, token, None))
  }

  ghost predicate Transparent(c: Config, s: State, t: Table, keyId: string) {
    forall pid | pid in s.requests && s.requests[pid].token.keyId == keyId ::
      AsDirect(c, t, s.requests[pid].token, s.requests[pid].pc)
  }

  lemma MovedTransparent(c: Config, s: State, pid: nat, act: Act, t: Table)
    requires Inv(c, s) && Sane(c) && Enabled(c, s, By(pid, act)) && Wellformed(t)
    requires Steady(s, t, s.requests[pid].token.keyId)
    ensures AsDirect(c, t, s.requests[pid].token, Moved(c, s, pid, act))
  {
    var r, pc := s.requests[pid], Moved(c, s, pid, act);
    MovedOk(c, s, pid, act);
    if pc.Resolved? || pc.Accepted? || pc.Inactive? {
      ReadIsRow(s, t, pc.copy.rec, pc.copy.readAt);
    } else if act.Verify? && pc.Unknown? {
      assert RequestOk(c, s, r);
      ReadIsRow(s, t, r.pc.copy.rec, r.pc.copy.readAt);
      forall rec | Finds(t, r.token.keyId, Some(rec)) ensures !c.verify(r.token.secret, rec.hash) {
        FindsOne(t, r.token.keyId, Some(rec), Some(r.pc.copy.rec));
      }
    } else if act.Find? && pc.Unknown? {
      assert SameRow(t, s.log[|s.log| - 1].1, r.token.keyId);
    }
  }

  lemma StepKeepsTransparent(c: Config, s: State, st: Step, t: Table, keyId: string)
    requires Inv(c, s) && Sane(c) && Enabled(c, s, st) && Wellformed(t) && Steady(s, t, keyId) && Transparent(c, s, t, keyId)
    ensures Transparent(c, Next(c, s, st), t, keyId)
  {
    var s' := Next(c, s, st);
    forall pid | pid in s'.requests && s'.requests[pid].token.keyId == keyId
      ensures AsDirect(c, t, s'.requests[pid].token, s'.requests[pid].pc)
    {
      if st.By? && st.pid == pid {
        MovedTransparent(c, s, pid, st.act, t);
      }
    }
  }

  /** No step of the run touches the key. */
  ghost predicate KeyStays(c: Config, s: State, steps: seq<Step>, keyId: string)
    requires CanRun(c, s, steps)
    decreases |steps|
  {
    steps == [] || (!Touches(s, steps[0], keyId) && KeyStays(c, Next(c, s, steps[0]), steps[1..], keyId))
  }

  lemma {:induction false} TransparentFrom(c: Config, s: State, steps: seq<Step>, t: Table, keyId: string)
    requires Inv(c, s) && Sane(c) && CanRun(c, s, steps) && Wellformed(t) && KeyStays(c, s, steps, keyId)
    requires Steady(s, t, keyId) && Transparent(c, s, t, keyId)
    ensures Transparent(c, Final(c, s, steps), t, keyId)
    decreases |steps|
  {
    if steps != [] {
      StepKeepsInv(c, s, steps[0]);
      StepKeepsSteady(c, s, steps[0], t, keyId);
      StepKeepsTransparent(c, s, steps[0], t, keyId);
      TransparentFrom(c, Next(c, s, steps[0]), steps[1..], t, keyId);
    }
  }

  /**
    Theorem (transparency). In every run in which the token's own key does not change, whatever
    happens to other keys and with any evictions and flags, a request resolves to a record
    exactly when lookup and verification alone would give that record.
  */
  lemma CacheIsTransparent(c: Config, t: Table, steps: seq<Step>, pid: nat, r: Option<KeyRecord>)
    requires Sane(c) && Wellformed(t) && CanRun(c, Init(t), steps) && pid in Final(c, Init(t), steps).requests
    requires var token := Final(c, Init(t), steps).requests[pid].token;
             KeyStays(c, Init(t), steps, token.keyId) && Direct(c, t, token, r)
    ensures var pc := Final(c, Init(t), steps).requests[pid].pc;
            && (pc.Resolved? || pc.Accepted? || pc.Inactive? ==> r == Some(pc.copy.rec))
            && (pc.Unknown? ==> r == None)
  {
    var q := Final(c, Init(t), steps).requests[pid];
    TransparentFrom(c, Init(t), steps, t, q.token.keyId);
    if q.pc.Resolved? || q.pc.Accepted? || q.pc.Inactive? {
      DirectOne(c, t, q.token, r, Some(q.pc.copy.rec));
    } else if q.pc.Unknown? {
      DirectOne(c, t, q.token, r, None);
    }
  }
}
