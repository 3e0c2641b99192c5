/**
  The idempotency_keys table: its rows, the four SQL statements that touch it, the
  store object behind `/v1/sql/execute` and `/v1/rpc/call`, and the request hash.

  Idealisations: SHA-256 is injective (`Digest` wraps its own pre-image) and gzip is
  a lossless pair (`Gzip` wraps the plain bytes).
*/
module Idempotency {
  import opened Prelude

  type byte = x: int | 0 <= x < 256
  type Bytes = seq<byte>
  type Time = int  // nanoseconds on the one shared clock

  const TTL: Time := 24 * 60 * 60 * 1_000_000_000

  datatype Digest = Digest(preimage: Bytes)
  datatype Gzip = Gzip(plain: Bytes)
  datatype Key = Key(workspace: nat, name: string)
  datatype RowState = Pending | Done | Failed

  /** One row; `id` is its primary key, `expires` its expires_at column. */
  datatype Row = Row(id: nat, hash: Digest, state: RowState, status: Option<int>, body: Option<Gzip>, expires: Time)

  type Table = map<Key, Row>  // UNIQUE (workspace_id, key)

  // ---- the statements --------------------------------------------------------

  function PendingRow(id: nat, hash: Digest, expires: Time): Row {
    Row(id, hash, Pending, None, None, expires)
  }

  /** INSERT ... ON CONFLICT (workspace_id, key) DO NOTHING */
  function InsertRow(t: Table, k: Key, row: Row): Table {
    if k in t then t else t[k := row]
  }

  /** DELETE ... WHERE workspace_id = $1 AND key = $2 */
  function DeleteRow(t: Table, k: Key): Table {
    t - {k}
  }

  /** UPDATE ... SET state, status_code, response_body WHERE workspace_id = $4 AND key = $5 */
  function CompleteRow(t: Table, k: Key, status: int, body: Bytes, ok: bool): Table {
    if k in t then t[k := t[k].(state := if ok then Done else Failed, status := Some(status), body := Some(Gzip(body)))]
    else t
  }

  /** DELETE ... WHERE expires_at < now() */
  function PurgeRows(t: Table, now: Time): Table {
    map k | k in t && t[k].expires >= now :: t[k]
  }

  // ---- answers ---------------------------------------------------------------

  datatype Refusal = EmptyKey | BadWorkspace | Conflict | InProgress | RowVanished
  datatype Answer = Execute | Replay(status: int, body: Bytes) | Refused(why: Refusal)

  /** What a live row with the key answers to a request with hash `h`. */
  function RowAnswer(row: Row, h: Digest): Answer {
    if row.hash != h then Refused(Conflict)
    else if row.state == Pending then Refused(InProgress)
    else Replay(if row.status.Some? then row.status.value else 200, if row.body.Some? then row.body.value.plain else [])
  }

  /** The intended answer: only rows that have not expired count. */
  function Decide(t: Table, k: Key, h: Digest, now: Time): Answer {
    if k in t && t[k].expires >= now then RowAnswer(t[k], h) else Execute
  }

  function Begun(t: Table, k: Key, h: Digest, ttl: Time, now: Time, id: nat): Table {
    if Decide(t, k, h, now) == Execute then t[k := PendingRow(id, h, now + ttl)] else t
  }

  /** Is there a row under the key that has not expired? */
  predicate Live(t: Table, k: Key, now: Time) {
    k in t && t[k].expires >= now
  }

  /** None where the workspace id does not parse. */
  function KeyOf(workspace: Option<nat>, name: string): Option<Key> {
    if workspace.Some? then Some(Key(workspace.value, name)) else None
  }

  // ---- the store object --------------------------------------------------------

  class IdempotencyStore {
    var table: Table

    constructor ()
      ensures table == map[]
    {
      table := map[];
    }

    /**
      One call with no other transaction in between. `rounds` counts the recursive
      calls: a stale row is deleted and the call starts over, once.
    */
    method BeginOrReplay(workspace: Option<nat>, name: string, h: Digest, ttl: Time, now: Time, id: nat)
        returns (r: Answer, ghost rounds: nat)
      modifies this
      ensures name == "" ==> r == Refused(EmptyKey) && table == old(table)
      ensures name != "" && workspace.None? ==> r == Refused(BadWorkspace) && table == old(table)
      ensures name != "" && workspace.Some? ==>
        var k := Key(workspace.value, name);
        && r == Decide(old(table), k, h, now)
        && table == Begun(old(table), k, h, ttl, now, id)
        && rounds == if k in old(table) && old(table)[k].expires < now then 2 else 1
      // other bytes under a live key are a conflict, also while the first request is in progress
      ensures name != "" && workspace.Some? && Live(old(table), Key(workspace.value, name), now) ==>
        var row := old(table)[Key(workspace.value, name)];
        && table == old(table)
        && (row.hash != h ==> r == Refused(Conflict))
        && (row.hash == h && row.state == Pending ==> r == Refused(InProgress))
        && (row.hash == h && row.state != Pending ==>
              && r.Replay? && (row.status.Some? ==> r.status == row.status.value) && (row.status.None? ==> r.status == 200)
              && (row.body.Some? ==> row.body == Some(Gzip(r.body))) && (row.body.None? ==> r.body == []))
      // without a live row the key is granted, and held by a pending row of its own
      ensures name != "" && workspace.Some? && !Live(old(table), Key(workspace.value, name), now) ==>
        var k := Key(workspace.value, name);
        r == Execute && table == old(table)[k := Row(id, h, Pending, None, None, now + ttl)]
      decreases workspace.Some? && Key(workspace.value, name) in table
    {
      rounds := 1;
      if name == "" {
        return Refused(EmptyKey), rounds;
      }
      if workspace.None? {
        return Refused(BadWorkspace), rounds;
      }
      var k := Key(workspace.value, name);
      var affected := if k in table then 0 else 1;
      table := InsertRow(table, k, PendingRow(id, h, now + ttl));
      if affected == 1 {
        return Execute, rounds;
      }
      var row := table[k];
      if row.expires < now {
        table := DeleteRow(table, k);
        r, rounds := BeginOrReplay(workspace, name, h, ttl, now, id);
        assert table == old(table)[k := PendingRow(id, h, now + ttl)];
        rounds := rounds + 1;
        return;
      }
      if row.hash != h {
        return Refused(Conflict), rounds;
      }
      if row.state == Pending {
        return Refused(InProgress), rounds;
      }
      var body := if row.body.Some? then row.body.value.plain else [];
      var status := 200;
      if row.status.Some? {
        status := row.status.value;
      }
      r := Replay(status, body);
    }

    /**
      From now until the row expires, the same request is answered with this status and
      body, and a different one is refused. No row is added or removed, no other row
      changes, and the row keeps its id, hash and expiry.
    */
    method Complete(workspace: Option<nat>, name: string, status: int, body: Bytes, ok: bool)
      modifies this
      ensures table == if workspace.Some? then CompleteRow(old(table), Key(workspace.value, name), status, body, ok) else old(table)
      ensures table.Keys == old(table).Keys
      ensures forall k | k in table && Some(k) != KeyOf(workspace, name) :: table[k] == old(table)[k]
      ensures var k := KeyOf(workspace, name);
              k.Some? && k.value in table ==>
                var row, was := table[k.value], old(table)[k.value];
                && row.id == was.id && row.hash == was.hash && row.expires == was.expires
                && (row.state == Done <==> ok) && (row.state == Failed <==> !ok)
                && forall h, now | now <= was.expires ::
                     Decide(table, k.value, h, now) == if h == was.hash then Replay(status, body) else Refused(Conflict)
    {
      if workspace.Some? {
        table := CompleteRow(table, Key(workspace.value, name), status, body, ok);
      }
    }

    method PurgeExpired(now: Time) returns (removed: nat)
      modifies this
      ensures table == PurgeRows(old(table), now)
      ensures removed == |old(table)| - |table|
      ensures forall k :: k in table <==> k in old(table) && old(table)[k].expires >= now
    {
      var kept := PurgeRows(table, now);
      assert kept.Keys <= table.Keys;
      assert table.Keys == kept.Keys + (table.Keys - kept.Keys);
      assert |kept.Keys| == |kept| && |table.Keys| == |table|;
      removed := |table| - |kept|;
      table := kept;
    }
  }

  // ---- the sweep is invisible ---------------------------------------------------

  datatype Op =
    | Begin(k: Key, h: Digest, ttl: Time, id: nat, now: Time)
    | Finish(k: Key, status: int, body: Bytes, ok: bool, now: Time)
    | Sweep(now: Time)

  function Apply(t: Table, op: Op): Table {
    match op
    case Begin(k, h, ttl, id, now) => Begun(t, k, h, ttl, now, id)
    case Finish(k, status, body, ok, _) => CompleteRow(t, k, status, body, ok)
    case Sweep(now) => PurgeRows(t, now)
  }

  /** The answers to the `Begin`s of a sequential run. */
  function Replies(t: Table, ops: seq<Op>): seq<Answer>
    decreases |ops|
  {
    if ops == [] then []
    else (if ops[0].Begin? then [Decide(t, ops[0].k, ops[0].h, ops[0].now)] else []) + Replies(Apply(t, ops[0]), ops[1..])
  }

  function WithoutSweeps(ops: seq<Op>): seq<Op> {
    if ops == [] then []
    else (if ops[0].Sweep? then [] else [ops[0]]) + WithoutSweeps(ops[1..])
  }

  ghost predicate ClockOrdered(from: Time, ops: seq<Op>)
    decreases |ops|
  {
    ops == [] || (from <= ops[0].now && ClockOrdered(ops[0].now, ops[1..]))
  }

  /** Equal once the rows that expired before `now` are ignored. */
  ghost predicate SameLive(t: Table, u: Table, now: Time) {
    PurgeRows(t, now) == PurgeRows(u, now)
  }

  lemma LiveLookup(t: Table, u: Table, now: Time, k: Key)
    requires SameLive(t, u, now)
    ensures (k in t && t[k].expires >= now) <==> (k in u && u[k].expires >= now)
    ensures k in t && t[k].expires >= now ==> t[k] == u[k]
  {
    assert k in PurgeRows(t, now) <==> k in PurgeRows(u, now);
  }

  lemma SameLiveIntro(t: Table, u: Table, now: Time)
    requires forall k :: (k in t && t[k].expires >= now) <==> (k in u && u[k].expires >= now)
    requires forall k | k in t && t[k].expires >= now && k in u :: t[k] == u[k]
    ensures SameLive(t, u, now)
  {
    assert PurgeRows(t, now).Keys == PurgeRows(u, now).Keys;
  }

  lemma SameLiveLater(t: Table, u: Table, from: Time, now: Time)
    requires SameLive(t, u, from) && from <= now
    ensures SameLive(t, u, now)
  {
    forall k ensures (k in t && t[k].expires >= now) <==> (k in u && u[k].expires >= now)
             ensures k in t && t[k].expires >= now && k in u ==> t[k] == u[k]
    {
      LiveLookup(t, u, from, k);
    }
    SameLiveIntro(t, u, now);
  }

  /** Begin, complete and purge respect equality up to expired rows, and `Begin` answers alike. */
  lemma StepKeepsSameLive(t: Table, u: Table, op: Op)
    requires SameLive(t, u, op.now)
    ensures SameLive(Apply(t, op), Apply(u, op), op.now)
    ensures op.Begin? ==> Decide(t, op.k, op.h, op.now) == Decide(u, op.k, op.h, op.now)
  {
    var now := op.now;
    if op.Begin? {
      LiveLookup(t, u, now, op.k);
    }
    var t', u' := Apply(t, op), Apply(u, op);
    forall k ensures (k in t' && t'[k].expires >= now) <==> (k in u' && u'[k].expires >= now)
             ensures k in t' && t'[k].expires >= now && k in u' ==> t'[k] == u'[k]
    {
      LiveLookup(t, u, now, k);
    }
    SameLiveIntro(t', u', now);
  }

  lemma SweepKeepsLive(t: Table, now: Time)
    ensures SameLive(PurgeRows(t, now), t, now)
  {
    SameLiveIntro(PurgeRows(t, now), t, now);
  }

  lemma {:induction false} SweepsInvisibleFrom(t: Table, u: Table, from: Time, ops: seq<Op>)
    requires SameLive(t, u, from) && ClockOrdered(from, ops)
    ensures Replies(t, ops) == Replies(u, WithoutSweeps(ops))
    decreases |ops|
  {
    if ops != [] {
      var op, rest := ops[0], ops[1..];
      SameLiveLater(t, u, from, op.now);
      if op.Sweep? {
        SweepKeepsLive(t, op.now);
        SweepsInvisibleFrom(PurgeRows(t, op.now), u, op.now, rest);
        assert WithoutSweeps(ops) == WithoutSweeps(rest);
      } else {
        StepKeepsSameLive(t, u, op);
        SweepsInvisibleFrom(Apply(t, op), Apply(u, op), op.now, rest);
        assert WithoutSweeps(ops)[1..] == WithoutSweeps(rest);
      }
    }
  }

  /** Theorem. On a sequential run, inserting `PurgeExpired` anywhere changes no later answer. */
  lemma SweepsInvisible(t: Table, from: Time, ops: seq<Op>)
    requires ClockOrdered(from, ops)
    ensures Replies(t, ops) == Replies(t, WithoutSweeps(ops))
  {
    SweepsInvisibleFrom(t, t, from, ops);
  }

  // ---- the request hash -----------------------------------------------------------

  /** What is fed to SHA-256: method, NUL, path, NUL, raw body. */
  function Preimage(verb: Bytes, path: Bytes, body: Bytes): Bytes {
    verb + [0] + path + [0] + body
  }

  function HashRequest(verb: Bytes, path: Bytes, body: Bytes): Digest {
    Digest(Preimage(verb, path, body))
  }

  /** The first NUL of `a + [0] + x` marks the end of a NUL-free `a`. */
  lemma NulAt(a: Bytes, x: Bytes, b: Bytes, y: Bytes)
    requires 0 !in b && a + [0] + x == b + [0] + y
    ensures |b| <= |a|
  {
    var s := a + [0] + x;
    assert forall i | 0 <= i < |b| :: s[i] == b[i];
    assert s[|a|] == 0;
  }

  lemma NulSplits(a: Bytes, x: Bytes, b: Bytes, y: Bytes)
    requires 0 !in a && 0 !in b && a + [0] + x == b + [0] + y
    ensures a == b && x == y
  {
    NulAt(a, x, b, y);
    NulAt(b, y, a, x);
    var s := a + [0] + x;
    assert a == s[..|a|] == b;
    assert x == s[|a| + 1..] == y;
  }

  /** Theorem. Two requests share a hash exactly when method, path and body are the same bytes. */
  lemma HashRequestInjective(v: Bytes, p: Bytes, b: Bytes, v': Bytes, p': Bytes, b': Bytes)
    requires 0 !in v && 0 !in p && 0 !in v' && 0 !in p'
    ensures HashRequest(v, p, b) == HashRequest(v', p', b') <==> v == v' && p == p' && b == b'
  {
    if HashRequest(v, p, b) == HashRequest(v', p', b') {
      PreimageNests(v, p, b);
      PreimageNests(v', p', b');
      NulSplits(v, p + [0] + b, v', p' + [0] + b');
      NulSplits(p, b, p', b');
    }
  }

  /** The bytes before the first NUL, and those after it. */
  function BeforeNul(s: Bytes): Bytes {
    if s == [] || s[0] == 0 then [] else [s[0]] + BeforeNul(s[1..])
  }

  lemma {:induction false} NulCuts(s: Bytes, i: nat)
    requires i < |s| && s[i] == 0
    ensures 0 !in BeforeNul(s) && |BeforeNul(s)| <= i
    ensures s == BeforeNul(s) + [0] + s[|BeforeNul(s)| + 1..]
  {
    if s[0] != 0 {
      NulCuts(s[1..], i - 1);
      var b := BeforeNul(s[1..]);
      assert s == [s[0]] + (b + [0] + s[1..][|b| + 1..]);
      assert s[1..][|b| + 1..] == s[|b| + 2..];
    }
  }

  /** A text with two NULs is the pre-image of a request without NUL in method and path. */
  lemma Delimited(s: Bytes, i: nat, j: nat) returns (v: Bytes, p: Bytes, b: Bytes)
    requires i < j < |s| && s[i] == s[j] == 0
    ensures 0 !in v && 0 !in p && Preimage(v, p, b) == s
  {
    NulCuts(s, i);
    v := BeforeNul(s);
    var rest := s[|v| + 1..];
    assert rest[j - |v| - 1] == s[j];
    NulCuts(rest, j - |v| - 1);
    p := BeforeNul(rest);
    b := rest[|p| + 1..];
    PreimageNests(v, p, b);
  }

  lemma PreimageNests(v: Bytes, p: Bytes, b: Bytes)
    ensures Preimage(v, p, b) == v + [0] + (p + [0] + b)
  {
  }

  /** Some other request, with a method and path free of NUL, has the same hash. */
  ghost predicate Collides(v: Bytes, p: Bytes, b: Bytes) {
    exists v', p', b' ::
      && 0 !in v' && 0 !in p' && (v', p', b') != (v, p, b)
      && HashRequest(v', p', b') == HashRequest(v, p, b)
  }

  /** Theorem. Exactly the requests with a NUL in method or path share their hash with such a request. */
  lemma CollidesIffNul(v: Bytes, p: Bytes, b: Bytes)
    ensures Collides(v, p, b) <==> 0 in v || 0 in p
  {
    if 0 in v || 0 in p {
      var s := Preimage(v, p, b);
      assert s[|v|] == 0 && s[|v| + 1 + |p|] == 0;
      var v', p', b' := Delimited(s, |v|, |v| + 1 + |p|);
      assert HashRequest(v', p', b') == HashRequest(v, p, b);
    } else {
      forall v', p', b' | 0 !in v' && 0 !in p' && HashRequest(v', p', b') == HashRequest(v, p, b)
        ensures (v', p', b') == (v, p, b)
      {
        HashRequestInjective(v, p, b, v', p', b');
      }
    }
  }
}
