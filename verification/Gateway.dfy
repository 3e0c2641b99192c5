/**
  The idempotency protocol as a step system.

  Any number of request handlers, in any number of gateway processes, run
  `BeginOrReplay`, then the user's statement, then `Complete`, against one shared
  table. Every SQL statement is one atomic step, steps of different handlers
  interleave freely, and a handler may stop for good before any of its steps. The
  hourly sweep may run at any time.

  User SQL is an opaque effect: `commits` counts how often the effect behind a key
  was committed.
*/
module Gateway {
  import opened Prelude
  import opened Idempotency

  datatype Kind = Sql | Rpc

  datatype Request = Request(kind: Kind, key: Key, hash: Digest)

  datatype Reply = Reply(status: int, body: Bytes, replayed: bool)

  /**
    What running a statement came to: whether its transaction committed, what
    `Complete` will store, and the reply `first` that its owner sends.
  */
  datatype Outcome = Outcome(committed: bool, ok: bool, status: int, stored: Bytes, first: Reply)

  /**
    The SQL handler sends the stored bytes on success. On failure it sends the stored
    Problem followed by the newline of the JSON encoder; the statement may have
    committed all the same (oversized response, connection lost during commit).
  */
  predicate SqlOutcome(o: Outcome) {
    && !o.first.replayed && o.first.status == o.status
    && if o.ok then o.committed && o.status == 200 && o.first.body == o.stored
       else 400 <= o.status && o.first.body == o.stored + [10]
  }

  /** The RPC dispatcher stores 200 or 500 and a body of its own. */
  predicate RpcOutcome(o: Outcome) {
    && !o.first.replayed
    && if o.ok then o.committed && o.status == 200 && o.first.status == 200
       else o.status == 500 && 400 <= o.first.status
  }

  predicate OutcomeOf(kind: Kind, o: Outcome) {
    match kind case Sql => SqlOutcome(o) case Rpc => RpcOutcome(o)
  }

  /** Where a handler stands. */
  datatype Pc =
    | Arrived                                               // next: open the transaction
    | Inserting(txNow: Time)                                // next: INSERT ... DO NOTHING
    | Selecting                                             // next: SELECT the existing row
    | Checking(row: Row)                                    // next: compare expiry, hash, state
    | Deleting                                              // next: DELETE, then start over
    | Granted(n: nat)                                       // told to execute
    | Ran(n: nat, o: Outcome, sent: bool, stored: bool)     // executed
    | Answered(answer: Answer, from: Option<Row>)           // refused, or replayed from a row
    | Stopped                                               // crashed, or gave up with an error reply

  datatype Handler = Handler(req: Request, pc: Pc, reply: Option<Reply>)

  /** One successful insert: the handler `pid` owns the row with id `pid` until `expires`. */
  datatype Grant = Grant(pid: nat, hash: Digest, at: Time, expires: Time, ran: Option<Outcome>)

  datatype State = State(
    clock: Time,
    table: Table,
    handlers: map<nat, Handler>,
    grants: map<Key, seq<Grant>>,   // history: all grants of a key, oldest first
    commits: map<Key, nat>)         // history: committed effects per key

  function Grants(s: State, k: Key): seq<Grant> {
    if k in s.grants then s.grants[k] else []
  }

  function Commits(s: State, k: Key): nat {
    if k in s.commits then s.commits[k] else 0
  }

  /** What one handler can do next. */
  datatype Act =
    | Abort(reply: Reply)    // rejected up front, or a statement or commit reported an error
    | OpenTx
    | Insert
    | Select
    | Check
    | Delete
    | Run(o: Outcome)
    | Send
    | Store
    | StoreFails
    | Crash

  datatype Step =
    | Tick(to: Time)
    | Purge(asOf: Time)
    | Arrive(pid: nat, req: Request)
    | By(pid: nat, act: Act)

  predicate Enabled(s: State, st: Step) {
    match st
    case Tick(to) => s.clock <= to
    case Purge(asOf) => asOf <= s.clock
    case Arrive(pid, _) => pid !in s.handlers
    case By(pid, act) => pid in s.handlers && MayAct(s.handlers[pid], act)
  }

  predicate MayAct(h: Handler, act: Act) {
    match act
    case Abort(reply) => BeforeRun(h.pc) && 400 <= reply.status && !reply.replayed
    case OpenTx => h.pc.Arrived?
    case Insert => h.pc.Inserting?
    case Select => h.pc.Selecting?
    case Check => h.pc.Checking?
    case Delete => h.pc.Deleting?
    case Run(o) => h.pc.Granted? && OutcomeOf(h.req.kind, o)
    case Send => h.pc.Ran? && !h.pc.sent && (h.req.kind.Sql? || h.pc.stored)
    case Store => h.pc.Ran? && !h.pc.stored && (h.req.kind.Rpc? || h.pc.sent)
    case StoreFails => h.pc.Ran? && !h.pc.stored && (h.req.kind.Rpc? || h.pc.sent)
    case Crash => true
  }

  predicate BeforeRun(pc: Pc) {
    pc.Arrived? || pc.Inserting? || pc.Selecting? || pc.Checking? || pc.Deleting? || pc.Granted?
  }

  function RefusalStatus(why: Refusal): int {
    if why == Conflict then 409 else 500
  }

  /** The HTTP reply for a refusal or a replay. */
  function AnswerReply(a: Answer): Option<Reply> {
    match a
    case Execute => None
    case Replay(status, body) => Some(Reply(status, body, true))
    case Refused(why) => Some(Reply(RefusalStatus(why), [], false))
  }

  function Answering(h: Handler, a: Answer, from: Option<Row>): Handler {
    h.(pc := Answered(a, from), reply := AnswerReply(a))
  }

  /** The handler after its own step. */
  function Moved(s: State, pid: nat, act: Act): Handler
    requires Enabled(s, By(pid, act))
  {
    var h := s.handlers[pid];
    var k := h.req.key;
    match act
    case Abort(reply) => h.(pc := Stopped, reply := Some(reply))
    case OpenTx => h.(pc := Inserting(s.clock))
    case Insert => h.(pc := if k in s.table then Selecting else Granted(|Grants(s, k)|))
    case Select =>
      if k in s.table then h.(pc := Checking(s.table[k])) else Answering(h, Refused(RowVanished), None)
    case Check =>
      if h.pc.row.expires < s.clock then h.(pc := Deleting)
      else Answering(h, RowAnswer(h.pc.row, h.req.hash), Some(h.pc.row))
    case Delete => h.(pc := Arrived)
    case Run(o) => h.(pc := Ran(h.pc.n, o, false, false))
    case Send => h.(pc := h.pc.(sent := true), reply := Some(h.pc.o.first))
    case Store => h.(pc := h.pc.(stored := true))
    case StoreFails => h.(pc := h.pc.(stored := true))
    case Crash => h.(pc := Stopped)
  }

  function TableAfter(s: State, pid: nat, act: Act): Table
    requires Enabled(s, By(pid, act))
  {
    var h := s.handlers[pid];
    if act.Insert? then InsertRow(s.table, h.req.key, PendingRow(pid, h.req.hash, h.pc.txNow + TTL))
    else if act.Delete? then DeleteRow(s.table, h.req.key)
    else if act.Store? then CompleteRow(s.table, h.req.key, h.pc.o.status, h.pc.o.stored, h.pc.o.ok)
    else s.table
  }

  function GrantsAfter(s: State, pid: nat, act: Act): map<Key, seq<Grant>>
    requires Enabled(s, By(pid, act))
  {
    var h := s.handlers[pid];
    var k := h.req.key;
    var g := Grants(s, k);
    if act.Insert? && k !in s.table then s.grants[k := g + [Grant(pid, h.req.hash, s.clock, h.pc.txNow + TTL, None)]]
    else if act.Run? && h.pc.n < |g| then s.grants[k := g[h.pc.n := g[h.pc.n].(ran := Some(act.o))]]
    else s.grants
  }

  function CommitsAfter(s: State, pid: nat, act: Act): map<Key, nat>
    requires Enabled(s, By(pid, act))
  {
    var k := s.handlers[pid].req.key;
    if act.Run? && act.o.committed then s.commits[k := Commits(s, k) + 1] else s.commits
  }

  function Next(s: State, st: Step): State
    requires Enabled(s, st)
  {
    match st
    case Tick(to) => s.(clock := to)
    case Purge(asOf) => s.(table := PurgeRows(s.table, asOf))
    case Arrive(pid, req) => s.(handlers := s.handlers[pid := Handler(req, Arrived, None)])
    case By(pid, act) =>
      State(s.clock, TableAfter(s, pid, act), s.handlers[pid := Moved(s, pid, act)],
            GrantsAfter(s, pid, act), CommitsAfter(s, pid, act))
  }

  function Init(): State {
    State(0, map[], map[], map[], map[])
  }

  /** Can the whole list of steps be taken from `s`? */
  predicate CanRun(s: State, steps: seq<Step>)
    decreases |steps|
  {
    steps == [] || (Enabled(s, steps[0]) && CanRun(Next(s, steps[0]), steps[1..]))
  }

  function Final(s: State, steps: seq<Step>): State
    requires CanRun(s, steps)
    decreases |steps|
  {
    if steps == [] then s else Final(Next(s, steps[0]), steps[1..])
  }

  // ---- the invariant -------------------------------------------------------------

  function CountCommitted(g: seq<Grant>): nat {
    if g == [] then 0
    else CountCommitted(g[..|g| - 1]) + if Committed(g[|g| - 1]) then 1 else 0
  }

  predicate Committed(g: Grant) {
    g.ran.Some? && g.ran.value.committed
  }

  /** `row` is the row the grant inserted: untouched, or completed with its owner's outcome. */
  ghost predicate FromOwner(row: Row, g: Grant) {
    && row.id == g.pid && row.hash == g.hash && row.expires == g.expires
    && (row == PendingRow(g.pid, g.hash, g.expires)
        || (g.ran.Some? && var o := g.ran.value;
            row == Row(g.pid, g.hash, if o.ok then Done else Failed, Some(o.status), Some(Gzip(o.stored)), g.expires)))
  }

  ghost predicate TellsSuccess(row: Row) {
    row.status.Some? && row.status.value < 300
  }

  /** What remains true of a row once read, however stale. */
  ghost predicate Snapshot(s: State, k: Key, row: Row) {
    var g := Grants(s, k);
    && g != []
    && (if row.id == g[0].pid then FromOwner(row, g[0]) else s.clock > g[0].expires && |g| >= 2)
    && (row.state != Pending ==> row.status.Some?)
    && (TellsSuccess(row) ==> Commits(s, k) >= 1)
  }

  ghost predicate GrantOk(s: State, k: Key, i: nat)
    requires i < |Grants(s, k)|
  {
    var g := Grants(s, k)[i];
    && g.at <= s.clock && g.pid in s.handlers
    && var h := s.handlers[g.pid];
       && h.req.key == k && h.req.hash == g.hash
       && (match h.pc
           case Granted(n) => n == i && g.ran == None && h.reply == None
           case Ran(n, o, sent, _) => n == i && g.ran == Some(o) && h.reply == (if sent then Some(o.first) else None)
           case Stopped =>
             if g.ran.Some? then h.reply == None || h.reply == Some(g.ran.value.first)
             else h.reply == None || 400 <= h.reply.value.status
           case _ => false)
       && (g.ran.Some? ==> OutcomeOf(h.req.kind, g.ran.value))
  }

  ghost predicate KeyOk(s: State, k: Key) {
    var g := Grants(s, k);
    && (forall i | 0 <= i < |g| :: GrantOk(s, k, i))
    && (forall i, j | 0 <= i < j < |g| :: g[i].pid != g[j].pid)
    && Commits(s, k) == CountCommitted(g)
    // the row in the table is the newest grant's
    && (k in s.table ==> Snapshot(s, k, s.table[k]) && RowOf(s.table[k], g[|g| - 1]))
    // the first window: nothing removes the first row before it expires
    && (g != [] ==> s.clock > g[0].expires || (k in s.table && s.table[k].id == g[0].pid))
    && (forall i | 1 <= i < |g| :: g[i].at > g[0].expires)
  }

  ghost predicate RowOf(row: Row, g: Grant) {
    row.id == g.pid && row.hash == g.hash && row.expires == g.expires
  }

  ghost predicate HandlerOk(s: State, pid: nat)
    requires pid in s.handlers
  {
    PcOk(s, pid) && Truthful(s, pid)
  }

  ghost predicate PcOk(s: State, pid: nat)
    requires pid in s.handlers
  {
    var h := s.handlers[pid];
    var g := Grants(s, h.req.key);
    match h.pc
    case Checking(row) => h.reply == None && Snapshot(s, h.req.key, row)
    case Deleting => h.reply == None && g != [] && s.clock > g[0].expires
    case Granted(n) => n < |g| && g[n].pid == pid
    case Ran(n, o, _, _) => n < |g| && g[n].pid == pid
    case Answered(a, from) =>
      && h.reply == AnswerReply(a) && a != Execute
      && (a.Replay? ==> from.Some?) && (from.None? ==> a == Refused(RowVanished))
      && (from.Some? ==> Snapshot(s, h.req.key, from.value) && a == RowAnswer(from.value, h.req.hash))
    case Stopped => true
    case _ => h.reply == None
  }

  /** A success reply is backed by a commit, and by the request's own bytes while the key has one grant. */
  ghost predicate Truthful(s: State, pid: nat)
    requires pid in s.handlers
  {
    var h := s.handlers[pid];
    var g := Grants(s, h.req.key);
    h.reply.Some? && h.reply.value.status < 300 ==>
      && Commits(s, h.req.key) >= 1
      && (|g| == 1 ==> Committed(g[0]) && g[0].hash == h.req.hash)
  }

  ghost predicate Inv(s: State) {
    && (forall k :: KeyOk(s, k))
    && (forall pid | pid in s.handlers :: HandlerOk(s, pid))
  }

  // ---- the invariant is kept by every step ------------------------------------------

  /** What any step may do to a key's history: append grants, record outcomes, count up. */
  ghost predicate Evolves(s: State, s': State, k: Key) {
    var g, g' := Grants(s, k), Grants(s', k);
    && |g| <= |g'| && s.clock <= s'.clock && Commits(s, k) <= Commits(s', k)
    && forall i | 0 <= i < |g| :: g'[i] == g[i] || (g[i].ran == None && g'[i] == g[i].(ran := g'[i].ran))
  }

  lemma StepEvolves(s: State, st: Step, k: Key)
    requires Inv(s) && Enabled(s, st)
    ensures Evolves(s, Next(s, st), k)
  {
    if st.By? && st.act.Run? {
      var h := s.handlers[st.pid];
      assert HandlerOk(s, st.pid);
      assert KeyOk(s, h.req.key) && GrantOk(s, h.req.key, h.pc.n);
    }
  }

  lemma SnapshotStable(s: State, s': State, k: Key, row: Row)
    requires Snapshot(s, k, row) && Evolves(s, s', k)
    ensures Snapshot(s', k, row)
  {
  }

  lemma OtherPcOk(s: State, st: Step, pid: nat)
    requires Inv(s) && Enabled(s, st) && pid in s.handlers
    requires st.By? ==> st.pid != pid
    ensures PcOk(Next(s, st), pid)
  {
    var h, s' := s.handlers[pid], Next(s, st);
    assert HandlerOk(s, pid) && s'.handlers[pid] == h;
    StepEvolves(s, st, h.req.key);
    match h.pc {
      case Checking(row) => SnapshotStable(s, s', h.req.key, row);
      case Answered(_, from) => if from.Some? { SnapshotStable(s, s', h.req.key, from.value); }
      case _ =>
    }
  }

  lemma OtherHandlersOk(s: State, st: Step, pid: nat)
    requires Inv(s) && Enabled(s, st) && pid in s.handlers
    requires st.By? ==> st.pid != pid
    ensures HandlerOk(Next(s, st), pid)
  {
    var h := s.handlers[pid];
    var s' := Next(s, st);
    assert HandlerOk(s, pid) && KeyOk(s, h.req.key) && s'.handlers[pid] == h;
    StepEvolves(s, st, h.req.key);
    if Commits(s, h.req.key) >= 1 { CommitsNeedGrants(s, h.req.key); }
    TruthStable(s, s', pid);
    OtherPcOk(s, st, pid);
  }

  lemma {:induction false} CommittedCounted(g: seq<Grant>, i: nat)
    requires i < |g| && Committed(g[i])
    ensures CountCommitted(g) >= 1
  {
    if i < |g| - 1 {
      CommittedCounted(g[..|g| - 1], i);
    }
  }

  lemma {:induction false} CountUpdate(g: seq<Grant>, i: nat, x: Grant)
    requires i < |g| && !Committed(g[i])
    ensures CountCommitted(g[i := x]) == CountCommitted(g) + if Committed(x) then 1 else 0
  {
    var n := |g| - 1;
    if i == n {
      assert g[i := x][..n] == g[..n];
    } else {
      CountUpdate(g[..n], i, x);
      assert g[i := x][..n] == g[..n][i := x];
    }
  }

  lemma {:induction false} CountBounded(g: seq<Grant>)
    ensures CountCommitted(g) <= |g|
  {
    if g != [] {
      CountBounded(g[..|g| - 1]);
    }
  }

  lemma ReadingPcOk(s: State, pid: nat, act: Act)
    requires Inv(s) && Enabled(s, By(pid, act)) && (act.Select? || act.Check?)
    ensures PcOk(Next(s, By(pid, act)), pid)
  {
    var h, s' := s.handlers[pid], Next(s, By(pid, act));
    var k := h.req.key;
    assert HandlerOk(s, pid) && KeyOk(s, k);
    StepEvolves(s, By(pid, act), k);
    if act.Check? {
      SnapshotStable(s, s', k, h.pc.row);
    } else if k in s.table {
      SnapshotStable(s, s', k, s.table[k]);
    }
  }

  lemma ActingPcOk(s: State, pid: nat, act: Act)
    requires Inv(s) && Enabled(s, By(pid, act))
    ensures PcOk(Next(s, By(pid, act)), pid)
  {
    if act.Select? || act.Check? {
      ReadingPcOk(s, pid, act);
    } else {
      assert HandlerOk(s, pid) && KeyOk(s, s.handlers[pid].req.key);
      StepEvolves(s, By(pid, act), s.handlers[pid].req.key);
    }
  }

  /** The reply of a handler that has one never changes. */
  lemma ReplyIsFinal(s: State, st: Step, pid: nat)
    requires Inv(s) && Enabled(s, st) && pid in s.handlers && s.handlers[pid].reply.Some?
    ensures pid in Next(s, st).handlers && Next(s, st).handlers[pid].reply == s.handlers[pid].reply
    ensures Next(s, st).handlers[pid].req == s.handlers[pid].req
  {
    assert HandlerOk(s, pid);
    var h := s.handlers[pid];
    if h.pc.Ran? || h.pc.Granted? {
      OwnsGrant(s, pid);
    }
  }

  lemma OwnsGrant(s: State, pid: nat)
    requires Inv(s) && pid in s.handlers && (s.handlers[pid].pc.Ran? || s.handlers[pid].pc.Granted?)
    ensures var h := s.handlers[pid]; h.pc.n < |Grants(s, h.req.key)| && GrantOk(s, h.req.key, h.pc.n)
    ensures Grants(s, s.handlers[pid].req.key)[s.handlers[pid].pc.n].pid == pid
  {
    assert HandlerOk(s, pid) && KeyOk(s, s.handlers[pid].req.key);
  }

  lemma TruthStable(s: State, s': State, pid: nat)
    requires pid in s.handlers && pid in s'.handlers
    requires Truthful(s, pid) && Evolves(s, s', s.handlers[pid].req.key)
    requires s'.handlers[pid].req == s.handlers[pid].req && s'.handlers[pid].reply == s.handlers[pid].reply
    requires Commits(s, s.handlers[pid].req.key) >= 1 ==> Grants(s, s.handlers[pid].req.key) != []
    ensures Truthful(s', pid)
  {
  }

  lemma SendTruthful(s: State, pid: nat)
    requires Inv(s) && Enabled(s, By(pid, Send))
    ensures Truthful(Next(s, By(pid, Send)), pid)
  {
    var h := s.handlers[pid];
    var k := h.req.key;
    assert HandlerOk(s, pid) && KeyOk(s, k) && GrantOk(s, k, h.pc.n);
    if h.pc.o.first.status < 300 {
      CommittedCounted(Grants(s, k), h.pc.n);
    }
  }

  lemma CheckTruthful(s: State, pid: nat)
    requires Inv(s) && Enabled(s, By(pid, Check))
    ensures Truthful(Next(s, By(pid, Check)), pid)
  {
    var h := s.handlers[pid];
    var k := h.req.key;
    assert HandlerOk(s, pid) && KeyOk(s, k);
    var g, row := Grants(s, k), h.pc.row;
    assert GrantOk(s, k, 0);
    assert Snapshot(s, k, row);
  }

  lemma CommitsNeedGrants(s: State, k: Key)
    requires KeyOk(s, k) && Commits(s, k) >= 1
    ensures Grants(s, k) != []
  {
  }

  lemma ActingTruthful(s: State, pid: nat, act: Act)
    requires Inv(s) && Enabled(s, By(pid, act))
    ensures Truthful(Next(s, By(pid, act)), pid)
  {
    var st := By(pid, act);
    if act.Send? {
      SendTruthful(s, pid);
    } else if act.Check? {
      CheckTruthful(s, pid);
    } else if s.handlers[pid].reply.Some? {
      var k := s.handlers[pid].req.key;
      assert HandlerOk(s, pid) && KeyOk(s, k);
      ReplyIsFinal(s, st, pid);
      StepEvolves(s, st, k);
      if Commits(s, k) >= 1 { CommitsNeedGrants(s, k); }
      TruthStable(s, Next(s, st), pid);
    }
  }

  /** Grants of `k` whose owner did not move are as before. */
  lemma IdleGrantOk(s: State, st: Step, k: Key, i: nat)
    requires Inv(s) && Enabled(s, st) && i < |Grants(s, k)|
    requires st.By? ==> st.pid != Grants(s, k)[i].pid
    ensures i < |Grants(Next(s, st), k)| && Grants(Next(s, st), k)[i] == Grants(s, k)[i]
    ensures GrantOk(Next(s, st), k, i)
  {
    assert KeyOk(s, k) && GrantOk(s, k, i);
    if st.By? {
      assert HandlerOk(s, st.pid);
    }
  }

  lemma MovingGrantOk(s: State, pid: nat, act: Act, k: Key, i: nat)
    requires Inv(s) && Enabled(s, By(pid, act)) && i < |Grants(s, k)| && Grants(s, k)[i].pid == pid
    ensures i < |Grants(Next(s, By(pid, act)), k)|
    ensures GrantOk(Next(s, By(pid, act)), k, i)
  {
    assert KeyOk(s, k) && GrantOk(s, k, i) && HandlerOk(s, pid);
  }

  lemma GrantsStayOk(s: State, st: Step, k: Key)
    requires Inv(s) && Enabled(s, st)
    ensures forall i | 0 <= i < |Grants(Next(s, st), k)| :: GrantOk(Next(s, st), k, i)
  {
    var s' := Next(s, st);
    StepEvolves(s, st, k);
    forall i | 0 <= i < |Grants(s', k)| ensures GrantOk(s', k, i) {
      if i < |Grants(s, k)| {
        if st.By? && st.pid == Grants(s, k)[i].pid {
          MovingGrantOk(s, st.pid, st.act, k, i);
        } else {
          IdleGrantOk(s, st, k, i);
        }
      }
    }
  }

  lemma GrantsArePast(s: State, k: Key)
    requires Inv(s)
    ensures forall i | 0 <= i < |Grants(s, k)| :: Grants(s, k)[i].at <= s.clock
  {
    assert KeyOk(s, k);
    forall i | 0 <= i < |Grants(s, k)| ensures Grants(s, k)[i].at <= s.clock {
      assert GrantOk(s, k, i);
    }
  }

  /** A handler that is still inserting owns no grant. */
  lemma InserterOwnsNothing(s: State, pid: nat, k: Key)
    requires Inv(s) && pid in s.handlers && s.handlers[pid].pc.Inserting?
    ensures forall i | 0 <= i < |Grants(s, k)| :: Grants(s, k)[i].pid != pid
  {
    assert KeyOk(s, k);
    forall i | 0 <= i < |Grants(s, k)| ensures Grants(s, k)[i].pid != pid {
      assert GrantOk(s, k, i);
    }
  }

  lemma CountAppend(g: seq<Grant>, x: Grant)
    ensures CountCommitted(g + [x]) == CountCommitted(g) + if Committed(x) then 1 else 0
  {
    var e := g + [x];
    assert e[..|e| - 1] == g;
  }

  lemma InsertGrants(s: State, pid: nat)
    requires Enabled(s, By(pid, Insert))
    ensures var h := s.handlers[pid]; var k := h.req.key; var s' := Next(s, By(pid, Insert));
            && Commits(s', k) == Commits(s, k)
            && Grants(s', k) == if k in s.table then Grants(s, k)
                                else Grants(s, k) + [Grant(pid, h.req.hash, s.clock, h.pc.txNow + TTL, None)]
  {
  }

  lemma InsertStaysCounted(s: State, pid: nat)
    requires Inv(s) && Enabled(s, By(pid, Insert))
    ensures var k := s.handlers[pid].req.key; var s' := Next(s, By(pid, Insert));
            Commits(s', k) == CountCommitted(Grants(s', k))
  {
    var h := s.handlers[pid];
    assert KeyOk(s, h.req.key);
    InsertGrants(s, pid);
    CountAppend(Grants(s, h.req.key), Grant(pid, h.req.hash, s.clock, h.pc.txNow + TTL, None));
  }

  lemma RunStaysCounted(s: State, pid: nat, o: Outcome)
    requires Inv(s) && Enabled(s, By(pid, Run(o)))
    ensures var k := s.handlers[pid].req.key; var s' := Next(s, By(pid, Run(o)));
            Commits(s', k) == CountCommitted(Grants(s', k))
  {
    var h := s.handlers[pid];
    var k, n := h.req.key, h.pc.n;
    assert KeyOk(s, k) && HandlerOk(s, pid) && GrantOk(s, k, n);
    CountUpdate(Grants(s, k), n, Grants(s, k)[n].(ran := Some(o)));
  }

  lemma QuietStaysCounted(s: State, st: Step, k: Key)
    requires Inv(s) && Enabled(s, st)
    requires st.By? && s.handlers[st.pid].req.key == k ==> !st.act.Insert? && !st.act.Run?
    ensures Grants(Next(s, st), k) == Grants(s, k) && Commits(Next(s, st), k) == Commits(s, k)
  {
  }

  lemma CommitsStayCounted(s: State, st: Step, k: Key)
    requires Inv(s) && Enabled(s, st)
    ensures Commits(Next(s, st), k) == CountCommitted(Grants(Next(s, st), k))
  {
    if st.By? && s.handlers[st.pid].req.key == k && st.act.Insert? {
      InsertStaysCounted(s, st.pid);
    } else if st.By? && s.handlers[st.pid].req.key == k && st.act.Run? {
      RunStaysCounted(s, st.pid, st.act.o);
    } else {
      assert KeyOk(s, k);
      QuietStaysCounted(s, st, k);
    }
  }

  /** The part of `KeyOk` about the row and the first window. */
  ghost predicate WindowOk(s: State, k: Key) {
    var g := Grants(s, k);
    && (k in s.table ==> Snapshot(s, k, s.table[k]) && RowOf(s.table[k], g[|g| - 1]))
    && (g != [] ==> s.clock > g[0].expires || (k in s.table && s.table[k].id == g[0].pid))
    && (forall i | 1 <= i < |g| :: g[i].at > g[0].expires)
  }

  lemma QuietWindowOk(s: State, st: Step, k: Key)
    requires Inv(s) && Enabled(s, st)
    requires (k in s.table <==> k in Next(s, st).table) && (k in s.table ==> s.table[k] == Next(s, st).table[k])
    requires |Grants(s, k)| == |Grants(Next(s, st), k)|
    ensures WindowOk(Next(s, st), k)
  {
    var s' := Next(s, st);
    StepEvolves(s, st, k);
    assert KeyOk(s, k);
    if k in s.table { SnapshotStable(s, s', k, s.table[k]); }
  }

  lemma InsertWindowOk(s: State, pid: nat)
    requires Inv(s) && Enabled(s, By(pid, Insert)) && s.handlers[pid].req.key !in s.table
    ensures WindowOk(Next(s, By(pid, Insert)), s.handlers[pid].req.key)
  {
    var k := s.handlers[pid].req.key;
    assert KeyOk(s, k);
    InserterOwnsNothing(s, pid, k);
    var g, g' := Grants(s, k), Grants(Next(s, By(pid, Insert)), k);
    assert g'[|g| - 0].pid == pid;
    assert g != [] ==> g'[0] == g[0];
  }

  lemma DeleteWindowOk(s: State, pid: nat)
    requires Inv(s) && Enabled(s, By(pid, Delete))
    ensures WindowOk(Next(s, By(pid, Delete)), s.handlers[pid].req.key)
  {
    assert KeyOk(s, s.handlers[pid].req.key) && HandlerOk(s, pid);
  }

  lemma StoreWindowOk(s: State, pid: nat)
    requires Inv(s) && Enabled(s, By(pid, Store))
    ensures WindowOk(Next(s, By(pid, Store)), s.handlers[pid].req.key)
  {
    var h := s.handlers[pid];
    var k := h.req.key;
    var g := Grants(s, k);
    assert KeyOk(s, k) && HandlerOk(s, pid) && GrantOk(s, k, h.pc.n);
    if k in s.table {
      var row' := Next(s, By(pid, Store)).table[k];
      if row'.id == g[0].pid {
        assert |g| == 1;
        assert FromOwner(row', g[0]);
      }
      if TellsSuccess(row') {
        CommittedCounted(g, h.pc.n);
      }
    }
  }

  lemma PurgeWindowOk(s: State, asOf: Time, k: Key)
    requires Inv(s) && Enabled(s, Purge(asOf)) && k in s.table && s.table[k].expires < asOf
    ensures WindowOk(Next(s, Purge(asOf)), k)
  {
    assert KeyOk(s, k);
    var g := Grants(s, k);
    if s.table[k].id == g[0].pid {
      assert s.table[k].expires == g[0].expires;
    }
  }

  lemma WindowStaysOk(s: State, st: Step, k: Key)
    requires Inv(s) && Enabled(s, st)
    ensures WindowOk(Next(s, st), k)
  {
    if st.Purge? && k in s.table && s.table[k].expires < st.asOf {
      PurgeWindowOk(s, st.asOf, k);
    } else if st.By? && s.handlers[st.pid].req.key == k && st.act.Insert? && k !in s.table {
      InsertWindowOk(s, st.pid);
    } else if st.By? && s.handlers[st.pid].req.key == k && st.act.Delete? {
      DeleteWindowOk(s, st.pid);
    } else if st.By? && s.handlers[st.pid].req.key == k && st.act.Store? {
      StoreWindowOk(s, st.pid);
    } else {
      QuietWindowOk(s, st, k);
    }
  }

  lemma PidsStayDistinct(s: State, st: Step, k: Key)
    requires Inv(s) && Enabled(s, st)
    ensures var g := Grants(Next(s, st), k); forall i, j | 0 <= i < j < |g| :: g[i].pid != g[j].pid
  {
    assert KeyOk(s, k);
    StepEvolves(s, st, k);
    if st.By? && st.act.Insert? {
      InserterOwnsNothing(s, st.pid, k);
    }
  }

  /** Every step keeps the invariant. */
  lemma StepKeepsInv(s: State, st: Step)
    requires Inv(s) && Enabled(s, st)
    ensures Inv(Next(s, st))
  {
    var s' := Next(s, st);
    forall k ensures KeyOk(s', k) {
      GrantsStayOk(s, st, k);
      PidsStayDistinct(s, st, k);
      CommitsStayCounted(s, st, k);
      WindowStaysOk(s, st, k);
    }
    forall pid | pid in s'.handlers ensures HandlerOk(s', pid) {
      if st.By? && st.pid == pid {
        ActingPcOk(s, pid, st.act);
        ActingTruthful(s, pid, st.act);
      } else if pid in s.handlers {
        OtherHandlersOk(s, st, pid);
      }
    }
  }

  lemma {:induction false} RunKeepsInv(s: State, steps: seq<Step>)
    requires Inv(s) && CanRun(s, steps)
    ensures Inv(Final(s, steps))
    decreases |steps|
  {
    if steps != [] {
      StepKeepsInv(s, steps[0]);
      RunKeepsInv(Next(s, steps[0]), steps[1..]);
    }
  }

  lemma InitOk()
    ensures Inv(Init())
  {
  }

  // ---- theorems over every run ---------------------------------------------------------

  /**
    Theorem (at most once). In every interleaving of any number of SQL and RPC requests with
    the sweep, every grant of a key but the first comes after the first row's expiry, each
    grant commits at most one effect, and so before that expiry at most one was committed.
  */
  lemma AtMostOnceInFirstWindow(steps: seq<Step>, k: Key)
    requires CanRun(Init(), steps)
    ensures var s := Final(Init(), steps); var g := Grants(s, k);
            && (forall i | 1 <= i < |g| :: g[i].at > g[0].expires)
            && Commits(s, k) <= |g|
            && ((forall i | 0 <= i < |g| :: g[i].at <= g[0].expires) ==> |g| <= 1 && Commits(s, k) <= 1)
  {
    InitOk();
    RunKeepsInv(Init(), steps);
    assert KeyOk(Final(Init(), steps), k);
    CountBounded(Grants(Final(Init(), steps), k));
  }

  /**
    Theorem. A handler that answers from a row replies 409 if the row is for other bytes,
    whatever the row's state; 500 if the request with the same bytes is still in progress;
    and otherwise with the stored status and body, marked as a replay. One that found no row
    on its second look replies 500.
  */
  lemma {:induction false} AnswersByRow(steps: seq<Step>, pid: nat)
    requires CanRun(Init(), steps)
    requires pid in Final(Init(), steps).handlers && Final(Init(), steps).handlers[pid].pc.Answered?
    ensures var h := Final(Init(), steps).handlers[pid]; var from := h.pc.from;
            && (from.None? ==> h.pc.answer == Refused(RowVanished) && h.reply == Some(Reply(500, [], false)))
            && (from.Some? && from.value.hash != h.req.hash ==> h.pc.answer == Refused(Conflict) && h.reply == Some(Reply(409, [], false)))
            && (from.Some? && from.value.hash == h.req.hash && from.value.state == Pending ==>
                  h.pc.answer == Refused(InProgress) && h.reply == Some(Reply(500, [], false)))
            && (from.Some? && from.value.hash == h.req.hash && from.value.state != Pending ==>
                  && from.value.status.Some?
                  && h.reply == Some(Reply(from.value.status.value, if from.value.body.Some? then from.value.body.value.plain else [], true)))
  {
    InitOk();
    RunKeepsInv(Init(), steps);
    assert HandlerOk(Final(Init(), steps), pid);
  }

  /** Theorem. A reply below 300, first or replayed, means the effect behind the key was committed. */
  lemma SuccessMeansCommitted(steps: seq<Step>, pid: nat)
    requires CanRun(Init(), steps)
    requires var s := Final(Init(), steps);
             pid in s.handlers && s.handlers[pid].reply.Some? && s.handlers[pid].reply.value.status < 300
    ensures var s := Final(Init(), steps); Commits(s, s.handlers[pid].req.key) >= 1
  {
    InitOk();
    RunKeepsInv(Init(), steps);
    assert HandlerOk(Final(Init(), steps), pid);
  }

  /** Theorem. A request that was refused or replayed owns no grant of any key, so it never executes. */
  lemma AnsweredNeverExecutes(steps: seq<Step>, pid: nat)
    requires CanRun(Init(), steps)
    requires var s := Final(Init(), steps); pid in s.handlers && s.handlers[pid].pc.Answered?
    ensures var s := Final(Init(), steps);
            forall k, i | 0 <= i < |Grants(s, k)| :: Grants(s, k)[i].pid != pid
  {
    InitOk();
    RunKeepsInv(Init(), steps);
    var s := Final(Init(), steps);
    forall k, i | 0 <= i < |Grants(s, k)| ensures Grants(s, k)[i].pid != pid {
      assert KeyOk(s, k) && GrantOk(s, k, i);
    }
  }

  /** An answer is final: whatever else runs later, the handler keeps it or stops. */
  lemma {:induction false} AnswerIsFinal(s: State, steps: seq<Step>, pid: nat)
    requires CanRun(s, steps) && pid in s.handlers && (s.handlers[pid].pc.Answered? || s.handlers[pid].pc.Stopped?)
    ensures var t := Final(s, steps);
            && pid in t.handlers && t.handlers[pid].reply == s.handlers[pid].reply
            && (t.handlers[pid].pc == s.handlers[pid].pc || t.handlers[pid].pc == Stopped)
    decreases |steps|
  {
    if steps != [] {
      AnswerIsFinal(Next(s, steps[0]), steps[1..], pid);
    }
  }

  /** Reading and answering leave table, grants and counters alone. */
  lemma AnsweringChangesNothing(s: State, pid: nat, act: Act)
    requires Enabled(s, By(pid, act)) && Moved(s, pid, act).pc.Answered?
    ensures var t := Next(s, By(pid, act)); t.table == s.table && t.grants == s.grants && t.commits == s.commits
  {
  }

  /**
    Theorem (replay fidelity). A replay served before the first expiry comes from the first
    row; and a replay of the first row of a SQL request carries the status and body its owner
    first sent: the same bytes on success, the same Problem (less the encoder's newline) on
    failure. The status was stored, so the default of 200 is not used.
  */
  lemma ReplaysAreFaithful(steps: seq<Step>, pid: nat)
    requires CanRun(Init(), steps)
    requires var s := Final(Init(), steps);
             pid in s.handlers && s.handlers[pid].pc.Answered? && s.handlers[pid].pc.answer.Replay?
    ensures var s := Final(Init(), steps); var h := s.handlers[pid]; var g := Grants(s, h.req.key);
            && h.pc.from.Some? && h.pc.from.value.status == Some(h.pc.answer.status)
            && g != [] && (s.clock <= g[0].expires ==> h.pc.from.value.id == g[0].pid)
            && g[0].pid in s.handlers
            && var owner := s.handlers[g[0].pid];
               h.pc.from.value.id == g[0].pid && owner.req.kind.Sql? ==>
                 && owner.req.hash == h.req.hash
                 && g[0].ran.Some?
                 && FaithfulTo(h.pc.answer, g[0].ran.value.first, g[0].ran.value.ok)
                 && (owner.reply.Some? ==> owner.reply.value == g[0].ran.value.first)
  {
    InitOk();
    RunKeepsInv(Init(), steps);
    var s := Final(Init(), steps);
    var h := s.handlers[pid];
    assert HandlerOk(s, pid) && KeyOk(s, h.req.key) && GrantOk(s, h.req.key, 0);
  }

  ghost predicate FaithfulTo(a: Answer, first: Reply, ok: bool)
    requires a.Replay?
  {
    a.status == first.status && (if ok then a.body == first.body else first.body == a.body + [10])
  }

  /** Every completed row ever in the table has a status code. */
  lemma TerminalRowsHaveStatus(steps: seq<Step>, k: Key)
    requires CanRun(Init(), steps) && k in Final(Init(), steps).table
    ensures var row := Final(Init(), steps).table[k]; row.state != Pending ==> row.status.Some?
  {
    InitOk();
    RunKeepsInv(Init(), steps);
    assert KeyOk(Final(Init(), steps), k);
  }

  // ---- later windows: the reclaim race ------------------------------------------------------

  /** While the newest grant's window is open, its row guards the key. */
  ghost predicate Guarded(s: State, k: Key) {
    var g := Grants(s, k);
    g != [] ==> k in s.table || s.clock > g[|g| - 1].expires
  }

  /** No two grants of the key have overlapping windows. */
  ghost predicate DisjointWindows(s: State, k: Key) {
    var g := Grants(s, k);
    forall i, j | 0 <= i < j < |g| :: g[i].expires < g[j].at
  }

  /** The reclaim DELETE, which does not look at expires_at again, hits a row that is still live. */
  ghost predicate StaleDelete(s: State, st: Step) {
    && st.By? && st.act.Delete? && Enabled(s, st)
    && var k := s.handlers[st.pid].req.key;
       k in s.table && s.table[k].expires >= s.clock
  }

  /**
    Theorem. From a state in which every key is guarded, a step leaves every key guarded if
    and only if it is not a reclaim DELETE of a live row. (`AND expires_at < now()` in that
    DELETE would rule the step out.)
  */
  lemma GuardedIffNoStaleDelete(s: State, st: Step)
    requires Inv(s) && Enabled(s, st) && forall k :: Guarded(s, k)
    ensures (forall k :: Guarded(Next(s, st), k)) <==> !StaleDelete(s, st)
  {
    var s' := Next(s, st);
    if StaleDelete(s, st) {
      var k := s.handlers[st.pid].req.key;
      assert KeyOk(s, k) && !Guarded(s', k);
    } else {
      forall k ensures Guarded(s', k) {
        assert Guarded(s, k) && KeyOk(s, k);
        StepEvolves(s, st, k);
      }
    }
  }

  lemma StepKeepsDisjoint(s: State, st: Step, k: Key)
    requires Inv(s) && Enabled(s, st) && Guarded(s, k) && DisjointWindows(s, k)
    ensures DisjointWindows(Next(s, st), k)
  {
    assert KeyOk(s, k);
    StepEvolves(s, st, k);
    var g, g' := Grants(s, k), Grants(Next(s, st), k);
    if |g'| > |g| && g != [] {
      forall i | 0 <= i < |g| ensures g[i].expires < s.clock {
        if i < |g| - 1 {
          assert g[i].expires < g[|g| - 1].at && GrantOk(s, k, |g| - 1);
        }
      }
    }
  }

  ghost predicate NoStaleDeletes(s: State, steps: seq<Step>)
    requires CanRun(s, steps)
    decreases |steps|
  {
    steps == [] || (!StaleDelete(s, steps[0]) && NoStaleDeletes(Next(s, steps[0]), steps[1..]))
  }

  lemma {:induction false} WindowsDisjointFrom(s: State, steps: seq<Step>, k: Key)
    requires Inv(s) && CanRun(s, steps) && NoStaleDeletes(s, steps)
    requires (forall k :: Guarded(s, k)) && DisjointWindows(s, k)
    ensures DisjointWindows(Final(s, steps), k)
    decreases |steps|
  {
    if steps != [] {
      assert Guarded(s, k);
      StepKeepsInv(s, steps[0]);
      GuardedIffNoStaleDelete(s, steps[0]);
      StepKeepsDisjoint(s, steps[0], k);
      WindowsDisjointFrom(Next(s, steps[0]), steps[1..], k);
    }
  }

  /** Theorem. In every run without a stale DELETE, all windows of a key are disjoint, not only the first. */
  lemma WindowsDisjoint(steps: seq<Step>, k: Key)
    requires CanRun(Init(), steps) && NoStaleDeletes(Init(), steps)
    ensures DisjointWindows(Final(Init(), steps), k)
  {
    InitOk();
    WindowsDisjointFrom(Init(), steps, k);
  }

  // ---- alone, the steps are the store's `BeginOrReplay` ---------------------------------------

  lemma {:induction false} Extend(s: State, steps: seq<Step>, st: Step)
    requires CanRun(s, steps) && Enabled(Final(s, steps), st)
    ensures CanRun(s, steps + [st]) && Final(s, steps + [st]) == Next(Final(s, steps), st)
    decreases |steps|
  {
    if steps == [] {
      assert steps + [st] == [st];
    } else {
      Extend(Next(s, steps[0]), steps[1..], st);
      assert (steps + [st])[1..] == steps[1..] + [st];
    }
  }

  /** OpenTx and Insert in a row, on a key with a row. */
  lemma MeetRow(s: State, pid: nat) returns (steps: seq<Step>)
    requires pid in s.handlers && s.handlers[pid].pc == Arrived && s.handlers[pid].req.key in s.table
    ensures CanRun(s, steps) && Final(s, steps) == s.(handlers := s.handlers[pid := s.handlers[pid].(pc := Selecting)])
  {
    var s1 := Next(s, By(pid, OpenTx));
    Extend(s, [], By(pid, OpenTx));
    steps := [] + [By(pid, OpenTx)];
    var s2 := Next(s1, By(pid, Insert));
    Extend(s, steps, By(pid, Insert));
    steps := steps + [By(pid, Insert)];
    assert s2.handlers == s.handlers[pid := s2.handlers[pid]];
  }

  /** OpenTx, Insert, Select and Check in a row, on a row that exists. */
  lemma ReadExisting(s: State, pid: nat) returns (steps: seq<Step>)
    requires pid in s.handlers && s.handlers[pid].pc == Arrived && s.handlers[pid].req.key in s.table
    ensures CanRun(s, steps)
    ensures var h := s.handlers[pid]; var row := s.table[h.req.key];
            var h' := if row.expires < s.clock then h.(pc := Deleting) else Answering(h, RowAnswer(row, h.req.hash), Some(row));
            Final(s, steps) == s.(handlers := s.handlers[pid := h'])
  {
    steps := MeetRow(s, pid);
    var s2 := Final(s, steps);
    var s3 := Next(s2, By(pid, Select));
    Extend(s, steps, By(pid, Select));
    steps := steps + [By(pid, Select)];
    var s4 := Next(s3, By(pid, Check));
    Extend(s, steps, By(pid, Check));
    steps := steps + [By(pid, Check)];
    assert s4.handlers == s.handlers[pid := s4.handlers[pid]];
  }

  /** OpenTx and Insert in a row, on a key with no row. */
  lemma InsertFresh(s: State, steps0: seq<Step>, pid: nat) returns (steps: seq<Step>)
    requires CanRun(s, steps0)
    requires var t := Final(s, steps0); pid in t.handlers && t.handlers[pid].pc == Arrived && t.handlers[pid].req.key !in t.table
    ensures CanRun(s, steps)
    ensures var t, u := Final(s, steps0), Final(s, steps); var req := t.handlers[pid].req;
            && u.table == t.table[req.key := PendingRow(pid, req.hash, t.clock + TTL)]
            && pid in u.handlers && u.handlers[pid].pc == Granted(|Grants(t, req.key)|)
  {
    var t := Final(s, steps0);
    var t1 := Next(t, By(pid, OpenTx));
    Extend(s, steps0, By(pid, OpenTx));
    steps := steps0 + [By(pid, OpenTx)];
    Extend(s, steps, By(pid, Insert));
    steps := steps + [By(pid, Insert)];
  }

  /**
    Theorem. A handler whose steps nothing interrupts does what `BeginOrReplay` promises: it
    answers `Decide` of the table it found, and leaves the table `Begun`.
  */
  lemma UninterruptedBegin(s: State, pid: nat) returns (steps: seq<Step>)
    requires pid in s.handlers && s.handlers[pid].pc == Arrived
    ensures CanRun(s, steps)
    ensures var t := Final(s, steps); var req := s.handlers[pid].req; var a := Decide(s.table, req.key, req.hash, s.clock);
            && t.table == Begun(s.table, req.key, req.hash, TTL, s.clock, pid)
            && pid in t.handlers
            && if a == Execute then t.handlers[pid].pc.Granted? else t.handlers[pid].pc.Answered? && t.handlers[pid].pc.answer == a
  {
    var k := s.handlers[pid].req.key;
    if k !in s.table {
      steps := InsertFresh(s, [], pid);
    } else {
      steps := ReadExisting(s, pid);
      if s.table[k].expires < s.clock {
        Extend(s, steps, By(pid, Delete));
        steps := InsertFresh(s, steps + [By(pid, Delete)], pid);
        assert Final(s, steps).table == s.table[k := PendingRow(pid, s.handlers[pid].req.hash, s.clock + TTL)];
      }
    }
  }

  /** `t` is `s` after `pid` was granted a key without a row and committed its effect. */
  ghost predicate CommitsFresh(s: State, t: State, pid: nat, o: Outcome) {
    && pid in s.handlers
    && var req := s.handlers[pid].req;
       && t.clock == s.clock && t.handlers.Keys == s.handlers.Keys
       && t.table == s.table[req.key := PendingRow(pid, req.hash, s.clock + TTL)]
       && Commits(t, req.key) == Commits(s, req.key) + 1
       && Grants(t, req.key) == Grants(s, req.key) + [Grant(pid, req.hash, s.clock, s.clock + TTL, Some(o))]
       && (forall k | k != req.key :: Commits(t, k) == Commits(s, k) && Grants(t, k) == Grants(s, k))
  }

  lemma FreshCommit(s: State, s1: State, s2: State, t: State, pid: nat, o: Outcome)
    requires pid in s.handlers && s.handlers[pid].pc == Arrived && OutcomeOf(s.handlers[pid].req.kind, o) && o.committed
    requires s.handlers[pid].req.key !in s.table
    requires s1 == Next(s, By(pid, OpenTx)) && s2 == Next(s1, By(pid, Insert)) && t == Next(s2, By(pid, Run(o)))
    ensures CommitsFresh(s, t, pid, o)
  {
    var req := s.handlers[pid].req;
    assert Grants(s2, req.key) == Grants(s, req.key) + [Grant(pid, req.hash, s.clock, s.clock + TTL, None)];
  }

  // A run in which the race happens: three handlers, one key.

  /** A new request finds the expired row and stops just before its DELETE. */
  lemma MeetExpired(steps: seq<Step>, pid: nat, req: Request) returns (steps': seq<Step>)
    requires CanRun(Init(), steps)
    requires var s := Final(Init(), steps);
             pid !in s.handlers && req.key in s.table && s.table[req.key].expires < s.clock
    ensures CanRun(Init(), steps')
    ensures var s := Final(Init(), steps);
            Final(Init(), steps') == s.(handlers := s.handlers[pid := Handler(req, Deleting, None)])
  {
    var s := Final(Init(), steps);
    Extend(Init(), steps, Arrive(pid, req));
    steps' := steps + [Arrive(pid, req)];
    var s1 := Next(s, Arrive(pid, req));
    var s2 := Next(s1, By(pid, OpenTx));
    Extend(Init(), steps', By(pid, OpenTx));
    steps' := steps' + [By(pid, OpenTx)];
    var s3 := Next(s2, By(pid, Insert));
    Extend(Init(), steps', By(pid, Insert));
    steps' := steps' + [By(pid, Insert)];
    var s4 := Next(s3, By(pid, Select));
    Extend(Init(), steps', By(pid, Select));
    steps' := steps' + [By(pid, Select)];
    Extend(Init(), steps', By(pid, Check));
    steps' := steps' + [By(pid, Check)];
    assert Final(Init(), steps').handlers == s.handlers[pid := Handler(req, Deleting, None)];
  }

  /** A handler about to DELETE goes on to insert its own row. */
  lemma ReclaimRow(steps: seq<Step>, pid: nat) returns (steps': seq<Step>)
    requires CanRun(Init(), steps)
    requires var s := Final(Init(), steps); pid in s.handlers && s.handlers[pid].pc == Deleting
    ensures CanRun(Init(), steps')
    ensures var s, t := Final(Init(), steps), Final(Init(), steps'); var req := s.handlers[pid].req; var n := |Grants(s, req.key)|;
            && t.clock == s.clock && t.commits == s.commits
            && t.handlers == s.handlers[pid := s.handlers[pid].(pc := Granted(n))]
            && Grants(t, req.key) == Grants(s, req.key) + [Grant(pid, req.hash, s.clock, s.clock + TTL, None)]
  {
    var s := Final(Init(), steps);
    Extend(Init(), steps, By(pid, Delete));
    steps' := steps + [By(pid, Delete)];
    var s1 := Next(s, By(pid, Delete));
    Extend(Init(), steps', By(pid, OpenTx));
    steps' := steps' + [By(pid, OpenTx)];
    var s2 := Next(s1, By(pid, OpenTx));
    Extend(Init(), steps', By(pid, Insert));
    steps' := steps' + [By(pid, Insert)];
    var s3 := Next(s2, By(pid, Insert));
    assert s3.handlers == s.handlers[pid := s3.handlers[pid]];
  }

  /** ... and to commit. */
  lemma ReclaimAndRun(steps: seq<Step>, pid: nat, o: Outcome) returns (steps': seq<Step>)
    requires CanRun(Init(), steps)
    requires var s := Final(Init(), steps);
             && pid in s.handlers && s.handlers[pid].pc == Deleting
             && OutcomeOf(s.handlers[pid].req.kind, o) && o.committed
    ensures CanRun(Init(), steps')
    ensures var s, t := Final(Init(), steps), Final(Init(), steps'); var req := s.handlers[pid].req; var k := req.key;
            && t.clock == s.clock && t.handlers.Keys == s.handlers.Keys
            && (forall p | p in s.handlers && p != pid :: t.handlers[p] == s.handlers[p])
            && Grants(t, k) == Grants(s, k) + [Grant(pid, req.hash, s.clock, s.clock + TTL, Some(o))]
            && Commits(t, k) == Commits(s, k) + 1
  {
    steps' := ReclaimRow(steps, pid);
    Extend(Init(), steps', By(pid, Run(o)));
    steps' := steps' + [By(pid, Run(o))];
  }

  lemma FirstGrant(req: Request) returns (steps: seq<Step>)
    ensures CanRun(Init(), steps)
    ensures var s := Final(Init(), steps);
            && s.clock == TTL + 1 && s.handlers.Keys == {0}
            && Grants(s, req.key) == [Grant(0, req.hash, 0, TTL, None)] && Commits(s, req.key) == 0
            && req.key in s.table && s.table[req.key].expires == TTL
  {
    var s1 := Next(Init(), Arrive(0, req));
    Extend(Init(), [], Arrive(0, req));
    steps := [] + [Arrive(0, req)];
    Extend(Init(), steps, By(0, OpenTx));
    var s2 := Next(s1, By(0, OpenTx));
    steps := steps + [By(0, OpenTx)];
    Extend(Init(), steps, By(0, Insert));
    var s3 := Next(s2, By(0, Insert));
    steps := steps + [By(0, Insert)];
    assert Grants(s3, req.key) == [Grant(0, req.hash, 0, TTL, None)];
    Extend(Init(), steps, Tick(TTL + 1));
    steps := steps + [Tick(TTL + 1)];
  }

  /**
    Theorem (the reclaim race). For every request there is a run in which two handlers, both
    holding a read of the expired first row, are granted the key one after the other in the
    same open window, and both commit: at most once fails in the second window.
  */
  lemma ReclaimRace(req: Request, o: Outcome) returns (steps: seq<Step>)
    requires OutcomeOf(req.kind, o) && o.committed
    ensures CanRun(Init(), steps)
    ensures var s := Final(Init(), steps); var g := Grants(s, req.key);
            && |g| == 3 && Commits(s, req.key) == 2
            && g[1].at <= g[2].at <= g[1].expires && !DisjointWindows(s, req.key)
  {
    steps := FirstGrant(req);
    steps := MeetExpired(steps, 1, req);
    steps := MeetExpired(steps, 2, req);
    steps := ReclaimAndRun(steps, 1, o);
    steps := ReclaimAndRun(steps, 2, o);
  }
}
