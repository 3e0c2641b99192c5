/**
  Client and gateways together.

  One client process keeps a retry queue in SQLite and flushes it against the
  gateways of module `Gateway`. Every SQLite statement, every HTTP try and every
  gateway statement is one step, and steps interleave freely. Requests and replies
  may be lost, the client may crash between any two statements and flush again,
  gateways may crash, and other clients may send anything, also with the same keys.
*/
module EndToEnd {
  import opened Prelude
  import opened Client
  import Idem = Idempotency
  import Gw = Gateway
  import Q = RetryQueue

  /** The workspace of the client's API key, its queue bound, and the bytes a write is posted as. */
  datatype Config = Config(workspace: nat, maxSize: nat, hash: Q.Write -> Idem.Digest)

  /** Where `flush` stands; the head of `batch` is the item being handled. */
  datatype Pc =
    | Idle
    | Posting(batch: seq<Q.Item>, tries: nat, auto: string)             // next: send a request
    | Waiting(batch: seq<Q.Item>, tries: nat, auto: string, pid: nat)   // a request is out
    | Acking(batch: seq<Q.Item>)                                        // sent; next: DELETE FROM pending
    | PuttingOff(batch: seq<Q.Item>)                                    // network failure; next: UPDATE pending
    | Burying(batch: seq<Q.Item>, stop: bool)                           // given up; next: INSERT INTO dead
    | Removing(batch: seq<Q.Item>, stop: bool)                          // buried; next: DELETE FROM pending

  /** How a try went, and which one of its `_post` it was. */
  datatype Try = Try(call: Call, n: nat)

  datatype State = State(
    gw: Gw.State,
    q: Q.Tables,
    pc: Pc,
    crashed: bool,                 // history: did the client ever crash?
    accepted: map<nat, Q.Write>,   // history: every item ever enqueued, by id
    sent: map<nat, nat>,           // history: items sent successfully, with the handler that replied
    buried: seq<nat>,              // history: the item behind each row of `dead`
    waited: map<nat, seq<real>>,   // history: the backoff delays given to each item
    last: map<nat, Try>,           // history: the latest try of each item
    causes: seq<Try>)              // history: the latest try as each row of `dead` was written

  datatype Step =
    | Gateway(st: Gw.Step)                                // any step of any gateway or other client
    | Enqueue(write: Q.Write, now: real)
    | ReadDue(now: real)
    | Post(pid: nat, auto: string)                        // `auto`: the generated key, one per `_post`
    | Receive(title: string, empty: bool, jsonOk: bool, retryAfter: real)
    | Lose                                                // request or reply lost, or timeout
    | Ack
    | PutOff(err: string, now: real, delay: real)
    | Bury(err: string, now: real)
    | Remove
    | CrashClient

  function Upper(c: char): char {
    if 'a' <= c <= 'z' then c - 'a' + 'A' else c
  }

  predicate IsBlank(c: char) {
    c == ' ' || '\t' <= c <= '\r' || '\U{1c}' <= c <= '\U{1f}'
  }

  function SkipBlanks(s: string): string {
    if s != "" && IsBlank(s[0]) then SkipBlanks(s[1..]) else s
  }

  predicate StartsWith(s: string, word: string) {
    |word| <= |s| && forall i | 0 <= i < |word| :: Upper(s[i]) == word[i]
  }

  /** The statements for which `execute` generates no key. */
  predicate IsRead(sql: string) {
    var s := SkipBlanks(sql);
    StartsWith(s, "SELECT") || StartsWith(s, "SHOW") || StartsWith(s, "EXPLAIN")
  }

  /** An empty key counts as none, and `_post` generates one unless the statement is a read. */
  function RequestFor(c: Config, w: Q.Write, auto: string): Gw.Request {
    Gw.Request(Gw.Sql, Idem.Key(c.workspace, if w.key != "" then w.key else auto), c.hash(w))
  }

  function ResponseOf(r: Gw.Reply, st: Step): Response
    requires st.Receive?
  {
    Response(r.status, st.title, st.empty, st.jsonOk, r.replayed, st.retryAfter)
  }

  predicate Enabled(c: Config, s: State, st: Step) {
    match st
    case Gateway(g) => Gw.Enabled(s.gw, g)
    case Enqueue(_, _) => |s.q.pending| < c.maxSize
    case ReadDue(_) => s.pc.Idle?
    case Post(pid, auto) =>
      s.pc.Posting? && s.pc.batch != [] && pid !in s.gw.handlers && (s.pc.tries > 0 ==> auto == s.pc.auto)
    case Receive(_, _, _, _) =>
      s.pc.Waiting? && s.pc.batch != [] && s.pc.pid in s.gw.handlers && s.gw.handlers[s.pc.pid].reply.Some?
    case Lose => s.pc.Waiting? && s.pc.batch != []
    case Ack => s.pc.Acking? && s.pc.batch != []
    case PutOff(_, _, delay) =>
      s.pc.PuttingOff? && s.pc.batch != [] && 0.0 <= delay <= Q.DelayCap(s.pc.batch[0].attempts + 1)
    case Bury(_, _) => s.pc.Burying? && s.pc.batch != []
    case Remove => s.pc.Removing? && s.pc.batch != []
    case CrashClient => true
  }

  /** After the head item is dealt with: the rest of the batch, or the next `next_due`. */
  function Rest(batch: seq<Q.Item>): Pc
    requires batch != []
  {
    if |batch| == 1 then Idle else Posting(batch[1..], 0, "")
  }

  /** What `with_retry` and `flush` make of the outcome of one try. */
  function AfterTry(batch: seq<Q.Item>, tries: nat, auto: string, call: Call): Pc
    requires batch != []
  {
    if call.Success? then Acking(batch)
    else if Transient(call) && tries + 1 < MAX_TRIES then Posting(batch, tries + 1, auto)
    else if call.why.Network? then
      if batch[0].attempts + 1 >= Q.MAX_ATTEMPTS then Burying(batch, true) else PuttingOff(batch)
    else Burying(batch, false)
  }

  function Next(c: Config, s: State, st: Step): State
    requires Enabled(c, s, st)
  {
    match st
    case Gateway(g) => s.(gw := Gw.Next(s.gw, g))
    case Enqueue(w, now) =>
      s.(q := Q.InsertPending(s.q, w, now), accepted := s.accepted[s.q.nextId := w])
    case ReadDue(now) =>
      var batch := Q.Due(s.q.pending, now, Q.BATCH);
      s.(pc := if batch == [] then Idle else Posting(batch, 0, ""))
    case Post(pid, auto) =>
      s.(gw := Gw.Next(s.gw, Gw.Arrive(pid, RequestFor(c, s.pc.batch[0].write, auto))),
         pc := Waiting(s.pc.batch, s.pc.tries, auto, pid))
    case Receive(_, _, _, _) =>
      var call := Handle(ResponseOf(s.gw.handlers[s.pc.pid].reply.value, st));
      s.(pc := AfterTry(s.pc.batch, s.pc.tries, s.pc.auto, call),
         sent := if call.Success? then s.sent[s.pc.batch[0].id := s.pc.pid] else s.sent,
         last := s.last[s.pc.batch[0].id := Try(call, s.pc.tries + 1)])
    case Lose =>
      s.(pc := AfterTry(s.pc.batch, s.pc.tries, s.pc.auto, Failed(Network)),
         last := s.last[s.pc.batch[0].id := Try(Failed(Network), s.pc.tries + 1)])
    case Ack => s.(q := Q.DeletePending(s.q, s.pc.batch[0].id), pc := Rest(s.pc.batch))
    case PutOff(err, now, delay) =>
      var x := s.pc.batch[0];
      s.(q := Q.Reschedule(s.q, x.id, x.attempts + 1, err, now + delay), pc := Idle,
         waited := s.waited[x.id := Waited(s, x.id) + [delay]])
    case Bury(err, now) =>
      var x := s.pc.batch[0];
      s.(q := Q.InsertDead(s.q, Q.Buried(x, err, now)), pc := Removing(s.pc.batch, s.pc.stop),
         buried := s.buried + [x.id], causes := s.causes + [LastTry(s, x.id)])
    case Remove =>
      s.(q := Q.DeletePending(s.q, s.pc.batch[0].id), pc := if s.pc.stop then Idle else Rest(s.pc.batch))
    case CrashClient => s.(pc := Idle, crashed := true)
  }

  function Waited(s: State, id: nat): seq<real> {
    if id in s.waited then s.waited[id] else []
  }

  function LastTry(s: State, id: nat): Try {
    if id in s.last then s.last[id] else Try(Failed(Network), 0)
  }

  function Init(): State {
    State(Gw.Init(), Q.Tables([], [], 1), Idle, false, map[], map[], [], map[], map[], [])
  }

  predicate CanRun(c: Config, s: State, steps: seq<Step>)
    decreases |steps|
  {
    steps == [] || (Enabled(c, s, steps[0]) && CanRun(c, Next(c, s, steps[0]), steps[1..]))
  }

  function Final(c: Config, s: State, steps: seq<Step>): State
    requires CanRun(c, s, steps)
    decreases |steps|
  {
    if steps == [] then s else Final(c, Next(c, s, steps[0]), steps[1..])
  }

  // ---- the invariant ---------------------------------------------------------------------

  function Batch(pc: Pc): seq<Q.Item> {
    if pc.Idle? then [] else pc.batch
  }

  /** The id of the item in hand. */
  function Head(pc: Pc): Option<nat> {
    if Batch(pc) == [] then None else Some(Batch(pc)[0].id)
  }

  /** Is there a pending row with this id? */
  ghost predicate InPending(s: State, id: nat) {
    exists x :: x in s.q.pending && x.id == id
  }

  ghost predicate TablesOk(c: Config, s: State) {
    && Q.Wellformed(s.q) && |s.q.pending| <= c.maxSize
    && (forall x | x in s.q.pending :: x.id in s.accepted && s.accepted[x.id] == x.write)
    && (forall id | id in s.accepted :: id < s.q.nextId)
    && (forall id | id in s.sent :: id in s.accepted)
  }

  /** The batch in hand mirrors rows still pending, in id order. */
  ghost predicate BatchOk(s: State) {
    && (s.pc.Idle? <==> Batch(s.pc) == [])
    && Q.Ascending(Batch(s.pc))
    && (forall x | x in Batch(s.pc) :: x in s.q.pending)
    && (s.pc.PuttingOff? ==> s.pc.batch[0].attempts + 1 < Q.MAX_ATTEMPTS)
    && (s.pc.Acking? ==> Head(s.pc).value in s.sent)
    && (s.pc.Removing? ==> Head(s.pc).value in s.buried)
  }

  ghost predicate WaitingOk(c: Config, s: State) {
    s.pc.Waiting? && s.pc.batch != [] ==>
      s.pc.pid in s.gw.handlers && s.gw.handlers[s.pc.pid].req == RequestFor(c, s.pc.batch[0].write, s.pc.auto)
  }

  /** Every item recorded as sent has a success reply to its own request behind it. */
  ghost predicate SentOk(c: Config, s: State) {
    forall id | id in s.sent ::
      && id in s.accepted && s.sent[id] in s.gw.handlers
      && var h := s.gw.handlers[s.sent[id]];
         && h.reply.Some? && h.reply.value.status < 300
         && (exists auto :: h.req == RequestFor(c, s.accepted[id], auto))
  }

  ghost predicate BuriedOk(s: State) {
    && |s.buried| == |s.q.dead|
    && forall i | 0 <= i < |s.buried| :: s.buried[i] in s.accepted && s.accepted[s.buried[i]] == s.q.dead[i].write
  }

  ghost predicate NotLost(s: State) {
    forall id | id in s.accepted :: InPending(s, id) || id in s.sent || id in s.buried
  }

  /** Without crashes an item has one home, except between the two statements that move it. */
  ghost predicate OneHome(s: State) {
    !s.crashed ==>
      && (forall id | id in s.sent :: id !in s.buried && (InPending(s, id) ==> s.pc.Acking? && Head(s.pc) == Some(id)))
      && (forall id | id in s.buried :: InPending(s, id) ==> s.pc.Removing? && Head(s.pc) == Some(id))
      && (forall i, j | 0 <= i < j < |s.buried| :: s.buried[i] != s.buried[j])
  }

  /** Delays drawn for the first, second, ... failure of one item. */
  ghost predicate FairDelays(ds: seq<real>) {
    ds == [] || (FairDelays(ds[..|ds| - 1]) && 0.0 <= ds[|ds| - 1] <= Q.DelayCap(|ds|))
  }

  function Sum(ds: seq<real>): real {
    if ds == [] then 0.0 else Sum(ds[..|ds| - 1]) + ds[|ds| - 1]
  }

  /** One delay per failed attempt, each within its range. */
  ghost predicate WaitedOk(s: State) {
    && (forall x | x in s.q.pending :: |Waited(s, x.id)| == x.attempts)
    && (forall id | id in s.waited :: id in s.accepted && |s.waited[id]| < Q.MAX_ATTEMPTS && FairDelays(s.waited[id]))
  }

  ghost predicate Queued(c: Config, s: State) {
    TablesOk(c, s) && BatchOk(s) && BuriedOk(s) && NotLost(s) && OneHome(s) && WaitedOk(s)
  }

  ghost predicate Served(c: Config, s: State) {
    Gw.Inv(s.gw) && WaitingOk(c, s) && SentOk(c, s)
  }

  ghost predicate Inv(c: Config, s: State) {
    Queued(c, s) && Served(c, s)
  }

  // ---- every step keeps it -----------------------------------------------------------------

  // The gateway side.

  lemma GatewayKeepsServed(c: Config, s: State, g: Gw.Step)
    requires Served(c, s) && Gw.Enabled(s.gw, g)
    ensures Served(c, s.(gw := Gw.Next(s.gw, g)))
  {
    Gw.StepKeepsInv(s.gw, g);
    var s' := s.(gw := Gw.Next(s.gw, g));
    forall id | id in s.sent ensures s.sent[id] in s'.gw.handlers && s'.gw.handlers[s.sent[id]].reply == s.gw.handlers[s.sent[id]].reply
                             ensures s'.gw.handlers[s.sent[id]].req == s.gw.handlers[s.sent[id]].req
    {
      Gw.ReplyIsFinal(s.gw, g, s.sent[id]);
    }
  }

  lemma ServedFrame(c: Config, s: State, s': State)
    requires Served(c, s) && s'.gw == s.gw && s'.sent == s.sent && !s'.pc.Waiting?
    requires forall id | id in s.accepted :: id in s'.accepted && s'.accepted[id] == s.accepted[id]
    ensures Served(c, s')
  {
  }

  lemma ReceiveKeepsServed(c: Config, s: State, st: Step)
    requires Served(c, s) && Enabled(c, s, st) && st.Receive?
    requires var x := s.pc.batch[0]; x.id in s.accepted && s.accepted[x.id] == x.write
    ensures Served(c, Next(c, s, st))
  {
  }

  lemma EnqueueKeepsServed(c: Config, s: State, s': State, id: nat, w: Q.Write)
    requires Served(c, s) && id !in s.accepted && s'.accepted == s.accepted[id := w]
    requires s'.gw == s.gw && s'.pc == s.pc && s'.sent == s.sent
    ensures Served(c, s')
  {
  }

  lemma PostKeepsServed(c: Config, s: State, s': State, pid: nat, auto: string)
    requires Served(c, s) && pid !in s.gw.handlers && s.pc.Posting? && s.pc.batch != []
    requires s' == s.(gw := Gw.Next(s.gw, Gw.Arrive(pid, RequestFor(c, s.pc.batch[0].write, auto))),
                      pc := Waiting(s.pc.batch, s.pc.tries, auto, pid))
    ensures Served(c, s')
  {
    GatewayKeepsServed(c, s, Gw.Arrive(pid, RequestFor(c, s.pc.batch[0].write, auto)));
  }

  lemma StepKeepsServed(c: Config, s: State, st: Step, s': State)
    requires Served(c, s) && Enabled(c, s, st) && s' == Next(c, s, st)
    requires s.q.nextId !in s.accepted
    requires Batch(s.pc) != [] ==> var x := Batch(s.pc)[0]; x.id in s.accepted && s.accepted[x.id] == x.write
    ensures Served(c, s')
  {
    match st {
      case Gateway(g) => GatewayKeepsServed(c, s, g);
      case Post(pid, auto) => PostKeepsServed(c, s, s', pid, auto);
      case Receive(_, _, _, _) => ReceiveKeepsServed(c, s, st);
      case Enqueue(w, _) => EnqueueKeepsServed(c, s, s', s.q.nextId, w);
      case _ => ServedFrame(c, s, s');
    }
  }

  // The queue side.

  /** Only `pc` or the gateways moved, and the batch in hand is the same. */
  lemma QueuedFrame(c: Config, s: State, s': State)
    requires Queued(c, s) && s'.q == s.q && s'.accepted == s.accepted && s'.buried == s.buried && s'.waited == s.waited
    requires BatchOk(s') && s'.crashed == s.crashed && s'.sent == s.sent
    requires s.pc.Acking? ==> s'.pc == s.pc
    requires s.pc.Removing? ==> s'.pc == s.pc
    ensures Queued(c, s')
  {
    SameIds(s, s');
  }

  lemma EnqueueKeepsQueued(c: Config, s: State, s': State, w: Q.Write, now: real)
    requires Queued(c, s) && |s.q.pending| < c.maxSize
    requires s' == s.(q := Q.InsertPending(s.q, w, now), accepted := s.accepted[s.q.nextId := w])
    ensures Queued(c, s')
  {
    var x := Q.Item(s.q.nextId, w, 0, None, now);
    assert s'.q.pending == s.q.pending + [x];
    assert x.id !in s.accepted;
    EnqueueIds(s, s', x);
    EnqueueTables(c, s, s', x);
    EnqueueHomes(s, s', x.id);
    EnqueueWaited(s, s', x);
  }

  lemma EnqueueIds(s: State, s': State, x: Q.Item)
    requires s'.q.pending == s.q.pending + [x]
    ensures forall id :: InPending(s', id) <==> InPending(s, id) || id == x.id
  {
    assert x in s'.q.pending;
  }

  lemma EnqueueTables(c: Config, s: State, s': State, x: Q.Item)
    requires TablesOk(c, s) && BatchOk(s) && |s.q.pending| < c.maxSize && x.id == s.q.nextId && x.attempts == 0
    requires s'.q == s.q.(pending := s.q.pending + [x], nextId := s.q.nextId + 1) && s'.accepted == s.accepted[x.id := x.write]
    requires s'.sent == s.sent && s'.pc == s.pc && s'.buried == s.buried
    ensures TablesOk(c, s') && BatchOk(s')
  {
  }

  lemma EnqueueHomes(s: State, s': State, new': nat)
    requires NotLost(s) && OneHome(s) && BuriedOk(s) && new' !in s.accepted && forall id | id in s.sent :: id in s.accepted
    requires forall id :: InPending(s', id) <==> InPending(s, id) || id == new'
    requires s'.accepted.Keys == s.accepted.Keys + {new'} && forall id | id in s.accepted :: s'.accepted[id] == s.accepted[id]
    requires s'.sent == s.sent && s'.buried == s.buried && s'.crashed == s.crashed && s'.pc == s.pc && s'.q.dead == s.q.dead
    ensures NotLost(s') && OneHome(s') && BuriedOk(s')
  {
  }

  lemma EnqueueWaited(s: State, s': State, x: Q.Item)
    requires WaitedOk(s) && s'.q.pending == s.q.pending + [x] && x.attempts == 0 && x.id !in s.waited && s'.waited == s.waited
    requires forall id | id in s.accepted :: id in s'.accepted
    ensures WaitedOk(s')
  {
  }

  lemma ReadDueKeepsQueued(c: Config, s: State, s': State, now: real)
    requires Queued(c, s) && s.pc.Idle?
    requires var batch := Q.Due(s.q.pending, now, Q.BATCH);
             s' == s.(pc := if batch == [] then Idle else Posting(batch, 0, ""))
    ensures Queued(c, s')
  {
    Q.DueAscending(s.q.pending, now);
    Q.DueMembers(s.q.pending, now);
    QueuedFrame(c, s, s');
  }

  lemma HeadIsPending(c: Config, s: State)
    requires Queued(c, s) && Batch(s.pc) != []
    ensures var x := Batch(s.pc)[0]; x in s.q.pending && InPending(s, x.id) && x.id in s.accepted && s.accepted[x.id] == x.write
    ensures !s.crashed && !s.pc.Acking? ==> Batch(s.pc)[0].id !in s.sent
    ensures !s.crashed && !s.pc.Removing? ==> Batch(s.pc)[0].id !in s.buried
  {
    var x := Batch(s.pc)[0];
    assert x in s.q.pending;
    assert InPending(s, x.id);
  }

  lemma TryKeepsQueued(c: Config, s: State, s': State, call: Call)
    requires Queued(c, s) && s.pc.Waiting? && s.pc.batch != []
    requires s' == s.(pc := AfterTry(s.pc.batch, s.pc.tries, s.pc.auto, call),
                      sent := if call.Success? then s.sent[s.pc.batch[0].id := s.pc.pid] else s.sent, last := s'.last)
    ensures Queued(c, s')
  {
    if call.Success? {
      SuccessKeepsQueued(c, s, s');
    } else {
      QueuedFrame(c, s, s');
    }
  }

  lemma SuccessKeepsQueued(c: Config, s: State, s': State)
    requires Queued(c, s) && s.pc.Waiting? && s.pc.batch != []
    requires s' == s.(pc := Acking(s.pc.batch), sent := s.sent[s.pc.batch[0].id := s.pc.pid], last := s'.last)
    ensures Queued(c, s')
  {
    HeadIsPending(c, s);
    SameIds(s, s');
  }

  /** Facts about deleting the head item's row. */
  lemma HeadRemoved(c: Config, s: State, q': Q.Tables)
    requires Queued(c, s) && Batch(s.pc) != []
    requires q' == Q.DeletePending(s.q, Batch(s.pc)[0].id)
    ensures Q.Wellformed(q') && |q'.pending| <= |s.q.pending|
    ensures forall x | x in q'.pending :: x in s.q.pending && x.id != Batch(s.pc)[0].id
    ensures forall x | x in s.q.pending && x.id != Batch(s.pc)[0].id :: x in q'.pending
    ensures forall y | y in Batch(s.pc)[1..] :: y in q'.pending
  {
    var x := Batch(s.pc)[0];
    HeadIsPending(c, s);
    Q.WithoutFacts(s.q.pending, x);
    forall y | y in s.q.pending && y != x ensures y.id != x.id {
      Q.PositionOf(s.q.pending, x);
      Q.PositionOf(s.q.pending, y);
    }
    TailDiffers(Batch(s.pc));
  }

  lemma TailDiffers(batch: seq<Q.Item>)
    requires batch != [] && Q.Ascending(batch)
    ensures forall y | y in batch[1..] :: y in batch && y.id != batch[0].id
  {
    forall y | y in batch[1..] ensures y in batch && y.id != batch[0].id {
      var j :| 0 <= j < |batch| - 1 && batch[1..][j] == y;
      assert batch[j + 1] == y;
    }
  }

  lemma RestOk(batch: seq<Q.Item>)
    requires batch != [] && Q.Ascending(batch)
    ensures Q.Ascending(batch[1..]) && Batch(Rest(batch)) == batch[1..]
    ensures Rest(batch).Idle? || Rest(batch).Posting?
    ensures Rest(batch).Idle? <==> batch[1..] == []
  {
  }

  /** `DELETE FROM pending` of the head item, once it is sent or buried. */
  lemma DropHeadKeepsQueued(c: Config, s: State, s': State)
    requires Queued(c, s) && Batch(s.pc) != [] && (s.pc.Acking? || s.pc.Removing?)
    requires s'.pc == Idle || s'.pc == Rest(s.pc.batch)
    requires s' == s.(q := Q.DeletePending(s.q, s.pc.batch[0].id), pc := s'.pc)
    ensures Queued(c, s')
  {
    HeadRemoved(c, s, s'.q);
    RestOk(s.pc.batch);
    DropBatch(s, s');
    DropHomes(s, s', s.pc.batch[0].id);
    DropTables(c, s, s');
  }

  lemma DropTables(c: Config, s: State, s': State)
    requires TablesOk(c, s) && BuriedOk(s) && WaitedOk(s)
    requires Q.Wellformed(s'.q) && |s'.q.pending| <= |s.q.pending| && (forall x | x in s'.q.pending :: x in s.q.pending)
    requires s'.q.nextId == s.q.nextId && s'.q.dead == s.q.dead
    requires s'.sent == s.sent && s'.buried == s.buried && s'.accepted == s.accepted && s'.waited == s.waited
    ensures TablesOk(c, s') && BuriedOk(s') && WaitedOk(s')
  {
  }

  lemma DropBatch(s: State, s': State)
    requires BatchOk(s) && Batch(s.pc) != []
    requires s'.pc == Idle || (s'.pc == Rest(Batch(s.pc)) && Batch(s'.pc) == Batch(s.pc)[1..] && Q.Ascending(Batch(s.pc)[1..])
                               && (s'.pc.Idle? || s'.pc.Posting?) && (s'.pc.Idle? <==> Batch(s.pc)[1..] == []))
    requires forall y | y in Batch(s.pc)[1..] :: y in s'.q.pending
    ensures BatchOk(s')
  {
  }

  lemma DropHomes(s: State, s': State, id: nat)
    requires NotLost(s) && OneHome(s) && Head(s.pc) == Some(id) && (s.pc.Acking? || s.pc.Removing?) && (id in s.sent || id in s.buried)
    requires forall x | x in s'.q.pending :: x in s.q.pending && x.id != id
    requires forall x | x in s.q.pending && x.id != id :: x in s'.q.pending
    requires s'.sent == s.sent && s'.buried == s.buried && s'.accepted == s.accepted && s'.crashed == s.crashed
    ensures NotLost(s') && OneHome(s')
  {
    forall i ensures InPending(s', i) <==> InPending(s, i) && i != id {
    }
  }

  lemma BuryKeepsQueued(c: Config, s: State, s': State, err: string, now: real)
    requires Queued(c, s) && s.pc.Burying? && s.pc.batch != []
    requires var x := s.pc.batch[0];
             s' == s.(q := Q.InsertDead(s.q, Q.Buried(x, err, now)), pc := Removing(s.pc.batch, s.pc.stop),
                      buried := s.buried + [x.id], causes := s'.causes)
    ensures Queued(c, s')
  {
    var x := s.pc.batch[0];
    HeadIsPending(c, s);
    SameIds(s, s');
    BuryHomes(s, s', x.id);
    BuryDead(s, s', x, Q.Buried(x, err, now));
    BuryTables(c, s, s', Q.Buried(x, err, now));
    BuryBatch(s, s', x.id);
  }

  lemma SameIds(s: State, s': State)
    requires s'.q.pending == s.q.pending
    ensures forall id :: InPending(s', id) <==> InPending(s, id)
  {
  }

  lemma BuryBatch(s: State, s': State, id: nat)
    requires BatchOk(s) && s.pc.Burying? && s.pc.batch != [] && id == s.pc.batch[0].id
    requires s'.pc == Removing(s.pc.batch, s.pc.stop) && s'.q.pending == s.q.pending && s'.buried == s.buried + [id] && s'.sent == s.sent
    ensures BatchOk(s')
  {
  }

  lemma BuryTables(c: Config, s: State, s': State, d: Q.Dead)
    requires TablesOk(c, s) && s'.q == Q.InsertDead(s.q, d) && 1 <= d.attempts <= Q.MAX_ATTEMPTS
    requires s'.accepted == s.accepted && s'.sent == s.sent
    ensures TablesOk(c, s')
  {
  }

  lemma BuryHomes(s: State, s': State, id: nat)
    requires NotLost(s) && OneHome(s) && s.pc.Burying? && s'.pc.Removing? && Head(s'.pc) == Head(s.pc) == Some(id)
    requires InPending(s, id) && forall i :: InPending(s', i) <==> InPending(s, i)
    requires s'.sent == s.sent && s'.buried == s.buried + [id] && s'.accepted == s.accepted && s'.crashed == s.crashed
    ensures NotLost(s') && OneHome(s')
  {
    BuriedAppend(s.buried, id);
  }

  lemma BuryDead(s: State, s': State, x: Q.Item, d: Q.Dead)
    requires BuriedOk(s) && x.id in s.accepted && s.accepted[x.id] == x.write == d.write
    requires s'.q.dead == s.q.dead + [d] && s'.buried == s.buried + [x.id] && s'.accepted == s.accepted
    ensures BuriedOk(s')
  {
  }

  lemma BuriedAppend(b: seq<nat>, id: nat)
    ensures forall x :: x in b + [id] <==> x in b || x == id
  {
  }

  // Backoff accounts.

  lemma {:induction false} BudgetGrows(a: nat, b: nat)
    requires a <= b
    ensures Q.DelayBudget(a) <= Q.DelayBudget(b)
  {
    if a < b {
      BudgetGrows(a, b - 1);
    }
  }

  lemma {:induction false} SumWithinBudget(ds: seq<real>)
    requires FairDelays(ds)
    ensures Sum(ds) <= Q.DelayBudget(|ds|)
  {
    if ds != [] {
      SumWithinBudget(ds[..|ds| - 1]);
    }
  }

  lemma FairAppend(ds: seq<real>, delay: real)
    requires FairDelays(ds) && 0.0 <= delay <= Q.DelayCap(|ds| + 1)
    ensures FairDelays(ds + [delay])
  {
    var e := ds + [delay];
    assert e[..|e| - 1] == ds;
  }

  lemma PutOffWaited(s: State, s': State, x: Q.Item, x': Q.Item, delay: real)
    requires WaitedOk(s) && Q.RowReplaced(s.q.pending, s'.q.pending, x, x') && x.id in s.accepted && s'.accepted == s.accepted
    requires x'.attempts == x.attempts + 1 < Q.MAX_ATTEMPTS && 0.0 <= delay <= Q.DelayCap(x.attempts + 1)
    requires s'.waited == s.waited[x.id := Waited(s, x.id) + [delay]]
    ensures WaitedOk(s')
  {
    FairAppend(Waited(s, x.id), delay);
  }

  lemma PutOffIds(s: State, s': State, x: Q.Item, x': Q.Item)
    requires Q.RowReplaced(s.q.pending, s'.q.pending, x, x')
    ensures forall id :: InPending(s', id) <==> InPending(s, id)
  {
  }

  lemma PutOffTables(c: Config, s: State, s': State, x: Q.Item, x': Q.Item)
    requires TablesOk(c, s) && Q.RowReplaced(s.q.pending, s'.q.pending, x, x') && x'.write == x.write && x'.attempts < Q.MAX_ATTEMPTS
    requires Q.Ascending(s'.q.pending) && |s'.q.pending| == |s.q.pending|
    requires s'.q.dead == s.q.dead && s'.q.nextId == s.q.nextId && s'.accepted == s.accepted && s'.sent == s.sent
    ensures TablesOk(c, s')
  {
  }

  /** The head item's row became `x'`; nothing else in the tables changed. */
  ghost predicate HeadReplaced(s: State, q': Q.Tables, x': Q.Item) {
    && Batch(s.pc) != [] && Q.RowReplaced(s.q.pending, q'.pending, Batch(s.pc)[0], x')
    && Q.Ascending(q'.pending) && |q'.pending| == |s.q.pending| && q'.dead == s.q.dead && q'.nextId == s.q.nextId
  }

  lemma PutOffRow(c: Config, s: State, q': Q.Tables, x': Q.Item, err: string, nextAt: real)
    requires Queued(c, s) && Batch(s.pc) != []
    requires var x := Batch(s.pc)[0];
             q' == Q.Reschedule(s.q, x.id, x.attempts + 1, err, nextAt) && x' == Q.PutBack(x, x.attempts + 1, err, nextAt)
    ensures HeadReplaced(s, q', x')
  {
    var x := Batch(s.pc)[0];
    HeadIsPending(c, s);
    Q.RescheduleFacts(s.q, x, x.attempts + 1, err, nextAt);
  }

  lemma PutOffKeepsQueued(c: Config, s: State, s': State, x: Q.Item, x': Q.Item, delay: real)
    requires Queued(c, s) && s.pc.PuttingOff? && s.pc.batch != [] && x == s.pc.batch[0] && HeadReplaced(s, s'.q, x')
    requires x'.write == x.write && x'.attempts == x.attempts + 1 && 0.0 <= delay <= Q.DelayCap(x.attempts + 1)
    requires s' == s.(q := s'.q, pc := Idle, waited := s.waited[x.id := Waited(s, x.id) + [delay]])
    ensures Queued(c, s')
  {
    HeadIsPending(c, s);
    PutOffTables(c, s, s', x, x');
    PutOffWaited(s, s', x, x', delay);
    PutOffIds(s, s', x, x');
    PutOffHomes(s, s');
  }

  lemma PutOffHomes(s: State, s': State)
    requires NotLost(s) && OneHome(s) && BuriedOk(s) && s.pc.PuttingOff? && s'.pc == Idle
    requires forall id :: InPending(s', id) <==> InPending(s, id)
    requires s'.sent == s.sent && s'.buried == s.buried && s'.accepted == s.accepted && s'.crashed == s.crashed
    requires s'.q.dead == s.q.dead
    ensures NotLost(s') && OneHome(s') && BuriedOk(s')
  {
  }

  lemma CrashKeepsQueued(c: Config, s: State, s': State)
    requires Queued(c, s) && s' == s.(pc := Idle, crashed := true)
    ensures Queued(c, s')
  {
    SameIds(s, s');
  }

  /** Steps that insert or delete rows. */
  predicate Writes(st: Step) {
    st.Enqueue? || st.Ack? || st.Bury? || st.Remove?
  }

  lemma WriteKeepsQueued(c: Config, s: State, st: Step, s': State)
    requires Queued(c, s) && Enabled(c, s, st) && Writes(st) && s' == Next(c, s, st)
    ensures Queued(c, s')
  {
    match st {
      case Enqueue(w, now) => EnqueueKeepsQueued(c, s, s', w, now);
      case Bury(err, now) => BuryKeepsQueued(c, s, s', err, now);
      case _ => DropHeadKeepsQueued(c, s, s');
    }
  }

  lemma MoveKeepsQueued(c: Config, s: State, st: Step, s': State)
    requires Queued(c, s) && Enabled(c, s, st) && !Writes(st) && !st.PutOff? && s' == Next(c, s, st)
    ensures Queued(c, s')
  {
    match st {
      case ReadDue(now) => ReadDueKeepsQueued(c, s, s', now);
      case Receive(_, _, _, _) => TryKeepsQueued(c, s, s', Handle(ResponseOf(s.gw.handlers[s.pc.pid].reply.value, st)));
      case Lose => TryKeepsQueued(c, s, s', Failed(Network));
      case CrashClient => CrashKeepsQueued(c, s, s');
      case _ => QueuedFrame(c, s, s');
    }
  }

  /** The head item's row became `x'`, for another attempt after `delay`. */
  ghost predicate PutsOffBy(s: State, s': State, x': Q.Item, delay: real) {
    && s.pc.PuttingOff? && s.pc.batch != [] && HeadReplaced(s, s'.q, x')
    && var x := s.pc.batch[0];
       && x'.write == x.write && x'.attempts == x.attempts + 1 && 0.0 <= delay <= Q.DelayCap(x.attempts + 1)
       && s' == s.(q := s'.q, pc := Idle, waited := s.waited[x.id := Waited(s, x.id) + [delay]])
  }

  ghost predicate PutsOff(s: State, s': State) {
    exists x', delay :: PutsOffBy(s, s', x', delay)
  }

  /** The UPDATE as written. */
  ghost predicate ReschedulesBy(s: State, s': State, err: string, nextAt: real, delay: real) {
    && s.pc.PuttingOff? && s.pc.batch != []
    && var x := s.pc.batch[0];
       && 0.0 <= delay <= Q.DelayCap(x.attempts + 1) && s'.q == Q.Reschedule(s.q, x.id, x.attempts + 1, err, nextAt)
       && s' == s.(q := s'.q, pc := Idle, waited := s.waited[x.id := Waited(s, x.id) + [delay]])
  }

  ghost predicate Reschedules(s: State, s': State) {
    exists err, nextAt, delay :: ReschedulesBy(s, s', err, nextAt, delay)
  }

  lemma PutOffUnfolds(c: Config, s: State, st: Step, s': State)
    requires Enabled(c, s, st) && st.PutOff? && s' == Next(c, s, st)
    ensures Reschedules(s, s')
  {
    assert ReschedulesBy(s, s', st.err, st.now + st.delay, st.delay);
  }

  lemma ReschedulingPutsOff(c: Config, s: State, s': State)
    requires Queued(c, s) && Reschedules(s, s')
    ensures PutsOff(s, s')
  {
    var err, nextAt, delay :| ReschedulesBy(s, s', err, nextAt, delay);
    var x := s.pc.batch[0];
    var x' := Q.PutBack(x, x.attempts + 1, err, nextAt);
    PutOffRow(c, s, s'.q, x', err, nextAt);
    assert PutsOffBy(s, s', x', delay);
  }

  lemma PutOffAllKeepsQueued(c: Config, s: State, s': State)
    requires Queued(c, s) && PutsOff(s, s')
    ensures Queued(c, s')
  {
    var x', delay :| PutsOffBy(s, s', x', delay);
    PutOffKeepsQueued(c, s, s', s.pc.batch[0], x', delay);
  }

  lemma PutOffStepKeepsQueued(c: Config, s: State, st: Step, s': State)
    requires Queued(c, s) && Enabled(c, s, st) && st.PutOff? && s' == Next(c, s, st)
    ensures Queued(c, s')
  {
    PutOffUnfolds(c, s, st, s');
    ReschedulingPutsOff(c, s, s');
    PutOffAllKeepsQueued(c, s, s');
  }

  lemma StepKeepsQueued(c: Config, s: State, st: Step, s': State)
    requires Queued(c, s) && Enabled(c, s, st) && s' == Next(c, s, st)
    ensures Queued(c, s')
  {
    if Writes(st) {
      WriteKeepsQueued(c, s, st, s');
    } else if st.PutOff? {
      PutOffStepKeepsQueued(c, s, st, s');
    } else {
      MoveKeepsQueued(c, s, st, s');
    }
  }

  lemma StepKeepsInv(c: Config, s: State, st: Step)
    requires Inv(c, s) && Enabled(c, s, st)
    ensures Inv(c, Next(c, s, st))
  {
    if Batch(s.pc) != [] { HeadIsPending(c, s); }
    StepKeepsServed(c, s, st, Next(c, s, st));
    StepKeepsQueued(c, s, st, Next(c, s, st));
  }

  lemma {:induction false} RunKeepsInv(c: Config, s: State, steps: seq<Step>)
    requires Inv(c, s) && CanRun(c, s, steps)
    ensures Inv(c, Final(c, s, steps))
    decreases |steps|
  {
    if steps != [] {
      StepKeepsInv(c, s, steps[0]);
      RunKeepsInv(c, Next(c, s, steps[0]), steps[1..]);
    }
  }

  lemma Reachable(c: Config, steps: seq<Step>)
    requires CanRun(c, Init(), steps)
    ensures Inv(c, Final(c, Init(), steps))
  {
    Gw.InitOk();
    RunKeepsInv(c, Init(), steps);
  }

  // ---- theorems over every run -----------------------------------------------------------------

  /** A row of `pending` with this id carries the write. */
  ghost predicate Waits(s: State, id: nat)
    requires id in s.accepted
  {
    exists x :: x in s.q.pending && x.id == id && x.write == s.accepted[id]
  }

  /** A row of `dead` carries the write, and this item is the one behind it. */
  ghost predicate DeadLettered(s: State, id: nat)
    requires id in s.accepted
  {
    exists i | 0 <= i < |s.q.dead| && i < |s.buried| :: s.buried[i] == id && s.q.dead[i].write == s.accepted[id]
  }

  /** A request with the write's bytes got a reply below 300. */
  ghost predicate Sent(c: Config, s: State, id: nat)
    requires id in s.accepted
  {
    exists pid, auto | pid in s.gw.handlers ::
      && s.gw.handlers[pid].req == RequestFor(c, s.accepted[id], auto)
      && s.gw.handlers[pid].reply.Some? && s.gw.handlers[pid].reply.value.status < 300
  }

  lemma HomeOf(c: Config, s: State, id: nat)
    requires Inv(c, s) && id in s.accepted
    ensures InPending(s, id) <==> Waits(s, id)
    ensures id in s.buried <==> DeadLettered(s, id)
    ensures id in s.sent ==> Sent(c, s, id)
  {
    if id in s.buried {
      var i :| 0 <= i < |s.buried| && s.buried[i] == id;
      assert s.q.dead[i].write == s.accepted[id];
    }
    if id in s.sent {
      var auto :| s.gw.handlers[s.sent[id]].req == RequestFor(c, s.accepted[id], auto);
    }
  }

  /**
    Theorem (no write is lost). At every crash point each accepted write is in a row of
    `pending` under its id, or in a row of `dead`, or a gateway answered it with success.
  */
  lemma NoWriteLost(c: Config, steps: seq<Step>, id: nat)
    requires CanRun(c, Init(), steps) && id in Final(c, Init(), steps).accepted
    ensures var s := Final(c, Init(), steps); Waits(s, id) || DeadLettered(s, id) || Sent(c, s, id)
    ensures |Final(c, Init(), steps).q.pending| <= c.maxSize
  {
    Reachable(c, steps);
    HomeOf(c, Final(c, Init(), steps), id);
  }

  /**
    Theorem. Without client crashes, between two flushes, it is in exactly one of the three
    places: a pending row, a dead row, or sent; and no item is behind two dead rows.
  */
  lemma ExactlyOneHome(c: Config, steps: seq<Step>, id: nat)
    requires CanRun(c, Init(), steps)
    requires var s := Final(c, Init(), steps); id in s.accepted && !s.crashed && s.pc == Idle
    ensures var s := Final(c, Init(), steps);
            || (Waits(s, id) && !DeadLettered(s, id) && id !in s.sent)
            || (!Waits(s, id) && DeadLettered(s, id) && id !in s.sent)
            || (!Waits(s, id) && !DeadLettered(s, id) && id in s.sent && Sent(c, s, id))
    ensures var s := Final(c, Init(), steps);
            |s.buried| == |s.q.dead| && forall i, j | 0 <= i < j < |s.buried| :: s.buried[i] != s.buried[j]
  {
    Reachable(c, steps);
    HomeOf(c, Final(c, Init(), steps), id);
  }

  /** Theorem (retry bounds): attempts, and the total backoff an item is ever given. */
  lemma RetryBounds(c: Config, steps: seq<Step>)
    requires CanRun(c, Init(), steps)
    ensures var s := Final(c, Init(), steps);
            && (forall x | x in s.q.pending :: x.attempts <= 11)
            && (forall d | d in s.q.dead :: 1 <= d.attempts <= 12)
            && (forall id | id in s.waited :: Sum(s.waited[id]) <= 1708.0)
  {
    Reachable(c, steps);
    var s := Final(c, Init(), steps);
    forall id | id in s.waited ensures Sum(s.waited[id]) <= 1708.0 {
      SumWithinBudget(s.waited[id]);
      BudgetGrows(|s.waited[id]|, Q.MAX_ATTEMPTS - 1);
      Q.BudgetIs1708();
    }
  }

  /**
    Theorem (end to end), for items with a key. While no gateway was granted the key after its first window, an item's
    effect was committed at most once, whatever crashed, was lost or was retried; and once a
    send of the item succeeded (which is what lets it be acked) it was committed exactly once,
    by a request with the item's own bytes.
  */
  lemma ExactlyOnce(c: Config, steps: seq<Step>, id: nat)
    requires CanRun(c, Init(), steps) && id in Final(c, Init(), steps).accepted
    requires Final(c, Init(), steps).accepted[id].key != ""
    ensures var s := Final(c, Init(), steps);
            var k := Idem.Key(c.workspace, s.accepted[id].key);
            var g := Gw.Grants(s.gw, k);
            (forall i | 0 <= i < |g| :: g[i].at <= g[0].expires) ==>
              && Gw.Commits(s.gw, k) <= 1
              && (id in s.sent ==> Gw.Commits(s.gw, k) == 1 && |g| == 1 && Gw.Committed(g[0]) && g[0].hash == c.hash(s.accepted[id]))
    // so it holds at any time up to the first expiry
    ensures var s := Final(c, Init(), steps); var g := Gw.Grants(s.gw, Idem.Key(c.workspace, s.accepted[id].key));
            g != [] && s.gw.clock <= g[0].expires ==> forall i | 0 <= i < |g| :: g[i].at <= g[0].expires
  {
    Reachable(c, steps);
    var s := Final(c, Init(), steps);
    var k := Idem.Key(c.workspace, s.accepted[id].key);
    var g := Gw.Grants(s.gw, k);
    assert Gw.KeyOk(s.gw, k);
    Gw.GrantsArePast(s.gw, k);
    if forall i | 0 <= i < |g| :: g[i].at <= g[0].expires {
      assert |g| <= 1;
      Gw.CountBounded(g);
      if id in s.sent {
        assert Gw.HandlerOk(s.gw, s.sent[id]);
        Gw.CommitsNeedGrants(s.gw, k);
      }
    }
  }

  // ---- why writes are given up -----------------------------------------------------------------

  /** Tries end on an outcome that is not transient, or with the fifth. */
  ghost predicate Settled(t: Try) {
    Transient(t.call) ==> t.n == 5
  }

  ghost predicate LastIs(s: State) {
    match s.pc
    case Posting(batch, tries, _) => tries < 5
    case Waiting(batch, tries, _, _) => tries < 5
    case Acking(batch) => batch != [] ==> LastTry(s, batch[0].id).call.Success?
    case PuttingOff(batch) => batch != [] ==> LastTry(s, batch[0].id) == Try(Failed(Network), 5) && batch[0].attempts + 1 < 12
    case Burying(batch, stop) => batch != [] ==> MayGiveUp(LastTry(s, batch[0].id), batch[0].attempts + 1)
    case _ => true
  }

  /** The last try failed for good: not for the network, or for the twelfth time. */
  ghost predicate MayGiveUp(t: Try, attempts: nat) {
    t.call.Failed? && Settled(t) && (t.call.why.Network? ==> attempts >= 12)
  }

  ghost predicate CausesOk(s: State) {
    |s.causes| == |s.q.dead| && forall i | 0 <= i < |s.causes| :: MayGiveUp(s.causes[i], s.q.dead[i].attempts)
  }

  lemma {:induction false} TryLeads(batch: seq<Q.Item>, tries: nat, auto: string, call: Call, s: State)
    requires batch != [] && tries < 5 && s.pc == AfterTry(batch, tries, auto, call)
    requires LastTry(s, batch[0].id) == Try(call, tries + 1)
    ensures LastIs(s)
  {
  }

  lemma StepKeepsLast(c: Config, s: State, st: Step)
    requires LastIs(s) && Enabled(c, s, st)
    ensures LastIs(Next(c, s, st))
  {
    var s' := Next(c, s, st);
    match st {
      case Receive(_, _, _, _) =>
        TryLeads(s.pc.batch, s.pc.tries, s.pc.auto, Handle(ResponseOf(s.gw.handlers[s.pc.pid].reply.value, st)), s');
      case Lose => TryLeads(s.pc.batch, s.pc.tries, s.pc.auto, Failed(Network), s');
      case _ =>
    }
  }

  lemma StepKeepsCauses(c: Config, s: State, st: Step)
    requires LastIs(s) && CausesOk(s) && Enabled(c, s, st)
    ensures CausesOk(Next(c, s, st))
  {
    if st.Bury? {
      CauseAdded(s, Next(c, s, st), s.pc.batch[0]);
    } else {
      DeadStays(c, s, st);
    }
  }

  lemma CauseAdded(s: State, s': State, x: Q.Item)
    requires CausesOk(s) && MayGiveUp(LastTry(s, x.id), x.attempts + 1)
    requires |s'.q.dead| == |s.q.dead| + 1 && s.q.dead <= s'.q.dead && s'.q.dead[|s.q.dead|].attempts == x.attempts + 1
    requires s'.causes == s.causes + [LastTry(s, x.id)]
    ensures CausesOk(s')
  {
  }

  lemma DeadStays(c: Config, s: State, st: Step)
    requires Enabled(c, s, st) && !st.Bury?
    ensures Next(c, s, st).q.dead == s.q.dead && Next(c, s, st).causes == s.causes
  {
  }

  lemma {:induction false} RunKeepsCauses(c: Config, s: State, steps: seq<Step>)
    requires LastIs(s) && CausesOk(s) && CanRun(c, s, steps)
    ensures CausesOk(Final(c, s, steps)) && LastIs(Final(c, s, steps))
    decreases |steps|
  {
    if steps != [] {
      StepKeepsLast(c, s, steps[0]);
      StepKeepsCauses(c, s, steps[0]);
      RunKeepsCauses(c, Next(c, s, steps[0]), steps[1..]);
    }
  }

  /**
    Theorem (reasons). In every run, a write is in `dead` only after a `_post` that failed, on
    an error that is not worth another try or on its fifth try; and if that was a network
    failure, for the twelfth time. While one with fewer attempts is put off, its `_post`
    failed for the network, on its fifth try.
  */
  lemma {:induction false} DeadHaveCauses(c: Config, steps: seq<Step>)
    requires CanRun(c, Init(), steps)
    ensures var s := Final(c, Init(), steps);
            && |s.causes| == |s.q.dead|
            && forall i | 0 <= i < |s.q.dead| ::
                 var t := s.causes[i];
                 && t.call.Failed? && (Transient(t.call) ==> t.n == 5)
                 && (s.q.dead[i].attempts < 12 ==> !t.call.why.Network?)
    ensures var s := Final(c, Init(), steps);
            s.pc.PuttingOff? && s.pc.batch != [] ==>
              LastTry(s, s.pc.batch[0].id) == Try(Failed(Network), 5) && s.pc.batch[0].attempts + 1 < 12
  {
    RunKeepsCauses(c, Init(), steps);
  }

  /** The write waits for its next attempt at `nextAt`; nothing else changed. */
  ghost predicate WaitsAgain(s: State, q': Q.Tables, err: string, nextAt: real)
    requires Batch(s.pc) != []
  {
    var x := Batch(s.pc)[0];
    && Q.Item(x.id, x.write, x.attempts + 1, Some(err), nextAt) in q'.pending
    && q'.dead == s.q.dead && forall y | y in s.q.pending && y.id != x.id :: y in q'.pending
  }

  ghost predicate SomeWaitAgain(s: State, q': Q.Tables) {
    Batch(s.pc) != [] && exists err, nextAt :: WaitsAgain(s, q', err, nextAt)
  }

  /** Theorem. Putting off leaves the write pending, with one more attempt, and everything else as it is. */
  lemma PutOffKeepsWrite(c: Config, s: State, st: Step, s': State)
    requires Queued(c, s) && Enabled(c, s, st) && st.PutOff? && s' == Next(c, s, st)
    ensures SomeWaitAgain(s, s'.q)
  {
    PutOffUnfolds(c, s, st, s');
    RescheduledWaits(c, s, s');
  }

  lemma RescheduledWaits(c: Config, s: State, s': State)
    requires Queued(c, s) && Reschedules(s, s')
    ensures SomeWaitAgain(s, s'.q)
  {
    var err, nextAt, delay :| ReschedulesBy(s, s', err, nextAt, delay);
    var x := s.pc.batch[0];
    PutOffRow(c, s, s'.q, Q.PutBack(x, x.attempts + 1, err, nextAt), err, nextAt);
    assert WaitsAgain(s, s'.q, err, nextAt);
  }

  // ---- without a key, and after the window ---------------------------------------------------------------------------

  lemma {:induction false} Extend(c: Config, s: State, steps: seq<Step>, st: Step)
    requires CanRun(c, s, steps) && Enabled(c, Final(c, s, steps), st)
    ensures CanRun(c, s, steps + [st]) && Final(c, s, steps + [st]) == Next(c, Final(c, s, steps), st)
    decreases |steps|
  {
    if steps == [] {
      assert steps + [st] == [st];
    } else {
      Extend(c, Next(c, s, steps[0]), steps[1..], st);
      assert (steps + [st])[1..] == steps[1..] + [st];
    }
  }

  /** A request that has just arrived for a key without a row is granted and commits. */
  lemma GatewayCommits(c: Config, steps: seq<Step>, pid: nat, o: Gw.Outcome) returns (steps': seq<Step>)
    requires CanRun(c, Init(), steps) && Gw.SqlOutcome(o) && o.committed
    requires var g := Final(c, Init(), steps).gw;
             && pid in g.handlers && g.handlers[pid].pc == Gw.Arrived && g.handlers[pid].req.kind == Gw.Sql
             && g.handlers[pid].req.key !in g.table
    ensures CanRun(c, Init(), steps')
    ensures var s, t := Final(c, Init(), steps), Final(c, Init(), steps');
            t == s.(gw := t.gw) && Gw.CommitsFresh(s.gw, t.gw, pid, o)
  {
    var s := Final(c, Init(), steps);
    var s1 := Next(c, s, Gateway(Gw.By(pid, Gw.OpenTx)));
    Extend(c, Init(), steps, Gateway(Gw.By(pid, Gw.OpenTx)));
    steps' := steps + [Gateway(Gw.By(pid, Gw.OpenTx))];
    var s2 := Next(c, s1, Gateway(Gw.By(pid, Gw.Insert)));
    Extend(c, Init(), steps', Gateway(Gw.By(pid, Gw.Insert)));
    steps' := steps' + [Gateway(Gw.By(pid, Gw.Insert))];
    Extend(c, Init(), steps', Gateway(Gw.By(pid, Gw.Run(o))));
    steps' := steps' + [Gateway(Gw.By(pid, Gw.Run(o)))];
    Gw.FreshCommit(s.gw, s1.gw, s2.gw, Final(c, Init(), steps').gw, pid, o);
  }

  /** The one pending item is read and posted. */
  lemma PostOnce(c: Config, steps: seq<Step>, x: Q.Item, pid: nat, auto: string) returns (steps': seq<Step>)
    requires CanRun(c, Init(), steps)
    requires var s := Final(c, Init(), steps); s.pc == Idle && s.q.pending == [x] && pid !in s.gw.handlers
    ensures CanRun(c, Init(), steps')
    ensures var s := Final(c, Init(), steps);
            Final(c, Init(), steps') == s.(pc := Waiting([x], 0, auto, pid),
              gw := s.gw.(handlers := s.gw.handlers[pid := Gw.Handler(RequestFor(c, x.write, auto), Gw.Arrived, None)]))
  {
    var s := Final(c, Init(), steps);
    assert Q.Due(s.q.pending, x.nextAt, Q.BATCH) == [x] by { Q.EverythingDue(s.q.pending, x.nextAt); }
    Extend(c, Init(), steps, ReadDue(x.nextAt));
    steps' := steps + [ReadDue(x.nextAt)];
    Extend(c, Init(), steps', Post(pid, auto));
    steps' := steps' + [Post(pid, auto)];
  }

  /** `t` is `s` after one more grant and commit of `req`, and no other. */
  ghost predicate OneMore(s: Gw.State, t: Gw.State, pid: nat, req: Gw.Request, o: Gw.Outcome) {
    && t.clock == s.clock && t.handlers.Keys == s.handlers.Keys + {pid}
    && t.table == s.table[req.key := Idem.PendingRow(pid, req.hash, s.clock + Idem.TTL)]
    && Gw.Commits(t, req.key) == Gw.Commits(s, req.key) + 1
    && Gw.Grants(t, req.key) == Gw.Grants(s, req.key) + [Gw.Grant(pid, req.hash, s.clock, s.clock + Idem.TTL, Some(o))]
    && (forall k | k != req.key :: Gw.Commits(t, k) == Gw.Commits(s, k) && Gw.Grants(t, k) == Gw.Grants(s, k))
  }

  lemma PostedThenCommitted(g: Gw.State, posted: Gw.State, t: Gw.State, pid: nat, req: Gw.Request, o: Gw.Outcome)
    requires posted == g.(handlers := g.handlers[pid := Gw.Handler(req, Gw.Arrived, None)])
    requires Gw.CommitsFresh(posted, t, pid, o)
    ensures OneMore(g, t, pid, req, o)
  {
    assert forall k :: Gw.Commits(posted, k) == Gw.Commits(g, k) && Gw.Grants(posted, k) == Gw.Grants(g, k);
  }

  /** ... and committed; the client crashes before the reply. */
  lemma FlushOnce(c: Config, steps: seq<Step>, x: Q.Item, pid: nat, auto: string, o: Gw.Outcome) returns (steps': seq<Step>)
    requires CanRun(c, Init(), steps) && Gw.SqlOutcome(o) && o.committed
    requires var s := Final(c, Init(), steps);
             s.pc == Idle && s.q.pending == [x] && pid !in s.gw.handlers && RequestFor(c, x.write, auto).key !in s.gw.table
    ensures CanRun(c, Init(), steps')
    ensures var s, t := Final(c, Init(), steps), Final(c, Init(), steps');
            t == s.(gw := t.gw, crashed := true) && OneMore(s.gw, t.gw, pid, RequestFor(c, x.write, auto), o)
  {
    steps' := PostOnce(c, steps, x, pid, auto);
    var g, posted := Final(c, Init(), steps).gw, Final(c, Init(), steps').gw;
    steps' := GatewayCommits(c, steps', pid, o);
    PostedThenCommitted(g, posted, Final(c, Init(), steps').gw, pid, RequestFor(c, x.write, auto), o);
    Extend(c, Init(), steps', CrashClient);
    steps' := steps' + [CrashClient];
  }

  /** One write is enqueued. */
  lemma EnqueueFirst(c: Config, w: Q.Write) returns (steps: seq<Step>, x: Q.Item)
    requires c.maxSize > 0
    ensures CanRun(c, Init(), steps) && x.write == w
    ensures var s := Final(c, Init(), steps); s.gw == Gw.Init() && s.pc == Idle && s.q.pending == [x] && s.accepted == map[1 := w]
  {
    Extend(c, Init(), [], Enqueue(w, 0.0));
    steps := [] + [Enqueue(w, 0.0)];
    x := Q.Item(1, w, 0, None, 0.0);
    assert Final(c, Init(), steps).q.pending == [x];
  }

  /**
    Theorem (the key is needed). A write enqueued with an empty key can be committed twice, under
    two generated keys and inside both first windows, although it was enqueued once. (For a
    read the client generates no key.)
  */
  lemma EmptyKeyCommitsTwice(c: Config, w: Q.Write, auto: string, auto': string, o: Gw.Outcome) returns (steps: seq<Step>)
    requires c.maxSize > 0 && w.key == "" && !IsRead(w.sql) && auto != auto' && Gw.SqlOutcome(o) && o.committed
    ensures CanRun(c, Init(), steps)
    ensures var s := Final(c, Init(), steps); var k, k' := Idem.Key(c.workspace, auto), Idem.Key(c.workspace, auto');
            && s.accepted == map[1 := w]
            && Gw.Commits(s.gw, k) == 1 && |Gw.Grants(s.gw, k)| == 1 && Gw.Grants(s.gw, k)[0].hash == c.hash(w)
            && Gw.Commits(s.gw, k') == 1 && |Gw.Grants(s.gw, k')| == 1 && Gw.Grants(s.gw, k')[0].hash == c.hash(w)
  {
    var x;
    steps, x := EnqueueFirst(c, w);
    steps := FlushOnce(c, steps, x, 0, auto, o);
    steps := FlushOnce(c, steps, x, 1, auto', o);
  }

  /** The first row has expired and is swept. */
  lemma SweepAfter(c: Config, steps: seq<Step>, k: Idem.Key) returns (steps': seq<Step>)
    requires CanRun(c, Init(), steps)
    requires var g := Final(c, Init(), steps).gw; g.clock == 0 && g.table.Keys == {k} && g.table[k].expires == Idem.TTL
    ensures CanRun(c, Init(), steps')
    ensures var s := Final(c, Init(), steps); Final(c, Init(), steps') == s.(gw := s.gw.(clock := Idem.TTL + 1, table := map[]))
  {
    Extend(c, Init(), steps, Gateway(Gw.Tick(Idem.TTL + 1)));
    steps' := steps + [Gateway(Gw.Tick(Idem.TTL + 1))];
    Extend(c, Init(), steps', Gateway(Gw.Purge(Idem.TTL + 1)));
    steps' := steps' + [Gateway(Gw.Purge(Idem.TTL + 1))];
    assert Final(c, Init(), steps').gw.table == map[];
  }

  /**
    Theorem (so is the window). Any write with a key can be committed twice: by a client that
    crashes before its reply and flushes again after the first window.
  */
  lemma LateFlushCommitsTwice(c: Config, w: Q.Write, o: Gw.Outcome) returns (steps: seq<Step>)
    requires c.maxSize > 0 && w.key != "" && Gw.SqlOutcome(o) && o.committed
    ensures CanRun(c, Init(), steps)
    ensures var s := Final(c, Init(), steps); var k := Idem.Key(c.workspace, w.key); var g := Gw.Grants(s.gw, k);
            && s.accepted == map[1 := w] && Gw.Commits(s.gw, k) == 2
            && |g| == 2 && g[0].hash == g[1].hash == c.hash(w) && g[1].at > g[0].expires
  {
    var x;
    steps, x := EnqueueFirst(c, w);
    steps := FlushOnce(c, steps, x, 0, "", o);
    steps := SweepAfter(c, steps, Idem.Key(c.workspace, w.key));
    steps := FlushOnce(c, steps, x, 1, "", o);
  }
}
