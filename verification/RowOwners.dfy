/**
  Whose outcome a row holds, in every window.

  `Complete` finds its row by key alone. A handler that is still running when its row has
  expired can so complete a row that another handler inserted since. The theorems say that
  this step, and no other, makes a row hold an outcome that is not its owner's; that without
  it every success is backed by a commit of the request's own bytes and every replay of SQL
  carries what the row's owner sent, in all windows; and give a run in which it happens.
*/
module RowOwners {
  import opened Prelude
  import opened Idempotency
  import opened Gateway

  /** The row is that of the newest grant, pending or with its owner's outcome. */
  ghost predicate Owned(s: State, k: Key) {
    k in s.table ==> Grants(s, k) != [] && FromOwner(s.table[k], Grants(s, k)[|Grants(s, k)| - 1])
  }

  ghost predicate AllOwned(s: State) {
    forall k :: Owned(s, k)
  }

  /** The two outcomes are stored alike. */
  predicate Alike(a: Outcome, b: Outcome) {
    a.ok == b.ok && a.status == b.status && a.stored == b.stored
  }

  /** The key's newest grant has run, with an outcome stored like `o`. */
  ghost predicate NewestRanAlike(s: State, k: Key, o: Outcome) {
    var g := Grants(s, k);
    g != [] && g[|g| - 1].ran.Some? && Alike(g[|g| - 1].ran.value, o)
  }

  /**
    A handler is about to complete a row that another one inserted, and that one has not run
    with the same outcome.
  */
  ghost predicate StaleStore(s: State, st: Step) {
    && st.By? && st.act.Store? && Enabled(s, st)
    && var h := s.handlers[st.pid];
       h.req.key in s.table && s.table[h.req.key].id != st.pid && !NewestRanAlike(s, h.req.key, h.pc.o)
  }

  lemma ForeignStore(s: State, pid: nat)
    requires Inv(s) && AllOwned(s) && Enabled(s, By(pid, Store))
    requires var k := s.handlers[pid].req.key; k in s.table && s.table[k].id != pid
    ensures var h := s.handlers[pid]; Owned(Next(s, By(pid, Store)), h.req.key) <==> NewestRanAlike(s, h.req.key, h.pc.o)
  {
    var h, s' := s.handlers[pid], Next(s, By(pid, Store));
    var k := h.req.key;
    assert Owned(s, k) && Grants(s', k) == Grants(s, k);
    assert s'.table[k] == s.table[k].(state := if h.pc.o.ok then Done else Failed, status := Some(h.pc.o.status), body := Some(Gzip(h.pc.o.stored)));
  }

  lemma OwnStoreIsOwned(s: State, pid: nat)
    requires Inv(s) && AllOwned(s) && Enabled(s, By(pid, Store))
    requires var k := s.handlers[pid].req.key; k in s.table && s.table[k].id == pid
    ensures Owned(Next(s, By(pid, Store)), s.handlers[pid].req.key)
  {
    var h := s.handlers[pid];
    var k := h.req.key;
    assert KeyOk(s, k) && HandlerOk(s, pid) && Owned(s, k);
    var g := Grants(s, k);
    assert GrantOk(s, k, h.pc.n) && GrantOk(s, k, |g| - 1);
    assert h.pc.n == |g| - 1;
  }

  lemma OtherStepIsOwned(s: State, st: Step, k: Key)
    requires Inv(s) && Owned(s, k) && Enabled(s, st)
    requires st.By? && s.handlers[st.pid].req.key == k ==> !st.act.Store?
    ensures Owned(Next(s, st), k)
  {
    assert KeyOk(s, k);
    StepEvolves(s, st, k);
    if st.By? && s.handlers[st.pid].req.key == k && st.act.Insert? {
      var g' := Grants(Next(s, st), k);
      assert k !in s.table ==> |g'| == |Grants(s, k)| + 1;
    }
  }

  /** Theorem. A step leaves every row its owner's if and only if it is not a stale store. */
  lemma OwnedIffNoStaleStore(s: State, st: Step)
    requires Inv(s) && AllOwned(s) && Enabled(s, st)
    ensures AllOwned(Next(s, st)) <==> !StaleStore(s, st)
  {
    var s' := Next(s, st);
    if StaleStore(s, st) {
      ForeignStore(s, st.pid);
      assert !Owned(s', s.handlers[st.pid].req.key);
    } else {
      forall k ensures Owned(s', k) {
        assert Owned(s, k);
        if st.By? && s.handlers[st.pid].req.key == k && st.act.Store? {
          if k in s.table && s.table[k].id == st.pid {
            OwnStoreIsOwned(s, st.pid);
          } else if k in s.table {
            ForeignStore(s, st.pid);
          }
        } else {
          OtherStepIsOwned(s, st, k);
        }
      }
    }
  }

  // ---- what follows --------------------------------------------------------------------------------

  /** The row came from some grant of the key, with that grant's outcome. */
  ghost predicate Backed(s: State, k: Key, row: Row) {
    exists i | 0 <= i < |Grants(s, k)| :: FromOwner(row, Grants(s, k)[i])
  }

  /** A grant of the key with these bytes committed. */
  ghost predicate OwnCommit(s: State, k: Key, hash: Digest) {
    exists i | 0 <= i < |Grants(s, k)| :: Committed(Grants(s, k)[i]) && Grants(s, k)[i].hash == hash
  }

  /** What a handler holds or has said is backed. */
  ghost predicate Honest(s: State, pid: nat)
    requires pid in s.handlers
  {
    var h := s.handlers[pid];
    && (h.pc.Checking? ==> Backed(s, h.req.key, h.pc.row))
    && (h.pc.Answered? && h.pc.from.Some? ==> Backed(s, h.req.key, h.pc.from.value))
    && (h.reply.Some? && h.reply.value.status < 300 ==> OwnCommit(s, h.req.key, h.req.hash))
  }

  ghost predicate AllHonest(s: State) {
    forall pid | pid in s.handlers :: Honest(s, pid)
  }

  lemma BackedStays(s: State, s': State, k: Key, row: Row)
    requires Evolves(s, s', k) && Backed(s, k, row)
    ensures Backed(s', k, row)
  {
    var i :| 0 <= i < |Grants(s, k)| && FromOwner(row, Grants(s, k)[i]);
    assert FromOwner(row, Grants(s', k)[i]);
  }

  lemma OwnCommitStays(s: State, s': State, k: Key, hash: Digest)
    requires Evolves(s, s', k) && OwnCommit(s, k, hash)
    ensures OwnCommit(s', k, hash)
  {
    var i :| 0 <= i < |Grants(s, k)| && Committed(Grants(s, k)[i]) && Grants(s, k)[i].hash == hash;
    assert Grants(s', k)[i] == Grants(s, k)[i];
  }

  lemma OtherStaysHonest(s: State, st: Step, pid: nat)
    requires Inv(s) && Enabled(s, st) && pid in s.handlers && Honest(s, pid)
    requires st.By? ==> st.pid != pid
    ensures Honest(Next(s, st), pid)
  {
    var h, s' := s.handlers[pid], Next(s, st);
    StepEvolves(s, st, h.req.key);
    if h.pc.Checking? { BackedStays(s, s', h.req.key, h.pc.row); }
    if h.pc.Answered? && h.pc.from.Some? { BackedStays(s, s', h.req.key, h.pc.from.value); }
    if h.reply.Some? && h.reply.value.status < 300 { OwnCommitStays(s, s', h.req.key, h.req.hash); }
  }

  /** A backed row that tells of success has a committed grant with its hash behind it. */
  lemma SuccessIsOwn(s: State, k: Key, row: Row)
    requires Inv(s) && Backed(s, k, row) && row.state != Pending && TellsSuccess(row)
    ensures OwnCommit(s, k, row.hash)
  {
    var i :| 0 <= i < |Grants(s, k)| && FromOwner(row, Grants(s, k)[i]);
    assert KeyOk(s, k) && GrantOk(s, k, i);
    assert Committed(Grants(s, k)[i]);
  }

  lemma CheckStaysHonest(s: State, pid: nat)
    requires Inv(s) && Enabled(s, By(pid, Check)) && Honest(s, pid)
    ensures Honest(Next(s, By(pid, Check)), pid)
  {
    var h, s' := s.handlers[pid], Next(s, By(pid, Check));
    var k, row := h.req.key, h.pc.row;
    StepEvolves(s, By(pid, Check), k);
    BackedStays(s, s', k, row);
    assert HandlerOk(s, pid);
    if row.state != Pending && TellsSuccess(row) {
      SuccessIsOwn(s, k, row);
      OwnCommitStays(s, s', k, row.hash);
    }
  }

  lemma SendStaysHonest(s: State, pid: nat)
    requires Inv(s) && Enabled(s, By(pid, Send)) && Honest(s, pid)
    ensures Honest(Next(s, By(pid, Send)), pid)
  {
    var h, s' := s.handlers[pid], Next(s, By(pid, Send));
    var k, n := h.req.key, h.pc.n;
    assert KeyOk(s, k) && HandlerOk(s, pid) && GrantOk(s, k, n);
    assert Grants(s', k) == Grants(s, k);
  }

  lemma ActorStaysHonest(s: State, pid: nat, act: Act)
    requires Inv(s) && AllOwned(s) && Enabled(s, By(pid, act)) && Honest(s, pid)
    ensures Honest(Next(s, By(pid, act)), pid)
  {
    var h, s' := s.handlers[pid], Next(s, By(pid, act));
    var k := h.req.key;
    StepEvolves(s, By(pid, act), k);
    assert HandlerOk(s, pid) && Owned(s, k);
    if OwnCommit(s, k, h.req.hash) { OwnCommitStays(s, s', k, h.req.hash); }
    match act {
      case Check => CheckStaysHonest(s, pid);
      case Send => SendStaysHonest(s, pid);
      case Select =>
        if k in s.table {
          assert Backed(s, k, s.table[k]);
          BackedStays(s, s', k, s.table[k]);
        }
      case _ =>
    }
  }

  lemma StepStaysHonest(s: State, st: Step)
    requires Inv(s) && AllOwned(s) && AllHonest(s) && Enabled(s, st)
    ensures AllHonest(Next(s, st))
  {
    var s' := Next(s, st);
    forall pid | pid in s'.handlers ensures Honest(s', pid) {
      if st.By? && st.pid == pid {
        ActorStaysHonest(s, pid, st.act);
      } else if pid in s.handlers {
        OtherStaysHonest(s, st, pid);
      }
    }
  }

  ghost predicate NoStaleStores(s: State, steps: seq<Step>)
    requires CanRun(s, steps)
    decreases |steps|
  {
    steps == [] || (!StaleStore(s, steps[0]) && NoStaleStores(Next(s, steps[0]), steps[1..]))
  }

  lemma {:induction false} RunStaysHonest(s: State, steps: seq<Step>)
    requires Inv(s) && AllOwned(s) && AllHonest(s) && CanRun(s, steps) && NoStaleStores(s, steps)
    ensures var t := Final(s, steps); Inv(t) && AllOwned(t) && AllHonest(t)
    decreases |steps|
  {
    if steps != [] {
      StepKeepsInv(s, steps[0]);
      OwnedIffNoStaleStore(s, steps[0]);
      StepStaysHonest(s, steps[0]);
      RunStaysHonest(Next(s, steps[0]), steps[1..]);
    }
  }

  lemma {:induction false} HonestRun(steps: seq<Step>)
    requires CanRun(Init(), steps) && NoStaleStores(Init(), steps)
    ensures var t := Final(Init(), steps); Inv(t) && AllOwned(t) && AllHonest(t)
  {
    InitOk();
    RunStaysHonest(Init(), steps);
  }

  /**
    Theorem. In every run without a stale store, in every window, a reply below 300 means
    that the effect was committed by a request with the same bytes.
  */
  lemma {:induction false} SuccessMeansOwnCommit(steps: seq<Step>, pid: nat)
    requires CanRun(Init(), steps) && NoStaleStores(Init(), steps)
    requires var s := Final(Init(), steps);
             pid in s.handlers && s.handlers[pid].reply.Some? && s.handlers[pid].reply.value.status < 300
    ensures var s := Final(Init(), steps); OwnCommit(s, s.handlers[pid].req.key, s.handlers[pid].req.hash)
  {
    HonestRun(steps);
    assert Honest(Final(Init(), steps), pid);
  }

  /** The replay is what the owner of grant `i` sent or would have sent, for the same bytes. */
  ghost predicate SaysAs(s: State, h: Handler, i: nat)
    requires h.pc.Answered? && h.pc.answer.Replay?
  {
    var g := Grants(s, h.req.key);
    && i < |g| && g[i].ran.Some? && g[i].hash == h.req.hash && g[i].pid in s.handlers
    && var owner := s.handlers[g[i].pid];
       && (owner.req.kind.Sql? ==> FaithfulTo(h.pc.answer, g[i].ran.value.first, g[i].ran.value.ok))
       && (owner.reply.Some? ==> owner.reply.value == g[i].ran.value.first)
  }

  /**
    Theorem. In every run without a stale store, in every window, a replay repeats the
    outcome of one request with the same bytes: for SQL its status and body as first sent.
  */
  lemma {:induction false} ReplaysAreFaithfulAlways(steps: seq<Step>, pid: nat) returns (i: nat)
    requires CanRun(Init(), steps) && NoStaleStores(Init(), steps)
    requires var s := Final(Init(), steps);
             pid in s.handlers && s.handlers[pid].pc.Answered? && s.handlers[pid].pc.answer.Replay?
    ensures var s := Final(Init(), steps); SaysAs(s, s.handlers[pid], i)
  {
    HonestRun(steps);
    var s := Final(Init(), steps);
    var h := s.handlers[pid];
    var k := h.req.key;
    assert Honest(s, pid) && HandlerOk(s, pid) && KeyOk(s, k);
    i :| 0 <= i < |Grants(s, k)| && FromOwner(h.pc.from.value, Grants(s, k)[i]);
    assert GrantOk(s, k, i);
  }

  // ---- a run with a stale store ------------------------------------------------------------------------

  lemma {:induction false} Join(s: State, a: seq<Step>, b: seq<Step>)
    requires CanRun(s, a) && CanRun(Final(s, a), b)
    ensures CanRun(s, a + b) && Final(s, a + b) == Final(Final(s, a), b)
    decreases |a|
  {
    if a == [] {
      assert a + b == b;
    } else {
      Join(Next(s, a[0]), a[1..], b);
      assert (a + b)[1..] == a[1..] + b;
    }
  }

  /** A new request under a key with no row is granted it. */
  lemma {:induction false} ArriveAndInsert(steps: seq<Step>, pid: nat, req: Request) returns (steps': seq<Step>)
    requires CanRun(Init(), steps) && pid !in Final(Init(), steps).handlers && req.key !in Final(Init(), steps).table
    ensures CanRun(Init(), steps')
    ensures var s := Final(Init(), steps); var n := |Grants(s, req.key)|;
            Final(Init(), steps') == s.(
              table := s.table[req.key := PendingRow(pid, req.hash, s.clock + TTL)],
              handlers := s.handlers[pid := Handler(req, Granted(n), None)],
              grants := s.grants[req.key := Grants(s, req.key) + [Grant(pid, req.hash, s.clock, s.clock + TTL, None)]])
  {
    var s := Final(Init(), steps);
    var s1 := Next(s, Arrive(pid, req));
    Extend(Init(), steps, Arrive(pid, req));
    steps' := steps + [Arrive(pid, req)];
    var s2 := Next(s1, By(pid, OpenTx));
    Extend(Init(), steps', By(pid, OpenTx));
    steps' := steps' + [By(pid, OpenTx)];
    var s3 := Next(s2, By(pid, Insert));
    Extend(Init(), steps', By(pid, Insert));
    steps' := steps' + [By(pid, Insert)];
    assert s3.handlers == s.handlers[pid := s3.handlers[pid]];
  }

  /** The owner of the only grant commits and replies. */
  lemma {:induction false} RunAndSend(steps: seq<Step>, req: Request, o: Outcome) returns (steps': seq<Step>)
    requires CanRun(Init(), steps) && req.kind.Sql? && SqlOutcome(o) && o.ok
    requires var s := Final(Init(), steps);
             s.handlers == map[0 := Handler(req, Granted(0), None)] && Grants(s, req.key) == [Grant(0, req.hash, 0, TTL, None)]
    ensures CanRun(Init(), steps')
    ensures var s, t := Final(Init(), steps), Final(Init(), steps');
            && t.handlers == map[0 := Handler(req, Ran(0, o, true, false), Some(o.first))]
            && t.clock == s.clock && t.table == s.table && Grants(t, req.key) == [Grant(0, req.hash, 0, TTL, Some(o))]
  {
    var s := Final(Init(), steps);
    var s1 := Next(s, By(0, Run(o)));
    Extend(Init(), steps, By(0, Run(o)));
    steps' := steps + [By(0, Run(o))];
    Extend(Init(), steps', By(0, Send));
    steps' := steps' + [By(0, Send)];
  }

  /** A first request commits and replies; before it stores its outcome its row expires and is swept. */
  lemma SlowOwner(req: Request, o: Outcome) returns (steps: seq<Step>)
    requires req.kind.Sql? && SqlOutcome(o) && o.ok
    ensures CanRun(Init(), steps)
    ensures var s := Final(Init(), steps);
            && s.handlers == map[0 := Handler(req, Ran(0, o, true, false), Some(o.first))]
            && s.table == map[] && Grants(s, req.key) == [Grant(0, req.hash, 0, TTL, Some(o))]
  {
    steps := ArriveAndInsert([], 0, req);
    steps := RunAndSend(steps, req, o);
    Extend(Init(), steps, Tick(TTL + 1));
    steps := steps + [Tick(TTL + 1)];
    Extend(Init(), steps, Purge(TTL + 1));
    steps := steps + [Purge(TTL + 1)];
    assert Final(Init(), steps).table == map[];
  }

  /** Another request is granted the key, and then the slow owner stores. */
  lemma {:induction false} StoreIntoOther(steps: seq<Step>, req: Request, o: Outcome, other: Request) returns (steps': seq<Step>)
    requires CanRun(Init(), steps) && req.key == other.key && o.ok && req.kind.Sql?
    requires var s := Final(Init(), steps);
             && s.handlers == map[0 := Handler(req, Ran(0, o, true, false), Some(o.first))]
             && s.table == map[] && Grants(s, req.key) == [Grant(0, req.hash, 0, TTL, Some(o))]
    ensures CanRun(Init(), steps')
    ensures var t := Final(Init(), steps');
            && t.handlers.Keys == {0, 1} && other.key in t.table && t.clock <= t.table[other.key].expires
            && RowAnswer(t.table[other.key], other.hash) == Replay(o.status, o.stored)
            && Grants(t, other.key) == [Grant(0, req.hash, 0, TTL, Some(o)), Grant(1, other.hash, t.clock, t.clock + TTL, None)]
  {
    steps' := ArriveAndInsert(steps, 1, other);
    Extend(Init(), steps', By(0, Store));
    steps' := steps' + [By(0, Store)];
  }

  /**
    Theorem. For any two requests under one key with different bytes there is a run in which
    a third, with the bytes of the second, is answered with the first one's success although
    nothing with its bytes was ever committed.
  */
  lemma StaleStoreMisleads(req: Request, o: Outcome, other: Request) returns (steps: seq<Step>)
    requires req.kind.Sql? && SqlOutcome(o) && o.ok && req.key == other.key && req.hash != other.hash
    ensures CanRun(Init(), steps)
    ensures var s := Final(Init(), steps);
            && 2 in s.handlers && s.handlers[2].req == other && s.handlers[2].reply == Some(Reply(200, o.stored, true))
            && !OwnCommit(s, other.key, other.hash)
  {
    steps := SlowOwner(req, o);
    steps := StoreIntoOther(steps, req, o, other);
    Extend(Init(), steps, Arrive(2, other));
    steps := steps + [Arrive(2, other)];
    var s := Final(Init(), steps);
    var more := ReadExisting(s, 2);
    Join(Init(), steps, more);
    steps := steps + more;
    assert Grants(Final(Init(), steps), other.key) == Grants(s, other.key);
  }
}
