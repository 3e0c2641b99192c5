/**
  The Python client's durable retry queue: the `pending` and `dead` SQLite tables,
  the single statements that touch them, and the `Queue` object with `flush`.
*/
module RetryQueue {
  import opened Prelude

  const MAX_ATTEMPTS: nat := 12
  const BATCH: nat := 64

  datatype Write = Write(sql: string, params: string, key: string)
  datatype Item = Item(id: nat, write: Write, attempts: nat, lastError: Option<string>, nextAt: real)
  datatype Dead = Dead(write: Write, attempts: nat, lastError: string, movedAt: real)

  /** Both tables; `pending` is in id order, `nextId` is its AUTOINCREMENT counter. */
  datatype Tables = Tables(pending: seq<Item>, dead: seq<Dead>, nextId: nat)

  // ---- the statements ------------------------------------------------------------

  /** Where the row with this primary key is, or the length when there is none. */
  function Position(pending: seq<Item>, id: nat): (i: nat)
    ensures i <= |pending|
    ensures i < |pending| ==> pending[i].id == id
    ensures forall j | 0 <= j < i :: pending[j].id != id
  {
    if pending == [] then 0 else if pending[0].id == id then 0 else 1 + Position(pending[1..], id)
  }

  function Without(pending: seq<Item>, id: nat): seq<Item> {
    var i := Position(pending, id);
    if i < |pending| then pending[..i] + pending[i + 1..] else pending
  }

  function InsertPending(t: Tables, w: Write, now: real): Tables {
    t.(pending := t.pending + [Item(t.nextId, w, 0, None, now)], nextId := t.nextId + 1)
  }

  function DeletePending(t: Tables, id: nat): Tables {
    t.(pending := Without(t.pending, id))
  }

  function InsertDead(t: Tables, d: Dead): Tables {
    t.(dead := t.dead + [d])
  }

  function Reschedule(t: Tables, id: nat, attempts: nat, err: string, nextAt: real): Tables {
    var i := Position(t.pending, id);
    if i < |t.pending|
    then t.(pending := t.pending[i := t.pending[i].(attempts := attempts, lastError := Some(err), nextAt := nextAt)])
    else t
  }

  /** Rows with next_attempt_at <= now, in id order. */
  function AllDue(pending: seq<Item>, now: real): seq<Item> {
    if pending == [] then []
    else
      var n := |pending| - 1;
      AllDue(pending[..n], now) + if pending[n].nextAt <= now then [pending[n]] else []
  }

  /** ... LIMIT n */
  function Due(pending: seq<Item>, now: real, limit: nat): seq<Item> {
    var d := AllDue(pending, now);
    if |d| <= limit then d else d[..limit]
  }

  // ---- backoff ----------------------------------------------------------------------

  /** base * 2**n, as `base` doubled n times. */
  function Doubled(base: real, n: nat): (r: real)
    ensures base >= 0.0 ==> r >= base
  {
    if n == 0 then base else Doubled(base, n - 1) + Doubled(base, n - 1)
  }

  /** Upper end of the jitter range: min(cap, base * 2**attempt). */
  function BackoffCap(attempt: nat, base: real, cap: real): real {
    if Doubled(base, attempt) < cap then Doubled(base, attempt) else cap
  }

  /** As `fail` calls it. */
  function DelayCap(attempts: nat): (r: real)
    ensures 0.0 <= r <= 300.0
  {
    BackoffCap(attempts, 2.0, 300.0)
  }

  /** The most delay `n` failures in a row can add up to. */
  function DelayBudget(n: nat): real {
    if n == 0 then 0.0 else DelayBudget(n - 1) + DelayCap(n)
  }

  lemma BudgetIs1708()
    ensures DelayBudget(MAX_ATTEMPTS - 1) == 1708.0
  {
    assert Doubled(2.0, 3) == 16.0 && Doubled(2.0, 6) == 128.0 && Doubled(2.0, 8) == 512.0 && Doubled(2.0, 11) == 4096.0;
    assert DelayBudget(4) == 4.0 + 8.0 + 16.0 + 32.0;
    assert DelayBudget(8) == DelayBudget(4) + 64.0 + 128.0 + 256.0 + 300.0;
    assert DelayBudget(11) == DelayBudget(8) + 900.0;
  }

  // ---- handling one item --------------------------------------------------------------

  datatype SendResult = Sent | NetworkFailure(err: string) | OtherFailure(err: string)

  /** One attempt of `flush`: what was tried, how it went, when, and the delay drawn if it was put off. */
  datatype Attempt = Attempt(item: Item, result: SendResult, now: real, delay: real)

  function Buried(item: Item, err: string, now: real): Dead {
    Dead(item.write, item.attempts + 1, err, now)
  }

  function AfterFail(t: Tables, item: Item, err: string, now: real, delay: real): Tables {
    if item.attempts + 1 >= MAX_ATTEMPTS then DeletePending(InsertDead(t, Buried(item, err, now)), item.id)
    else Reschedule(t, item.id, item.attempts + 1, err, now + delay)
  }

  function AfterAttempt(t: Tables, a: Attempt): Tables {
    match a.result
    case Sent => DeletePending(t, a.item.id)
    case NetworkFailure(err) => AfterFail(t, a.item, err, a.now, a.delay)
    case OtherFailure(err) => DeletePending(InsertDead(t, Buried(a.item, err, a.now)), a.item.id)
  }

  function AfterAll(t: Tables, trace: seq<Attempt>): Tables {
    if trace == [] then t else AfterAttempt(AfterAll(t, trace[..|trace| - 1]), trace[|trace| - 1])
  }

  function CountSent(trace: seq<Attempt>): nat {
    if trace == [] then 0 else CountSent(trace[..|trace| - 1]) + if trace[|trace| - 1].result.Sent? then 1 else 0
  }

  function Tried(trace: seq<Attempt>): (r: seq<Item>)
    ensures |r| == |trace|
  {
    seq(|trace|, i requires 0 <= i < |trace| => trace[i].item)
  }

  // ---- well-formed tables ----------------------------------------------------------------

  ghost predicate Ascending(items: seq<Item>) {
    forall i, j | 0 <= i < j < |items| :: items[i].id < items[j].id
  }

  ghost predicate Wellformed(t: Tables) {
    && Ascending(t.pending)
    && (forall x | x in t.pending :: x.id < t.nextId && x.attempts < MAX_ATTEMPTS)
    && (forall d | d in t.dead :: 1 <= d.attempts <= MAX_ATTEMPTS)
  }

  lemma PositionOf(p: seq<Item>, x: Item)
    requires Ascending(p) && x in p
    ensures Position(p, x.id) < |p| && p[Position(p, x.id)] == x
  {
    var i :| 0 <= i < |p| && p[i] == x;
    assert forall j | 0 <= j < |p| && j != i :: p[j].id != p[i].id;
  }

  lemma DropAscending(p: seq<Item>, i: nat)
    requires Ascending(p) && i < |p|
    ensures Ascending(p[..i] + p[i + 1..])
  {
    var r := p[..i] + p[i + 1..];
    forall a, b | 0 <= a < b < |r| ensures r[a].id < r[b].id {
      var a', b' := if a < i then a else a + 1, if b < i then b else b + 1;
      assert r[a] == p[a'] && r[b] == p[b'] && a' < b';
    }
  }

  lemma DropMembers(p: seq<Item>, i: nat, y: Item)
    requires Ascending(p) && i < |p|
    ensures y in p[..i] + p[i + 1..] <==> y in p && y != p[i]
  {
    if y in p[..i] {
      var j :| 0 <= j < i && p[..i][j] == y;
      assert p[j].id < p[i].id;
    }
    if y in p[i + 1..] {
      var j :| 0 <= j < |p| - i - 1 && p[i + 1..][j] == y;
      assert p[i].id < p[i + 1 + j].id;
    }
    if y in p && y != p[i] {
      var j :| 0 <= j < |p| && p[j] == y;
      if j < i { assert p[..i][j] == y; } else { assert p[i + 1..][j - i - 1] == y; }
    }
  }

  lemma WithoutFacts(p: seq<Item>, x: Item)
    requires Ascending(p) && x in p
    ensures |Without(p, x.id)| == |p| - 1 && Ascending(Without(p, x.id))
    ensures forall y :: y in Without(p, x.id) <==> y in p && y != x
  {
    PositionOf(p, x);
    var i := Position(p, x.id);
    DropAscending(p, i);
    forall y ensures y in Without(p, x.id) <==> y in p && y != x {
      DropMembers(p, i, y);
    }
  }

  function PutBack(x: Item, attempts: nat, err: string, nextAt: real): Item {
    x.(attempts := attempts, lastError := Some(err), nextAt := nextAt)
  }

  /** The row `x` became `x'`, the others stayed. */
  ghost predicate RowReplaced(p: seq<Item>, p': seq<Item>, x: Item, x': Item) {
    && x in p && x' in p' && x'.id == x.id
    && (forall y | y in p' :: y == x' || (y in p && y.id != x.id))
    && (forall y | y in p && y != x :: y in p')
  }

  lemma RescheduleFacts(t: Tables, x: Item, attempts: nat, err: string, nextAt: real)
    requires Ascending(t.pending) && x in t.pending
    ensures var t' := Reschedule(t, x.id, attempts, err, nextAt); var x' := PutBack(x, attempts, err, nextAt);
            |t'.pending| == |t.pending| && Ascending(t'.pending) && RowReplaced(t.pending, t'.pending, x, x')
  {
    PositionOf(t.pending, x);
    ReplaceFacts(t.pending, Position(t.pending, x.id), PutBack(x, attempts, err, nextAt));
  }

  lemma ReplaceFacts(p: seq<Item>, i: nat, x': Item)
    requires i < |p| && Ascending(p) && x'.id == p[i].id
    ensures var p' := p[i := x'];
            Ascending(p') && RowReplaced(p, p', p[i], x')
  {
    var p' := p[i := x'];
    assert p'[i] == x';
    forall a, b | 0 <= a < b < |p| ensures p'[a].id < p'[b].id {
      assert p[a].id < p[b].id;
    }
    forall y | y in p' && y != x' ensures y in p && y.id != x'.id {
      var j :| 0 <= j < |p| && p'[j] == y;
      assert p[j] == y && j != i;
      assert j < i ==> p[j].id < p[i].id;
      assert j > i ==> p[i].id < p[j].id;
    }
    forall y | y in p && y != p[i] ensures y in p' {
      var j :| 0 <= j < |p| && p[j] == y;
      assert p'[j] == y;
    }
  }

  lemma {:induction false} DueMembers(p: seq<Item>, now: real)
    ensures forall x :: x in AllDue(p, now) <==> x in p && x.nextAt <= now
  {
    if p != [] {
      var n := |p| - 1;
      DueMembers(p[..n], now);
      assert p == p[..n] + [p[n]];
    }
  }

  lemma {:induction false} DueAscending(p: seq<Item>, now: real)
    requires Ascending(p)
    ensures Ascending(AllDue(p, now))
  {
    if p != [] {
      var n := |p| - 1;
      DueAscending(p[..n], now);
      DueMembers(p[..n], now);
      var r := AllDue(p[..n], now);
      forall i | 0 <= i < |r| ensures r[i].id < p[n].id {
        assert r[i] in p[..n];
      }
    }
  }

  lemma {:induction false} EverythingDue(p: seq<Item>, now: real)
    requires forall x | x in p :: x.nextAt <= now
    ensures AllDue(p, now) == p
  {
    if p != [] {
      var n := |p| - 1;
      assert p == p[..n] + [p[n]];
      EverythingDue(p[..n], now);
    }
  }

  lemma AttemptKeepsWellformed(t: Tables, a: Attempt)
    requires Wellformed(t) && a.item in t.pending
    ensures Wellformed(AfterAttempt(t, a))
  {
    if a.result.NetworkFailure? && a.item.attempts + 1 < MAX_ATTEMPTS {
      RescheduleFacts(t, a.item, a.item.attempts + 1, a.result.err, a.now + a.delay);
    } else {
      WithoutFacts(t.pending, a.item);
    }
  }

  /** Conservation: an item handled is sent, buried or still pending, and only a put-off item stays. */
  lemma AttemptConserves(t: Tables, a: Attempt)
    requires Wellformed(t) && a.item in t.pending
    ensures var t' := AfterAttempt(t, a);
            |t'.pending| + |t'.dead| + (if a.result.Sent? then 1 else 0) == |t.pending| + |t.dead|
    ensures !a.result.NetworkFailure? ==> |AfterAttempt(t, a).pending| == |t.pending| - 1
    ensures forall y | y in t.pending && y != a.item :: y in AfterAttempt(t, a).pending
  {
    if a.result.NetworkFailure? && a.item.attempts + 1 < MAX_ATTEMPTS {
      RescheduleFacts(t, a.item, a.item.attempts + 1, a.result.err, a.now + a.delay);
    } else {
      WithoutFacts(t.pending, a.item);
    }
  }

  /**
    What an attempt does to the tables, in terms of the rows: a sent item leaves; a network
    failure before the twelfth leaves it pending with one more attempt and a later time; any
    other failure, and the twelfth, moves it to `dead`.
  */
  lemma AttemptSettles(t: Tables, a: Attempt)
    requires Wellformed(t) && a.item in t.pending
    ensures var t', x := AfterAttempt(t, a), a.item;
            match a.result
            case Sent => t'.dead == t.dead && Gone(t.pending, t'.pending, x.id)
            case NetworkFailure(err) =>
              if x.attempts + 1 < 12 then
                t'.dead == t.dead && RowReplaced(t.pending, t'.pending, x, Item(x.id, x.write, x.attempts + 1, Some(err), a.now + a.delay))
              else t'.dead == t.dead + [Dead(x.write, 12, err, a.now)] && Gone(t.pending, t'.pending, x.id)
            case OtherFailure(err) => t'.dead == t.dead + [Dead(x.write, x.attempts + 1, err, a.now)] && Gone(t.pending, t'.pending, x.id)
  {
    if a.result.NetworkFailure? && a.item.attempts + 1 < MAX_ATTEMPTS {
      RescheduleFacts(t, a.item, a.item.attempts + 1, a.result.err, a.now + a.delay);
    } else {
      WithoutIs(t.pending, a.item.id);
    }
  }

  /** The row with this id is no longer there; the others are. */
  ghost predicate Gone(p: seq<Item>, p': seq<Item>, id: nat) {
    forall x :: x in p' <==> x in p && x.id != id
  }

  /** `d` records attempt `a`: a failure that is not of the network, or the twelfth. */
  ghost predicate Records(d: Dead, a: Attempt) {
    && d.write == a.item.write && d.attempts == a.item.attempts + 1 && d.movedAt == a.now
    && (a.result == OtherFailure(d.lastError) || (a.result == NetworkFailure(d.lastError) && d.attempts == 12))
  }

  /** Every row of `dead` from number `n` on records an attempt of the trace. */
  ghost predicate Recorded(dead: seq<Dead>, n: nat, trace: seq<Attempt>) {
    forall i | n <= i < |dead| :: HasReason(dead[i], trace)
  }

  ghost predicate HasReason(d: Dead, trace: seq<Attempt>) {
    exists j | 0 <= j < |trace| :: Records(d, trace[j])
  }

  /**
    Theorem. In every flush, what is added to `dead` was given up for a failure that is not of
    the network, or for its twelfth attempt; nothing leaves `dead`.
  */
  lemma {:induction false} DeadHaveReasons(t: Tables, trace: seq<Attempt>)
    requires Wellformed(t) && Replayable(t, trace)
    ensures t.dead <= AfterAll(t, trace).dead && Recorded(AfterAll(t, trace).dead, |t.dead|, trace)
  {
    if trace != [] {
      var n := |trace| - 1;
      DeadHaveReasons(t, trace[..n]);
      FlushConserves(t, trace[..n]);
      AttemptSettles(AfterAll(t, trace[..n]), trace[n]);
      RecordedGrows(AfterAll(t, trace[..n]).dead, AfterAll(t, trace).dead, |t.dead|, trace);
    }
  }

  lemma {:induction false} RecordedGrows(dead: seq<Dead>, dead': seq<Dead>, n: nat, trace: seq<Attempt>)
    requires trace != [] && n <= |dead| && Recorded(dead, n, trace[..|trace| - 1])
    requires dead' == dead || (|dead'| == |dead| + 1 && dead <= dead' && Records(dead'[|dead|], trace[|trace| - 1]))
    ensures Recorded(dead', n, trace)
  {
    var last := |trace| - 1;
    forall i | n <= i < |dead'| ensures HasReason(dead'[i], trace) {
      if i < |dead| {
        assert dead'[i] == dead[i];
        var j :| 0 <= j < last && Records(dead[i], trace[..last][j]);
        assert Records(dead'[i], trace[j]);
      } else {
        assert Records(dead'[i], trace[last]);
      }
    }
  }

  /** Theorem. A flush that ends on a network failure before the twelfth leaves that write pending. */
  lemma {:induction false} PutOffStaysPending(t: Tables, trace: seq<Attempt>)
    requires Wellformed(t) && Replayable(t, trace) && Cut(trace)
    ensures var a := trace[|trace| - 1];
            a.item.attempts + 1 < 12 ==>
              Item(a.item.id, a.item.write, a.item.attempts + 1, Some(a.result.err), a.now + a.delay) in AfterAll(t, trace).pending
  {
    var n := |trace| - 1;
    var before := AfterAll(t, trace[..n]);
    FlushConserves(t, trace[..n]);
    assert AfterAll(t, trace) == AfterAttempt(before, trace[n]);
    if trace[n].item.attempts + 1 < 12 {
      PutOffStays(before, trace[n], AfterAll(t, trace));
    }
  }

  lemma PutOffStays(t: Tables, a: Attempt, t': Tables)
    requires Wellformed(t) && a.item in t.pending && a.result.NetworkFailure? && a.item.attempts + 1 < 12 && t' == AfterAttempt(t, a)
    ensures Item(a.item.id, a.item.write, a.item.attempts + 1, Some(a.result.err), a.now + a.delay) in t'.pending
  {
    AttemptSettles(t, a);
  }

  /** Did the run end on a network failure? */
  predicate Cut(trace: seq<Attempt>) {
    trace != [] && trace[|trace| - 1].result.NetworkFailure?
  }

  /** The delay drawn for an attempt is within `backoff`'s range. */
  predicate Fair(a: Attempt) {
    0.0 <= a.delay <= DelayCap(a.item.attempts + 1)
  }

  /**
    `trace` is a run of `flush` from `t`: every item is tried as it stands in the table, with a
    fair delay, and nothing is tried after a network failure.
  */
  ghost predicate Replayable(t: Tables, trace: seq<Attempt>) {
    trace == [] ||
    var n := |trace| - 1;
    && Replayable(t, trace[..n]) && !Cut(trace[..n])
    && Fair(trace[n]) && trace[n].item in AfterAll(t, trace[..n]).pending
  }

  lemma {:induction false} FlushConserves(t: Tables, trace: seq<Attempt>)
    requires Wellformed(t) && Replayable(t, trace)
    ensures Wellformed(AfterAll(t, trace))
    ensures |AfterAll(t, trace).pending| + |AfterAll(t, trace).dead| + CountSent(trace) == |t.pending| + |t.dead|
  {
    if trace != [] {
      var n := |trace| - 1;
      FlushConserves(t, trace[..n]);
      AttemptKeepsWellformed(AfterAll(t, trace[..n]), trace[n]);
      AttemptConserves(AfterAll(t, trace[..n]), trace[n]);
    }
  }

  /** Deleting by primary key removes that row and no other, and keeps the order. */
  lemma WithoutIs(pending: seq<Item>, id: nat)
    requires Ascending(pending)
    ensures Ascending(Without(pending, id))
    ensures forall x :: x in Without(pending, id) <==> x in pending && x.id != id
  {
    var i := Position(pending, id);
    if i < |pending| {
      WithoutFacts(pending, pending[i]);
      forall x | x in pending && x.id == id ensures x == pending[i] {
        PositionOf(pending, x);
      }
    }
  }

  lemma {:induction false} InsertedFacts(p: seq<Item>, x: Item, now: real)
    requires Ascending(p) && (forall y | y in p :: y.id < x.id) && x.nextAt <= now
    ensures Ascending(p + [x]) && x in AllDue(p + [x], now)
  {
    var e := p + [x];
    forall i, j | 0 <= i < j < |e| ensures e[i].id < e[j].id {
      assert e[i] in p;
    }
    assert e[|p|] == x;
    DueMembers(e, now);
  }

  /** Due rows, at most `limit`; a due row is left out only for `limit` rows before it. */
  ghost predicate FirstDue(pending: seq<Item>, now: real, limit: nat, batch: seq<Item>) {
    && |batch| <= limit && (forall x | x in batch :: x in pending && x.nextAt <= now)
    && forall x | x in pending && x.nextAt <= now && x !in batch :: |batch| == limit && forall y | y in batch :: y.id < x.id
  }

  lemma {:induction false} LimitTakesFirst(d: seq<Item>, limit: nat)
    requires Ascending(d) && |d| > limit
    ensures Ascending(d[..limit]) && forall x | x in d && x !in d[..limit] :: forall y | y in d[..limit] :: y.id < x.id
  {
    forall x, y | x in d && x !in d[..limit] && y in d[..limit] ensures y.id < x.id {
      var i :| 0 <= i < |d| && d[i] == x;
      var j :| 0 <= j < limit && d[..limit][j] == y;
      assert d[j] == y;
    }
  }

  // ---- the queue object ----------------------------------------------------------------------

  class Queue {
    var pending: seq<Item>
    var dead: seq<Dead>
    var nextId: nat
    const maxSize: nat

    ghost function Now(): Tables
      reads this
    {
      Tables(pending, dead, nextId)
    }

    ghost predicate Valid()
      reads this
    {
      Wellformed(Now()) && |pending| <= maxSize
    }

    constructor (maxSize: nat)
      ensures Valid() && Now() == Tables([], [], 1) && this.maxSize == maxSize
    {
      pending, dead, nextId := [], [], 1;
      this.maxSize := maxSize;
    }

    /** None is QueueFullError. */
    method Enqueue(w: Write, now: real) returns (id: Option<nat>)
      requires Valid()
      modifies this
      ensures Valid()
      ensures id.None? <==> |old(pending)| >= maxSize
      ensures id.None? ==> Now() == old(Now())
      ensures id.Some? ==> id.value == old(nextId) && Now() == InsertPending(old(Now()), w, now)
      // the new row comes last, has a new id and is due at once
      ensures id.Some? ==>
        && pending == old(pending) + [Item(id.value, w, 0, None, now)] && dead == old(dead) && nextId == id.value + 1
        && (forall x | x in old(pending) :: x.id < id.value) && Item(id.value, w, 0, None, now) in AllDue(pending, now)
    {
      if |pending| >= maxSize {
        return None;
      }
      id := Some(nextId);
      InsertedFacts(pending, Item(nextId, w, 0, None, now), now);
      pending := pending + [Item(nextId, w, 0, None, now)];
      nextId := nextId + 1;
    }

    /** The due rows in id order, or the first `limit` of them. */
    method NextDue(limit: nat, now: real) returns (batch: seq<Item>)
      requires Valid()
      ensures batch == Due(pending, now, limit) && Ascending(batch)
      ensures forall x | x in batch :: x in pending
      ensures FirstDue(pending, now, limit, batch)
    {
      DueAscending(pending, now);
      DueMembers(pending, now);
      batch := Due(pending, now, limit);
      if |AllDue(pending, now)| > limit {
        LimitTakesFirst(AllDue(pending, now), limit);
      }
    }

    /** The row with this id goes, if there is one; every other row stays as it is, in its order. */
    method Ack(id: nat)
      requires Valid()
      modifies this
      ensures Valid() && Now() == DeletePending(old(Now()), id)
      ensures forall x :: x in pending <==> x in old(pending) && x.id != id
      ensures dead == old(dead) && nextId == old(nextId)
    {
      WithoutIs(pending, id);
      pending := Without(pending, id);
    }

    /** The write moves to `dead` with one more attempt, the error and the time. */
    method Bury(item: Item, err: string, now: real)
      modifies this
      ensures Now() == DeletePending(InsertDead(old(Now()), Buried(item, err, now)), item.id)
      ensures dead == old(dead) + [Dead(item.write, item.attempts + 1, err, now)] && nextId == old(nextId)
      ensures Ascending(old(pending)) ==> Gone(old(pending), pending, item.id)
    {
      if Ascending(pending) { WithoutIs(pending, item.id); }
      dead := dead + [Buried(item, err, now)];
      pending := Without(pending, item.id);
    }

    /** Before the twelfth failure the row stays, with one more attempt and a later time; then it moves to `dead`. */
    method Fail(item: Item, err: string, now: real, delay: real)
      modifies this
      ensures Now() == AfterFail(old(Now()), item, err, now, delay)
      ensures nextId == old(nextId)
      ensures item.attempts + 1 < 12 ==> dead == old(dead) && |pending| == |old(pending)|
      ensures item.attempts + 1 < 12 && Ascending(old(pending)) && item in old(pending) ==>
                RowReplaced(old(pending), pending, item, Item(item.id, item.write, item.attempts + 1, Some(err), now + delay))
      ensures item.attempts + 1 >= 12 ==> dead == old(dead) + [Dead(item.write, item.attempts + 1, err, now)]
      ensures item.attempts + 1 >= 12 && Ascending(old(pending)) ==> Gone(old(pending), pending, item.id)
    {
      if Ascending(pending) && item in pending {
        RescheduleFacts(Now(), item, item.attempts + 1, err, now + delay);
      }
      if item.attempts + 1 >= MAX_ATTEMPTS {
        Bury(item, err, now);
      } else {
        var i := Position(pending, item.id);
        if i < |pending| {
          pending := pending[i := pending[i].(attempts := item.attempts + 1, lastError := Some(err), nextAt := now + delay)];
        }
      }
    }

    /** What `flush` does with one item of its batch. */
    method Settle(a: Attempt)
      requires Valid() && a.item in pending
      modifies this
      ensures Valid() && Now() == AfterAttempt(old(Now()), a)
    {
      AttemptKeepsWellformed(Now(), a);
      AttemptConserves(Now(), a);
      match a.result {
        case Sent => Ack(a.item.id);
        case NetworkFailure(err) => Fail(a.item, err, a.now, a.delay);
        case OtherFailure(err) => Bury(a.item, err, a.now);
      }
    }

    /** Send one item of the batch and settle it; `next` is the trace with this attempt. */
    method TryOne(batch: seq<Item>, i: nat, world: World, trace: seq<Attempt>,
                  ghost done: seq<Attempt>, ghost waiting: seq<Item>, ghost start: Tables)
        returns (next: seq<Attempt>, ok: bool, cut: bool)
      requires Valid() && world.Sane() && Ran(start, trace, Now()) && !Cut(trace)
      requires i < |batch| && Ascending(batch) && Worked(batch, i, done, trace, waiting, pending)
      modifies this
      ensures Valid() && Ran(start, next, Now()) && |next| == |trace| + 1 && cut == Cut(next)
      ensures CountSent(next) == CountSent(trace) + if ok then 1 else 0
      ensures Tried(next) <= Tried(done) + batch
      ensures !cut ==> Worked(batch, i + 1, done, next, waiting, pending)
    {
      var a := world.Outcome(|trace|, batch[i]);
      RanAppend(start, trace, Now(), a);
      WorkedOneMore(batch, i, done, trace, waiting, Now(), a);
      Settle(a);
      next, ok, cut := trace + [a], a.result.Sent?, a.result.NetworkFailure?;
    }

    /** The inner loop: try a batch in order, up to the first network failure. */
    method TryBatch(batch: seq<Item>, world: World, done: seq<Attempt>, ghost start: Tables)
        returns (sent: nat, failed: nat, trace: seq<Attempt>)
      requires Valid() && world.Sane() && Ran(start, done, Now()) && !Cut(done)
      requires Ascending(batch) && forall j | 0 <= j < |batch| :: batch[j] in pending
      modifies this
      ensures Valid() && Ran(start, trace, Now())
      ensures CountSent(trace) == CountSent(done) + sent && |trace| == |done| + sent + failed
      ensures Tried(trace) <= Tried(done) + batch
      ensures !Cut(trace) ==> Worked(batch, |batch|, done, trace, old(pending), pending)
    {
      sent, failed, trace := 0, 0, done;
      ghost var waiting := pending;
      var i, cut := 0, false;
      WorkedNone(batch, done, pending);
      while i < |batch| && !cut
        invariant 0 <= i <= |batch| && Valid() && Ran(start, trace, Now()) && cut == Cut(trace)
        invariant CountSent(trace) == CountSent(done) + sent && |trace| == |done| + sent + failed
        invariant Tried(trace) <= Tried(done) + batch
        invariant !cut ==> Worked(batch, i, done, trace, waiting, pending)
      {
        var ok;
        trace, ok, cut := TryOne(batch, i, world, trace, done, waiting, start);
        if ok {
          sent := sent + 1;
        } else {
          failed := failed + 1;
        }
        i := i + 1;
      }
    }

    /** One turn of the outer loop, from the SELECT of due items to the end of their batch. */
    method Round(world: World, done: seq<Attempt>, ghost start: Tables)
        returns (sent: nat, failed: nat, trace: seq<Attempt>, again: bool)
      requires Valid() && world.Sane() && Ran(start, done, Now()) && !Cut(done)
      requires Ordered(world, start, done, pending)
      modifies this
      ensures Valid() && Ran(start, trace, Now())
      ensures CountSent(trace) == CountSent(done) + sent && |trace| == |done| + sent + failed
      ensures again ==> !Cut(trace) && |pending| < |old(pending)| && Ordered(world, start, trace, pending)
      ensures !again ==> Cut(trace) || (Ordered(world, start, trace, []) && AllDue(pending, world.clock(2 * |trace|)) == [])
      ensures world.AlwaysDue(start.pending) ==> Tried(trace) <= start.pending
    {
      var now := world.clock(2 * |done|);
      var batch := NextDue(BATCH, now);
      if batch == [] {
        NothingDueEmpty(world, start, done, pending, now);
        return 0, 0, done, false;
      }
      ghost var waiting := pending;
      if world.AlwaysDue(start.pending) { DueIsFront(world, start, done, pending, now); }
      sent, failed, trace := TryBatch(batch, world, done, start);
      assert batch[..|batch|] == batch;
      if world.AlwaysDue(start.pending) {
        InOrder(start.pending, Tried(done), waiting, batch, Tried(trace), pending, Cut(trace));
      }
      again := !Cut(trace);
    }

    /** Drain the queue; `trace` lists what was tried. */
    method Flush(world: World) returns (sent: nat, failed: nat, trace: seq<Attempt>)
      requires Valid() && world.Sane()
      modifies this
      ensures Valid()
      ensures Ran(old(Now()), trace, Now())
      ensures sent == CountSent(trace) && sent + failed == |trace|
      // it stops on a network failure, or when nothing is due at the last reading of the clock
      ensures Cut(trace) || AllDue(pending, world.clock(2 * |trace|)) == []
      ensures Cut(trace) || forall x | x in pending :: x.nextAt > world.clock(2 * |trace|)
      // while everything pending is due, items go out in the order they were enqueued
      ensures world.AlwaysDue(old(pending)) ==> Tried(trace) <= old(pending) && (!Cut(trace) ==> Tried(trace) == old(pending))
    {
      ghost var start := Now();
      sent, failed, trace := 0, 0, [];
      var again := true;
      while again
        invariant Valid() && start == old(Now()) && Ran(start, trace, Now())
        invariant sent == CountSent(trace) && sent + failed == |trace|
        invariant again ==> !Cut(trace) && Ordered(world, start, trace, pending)
        invariant !again ==> Cut(trace) || (Ordered(world, start, trace, []) && AllDue(pending, world.clock(2 * |trace|)) == [])
        invariant world.AlwaysDue(start.pending) ==> Tried(trace) <= start.pending
        decreases again, |pending|
      {
        var s, f;
        s, f, trace, again := Round(world, trace, start);
        sent, failed := sent + s, failed + f;
      }
      DueMembers(pending, world.clock(2 * |trace|));
    }
  }

  /** While everything at the start stays due, what was tried and what waits make up the start, in order. */
  ghost predicate Ordered(world: World, start: Tables, trace: seq<Attempt>, pending: seq<Item>) {
    world.AlwaysDue(start.pending) ==> start.pending == Tried(trace) + pending
  }

  lemma DueIsFront(world: World, start: Tables, trace: seq<Attempt>, pending: seq<Item>, now: real)
    requires Ordered(world, start, trace, pending) && world.AlwaysDue(start.pending)
    requires exists n :: now == world.clock(n)
    ensures Due(pending, now, BATCH) <= pending
  {
    assert forall x | x in pending :: x in start.pending && x.nextAt <= now;
    EverythingDue(pending, now);
  }

  lemma NothingDueEmpty(world: World, start: Tables, trace: seq<Attempt>, pending: seq<Item>, now: real)
    requires Due(pending, now, BATCH) == [] && Ordered(world, start, trace, pending)
    requires exists n :: now == world.clock(n)
    ensures Ordered(world, start, trace, []) && AllDue(pending, now) == []
    ensures world.AlwaysDue(start.pending) ==> Tried(trace) <= start.pending
  {
    if world.AlwaysDue(start.pending) {
      assert forall x | x in pending :: x in start.pending && x.nextAt <= now;
      EverythingDue(pending, now);
    }
  }

  lemma InOrder(start: seq<Item>, done: seq<Item>, waiting: seq<Item>, batch: seq<Item>, tried: seq<Item>, pending: seq<Item>, cut: bool)
    requires start == done + waiting && batch <= waiting && tried <= done + batch
    requires !cut ==> tried == done + batch && pending == waiting[|batch|..]
    ensures tried <= start && (!cut ==> start == tried + pending)
  {
  }

  /** The first `i` items of the batch were tried and have left `pending`; the rest still wait in it. */
  ghost predicate Worked(batch: seq<Item>, i: nat, done: seq<Attempt>, trace: seq<Attempt>, waiting: seq<Item>, pending: seq<Item>)
    requires i <= |batch|
  {
    && Tried(trace) == Tried(done) + batch[..i]
    && |pending| == |waiting| - i
    && (forall j | i <= j < |batch| :: batch[j] in pending)
    && (batch <= waiting ==> pending == waiting[i..])
  }

  lemma WorkedNone(batch: seq<Item>, done: seq<Attempt>, pending: seq<Item>)
    requires forall j | 0 <= j < |batch| :: batch[j] in pending
    ensures Worked(batch, 0, done, done, pending, pending)
  {
  }

  lemma WorkedOneMore(batch: seq<Item>, i: nat, done: seq<Attempt>, trace: seq<Attempt>, waiting: seq<Item>, t: Tables, a: Attempt)
    requires i < |batch| && Ascending(batch) && a.item == batch[i] && Wellformed(t)
    requires Worked(batch, i, done, trace, waiting, t.pending)
    ensures Tried(trace + [a]) == Tried(done) + batch[..i + 1]
    ensures Tried(trace + [a]) <= Tried(done) + batch
    ensures CountSent(trace + [a]) == CountSent(trace) + if a.result.Sent? then 1 else 0
    ensures !a.result.NetworkFailure? ==>
              Worked(batch, i + 1, done, trace + [a], waiting, AfterAttempt(t, a).pending)
  {
    TriedAppend(trace, a, done, batch, i);
    AttemptConserves(t, a);
    if !a.result.NetworkFailure? && batch <= waiting {
      assert t.pending == waiting[i..] && t.pending[0] == a.item;
      FrontRemoved(t.pending, a.item);
    }
  }

  lemma TriedAppend(trace: seq<Attempt>, a: Attempt, done: seq<Attempt>, batch: seq<Item>, i: nat)
    requires i < |batch| && a.item == batch[i] && Tried(trace) == Tried(done) + batch[..i]
    ensures Tried(trace + [a]) == Tried(done) + batch[..i + 1]
    ensures Tried(trace + [a]) <= Tried(done) + batch
    ensures CountSent(trace + [a]) == CountSent(trace) + if a.result.Sent? then 1 else 0
  {
    assert Tried(trace + [a]) == Tried(trace) + [a.item];
    assert (trace + [a])[..|trace|] == trace;
  }

  /** The outside of `flush`: how the n-th send goes, the n-th clock reading, the n-th random draw. */
  datatype World = World(send: (nat, Item) -> SendResult, clock: nat -> real, uniform: (nat, real) -> real) {
    ghost predicate Sane() {
      forall n, u | u >= 0.0 :: 0.0 <= uniform(n, u) <= u
    }

    /** The n-th attempt of a flush, spent on `item`. */
    function Outcome(n: nat, item: Item): (a: Attempt)
      requires Sane()
      ensures a.item == item && Fair(a)
    {
      Attempt(item, send(n, item), clock(2 * n + 1), uniform(n, DelayCap(item.attempts + 1)))
    }

    ghost predicate AlwaysDue(items: seq<Item>) {
      forall x, n | x in items :: x.nextAt <= clock(n)
    }
  }

  /** `trace` leads from `start` to `t`. */
  ghost predicate Ran(start: Tables, trace: seq<Attempt>, t: Tables) {
    Replayable(start, trace) && t == AfterAll(start, trace)
  }

  lemma RanAppend(start: Tables, trace: seq<Attempt>, t: Tables, a: Attempt)
    requires Ran(start, trace, t) && !Cut(trace) && a.item in t.pending && Fair(a)
    ensures Ran(start, trace + [a], AfterAttempt(t, a))
  {
    assert (trace + [a])[..|trace|] == trace;
  }

  lemma FrontRemoved(p: seq<Item>, x: Item)
    requires p != [] && p[0] == x
    ensures Without(p, x.id) == p[1..]
  {
  }
}
