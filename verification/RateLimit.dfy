/**
  The per-key rate limiter: an LRU of token buckets, one per API key, in front of
  the route handlers. The theorems say exactly when a key's bucket survives the
  LRU, and that keys do not interfere while the LRU is large enough.
*/
module RateLimiting {
  import opened Prelude
  import opened TokenBuckets
  import Lru

  datatype Config = Config(rps: real, burst: int, capacity: nat)

  const MAX_BUCKETS: nat := 4096

  type Limiter = seq<(string, Bucket)>

  datatype Request = Request(key: string, at: real)

  /** `limiterFor`: the key's bucket moves to the front, or a new full one is added there. */
  function LimiterFor(cfg: Config, l: Limiter, key: string, now: real): (r: Limiter)
    requires cfg.capacity > 0
    ensures r != [] && r[0].0 == key
  {
    if Lru.Has(l, key) then Lru.Touch(l, key)
    else Lru.Add(l, key, NewBucket(cfg.rps, cfg.burst, now), cfg.capacity)
  }

  /** The bucket after one request: `Allow`, then `Tokens` for the response header if allowed. */
  function Spent(b: Bucket, now: real): Bucket {
    if Admits(b, now) then Refill(Take(b, now), now) else Take(b, now)
  }

  predicate Allows(cfg: Config, l: Limiter, r: Request)
    requires cfg.capacity > 0
  {
    Admits(LimiterFor(cfg, l, r.key, r.at)[0].1, r.at)
  }

  function Serve(cfg: Config, l: Limiter, r: Request): Limiter
    requires cfg.capacity > 0
  {
    var l1 := LimiterFor(cfg, l, r.key, r.at);
    [(r.key, Spent(l1[0].1, r.at))] + l1[1..]
  }

  // ---- runs ----------------------------------------------------------------

  function Served(cfg: Config, run: seq<Request>): Limiter
    requires cfg.capacity > 0
  {
    if run == [] then [] else Serve(cfg, Served(cfg, run[..|run| - 1]), run[|run| - 1])
  }

  /** The allow/deny answers of a whole run from an empty limiter. */
  function Answers(cfg: Config, run: seq<Request>): (a: seq<bool>)
    requires cfg.capacity > 0
    ensures |a| == |run|
  {
    if run == [] then []
    else
      var n := |run| - 1;
      Answers(cfg, run[..n]) + [Allows(cfg, Served(cfg, run[..n]), run[n])]
  }

  predicate Requested(run: seq<Request>, k: string) {
    exists i | 0 <= i < |run| :: run[i].key == k
  }

  /** The distinct other keys requested since the last request of `k`. */
  function Since(run: seq<Request>, k: string): set<string> {
    if run == [] || run[|run| - 1].key == k then {}
    else Since(run[..|run| - 1], k) + {run[|run| - 1].key}
  }

  ghost predicate Kept(cfg: Config, run: seq<Request>, k: string) {
    Requested(run, k) && |Since(run, k)| < cfg.capacity
  }

  /** One private bucket for `k`, started afresh whenever its reuse distance reaches the capacity. */
  function Solo(cfg: Config, run: seq<Request>, k: string): Option<Bucket>
    decreases |run|, 0
  {
    if run == [] then None
    else
      var n := |run| - 1;
      if run[n].key != k then Solo(cfg, run[..n], k)
      else Some(Spent(SoloBefore(cfg, run[..n], run[n]), run[n].at))
  }

  function SoloBefore(cfg: Config, run: seq<Request>, r: Request): Bucket
    decreases |run|, 1
  {
    var b := Solo(cfg, run, r.key);
    if b.Some? && |Since(run, r.key)| < cfg.capacity then b.value
    else NewBucket(cfg.rps, cfg.burst, r.at)
  }

  // ---- what the LRU keeps ---------------------------------------------------

  /** Keys of the first `n` entries. */
  function Ahead<V>(l: seq<(string, V)>, n: nat): set<string>
    requires n <= |l|
  {
    set i | 0 <= i < n :: l[i].0
  }

  lemma {:induction false} AheadCardinality<V>(l: seq<(string, V)>, n: nat)
    requires n <= |l| && forall i, j | 0 <= i < j < |l| :: l[i].0 != l[j].0
    ensures |Ahead(l, n)| == n
  {
    if n > 0 {
      AheadCardinality(l, n - 1);
      assert Ahead(l, n) == Ahead(l, n - 1) + {l[n - 1].0};
    }
  }

  ghost predicate Wellformed(cfg: Config, l: Limiter) {
    |l| <= cfg.capacity && forall i, j | 0 <= i < j < |l| :: l[i].0 != l[j].0
  }

  /** `l'` is `l` with `x` moved or added to the front, whatever bucket it carries. */
  ghost predicate Fronted(cfg: Config, l: Limiter, x: string, l': Limiter)
    requires cfg.capacity > 0
  {
    && l' != [] && l'[0].0 == x
    && var rest := Lru.Remove(l, x);
       l'[1..] == if |rest| == cfg.capacity then rest[..|rest| - 1] else rest
  }

  lemma ServeFronts(cfg: Config, l: Limiter, r: Request)
    requires cfg.capacity > 0 && Wellformed(cfg, l)
    ensures Fronted(cfg, l, r.key, Serve(cfg, l, r))
  {
    var rest := Lru.Remove(l, r.key);
    var l1 := LimiterFor(cfg, l, r.key, r.at);
    if !Lru.Has(l, r.key) && |rest| == cfg.capacity {
      assert l1[1..] == rest[..|rest| - 1];
    } else {
      assert l1[1..] == rest;
    }
  }

  lemma FrontedWellformed(cfg: Config, l: Limiter, x: string, l': Limiter)
    requires cfg.capacity > 0 && Wellformed(cfg, l) && Fronted(cfg, l, x, l')
    ensures Wellformed(cfg, l')
  {
    var rest := Lru.Remove(l, x);
    assert forall i | 0 <= i < |rest| :: rest[i].0 != x;
    assert forall i | 0 <= i < |l'| - 1 :: l'[i + 1] == l'[1..][i];
    forall i, j | 0 <= i < j < |l'| ensures l'[i].0 != l'[j].0 {
      assert l'[j] == l'[1..][j - 1] == rest[j - 1];
      if i > 0 {
        assert l'[i] == rest[i - 1];
      }
    }
  }

  lemma IndexAt<V>(l: seq<(string, V)>, k: string, i: nat)
    requires i < |l| && l[i].0 == k && forall a, b | 0 <= a < b < |l| :: l[a].0 != l[b].0
    ensures Lru.Index(l, k) == i
  {
  }

  /** Entry by entry: behind the front, `l'` is `l` without `x`. */
  ghost predicate Shifted(cfg: Config, l: Limiter, x: string, l': Limiter) {
    var j := Lru.Index(l, x);
    && |l'| == (if j == |l| < cfg.capacity then |l| + 1 else |l|)
    && l' != [] && l'[0].0 == x
    && forall a | 1 <= a < |l'| :: l'[a] == l[if a <= j then a - 1 else a]
  }

  lemma FrontedShifts(cfg: Config, l: Limiter, x: string, l': Limiter)
    requires cfg.capacity > 0 && |l| <= cfg.capacity && Fronted(cfg, l, x, l')
    ensures Shifted(cfg, l, x, l')
  {
    var rest := Lru.Remove(l, x);
    if Lru.Has(l, x) { Lru.RemoveAt(l, x); }
    forall a | 1 <= a < |l'| ensures l'[a] == l[if a <= Lru.Index(l, x) then a - 1 else a] {
      assert l'[a] == l'[1..][a - 1] == rest[a - 1];
    }
  }

  /** Where entry `i` of the old list stands once `x`, at `j`, is moved to the front. */
  function SunkTo(i: nat, j: nat): nat {
    if j < i then i else i + 1
  }

  lemma Sinks(cfg: Config, l: Limiter, x: string, l': Limiter, i: nat, j: nat)
    requires Shifted(cfg, l, x, l') && Wellformed(cfg, l') && Wellformed(cfg, l) && j == Lru.Index(l, x)
    requires i < |l| && l[i].0 != x && SunkTo(i, j) < |l'|
    ensures var p := SunkTo(i, j); Lru.Index(l', l[i].0) == p && l'[p] == l[i] && Ahead(l', p) == Ahead(l, i) + {x}
  {
    var p := SunkTo(i, j);
    assert l'[p] == l[i];
    IndexAt(l', l[i].0, p);
    AheadShift(l, x, l', i, j, p);
  }

  /** Another key's entry sinks by at most one place; the keys ahead of it gain exactly `x`. */
  lemma OtherKeySinks(cfg: Config, l: Limiter, x: string, l': Limiter, k: string)
    requires cfg.capacity > 0 && Wellformed(cfg, l) && Fronted(cfg, l, x, l') && k != x && Lru.Has(l, k)
    ensures Lru.Has(l', k) <==> |Ahead(l, Lru.Index(l, k)) + {x}| < cfg.capacity
    ensures Lru.Has(l', k) ==>
      && Ahead(l', Lru.Index(l', k)) == Ahead(l, Lru.Index(l, k)) + {x}
      && l'[Lru.Index(l', k)] == l[Lru.Index(l, k)]
  {
    var i, j := Lru.Index(l, k), Lru.Index(l, x);
    FrontedShifts(cfg, l, x, l');
    FrontedWellformed(cfg, l, x, l');
    SinkDepth(l, x, i);
    if SunkTo(i, j) < |l'| {
      Sinks(cfg, l, x, l', i, j);
    } else {
      FallsOff(cfg, l, x, l', k);
    }
  }

  lemma FallsOff(cfg: Config, l: Limiter, x: string, l': Limiter, k: string)
    requires Shifted(cfg, l, x, l') && k != x && Lru.Index(l, k) < Lru.Index(l, x) == |l|
    requires Lru.Index(l, k) + 1 == |l'|
    ensures !Lru.Has(l', k)
  {
    forall a | 0 <= a < |l'| ensures l'[a].0 != k {
      if a > 0 {
        assert l'[a] == l[a - 1];
      }
    }
  }

  lemma SinkDepth(l: Limiter, x: string, i: nat)
    requires i < |l| && l[i].0 != x && forall a, b | 0 <= a < b < |l| :: l[a].0 != l[b].0
    ensures |Ahead(l, i) + {x}| == if Lru.Index(l, x) < i then i else i + 1
  {
    AheadCardinality(l, i);
    if Lru.Index(l, x) < i {
      assert Ahead(l, i) + {x} == Ahead(l, i);
    }
  }

  lemma AheadShift(l: Limiter, x: string, l': Limiter, i: nat, j: nat, p: nat)
    requires i < |l| && j <= |l| && i != j && (j < i ==> l[j].0 == x)
    requires forall a | 0 <= a < |l| :: l[a].0 == x ==> a == j
    requires p == (if j < i then i else i + 1) && p < |l'| && l'[0].0 == x
    requires forall a | 1 <= a < |l'| :: |l| > (if a <= j then a - 1 else a) && l'[a] == l[if a <= j then a - 1 else a]
    ensures Ahead(l', p) == Ahead(l, i) + {x}
  {
    forall y | y in Ahead(l', p) ensures y in Ahead(l, i) + {x} {
      var a :| 0 <= a < p && l'[a].0 == y;
      if a > 0 {
        var b := if a <= j then a - 1 else a;
        assert l'[a] == l[b];
        assert b < i && l[b].0 in Ahead(l, i);
      }
    }
    forall y | y in Ahead(l, i) + {x} ensures y in Ahead(l', p) {
      if y == x {
        assert l'[0].0 in Ahead(l', p);
      } else {
        var a :| 0 <= a < i && l[a].0 == y;
        var q := if a < j then a + 1 else a;
        assert a != j && l'[q] == l[a];
        assert l'[q].0 in Ahead(l', p);
      }
    }
  }

  /** The LRU holds exactly the keys whose reuse distance is below the capacity, each with its private bucket. */
  ghost predicate Tracks(cfg: Config, run: seq<Request>, l: Limiter, k: string) {
    && (Lru.Has(l, k) <==> Kept(cfg, run, k))
    && (Lru.Has(l, k) ==>
         && Ahead(l, Lru.Index(l, k)) == Since(run, k)
         && Solo(cfg, run, k) == Some(l[Lru.Index(l, k)].1))
    && (Requested(run, k) <==> Solo(cfg, run, k).Some?)
  }

  lemma RequestedAppend(run: seq<Request>, k: string)
    requires run != []
    ensures Requested(run, k) <==> Requested(run[..|run| - 1], k) || run[|run| - 1].key == k
  {
    var n := |run| - 1;
    if Requested(run[..n], k) {
      var i :| 0 <= i < n && run[..n][i].key == k;
      assert run[i].key == k;
    }
    if Requested(run, k) {
      var i :| 0 <= i < |run| && run[i].key == k;
      if i < n { assert run[..n][i].key == k; }
    }
  }

  /** Theorem (what survives the LRU), for every run and key. */
  lemma {:induction false} LruKeepsExactly(cfg: Config, run: seq<Request>, k: string)
    requires cfg.capacity > 0
    ensures Wellformed(cfg, Served(cfg, run)) && Tracks(cfg, run, Served(cfg, run), k)
  {
    if run != [] {
      var n := |run| - 1;
      var prev, x := run[..n], run[n].key;
      var l, l' := Served(cfg, prev), Served(cfg, run);
      LruKeepsExactly(cfg, prev, k);
      ServeFronts(cfg, l, run[n]);
      FrontedWellformed(cfg, l, x, l');
      RequestedAppend(run, k);
      if x == k {
        assert Lru.Index(l', k) == 0;
        assert Since(run, k) == {};
        ServedFront(cfg, prev, run[n]);
      } else if Lru.Has(l, k) {
        OtherKeySinks(cfg, l, x, l', k);
      } else {
        NewcomerAbsent(cfg, l, x, l', k);
        if Requested(prev, k) {
          CardinalityGrows(Since(prev, k), x);
        }
      }
    }
  }

  lemma CardinalityGrows(s: set<string>, x: string)
    ensures |s| <= |s + {x}|
  {
    assert s <= s + {x};
    if x in s { assert s + {x} == s; }
  }

  lemma NewcomerAbsent(cfg: Config, l: Limiter, x: string, l': Limiter, k: string)
    requires cfg.capacity > 0 && Fronted(cfg, l, x, l') && k != x && !Lru.Has(l, k)
    ensures !Lru.Has(l', k)
  {
    var rest := Lru.Remove(l, x);
    forall a | 0 <= a < |l'| ensures l'[a].0 != k {
      if a > 0 {
        assert l'[a] == l'[1..][a - 1] == rest[a - 1];
        assert rest[a - 1] in l;
        var b :| 0 <= b < |l| && l[b] == rest[a - 1];
        assert l[b].0 != k;
      }
    }
  }

  /** The bucket a request is charged to is the private bucket of its key. */
  lemma ServedFront(cfg: Config, prev: seq<Request>, r: Request)
    requires cfg.capacity > 0 && Tracks(cfg, prev, Served(cfg, prev), r.key)
    ensures LimiterFor(cfg, Served(cfg, prev), r.key, r.at)[0].1 == SoloBefore(cfg, prev, r)
  {
  }

  lemma AnswerIsSolo(cfg: Config, prev: seq<Request>, r: Request)
    requires cfg.capacity > 0
    ensures Allows(cfg, Served(cfg, prev), r) <==> Admits(SoloBefore(cfg, prev, r), r.at)
  {
    LruKeepsExactly(cfg, prev, r.key);
    ServedFront(cfg, prev, r);
  }

  /** As configured, a key keeps its bucket until 4096 other keys have been seen. */
  lemma {:induction false} ConfiguredCapacity(rps: real, burst: int, run: seq<Request>, k: string)
    ensures Lru.Has(Served(Config(rps, burst, MAX_BUCKETS), run), k) <==> Requested(run, k) && |Since(run, k)| < 4096
  {
    LruKeepsExactly(Config(rps, burst, MAX_BUCKETS), run, k);
  }

  // ---- non-interference ------------------------------------------------------

  function Only(run: seq<Request>, k: string): seq<Request> {
    if run == [] then []
    else Only(run[..|run| - 1], k) + if run[|run| - 1].key == k then [run[|run| - 1]] else []
  }

  /** The answers given to requests of `k`, in order. */
  function AnswersTo(run: seq<Request>, answers: seq<bool>, k: string): seq<bool>
    requires |run| == |answers|
  {
    if run == [] then []
    else
      var n := |run| - 1;
      AnswersTo(run[..n], answers[..n], k) + if run[n].key == k then [answers[n]] else []
  }

  function Keys(run: seq<Request>): set<string> {
    set i | 0 <= i < |run| :: run[i].key
  }

  /** Every request of `k` arrives before `capacity` distinct other keys have been seen since the previous one. */
  ghost predicate ReusedInTime(cfg: Config, run: seq<Request>, k: string) {
    forall n | 0 <= n < |run| && run[n].key == k && Requested(run[..n], k) :: |Since(run[..n], k)| < cfg.capacity
  }

  lemma {:induction false} OnlyHasNoOthers(run: seq<Request>, k: string)
    ensures Since(Only(run, k), k) == {}
    ensures Requested(Only(run, k), k) <==> Requested(run, k)
  {
    if run != [] {
      var n := |run| - 1;
      OnlyHasNoOthers(run[..n], k);
      RequestedAppend(run, k);
      if run[n].key == k {
        assert Only(run, k)[|Only(run, k)| - 1].key == k;
      } else {
        assert Only(run, k) == Only(run[..n], k);
      }
    }
  }

  lemma ReusedInTimePrefix(cfg: Config, run: seq<Request>, k: string)
    requires run != [] && ReusedInTime(cfg, run, k)
    ensures ReusedInTime(cfg, run[..|run| - 1], k)
  {
    var prev := run[..|run| - 1];
    forall n | 0 <= n < |prev| && prev[n].key == k && Requested(prev[..n], k)
      ensures |Since(prev[..n], k)| < cfg.capacity
    {
      assert prev[..n] == run[..n];
    }
  }

  lemma {:induction false} SoloAlone(cfg: Config, run: seq<Request>, k: string)
    requires cfg.capacity > 0 && ReusedInTime(cfg, run, k)
    ensures Solo(cfg, run, k) == Solo(cfg, Only(run, k), k)
    ensures Requested(run, k) <==> Solo(cfg, run, k).Some?
  {
    if run != [] {
      var n := |run| - 1;
      ReusedInTimePrefix(cfg, run, k);
      SoloAlone(cfg, run[..n], k);
      RequestedAppend(run, k);
      OnlyHasNoOthers(run[..n], k);
      if run[n].key == k {
        var o := Only(run, k);
        assert o[..|o| - 1] == Only(run[..n], k);
      } else {
        assert Only(run, k) == Only(run[..n], k);
      }
    }
  }

  /**
    Theorem (non-interference). If a key's reuse distances stay below the capacity, its
    answers are those of the run that contains its own requests alone.
  */
  lemma {:induction false} OtherKeysDoNotInterfere(cfg: Config, run: seq<Request>, k: string)
    requires cfg.capacity > 0 && ReusedInTime(cfg, run, k)
    ensures AnswersTo(run, Answers(cfg, run), k) == Answers(cfg, Only(run, k))
  {
    if run != [] {
      var n := |run| - 1;
      var prev := run[..n];
      ReusedInTimePrefix(cfg, run, k);
      OtherKeysDoNotInterfere(cfg, prev, k);
      assert Answers(cfg, run)[..n] == Answers(cfg, prev);
      if run[n].key == k {
        var o := Only(run, k);
        assert o[..|o| - 1] == Only(prev, k) && o[|o| - 1] == run[n];
        SoloAlone(cfg, prev, k);
        OnlyHasNoOthers(prev, k);
        AnswerIsSolo(cfg, prev, run[n]);
        AnswerIsSolo(cfg, Only(prev, k), run[n]);
      } else {
        assert Only(run, k) == Only(prev, k);
      }
    }
  }

  lemma {:induction false} SinceWithinKeys(run: seq<Request>, k: string)
    ensures Since(run, k) <= Keys(run) - {k}
  {
    if run != [] {
      var n := |run| - 1;
      SinceWithinKeys(run[..n], k);
      assert forall i | 0 <= i < n :: run[..n][i] == run[i];
      assert Keys(run[..n]) <= Keys(run);
    }
  }

  /** Corollary: with at most `capacity` distinct keys (4096 as configured), no key affects another. */
  lemma FewKeysDoNotInterfere(cfg: Config, run: seq<Request>, k: string)
    requires cfg.capacity > 0 && |Keys(run)| <= cfg.capacity
    ensures AnswersTo(run, Answers(cfg, run), k) == Answers(cfg, Only(run, k))
  {
    forall n | 0 <= n < |run| && run[n].key == k && Requested(run[..n], k)
      ensures |Since(run[..n], k)| < cfg.capacity
    {
      SinceWithinKeys(run[..n], k);
      assert forall i | 0 <= i < n :: run[..n][i] == run[i];
      assert k in Keys(run) && Keys(run[..n]) <= Keys(run);
      SubsetCardinality(Since(run[..n], k), Keys(run) - {k});
      assert |Keys(run) - {k}| == |Keys(run)| - 1;
    }
    OtherKeysDoNotInterfere(cfg, run, k);
  }

  lemma SubsetCardinality(a: set<string>, b: set<string>)
    requires a <= b
    ensures |a| <= |b|
  {
    assert b == a + (b - a);
  }

  // ---- the limiter object ----------------------------------------------------

  lemma {:induction false} SameKeysSameIndex<V, W>(a: seq<(string, V)>, b: seq<(string, W)>, k: string)
    requires |a| == |b| && forall i | 0 <= i < |a| :: a[i].0 == b[i].0
    ensures Lru.Index(a, k) == Lru.Index(b, k)
  {
    if a != [] && a[0].0 != k {
      SameKeysSameIndex(a[1..], b[1..], k);
    }
  }

  class RateLimit {
    var limiters: seq<(string, TokenBucket)>
    const rps: real
    const burst: int
    ghost var view: Limiter  // the same entries with the buckets' values

    ghost function Cfg(): Config {
      Config(rps, burst, MAX_BUCKETS)
    }

    ghost function Buckets(): set<TokenBucket>
      reads this
    {
      set i | 0 <= i < |limiters| :: limiters[i].1
    }

    /** Every key has its own bucket object, and `view` shows what is in them. */
    ghost predicate Valid()
      reads this, Buckets()
    {
      && |limiters| == |view| <= MAX_BUCKETS && Lru.Distinct(limiters)
      && (forall i | 0 <= i < |limiters| :: limiters[i].0 == view[i].0 && limiters[i].1.Value() == view[i].1)
    }

    constructor (rps: real, burst: int)
      ensures Valid() && view == []
      ensures this.rps > 0.0 && this.burst > 0
      ensures this.rps == (if rps <= 0.0 then 60.0 else rps)
      ensures this.burst == if burst <= 0 then 120 else burst
    {
      this.rps := if rps <= 0.0 then 60.0 else rps;
      this.burst := if burst <= 0 then 120 else burst;
      limiters := [];
      view := [];
    }

    /** Moving the same entry of both lists to the front keeps them together. */
    lemma MovedTogether(l: seq<(string, TokenBucket)>, v: Limiter, p: nat)
      requires Valid() && Lru.Moved(limiters, l, p) && Lru.Moved(view, v, p)
      ensures |l| == |v| <= MAX_BUCKETS && Lru.Distinct(l) && l[0].1 == limiters[p].1
      ensures forall j | 0 <= j < |l| :: l[j].0 == v[j].0 && l[j].1.Value() == v[j].1 && l[j].1 in Buckets()
    {
      Lru.MovedDistinct(limiters, l, p);
      forall j | 0 <= j < |l| ensures l[j].0 == v[j].0 && l[j].1.Value() == v[j].1 && l[j].1 in Buckets() {
        var i := Lru.TouchedFrom(p, j);
        assert l[j] == limiters[i] && v[j] == view[i];
      }
    }

    /** The LRU hit: move the key's bucket to the front. */
    method Promote(key: string) returns (b: TokenBucket)
      requires Valid() && Lru.Has(view, key)
      modifies this
      ensures Valid() && limiters != [] && limiters[0] == (key, b)
      ensures Buckets() <= old(Buckets())
      ensures view == Lru.Touch(old(view), key)
    {
      SameKeysSameIndex(limiters, view, key);
      var p := Lru.Index(limiters, key);
      b := limiters[p].1;
      Lru.TouchMoves(limiters, key);
      Lru.TouchMoves(view, key);
      MovedTogether(Lru.Touch(limiters, key), Lru.Touch(view, key), p);
      limiters := Lru.Touch(limiters, key);
      view := Lru.Touch(view, key);
    }

    /** The LRU miss: a new full bucket, evicting the least recently used one when full. */
    method Insert(key: string, now: real) returns (b: TokenBucket)
      requires Valid() && !Lru.Has(view, key)
      modifies this
      ensures Valid() && limiters != [] && limiters[0] == (key, b)
      ensures fresh(b) && Buckets() <= old(Buckets()) + {b}
      ensures view == Lru.Add(old(view), key, NewBucket(rps, burst, now), MAX_BUCKETS)
    {
      SameKeysSameIndex(limiters, view, key);
      b := new TokenBucket(rps, burst, now);
      Lru.AddNewAt(limiters, key, b, MAX_BUCKETS);
      Lru.AddNewAt(view, key, b.Value(), MAX_BUCKETS);
      Lru.AddDistinct(limiters, key, b, MAX_BUCKETS);
      ghost var v := Lru.Add(view, key, b.Value(), MAX_BUCKETS);
      var l := Lru.Add(limiters, key, b, MAX_BUCKETS);
      assert forall j | 0 <= j < |l| :: l[j].0 == v[j].0 && l[j].1.Value() == v[j].1 && l[j].1 in Buckets() + {b};
      limiters := l;
      view := v;
    }

    method BucketFor(key: string, now: real) returns (b: TokenBucket)
      requires Valid()
      modifies this
      ensures Valid() && limiters != [] && limiters[0] == (key, b)
      ensures forall t | t in Buckets() :: t in old(Buckets()) || fresh(t)
      ensures view == LimiterFor(Cfg(), old(view), key, now)
    {
      SameKeysSameIndex(limiters, view, key);
      if Lru.Has(limiters, key) {
        b := Promote(key);
      } else {
        b := Insert(key, now);
      }
    }

    /** Charge the bucket in front. */
    method Spend(b: TokenBucket, now: real) returns (ok: bool, remaining: real)
      requires Valid() && limiters != [] && limiters[0].1 == b
      modifies this`view, b
      ensures Valid() && ok == Admits(old(view)[0].1, now)
      ensures view == [(old(view)[0].0, Spent(old(view)[0].1, now))] + old(view)[1..]
      ensures remaining == if ok then view[0].1.tokens else 0.0
    {
      ghost var was := view;
      ok, remaining := Charge(b, now);
      view := [(limiters[0].0, b.Value())] + was[1..];
      forall i | 1 <= i < |limiters| ensures limiters[i].1.Value() == view[i].1 {
        assert limiters[0].1 != limiters[i].1 && view[i] == was[i];
      }
    }

    /** One pass through the middleware; an unauthenticated request is charged to "anon". */
    method Handle(caller: Option<string>, now: real) returns (ok: bool, remaining: real)
      requires Valid()
      modifies this, Buckets()
      ensures Valid()
      ensures var r := Request(if caller.Some? then caller.value else "anon", now);
              && ok == Allows(Cfg(), old(view), r)
              && view == Serve(Cfg(), old(view), r)
      ensures remaining == if ok then view[0].1.tokens else 0.0
    {
      var key := if caller.Some? then caller.value else "anon";
      var b := BucketFor(key, now);
      ok, remaining := Spend(b, now);
    }
  }

  /** Take a token and read the balance for the response header. */
  method Charge(b: TokenBucket, now: real) returns (ok: bool, remaining: real)
    modifies b
    ensures ok == Admits(old(b.Value()), now) && b.Value() == Spent(old(b.Value()), now)
    ensures remaining == if ok then b.Value().tokens else 0.0
  {
    ok := b.Allow(now);
    remaining := 0.0;
    if ok {
      remaining := b.Tokens(now);
    }
  }
}
