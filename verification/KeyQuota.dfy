/**
  Exactly when a key is held to burst + rate * length.

  Which bucket a request of a key finds depends on the order of the keys alone. The theorem
  says for every such order whether the bound holds at all times the requests can come, and
  how many are let through when they come at once.
*/
module KeyQuota {
  import opened Prelude
  import opened TokenBuckets
  import opened RateLimiting
  import opened KeyRates

  function Calls(run: seq<Request>, k: string): nat {
    if run == [] then 0 else Calls(run[..|run| - 1], k) + if run[|run| - 1].key == k then 1 else 0
  }

  /** How many requests each of the key's buckets served, oldest bucket first. */
  function Lives(cfg: Config, run: seq<Request>, k: string): seq<nat> {
    if run == [] then []
    else
      var n := |run| - 1;
      var before := Lives(cfg, run[..n], k);
      if run[n].key != k then before
      else if Survives(cfg, run[..n], k) then LastServes(before)
      else before + [1]
  }

  /** One more request for the last bucket. */
  function LastServes(lives: seq<nat>): seq<nat> {
    if lives == [] then [] else lives[..|lives| - 1] + [lives[|lives| - 1] + 1]
  }

  function Sum(ns: seq<nat>): nat {
    if ns == [] then 0 else Sum(ns[..|ns| - 1]) + ns[|ns| - 1]
  }

  function Least(a: nat, b: nat): nat {
    if a < b then a else b
  }

  /** Each bucket lets at most `burst` through at once. */
  function Capped(ns: seq<nat>, burst: nat): nat {
    if ns == [] then 0 else Capped(ns[..|ns| - 1], burst) + Least(ns[|ns| - 1], burst)
  }

  lemma CappedAppend(ns: seq<nat>, n: nat, burst: nat)
    ensures Capped(ns + [n], burst) == Capped(ns, burst) + Least(n, burst) && Sum(ns + [n]) == Sum(ns) + n
  {
    assert (ns + [n])[..|ns|] == ns;
  }

  lemma LastServesCounts(ns: seq<nat>, burst: nat)
    requires ns != []
    ensures Sum(LastServes(ns)) == Sum(ns) + 1
    ensures Capped(LastServes(ns), burst) == Capped(ns, burst) + if ns[|ns| - 1] < burst then 1 else 0
  {
    CappedAppend(ns[..|ns| - 1], ns[|ns| - 1] + 1, burst);
  }

  ghost predicate Positive(ns: seq<nat>) {
    forall i | 0 <= i < |ns| :: ns[i] > 0
  }

  lemma {:induction false} LivesFacts(cfg: Config, run: seq<Request>, k: string)
    ensures Positive(Lives(cfg, run, k)) && Sum(Lives(cfg, run, k)) == Calls(run, k)
    ensures Lives(cfg, run, k) != [] <==> Requested(run, k)
  {
    if run != [] {
      var n := |run| - 1;
      LivesFacts(cfg, run[..n], k);
      RequestedAppend(run, k);
      if run[n].key == k {
        var before := Lives(cfg, run[..n], k);
        if Survives(cfg, run[..n], k) {
          LastServesCounts(before, 0);
        } else {
          CappedAppend(before, 1, 0);
        }
      }
    }
  }

  lemma ReusedInTimeAppend(cfg: Config, run: seq<Request>, k: string)
    requires run != []
    ensures var n := |run| - 1;
            ReusedInTime(cfg, run, k) <==>
            ReusedInTime(cfg, run[..n], k) && (run[n].key == k && Requested(run[..n], k) ==> Survives(cfg, run[..n], k))
  {
    var n := |run| - 1;
    assert forall i | 0 <= i < n :: run[..n][..i] == run[..i] && run[..n][i] == run[i];
    if ReusedInTime(cfg, run, k) {
      ReusedInTimePrefix(cfg, run, k);
    }
  }

  /** A key is reused in time if and only if it has had one bucket at most. */
  lemma {:induction false} ReusedIffOneLife(cfg: Config, run: seq<Request>, k: string)
    ensures ReusedInTime(cfg, run, k) <==> |Lives(cfg, run, k)| <= 1
  {
    if run != [] {
      ReusedIffOneLife(cfg, run[..|run| - 1], k);
      ReusedInTimeAppend(cfg, run, k);
      LivesFacts(cfg, run[..|run| - 1], k);
    }
  }

  // ---- all at once --------------------------------------------------------------------------------

  ghost predicate AllAt(run: seq<Request>, at: real) {
    forall i | 0 <= i < |run| :: run[i].at == at
  }

  /** A bucket that has served `n` requests at the instant of its birth. */
  function Drained(cfg: Config, n: nat, at: real): Bucket
    requires cfg.burst >= 0
  {
    Bucket((cfg.burst - Least(n, cfg.burst)) as real, cfg.burst as real, cfg.rps, at)
  }

  lemma DrainedTake(cfg: Config, n: nat, at: real)
    requires cfg.burst >= 0
    ensures Admits(Drained(cfg, n, at), at) <==> n < cfg.burst
    ensures Take(Drained(cfg, n, at), at) == Drained(cfg, n + 1, at)
  {
    RefillAtOnce(Drained(cfg, n, at));
    var left: int := cfg.burst - Least(n, cfg.burst);
    assert left >= 1 <==> left as real >= 1.0;
  }

  /** The bucket after a run at one instant. */
  lemma {:induction false} InstantBucket(cfg: Config, run: seq<Request>, k: string, at: real)
    requires Proper(cfg) && AllAt(run, at)
    ensures var ns := Lives(cfg, run, k);
            Solo(cfg, run, k) == if ns == [] then None else Some(Drained(cfg, ns[|ns| - 1], at))
  {
    if run != [] {
      var n := |run| - 1;
      InstantBucket(cfg, run[..n], k, at);
      LivesFacts(cfg, run[..n], k);
      if run[n].key == k {
        var ns := Lives(cfg, run[..n], k);
        var m := if Survives(cfg, run[..n], k) then ns[|ns| - 1] else 0;
        SpentIsTake(Drained(cfg, m, at), at);
        DrainedTake(cfg, m, at);
      }
    }
  }

  /** Theorem. At one instant a key is admitted min(requests, burst) times per bucket. */
  lemma {:induction false} InstantAdmissions(cfg: Config, run: seq<Request>, k: string, at: real)
    requires Proper(cfg) && AllAt(run, at)
    ensures AdmittedIn(cfg, run, k, at, at) == Capped(Lives(cfg, run, k), cfg.burst)
  {
    if run != [] {
      var n := |run| - 1;
      InstantAdmissions(cfg, run[..n], k, at);
      if run[n].key == k {
        InstantAnswer(cfg, run[..n], run[n]);
      }
    }
  }

  /** How many requests the bucket found by the next one has served. */
  function Found(cfg: Config, prev: seq<Request>, k: string): nat {
    var ns := Lives(cfg, prev, k);
    if Survives(cfg, prev, k) && ns != [] then ns[|ns| - 1] else 0
  }

  lemma InstantFinds(cfg: Config, prev: seq<Request>, r: Request)
    requires Proper(cfg) && AllAt(prev, r.at)
    ensures SoloBefore(cfg, prev, r) == Drained(cfg, Found(cfg, prev, r.key), r.at)
  {
    InstantBucket(cfg, prev, r.key, r.at);
    LivesFacts(cfg, prev, r.key);
  }

  lemma InstantAllows(cfg: Config, prev: seq<Request>, r: Request)
    requires Proper(cfg) && AllAt(prev, r.at)
    ensures Allows(cfg, Served(cfg, prev), r) <==> Found(cfg, prev, r.key) < cfg.burst
  {
    AnswerIsSolo(cfg, prev, r);
    InstantFinds(cfg, prev, r);
    DrainedTake(cfg, Found(cfg, prev, r.key), r.at);
  }

  lemma InstantAnswer(cfg: Config, prev: seq<Request>, r: Request)
    requires Proper(cfg) && AllAt(prev, r.at)
    ensures var ns := Lives(cfg, prev, r.key); var ns' := if Survives(cfg, prev, r.key) then LastServes(ns) else ns + [1];
            Capped(ns', cfg.burst) == Capped(ns, cfg.burst) + if Allows(cfg, Served(cfg, prev), r) then 1 else 0
  {
    var ns := Lives(cfg, prev, r.key);
    InstantAllows(cfg, prev, r);
    LivesFacts(cfg, prev, r.key);
    if Survives(cfg, prev, r.key) {
      LastServesCounts(ns, cfg.burst);
    } else {
      CappedAppend(ns, 1, cfg.burst);
    }
  }

  /** Two buckets and more than `burst` requests: more than `burst` get through. */
  lemma {:induction false} CappedExceeds(ns: seq<nat>, burst: nat)
    requires Positive(ns) && burst > 0
    ensures Capped(ns, burst) >= Least(Sum(ns), burst)
    ensures |ns| > 1 ==> Capped(ns, burst) >= Least(Sum(ns), burst + 1)
  {
    if ns != [] {
      CappedExceeds(ns[..|ns| - 1], burst);
      if |ns| > 1 {
        SumPositive(ns[..|ns| - 1]);
      }
    }
  }

  lemma SumPositive(ns: seq<nat>)
    requires Positive(ns) && ns != []
    ensures Sum(ns) > 0
  {
  }

  // ---- at all times ---------------------------------------------------------------------------------

  /** The same keys in the same order, at whatever times. */
  ghost predicate SameKeys(run: seq<Request>, run': seq<Request>) {
    |run| == |run'| && forall i | 0 <= i < |run| :: run[i].key == run'[i].key
  }

  lemma {:induction false} SameKeysSameLives(cfg: Config, run: seq<Request>, run': seq<Request>, k: string)
    requires SameKeys(run, run')
    ensures Since(run, k) == Since(run', k) && Requested(run, k) == Requested(run', k)
    ensures Lives(cfg, run, k) == Lives(cfg, run', k) && Calls(run, k) == Calls(run', k)
  {
    if run != [] {
      SameKeysSameLives(cfg, run[..|run| - 1], run'[..|run| - 1], k);
      RequestedAppend(run, k);
      RequestedAppend(run', k);
    }
  }

  /** However the requests are timed, no window of the key is overrun. */
  ghost predicate AlwaysWithinQuota(cfg: Config, run: seq<Request>, k: string)
    requires cfg.capacity > 0
  {
    forall run', s, t | SameKeys(run, run') && Timely(run') && s <= t :: WithinQuota(cfg, run', k, s, t)
  }

  lemma {:induction false} AdmittedAreCalls(cfg: Config, run: seq<Request>, k: string, s: real, t: real)
    requires cfg.capacity > 0
    ensures AdmittedIn(cfg, run, k, s, t) <= Calls(run, k)
  {
    if run != [] {
      AdmittedAreCalls(cfg, run[..|run| - 1], k, s, t);
    }
  }

  lemma FewAreWithinQuota(cfg: Config, run: seq<Request>, k: string, s: real, t: real)
    requires Proper(cfg) && s <= t && Calls(run, k) <= cfg.burst
    ensures WithinQuota(cfg, run, k, s, t)
  {
    AdmittedAreCalls(cfg, run, k, s, t);
    AllowanceIs(cfg, 1, s, t);
    EarnedGrows(cfg.rps, s, t);
  }

  function AtOnce(run: seq<Request>, at: real): seq<Request> {
    seq(|run|, i requires 0 <= i < |run| => Request(run[i].key, at))
  }

  lemma ZeroLength(cfg: Config)
    ensures Allowance(cfg, 1, 0.0) == cfg.burst as real
  {
  }

  lemma OverrunAtOnce(cfg: Config, run: seq<Request>, k: string)
    requires Proper(cfg) && !ReusedInTime(cfg, run, k) && Calls(run, k) > cfg.burst
    ensures !WithinQuota(cfg, AtOnce(run, 0.0), k, 0.0, 0.0)
  {
    var once := AtOnce(run, 0.0);
    SameKeysSameLives(cfg, run, once, k);
    ReusedIffOneLife(cfg, run, k);
    LivesFacts(cfg, run, k);
    InstantAdmissions(cfg, once, k, 0.0);
    CappedExceeds(Lives(cfg, run, k), cfg.burst);
    ZeroLength(cfg);
  }

  /**
    Theorem. However its requests are timed, a key is held to burst + rate * length in all
    windows if and only if it is reused in time, or makes no more than `burst` requests.
  */
  lemma WithinQuotaIff(cfg: Config, run: seq<Request>, k: string)
    requires Proper(cfg)
    ensures AlwaysWithinQuota(cfg, run, k) <==> ReusedInTime(cfg, run, k) || Calls(run, k) <= cfg.burst
  {
    if ReusedInTime(cfg, run, k) || Calls(run, k) <= cfg.burst {
      forall run', s, t | SameKeys(run, run') && Timely(run') && s <= t ensures WithinQuota(cfg, run', k, s, t) {
        SameKeysSameLives(cfg, run, run', k);
        ReusedIffOneLife(cfg, run, k);
        ReusedIffOneLife(cfg, run', k);
        if ReusedInTime(cfg, run, k) {
          SteadyKeyBound(cfg, run', k, s, t);
        } else {
          FewAreWithinQuota(cfg, run', k, s, t);
        }
      }
    } else {
      OverrunAtOnce(cfg, run, k);
      assert SameKeys(run, AtOnce(run, 0.0)) && Timely(AtOnce(run, 0.0));
    }
  }

  // ---- a run that overruns ------------------------------------------------------------------------------

  function Repeat(k: string, n: nat): seq<Request> {
    if n == 0 then [] else Repeat(k, n - 1) + [Request(k, 0.0)]
  }

  function EachOnce(keys: seq<string>): seq<Request> {
    if keys == [] then [] else EachOnce(keys[..|keys| - 1]) + [Request(keys[|keys| - 1], 0.0)]
  }

  lemma LivesAppend(cfg: Config, prev: seq<Request>, k: string)
    requires cfg.capacity > 0
    ensures var all := prev + [Request(k, 0.0)];
            && Lives(cfg, all, k) == (if Survives(cfg, prev, k) then LastServes(Lives(cfg, prev, k)) else Lives(cfg, prev, k) + [1])
            && Since(all, k) == {} && Survives(cfg, all, k)
  {
    var all := prev + [Request(k, 0.0)];
    assert all[..|all| - 1] == prev;
    RequestedAppend(all, k);
  }

  lemma {:induction false} RepeatsServe(cfg: Config, run: seq<Request>, k: string, n: nat)
    requires cfg.capacity > 0 && n > 0 && !Survives(cfg, run, k)
    ensures Lives(cfg, run + Repeat(k, n), k) == Lives(cfg, run, k) + [n]
    ensures Since(run + Repeat(k, n), k) == {} && Survives(cfg, run + Repeat(k, n), k)
  {
    assert run + Repeat(k, n) == (run + Repeat(k, n - 1)) + [Request(k, 0.0)];
    LivesAppend(cfg, run + Repeat(k, n - 1), k);
    if n == 1 {
      assert run + Repeat(k, 0) == run;
    } else {
      RepeatsServe(cfg, run, k, n - 1);
    }
  }

  function KeySet(keys: seq<string>): set<string> {
    set x | x in keys
  }

  lemma KeySetGrows(keys: seq<string>)
    requires keys != []
    ensures var n := |keys| - 1; KeySet(keys) == KeySet(keys[..n]) + {keys[n]}
  {
    assert keys == keys[..|keys| - 1] + [keys[|keys| - 1]];
  }

  lemma {:induction false} OthersPass(cfg: Config, run: seq<Request>, keys: seq<string>, k: string)
    requires k !in keys
    ensures var all := run + EachOnce(keys);
            Lives(cfg, all, k) == Lives(cfg, run, k) && Since(all, k) == Since(run, k) + KeySet(keys)
  {
    var all := run + EachOnce(keys);
    if keys == [] {
      assert all == run;
    } else {
      var n := |keys| - 1;
      OthersPass(cfg, run, keys[..n], k);
      assert all == run + EachOnce(keys[..n]) + [Request(keys[n], 0.0)];
      assert all[..|all| - 1] == run + EachOnce(keys[..n]);
      KeySetGrows(keys);
    }
  }

  ghost predicate Distinct(keys: seq<string>) {
    forall i, j | 0 <= i < j < |keys| :: keys[i] != keys[j]
  }

  lemma {:induction false} DistinctCount(keys: seq<string>)
    requires Distinct(keys)
    ensures |KeySet(keys)| == |keys|
  {
    if keys != [] {
      var n := |keys| - 1;
      DistinctCount(keys[..n]);
      KeySetGrows(keys);
    }
  }

  lemma {:induction false} AtZero(k: string, n: nat, keys: seq<string>)
    ensures AllAt(Repeat(k, n), 0.0) && AllAt(EachOnce(keys), 0.0)
  {
    if n > 0 {
      AtZero(k, n - 1, keys);
    } else if keys != [] {
      AtZero(k, n, keys[..|keys| - 1]);
    }
  }

  /** Requests of `k`, then one of each of `keys`, then requests of `k` again, all at once. */
  function Squeezed(k: string, n: nat, keys: seq<string>, m: nat): seq<Request> {
    Repeat(k, n) + EachOnce(keys) + Repeat(k, m)
  }

  lemma OthersEvict(cfg: Config, run: seq<Request>, keys: seq<string>, k: string)
    requires Since(run, k) == {} && k !in keys && |keys| >= cfg.capacity && Distinct(keys)
    ensures !Survives(cfg, run + EachOnce(keys), k) && Lives(cfg, run + EachOnce(keys), k) == Lives(cfg, run, k)
  {
    OthersPass(cfg, run, keys, k);
    DistinctCount(keys);
    assert Since(run, k) + KeySet(keys) == KeySet(keys);
  }

  lemma FirstRepeats(cfg: Config, k: string, n: nat)
    requires cfg.capacity > 0 && n > 0
    ensures Lives(cfg, Repeat(k, n), k) == [n] && Since(Repeat(k, n), k) == {}
  {
    RepeatsServe(cfg, [], k, n);
    assert [] + Repeat(k, n) == Repeat(k, n);
    assert [] + [n] == [n];
  }

  lemma SqueezedLives(cfg: Config, k: string, n: nat, keys: seq<string>, m: nat)
    requires Proper(cfg) && n > 0 && m > 0 && k !in keys && |keys| >= cfg.capacity && Distinct(keys)
    ensures Lives(cfg, Squeezed(k, n, keys, m), k) == [n] + [m]
  {
    FirstRepeats(cfg, k, n);
    OthersEvict(cfg, Repeat(k, n), keys, k);
    RepeatsServe(cfg, Repeat(k, n) + EachOnce(keys), k, m);
  }

  /**
    Theorem. With a capacity of other keys in between, at one instant, a key gets through a
    burst before and a burst after: twice what the bound allows.
  */
  lemma EvictionDoublesBurst(cfg: Config, k: string, keys: seq<string>)
    requires Proper(cfg) && k !in keys && |keys| >= cfg.capacity && Distinct(keys)
    ensures var run := Squeezed(k, cfg.burst, keys, cfg.burst);
            && Timely(run) && AdmittedIn(cfg, run, k, 0.0, 0.0) == 2 * cfg.burst && !WithinQuota(cfg, run, k, 0.0, 0.0)
  {
    var run := Squeezed(k, cfg.burst, keys, cfg.burst);
    AtZero(k, cfg.burst, keys);
    SqueezedLives(cfg, k, cfg.burst, keys, cfg.burst);
    InstantAdmissions(cfg, run, k, 0.0);
    CappedAppend([], cfg.burst, cfg.burst);
    CappedAppend([cfg.burst], cfg.burst, cfg.burst);
    assert [] + [cfg.burst] == [cfg.burst];
    ZeroLength(cfg);
  }
}
