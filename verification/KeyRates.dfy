/**
  What a key gets behind the LRU: the bucket theorems and the limiter theorems together.

  A key's bucket lives from a request that finds none to the request before which
  `capacity` other keys were seen. Within a life the bucket's own law holds; every new life
  brings one more burst.
*/
module KeyRates {
  import opened Prelude
  import opened TokenBuckets
  import opened RateLimiting

  /** A limiter as `NewRateLimit` makes it. */
  ghost predicate Proper(cfg: Config) {
    cfg.capacity > 0 && cfg.rps > 0.0 && cfg.burst > 0
  }

  /** Requests come in clock order. */
  ghost predicate Timely(run: seq<Request>) {
    forall i, j | 0 <= i < j < |run| :: run[i].at <= run[j].at
  }

  /** Does the next request of `k` find the bucket of the previous one? */
  predicate Survives(cfg: Config, run: seq<Request>, k: string) {
    Requested(run, k) && |Since(run, k)| < cfg.capacity
  }

  lemma {:induction false} RequestedHasBucket(cfg: Config, run: seq<Request>, k: string)
    ensures Requested(run, k) <==> Solo(cfg, run, k).Some?
  {
    if run != [] {
      RequestedHasBucket(cfg, run[..|run| - 1], k);
      RequestedAppend(run, k);
    }
  }

  /** The times of the requests charged to the key's present bucket. */
  function Life(cfg: Config, run: seq<Request>, k: string): seq<real> {
    if run == [] then []
    else
      var n := |run| - 1;
      if run[n].key != k then Life(cfg, run[..n], k)
      else (if Survives(cfg, run[..n], k) then Life(cfg, run[..n], k) else []) + [run[n].at]
  }

  function Born(cfg: Config, at: real): Bucket {
    NewBucket(cfg.rps, cfg.burst, at)
  }

  // ---- one life ----------------------------------------------------------------------------------

  /** Tokens earned from `from` to `to`. */
  function Earned(rate: real, from: real, to: real): real {
    Reading(rate, to) - Reading(rate, from)
  }

  lemma EarnedIs(rate: real, from: real, to: real)
    ensures Earned(rate, from, to) == rate * (to - from) == (to - from) * rate
  {
  }

  lemma RefillEarns(b: Bucket, now: real)
    ensures Refill(b, now).tokens == Min(b.tokens + Earned(b.rate, b.last, now), b.max)
  {
    EarnedIs(b.rate, b.last, now);
  }

  /** At the instant of the last refill there is nothing to credit. */
  lemma RefillAtOnce(b: Bucket)
    requires b.tokens <= b.max
    ensures Refill(b, b.last) == b
  {
    RefillEarns(b, b.last);
  }

  /** Reading the balance right after a call changes nothing. */
  lemma SpentIsTake(b: Bucket, now: real)
    ensures Spent(b, now) == Take(b, now)
  {
    RefillAtOnce(Take(b, now));
  }

  lemma {:induction false} TimelyPrefix(run: seq<Request>, n: nat)
    requires Timely(run) && n <= |run|
    ensures Timely(run[..n])
  {
  }

  /** The key's bucket is a bucket born at the first request of its life, after the calls of that life. */
  lemma {:induction false} SoloIsLife(cfg: Config, run: seq<Request>, k: string)
    ensures Solo(cfg, run, k).Some? <==> Life(cfg, run, k) != []
    ensures var ts := Life(cfg, run, k); ts != [] ==> Solo(cfg, run, k) == Some(After(Born(cfg, ts[0]), ts))
  {
    if run != [] {
      var n := |run| - 1;
      var prev := run[..n];
      SoloIsLife(cfg, prev, k);
      RequestedHasBucket(cfg, prev, k);
      if run[n].key == k {
        var old', b := if Survives(cfg, prev, k) then Life(cfg, prev, k) else [], SoloBefore(cfg, prev, run[n]);
        var ts := old' + [run[n].at];
        SpentIsTake(b, run[n].at);
        assert ts[..|ts| - 1] == old';
        assert b == After(Born(cfg, ts[0]), old');
      }
    }
  }

  lemma {:induction false} LifeIsOrdered(cfg: Config, run: seq<Request>, k: string, now: real)
    requires Timely(run) && forall i | 0 <= i < |run| :: run[i].at <= now
    ensures var ts := Life(cfg, run, k); ts != [] ==> Ordered(ts[0], ts + [now])
  {
    if run != [] {
      var n := |run| - 1;
      var prev, ts := run[..n], Life(cfg, run, k);
      TimelyPrefix(run, n);
      assert forall i | 0 <= i < n :: prev[i] == run[i];
      if run[n].key != k {
        LifeIsOrdered(cfg, prev, k, now);
      } else {
        LifeIsOrdered(cfg, prev, k, run[n].at);
        OrderedGrows(ts, now);
      }
    }
  }

  lemma {:induction false} OrderedGrows(ts: seq<real>, now: real)
    requires ts != [] && Ordered(ts[0], ts) && ts[|ts| - 1] <= now
    ensures Ordered(ts[0], ts + [now])
  {
  }

  /** The calls already charged to the bucket a request finds, and that bucket when new. */
  function Charged(cfg: Config, prev: seq<Request>, r: Request): seq<real> {
    if Survives(cfg, prev, r.key) then Life(cfg, prev, r.key) else []
  }

  function Origin(cfg: Config, prev: seq<Request>, r: Request): Bucket {
    var ts := Charged(cfg, prev, r);
    Born(cfg, if ts == [] then r.at else ts[0])
  }

  /**
    Theorem. Behind the LRU, after any run, a request is refused if and only if admitting it
    would overrun burst + rate * length in some window of its bucket's life that ends now.
  */
  lemma {:induction false} RefusedIffWindowFull(cfg: Config, prev: seq<Request>, r: Request)
    requires Proper(cfg) && Timely(prev + [r])
    ensures !Allows(cfg, Served(cfg, prev), r) <==>
            exists s :: WouldOverrun(Origin(cfg, prev, r), Charged(cfg, prev, r), s, r.at)
  {
    AnswerIsSolo(cfg, prev, r);
    FoundIsLife(cfg, prev, r);
    ChargedIsOrdered(cfg, prev, r);
    DeniedIffSomeWindowFull(Origin(cfg, prev, r), Charged(cfg, prev, r), r.at);
  }

  lemma {:induction false} FoundIsLife(cfg: Config, prev: seq<Request>, r: Request)
    ensures SoloBefore(cfg, prev, r) == After(Origin(cfg, prev, r), Charged(cfg, prev, r))
  {
    SoloIsLife(cfg, prev, r.key);
    RequestedHasBucket(cfg, prev, r.key);
  }

  lemma {:induction false} ChargedIsOrdered(cfg: Config, prev: seq<Request>, r: Request)
    requires Timely(prev + [r])
    ensures Ordered(Origin(cfg, prev, r).last, Charged(cfg, prev, r) + [r.at])
  {
    var run := prev + [r];
    assert forall i | 0 <= i < |prev| :: prev[i] == run[i] && run[i].at <= run[|prev|].at;
    assert run[..|prev|] == prev;
    TimelyPrefix(run, |prev|);
    LifeIsOrdered(cfg, prev, r.key, r.at);
  }

  // ---- over all lives ------------------------------------------------------------------------------

  /** How many requests of `k` in [s, t] are let through. */
  function AdmittedIn(cfg: Config, run: seq<Request>, k: string, s: real, t: real): nat
    requires cfg.capacity > 0
  {
    if run == [] then 0
    else
      var n := |run| - 1;
      AdmittedIn(cfg, run[..n], k, s, t) +
      if run[n].key == k && s <= run[n].at <= t && Allows(cfg, Served(cfg, run[..n]), run[n]) then 1 else 0
  }

  /** New buckets for `k` in [s, t]. */
  function BirthsIn(cfg: Config, run: seq<Request>, k: string, s: real, t: real): nat {
    if run == [] then 0
    else
      var n := |run| - 1;
      BirthsIn(cfg, run[..n], k, s, t) +
      if run[n].key == k && s <= run[n].at <= t && !Survives(cfg, run[..n], k) then 1 else 0
  }

  /** 1 if `k` was requested before `s`, so that a bucket may be at hand as the window opens. */
  function AtHand(run: seq<Request>, k: string, s: real): nat {
    if exists i | 0 <= i < |run| :: run[i].key == k && run[i].at < s then 1 else 0
  }

  /** The buckets that can serve `k` in [s, t]. */
  function Buckets(cfg: Config, run: seq<Request>, k: string, s: real, t: real): nat {
    BirthsIn(cfg, run, k, s, t) + AtHand(run, k, s)
  }

  /** What `n` buckets can hand out at once. */
  function Bursts(burst: real, n: nat): real {
    if n == 0 then 0.0 else Bursts(burst, n - 1) + burst
  }

  lemma OneMore(m: real, b: real)
    ensures (m + 1.0) * b == m * b + b
  {
  }

  lemma {:induction false} BurstsIs(burst: real, n: nat)
    ensures Bursts(burst, n) == n as real * burst
  {
    if n > 0 {
      BurstsIs(burst, n - 1);
      OneMore((n - 1) as real, burst);
    }
  }

  lemma {:induction false} EnoughBursts(burst: real, n: nat)
    requires burst >= 0.0
    ensures Bursts(burst, n) >= if n == 0 then 0.0 else burst
  {
    if n > 0 {
      EnoughBursts(burst, n - 1);
    }
  }

  /** A bucket in use: within its limits, and refilled no later than `now`. */
  ghost predicate Sound(cfg: Config, b: Bucket, now: real) {
    b.rate == cfg.rps && b.max == cfg.burst as real && 0.0 <= b.tokens <= b.max && b.last <= now
  }

  lemma EarnedGrows(rate: real, from: real, to: real)
    requires rate > 0.0 && from <= to
    ensures Earned(rate, from, to) >= 0.0
  {
    ProductMonotone(rate, from, to);
  }

  lemma TakeIsSound(cfg: Config, b: Bucket, now: real)
    requires Proper(cfg) && Sound(cfg, b, now)
    ensures Sound(cfg, Take(b, now), now) && Take(b, now).last == now
    ensures var c := if Admits(b, now) then 1.0 else 0.0;
            && c + Take(b, now).tokens <= cfg.burst as real
            && c + Take(b, now).tokens <= b.tokens + Earned(cfg.rps, b.last, now)
  {
    RefillEarns(b, now);
    EarnedGrows(b.rate, b.last, now);
  }

  // The books of a key: its bucket, and what was at hand, admitted and born in the window so far.

  datatype Book = Book(b: Option<Bucket>, admitted: nat, births: nat, hand: nat)

  /** The bucket a request is charged to. */
  function Drawn(cfg: Config, book: Book, survives: bool, now: real): Bucket {
    if survives && book.b.Some? then book.b.value else Born(cfg, now)
  }

  function Enter(cfg: Config, book: Book, survives: bool, now: real, s: real, t: real): Book {
    var b := Drawn(cfg, book, survives, now);
    Book(Some(Take(b, now)),
         book.admitted + (if s <= now <= t && Admits(b, now) then 1 else 0),
         book.births + (if s <= now <= t && !survives then 1 else 0),
         if now < s then 1 else book.hand)
  }

  function Books(cfg: Config, run: seq<Request>, k: string, s: real, t: real): Book {
    if run == [] then Book(None, 0, 0, 0)
    else
      var n := |run| - 1;
      var before := Books(cfg, run[..n], k, s, t);
      if run[n].key == k then Enter(cfg, before, Survives(cfg, run[..n], k), run[n].at, s, t) else before
  }

  /** The bucket of the books is the key's private one. */
  lemma {:induction false} BucketIsBooked(cfg: Config, run: seq<Request>, k: string, s: real, t: real)
    ensures Books(cfg, run, k, s, t).b == Solo(cfg, run, k)
  {
    if run != [] {
      var n := |run| - 1;
      var prev := run[..n];
      BucketIsBooked(cfg, prev, k, s, t);
      if run[n].key == k {
        RequestedHasBucket(cfg, prev, k);
        SpentIsTake(SoloBefore(cfg, prev, run[n]), run[n].at);
      }
    }
  }

  lemma {:induction false} BirthsAreBooked(cfg: Config, run: seq<Request>, k: string, s: real, t: real)
    ensures Books(cfg, run, k, s, t).births == BirthsIn(cfg, run, k, s, t)
  {
    if run != [] {
      BirthsAreBooked(cfg, run[..|run| - 1], k, s, t);
    }
  }

  lemma {:induction false} AtHandGrows(run: seq<Request>, k: string, s: real)
    requires run != []
    ensures var n := |run| - 1; AtHand(run, k, s) == if run[n].key == k && run[n].at < s then 1 else AtHand(run[..n], k, s)
  {
    var n := |run| - 1;
    assert forall i | 0 <= i < n :: run[..n][i] == run[i];
  }

  lemma {:induction false} HandIsBooked(cfg: Config, run: seq<Request>, k: string, s: real, t: real)
    ensures Books(cfg, run, k, s, t).hand == AtHand(run, k, s)
  {
    if run != [] {
      HandIsBooked(cfg, run[..|run| - 1], k, s, t);
      AtHandGrows(run, k, s);
    }
  }

  /** A request is answered by the bucket of the books. */
  lemma {:induction false} AnswerIsBooked(cfg: Config, prev: seq<Request>, r: Request, s: real, t: real)
    requires cfg.capacity > 0
    ensures Allows(cfg, Served(cfg, prev), r) <==>
            Admits(Drawn(cfg, Books(cfg, prev, r.key, s, t), Survives(cfg, prev, r.key), r.at), r.at)
  {
    AnswerIsSolo(cfg, prev, r);
    BucketIsBooked(cfg, prev, r.key, s, t);
    RequestedHasBucket(cfg, prev, r.key);
  }

  lemma {:induction false} AdmissionsAreBooked(cfg: Config, run: seq<Request>, k: string, s: real, t: real)
    requires cfg.capacity > 0
    ensures Books(cfg, run, k, s, t).admitted == AdmittedIn(cfg, run, k, s, t)
  {
    if run != [] {
      var n := |run| - 1;
      AdmissionsAreBooked(cfg, run[..n], k, s, t);
      if run[n].key == k {
        AnswerIsBooked(cfg, run[..n], run[n], s, t);
      }
    }
  }

  // What was admitted and what is left never exceed what the bursts and the rate supplied.

  ghost predicate Accounts(cfg: Config, book: Book, s: real) {
    && book.hand <= 1
    && if book.b.None? || book.b.value.last < s then book.admitted == 0 && book.births == 0 && (book.b.Some? ==> book.hand == 1)
       else
         && book.births + book.hand > 0
         && book.admitted as real + book.b.value.tokens <=
            Bursts(cfg.burst as real, book.births + book.hand) + Earned(cfg.rps, s, book.b.value.last)
  }

  ghost predicate InUse(cfg: Config, book: Book, now: real) {
    book.b.Some? ==> Sound(cfg, book.b.value, now)
  }

  lemma EntryAccounts(cfg: Config, book: Book, survives: bool, now: real, s: real, t: real)
    requires Proper(cfg) && now <= t && InUse(cfg, book, now) && Accounts(cfg, book, s)
    requires survives ==> book.b.Some?
    ensures InUse(cfg, Enter(cfg, book, survives, now, s, t), now)
    ensures Accounts(cfg, Enter(cfg, book, survives, now, s, t), s)
  {
    TakeIsSound(cfg, Drawn(cfg, book, survives, now), now);
    if s <= now {
      EarnedGrows(cfg.rps, s, now);
      EnoughBursts(cfg.burst as real, book.births + book.hand);
      if book.b.Some? && s <= book.b.value.last {
        EarnedGrows(cfg.rps, book.b.value.last, now);
      }
    }
  }

  lemma LaterInUse(cfg: Config, book: Book, now: real, later: real)
    requires InUse(cfg, book, now) && now <= later
    ensures InUse(cfg, book, later)
  {
  }

  /** Requests in clock order, none after `now`. */
  ghost predicate TimelyUpTo(run: seq<Request>, now: real) {
    Timely(run) && forall i | 0 <= i < |run| :: run[i].at <= now
  }

  lemma {:induction false} TimelyParts(run: seq<Request>, now: real)
    requires TimelyUpTo(run, now) && run != []
    ensures var n := |run| - 1; TimelyUpTo(run[..n], run[n].at) && run[n].at <= now
  {
  }

  lemma {:induction false} BooksHaveBucket(cfg: Config, run: seq<Request>, k: string, s: real, t: real)
    ensures Survives(cfg, run, k) ==> Books(cfg, run, k, s, t).b.Some?
  {
    BucketIsBooked(cfg, run, k, s, t);
    RequestedHasBucket(cfg, run, k);
  }

  lemma {:induction false} BooksAccount(cfg: Config, run: seq<Request>, k: string, s: real, t: real, now: real)
    requires Proper(cfg) && TimelyUpTo(run, now) && now <= t
    ensures InUse(cfg, Books(cfg, run, k, s, t), now) && Accounts(cfg, Books(cfg, run, k, s, t), s)
  {
    if run != [] {
      var n := |run| - 1;
      var prev, before := run[..n], Books(cfg, run[..n], k, s, t);
      TimelyParts(run, now);
      BooksAccount(cfg, prev, k, s, t, run[n].at);
      if run[n].key == k {
        BooksHaveBucket(cfg, prev, k, s, t);
        EntryAccounts(cfg, before, Survives(cfg, prev, k), run[n].at, s, t);
      }
      LaterInUse(cfg, Books(cfg, run, k, s, t), run[n].at, now);
    }
  }

  lemma BookBound(cfg: Config, book: Book, s: real, t: real)
    requires Proper(cfg) && s <= t && InUse(cfg, book, t) && Accounts(cfg, book, s)
    ensures book.admitted as real <= Bursts(cfg.burst as real, book.births + book.hand) + Earned(cfg.rps, s, t)
  {
    EarnedGrows(cfg.rps, s, t);
    EnoughBursts(cfg.burst as real, book.births + book.hand);
    if book.b.Some? {
      EarnedGrows(cfg.rps, book.b.value.last, t);
    }
  }

  /** Requests after the window do not count. */
  lemma {:induction false} EarlyPart(cfg: Config, run: seq<Request>, k: string, s: real, t: real) returns (n: nat)
    requires Timely(run) && s <= t
    ensures n <= |run| && TimelyUpTo(run[..n], t)
    ensures var a, b := Books(cfg, run[..n], k, s, t), Books(cfg, run, k, s, t);
            a.admitted == b.admitted && a.births == b.births && a.hand == b.hand
  {
    if run == [] || run[|run| - 1].at <= t {
      n := |run|;
      assert run[..n] == run;
    } else {
      var prev := run[..|run| - 1];
      TimelyPrefix(run, |run| - 1);
      n := EarlyPart(cfg, prev, k, s, t);
      assert prev[..n] == run[..n];
    }
  }

  lemma {:induction false} BooksBound(cfg: Config, run: seq<Request>, k: string, s: real, t: real)
    requires Proper(cfg) && Timely(run) && s <= t
    ensures var book := Books(cfg, run, k, s, t);
            book.admitted as real <= Bursts(cfg.burst as real, book.births + book.hand) + Earned(cfg.rps, s, t)
  {
    var n := EarlyPart(cfg, run, k, s, t);
    BooksAccount(cfg, run[..n], k, s, t, t);
    BookBound(cfg, Books(cfg, run[..n], k, s, t), s, t);
  }

  lemma {:induction false} KeyBooked(cfg: Config, run: seq<Request>, k: string, s: real, t: real)
    requires Proper(cfg) && Timely(run) && s <= t
    ensures AdmittedIn(cfg, run, k, s, t) as real <= Bursts(cfg.burst as real, Buckets(cfg, run, k, s, t)) + Earned(cfg.rps, s, t)
  {
    BooksBound(cfg, run, k, s, t);
    BooksAre(cfg, run, k, s, t, Books(cfg, run, k, s, t));
  }

  lemma {:induction false} BooksAre(cfg: Config, run: seq<Request>, k: string, s: real, t: real, book: Book)
    requires cfg.capacity > 0 && book == Books(cfg, run, k, s, t)
    ensures book.admitted == AdmittedIn(cfg, run, k, s, t) && book.births + book.hand == Buckets(cfg, run, k, s, t)
  {
    AdmissionsAreBooked(cfg, run, k, s, t);
    BirthsAreBooked(cfg, run, k, s, t);
    HandIsBooked(cfg, run, k, s, t);
  }

  /** What `n` buckets may let through in a window of length `len`. */
  function Allowance(cfg: Config, n: nat, len: real): real {
    n as real * cfg.burst as real + cfg.rps * len
  }

  lemma AllowanceIs(cfg: Config, n: nat, s: real, t: real)
    ensures Bursts(cfg.burst as real, n) + Earned(cfg.rps, s, t) == Allowance(cfg, n, t - s)
  {
    BurstsIs(cfg.burst as real, n);
    EarnedIs(cfg.rps, s, t);
  }

  /**
    Theorem. In every run, in any window [s, t], a key is admitted at most
    buckets * burst + rate * (t - s) times, where buckets counts those it was given in the
    window and the one that may be at hand as the window opens.
  */
  lemma {:induction false} KeyBound(cfg: Config, run: seq<Request>, k: string, s: real, t: real)
    requires Proper(cfg) && Timely(run) && s <= t
    ensures AdmittedIn(cfg, run, k, s, t) as real <= Allowance(cfg, Buckets(cfg, run, k, s, t), t - s)
  {
    KeyBooked(cfg, run, k, s, t);
    AllowanceIs(cfg, Buckets(cfg, run, k, s, t), s, t);
  }

  // ---- one bucket ------------------------------------------------------------------------------------

  /** burst + rate * length bounds the admissions in the window. */
  ghost predicate WithinQuota(cfg: Config, run: seq<Request>, k: string, s: real, t: real)
    requires cfg.capacity > 0
  {
    AdmittedIn(cfg, run, k, s, t) as real <= Allowance(cfg, 1, t - s)
  }

  lemma {:induction false} UnknownHasNoBucket(cfg: Config, run: seq<Request>, k: string, s: real, t: real)
    requires !Requested(run, k)
    ensures Buckets(cfg, run, k, s, t) == 0
  {
    if run != [] {
      RequestedAppend(run, k);
      UnknownHasNoBucket(cfg, run[..|run| - 1], k, s, t);
      AtHandGrows(run, k, s);
    }
  }

  lemma {:induction false} OneBucket(cfg: Config, run: seq<Request>, k: string, s: real, t: real)
    requires Timely(run) && ReusedInTime(cfg, run, k)
    ensures Buckets(cfg, run, k, s, t) <= 1
  {
    if run != [] {
      var n := |run| - 1;
      var prev := run[..n];
      TimelyPrefix(run, n);
      ReusedInTimePrefix(cfg, run, k);
      OneBucket(cfg, prev, k, s, t);
      AtHandGrows(run, k, s);
      if !Requested(prev, k) {
        UnknownHasNoBucket(cfg, prev, k, s, t);
      } else if run[n].at < s {
        NoBirthsYet(cfg, prev, k, s, t);
      }
    }
  }

  lemma {:induction false} NoBirthsYet(cfg: Config, run: seq<Request>, k: string, s: real, t: real)
    requires forall i | 0 <= i < |run| :: run[i].at < s
    ensures BirthsIn(cfg, run, k, s, t) == 0
  {
    if run != [] {
      NoBirthsYet(cfg, run[..|run| - 1], k, s, t);
    }
  }

  lemma EnoughForOne(cfg: Config, n: nat)
    requires cfg.burst > 0 && n <= 1
    ensures Bursts(cfg.burst as real, n) <= Bursts(cfg.burst as real, 1)
  {
  }

  /** Theorem. A key that is reused in time is within quota in every window. */
  lemma {:induction false} SteadyKeyBound(cfg: Config, run: seq<Request>, k: string, s: real, t: real)
    requires Proper(cfg) && Timely(run) && s <= t && ReusedInTime(cfg, run, k)
    ensures WithinQuota(cfg, run, k, s, t)
  {
    KeyBooked(cfg, run, k, s, t);
    OneBucket(cfg, run, k, s, t);
    EnoughForOne(cfg, Buckets(cfg, run, k, s, t));
    AllowanceIs(cfg, 1, s, t);
  }
}
