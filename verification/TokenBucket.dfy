/**
  The per-key token bucket of the HTTP rate limiter, over real arithmetic.

  `Bucket` is the value of the four fields, `Refill`/`Take` what one critical
  section does to them, and `TokenBucket` the object that is updated in place.
  The theorems say which calls a bucket admits over a whole run.
*/
module TokenBuckets {

  datatype Bucket = Bucket(tokens: real, max: real, rate: real, last: real)

  function NewBucket(rate: real, burst: int, now: real): Bucket {
    Bucket(burst as real, burst as real, rate, now)
  }

  function Min(a: real, b: real): real {
    if a < b then a else b
  }

  /** Credit the time elapsed since the last refill, capped at `max`. */
  function Refill(b: Bucket, now: real): Bucket {
    b.(last := now, tokens := Min(b.tokens + (now - b.last) * b.rate, b.max))
  }

  predicate Admits(b: Bucket, now: real) {
    Refill(b, now).tokens >= 1.0
  }

  /** The bucket after one `Allow` at time `now`. */
  function Take(b: Bucket, now: real): Bucket {
    var r := Refill(b, now);
    if Admits(b, now) then r.(tokens := r.tokens - 1.0) else r
  }

  class TokenBucket {
    var tokens: real
    var max: real
    var rate: real
    var lastTime: real

    ghost function Value(): Bucket
      reads this
    {
      Bucket(tokens, max, rate, lastTime)
    }

    constructor (rps: real, burst: int, now: real)
      ensures Value() == NewBucket(rps, burst, now)
    {
      tokens := burst as real;
      max := burst as real;
      rate := rps;
      lastTime := now;
    }

    method DoRefill(now: real)
      modifies this
      ensures Value() == Refill(old(Value()), now)
    {
      var elapsed := now - lastTime;
      lastTime := now;
      tokens := Min(tokens + elapsed * rate, max);
    }

    method Allow(now: real) returns (ok: bool)
      modifies this
      ensures ok == Admits(old(Value()), now)
      ensures Value() == Take(old(Value()), now)
    {
      DoRefill(now);
      if tokens < 1.0 {
        return false;
      }
      tokens := tokens - 1.0;
      return true;
    }

    method Tokens(now: real) returns (n: real)
      modifies this
      ensures Value() == Refill(old(Value()), now)
      ensures n == Value().tokens
    {
      DoRefill(now);
      n := tokens;
    }
  }

  // ---- runs of Allow -------------------------------------------------------

  /** Call times of one bucket, none before its creation, in clock order. */
  ghost predicate Ordered(start: real, times: seq<real>) {
    && (forall i | 0 <= i < |times| :: start <= times[i])
    && (forall i, j | 0 <= i < j < |times| :: times[i] <= times[j])
  }

  /** The bucket after the calls at `times`. */
  function After(b: Bucket, times: seq<real>): Bucket {
    if times == [] then b
    else Take(After(b, times[..|times| - 1]), times[|times| - 1])
  }

  /** Was call number `i` of the run admitted? */
  predicate Admitted(b: Bucket, times: seq<real>, i: nat)
    requires i < |times|
  {
    Admits(After(b, times[..i]), times[i])
  }

  /** How many of the calls with time in [s, t] were admitted. */
  function Count(b: Bucket, times: seq<real>, s: real, t: real): nat {
    if times == [] then 0
    else
      var n := |times| - 1;
      Count(b, times[..n], s, t) + if s <= times[n] <= t && Admitted(b, times, n) then 1 else 0
  }

  /** What the configured rate allows in a window of length `len`. */
  function Quota(b: Bucket, len: real): real {
    b.max + b.rate * len
  }

  /** A new, full bucket as `NewRateLimit` configures it: rate and burst are positive. */
  ghost predicate Fresh(b: Bucket) {
    b.tokens == b.max && b.max > 0.0 && b.rate > 0.0
  }

  // ---- the same run, with time measured in earned tokens -------------------
  //
  // Reading the clock as c = rate * t makes one unit of time earn one token, and
  // the accounting linear.

  /** Balance after calls at clock readings `cs`, starting full at reading `c0`. */
  function Line(max: real, c0: real, cs: seq<real>): real
    decreases |cs|, 0
  {
    if cs == [] then max
    else
      var n := |cs| - 1;
      var r := LineRefilled(max, c0, cs[..n], cs[n]);
      if r >= 1.0 then r - 1.0 else r
  }

  function LineLast(c0: real, cs: seq<real>): real {
    if cs == [] then c0 else cs[|cs| - 1]
  }

  function LineRefilled(max: real, c0: real, cs: seq<real>, c: real): real
    decreases |cs|, 1
  {
    Min(Line(max, c0, cs) + (c - LineLast(c0, cs)), max)
  }

  function LineCount(max: real, c0: real, cs: seq<real>, s: real, t: real): nat {
    if cs == [] then 0
    else
      var n := |cs| - 1;
      LineCount(max, c0, cs[..n], s, t)
      + if s <= cs[n] <= t && LineRefilled(max, c0, cs[..n], cs[n]) >= 1.0 then 1 else 0
  }

  lemma OrderedPrefix(c0: real, cs: seq<real>)
    requires cs != [] && Ordered(c0, cs)
    ensures Ordered(c0, cs[..|cs| - 1])
    ensures LineLast(c0, cs[..|cs| - 1]) <= cs[|cs| - 1]
    ensures forall i | 0 <= i < |cs| - 1 :: cs[i] <= LineLast(c0, cs[..|cs| - 1])
  {
  }

  lemma {:induction false} CountEmptyWindow(max: real, c0: real, cs: seq<real>, s: real, t: real)
    requires forall i | 0 <= i < |cs| :: cs[i] < s || t < cs[i]
    ensures LineCount(max, c0, cs, s, t) == 0
  {
    if cs != [] {
      CountEmptyWindow(max, c0, cs[..|cs| - 1], s, t);
    }
  }

  lemma {:induction false} CountEndIrrelevant(max: real, c0: real, cs: seq<real>, s: real, t: real, t': real)
    requires forall i | 0 <= i < |cs| :: cs[i] <= t && cs[i] <= t'
    ensures LineCount(max, c0, cs, s, t) == LineCount(max, c0, cs, s, t')
  {
    if cs != [] {
      CountEndIrrelevant(max, c0, cs[..|cs| - 1], s, t, t');
    }
  }

  /**
    The balance never exceeds what any window ending at the last call leaves over:
    `balance <= quota(window) - admitted(window)` for every window start `s`.
  */
  lemma {:induction false} BalanceBelowEveryWindow(max: real, c0: real, cs: seq<real>, s: real)
    requires Ordered(c0, cs) && c0 <= s <= LineLast(c0, cs)
    ensures Line(max, c0, cs) <= max + (LineLast(c0, cs) - s) - LineCount(max, c0, cs, s, LineLast(c0, cs)) as real
  {
    if cs != [] {
      OrderedPrefix(c0, cs);
      var prev, c := cs[..|cs| - 1], cs[|cs| - 1];
      if s <= LineLast(c0, prev) {
        BalanceBelowEveryWindow(max, c0, prev, s);
        CountEndIrrelevant(max, c0, prev, s, LineLast(c0, prev), c);
      } else {
        CountEmptyWindow(max, c0, prev, s, c);
      }
    }
  }

  /** ... and some window is tight: the balance is exactly the worst window's remainder. */
  lemma {:induction false} SomeWindowIsTight(max: real, c0: real, cs: seq<real>) returns (s: real)
    requires Ordered(c0, cs)
    ensures c0 <= s <= LineLast(c0, cs)
    ensures Line(max, c0, cs) >= max + (LineLast(c0, cs) - s) - LineCount(max, c0, cs, s, LineLast(c0, cs)) as real
  {
    s := c0;
    if cs != [] {
      OrderedPrefix(c0, cs);
      var prev, c := cs[..|cs| - 1], cs[|cs| - 1];
      s := SomeWindowIsTight(max, c0, prev);
      CountEndIrrelevant(max, c0, prev, s, LineLast(c0, prev), c);
      if LineRefilled(max, c0, prev, c) == max {
        s := c;
      }
    }
  }

  lemma {:induction false} BalanceNonNegative(max: real, c0: real, cs: seq<real>)
    requires Ordered(c0, cs) && max >= 0.0
    ensures Line(max, c0, cs) >= 0.0
  {
    if cs != [] {
      OrderedPrefix(c0, cs);
      BalanceNonNegative(max, c0, cs[..|cs| - 1]);
    }
  }

  lemma {:induction false} LineBound(max: real, c0: real, cs: seq<real>, s: real, t: real)
    requires Ordered(c0, cs) && max >= 0.0 && c0 <= s <= t
    ensures LineCount(max, c0, cs, s, t) as real <= max + (t - s)
  {
    var last := LineLast(c0, cs);
    if cs == [] || last < s {
      if cs != [] { OrderedPrefix(c0, cs); }
      CountEmptyWindow(max, c0, cs, s, t);
    } else if last > t {
      OrderedPrefix(c0, cs);
      LineBound(max, c0, cs[..|cs| - 1], s, t);
    } else {
      OrderedPrefix(c0, cs);
      BalanceBelowEveryWindow(max, c0, cs, s);
      CountEndIrrelevant(max, c0, cs, s, last, t);
      BalanceNonNegative(max, c0, cs);
    }
  }

  lemma LineAdmitsBelow(max: real, c0: real, cs: seq<real>, c: real, s: real)
    requires Ordered(c0, cs + [c]) && c0 <= s <= c
    requires LineRefilled(max, c0, cs, c) >= 1.0
    ensures LineCount(max, c0, cs, s, c) as real + 1.0 <= max + (c - s)
  {
    assert (cs + [c])[..|cs|] == cs;
    BalanceBelowEveryWindow(max, c0, cs + [c], s);
  }

  lemma LineDeniesTight(max: real, c0: real, cs: seq<real>, c: real) returns (s: real)
    requires Ordered(c0, cs + [c])
    requires LineRefilled(max, c0, cs, c) < 1.0
    ensures c0 <= s <= c
    ensures LineCount(max, c0, cs, s, c) as real + 1.0 > max + (c - s)
  {
    assert (cs + [c])[..|cs|] == cs;
    s := SomeWindowIsTight(max, c0, cs + [c]);
  }

  // ---- back to clock time --------------------------------------------------

  function Reading(rate: real, t: real): real {
    rate * t
  }

  function Scaled(rate: real, times: seq<real>): seq<real> {
    seq(|times|, i requires 0 <= i < |times| => Reading(rate, times[i]))
  }

  lemma ScaledAppend(rate: real, times: seq<real>, now: real)
    ensures Scaled(rate, times + [now]) == Scaled(rate, times) + [Reading(rate, now)]
  {
  }

  lemma ProductMonotone(rate: real, x: real, y: real)
    requires rate > 0.0
    ensures x <= y <==> Reading(rate, x) <= Reading(rate, y)
  {
  }

  lemma ScaledOrdered(rate: real, start: real, times: seq<real>)
    requires rate > 0.0 && Ordered(start, times)
    ensures Ordered(Reading(rate, start), Scaled(rate, times))
  {
    forall i | 0 <= i < |times| ensures Reading(rate, start) <= Scaled(rate, times)[i] {
      ProductMonotone(rate, start, times[i]);
    }
    forall i, j | 0 <= i < j < |times| ensures Scaled(rate, times)[i] <= Scaled(rate, times)[j] {
      ProductMonotone(rate, times[i], times[j]);
    }
  }

  lemma RefilledIsLine(b: Bucket, times: seq<real>, p: Bucket, now: real)
    requires p.max == b.max && p.rate == b.rate && p.last == LineLast(b.last, times)
    requires p.tokens == Line(b.max, Reading(b.rate, b.last), Scaled(b.rate, times))
    ensures Refill(p, now).tokens == LineRefilled(b.max, Reading(b.rate, b.last), Scaled(b.rate, times), Reading(b.rate, now))
  {
    assert (now - p.last) * b.rate == b.rate * now - Reading(b.rate, p.last);
  }

  lemma {:induction false} AfterIsLine(b: Bucket, times: seq<real>)
    requires b.tokens == b.max
    ensures var a := After(b, times);
            && a.max == b.max && a.rate == b.rate && a.last == LineLast(b.last, times)
            && a.tokens == Line(b.max, Reading(b.rate, b.last), Scaled(b.rate, times))
  {
    if times != [] {
      var n := |times| - 1;
      AfterIsLine(b, times[..n]);
      RefilledIsLine(b, times[..n], After(b, times[..n]), times[n]);
      assert times == times[..n] + [times[n]];
      ScaledAppend(b.rate, times[..n], times[n]);
    }
  }

  lemma AdmittedIsLine(b: Bucket, times: seq<real>, now: real)
    requires b.tokens == b.max
    ensures Admits(After(b, times), now)
       <==> LineRefilled(b.max, Reading(b.rate, b.last), Scaled(b.rate, times), Reading(b.rate, now)) >= 1.0
  {
    AfterIsLine(b, times);
    RefilledIsLine(b, times, After(b, times), now);
  }

  lemma {:induction false} CountIsLine(b: Bucket, times: seq<real>, s: real, t: real)
    requires b.tokens == b.max && b.rate > 0.0
    ensures Count(b, times, s, t)
         == LineCount(b.max, Reading(b.rate, b.last), Scaled(b.rate, times), Reading(b.rate, s), Reading(b.rate, t))
  {
    if times != [] {
      var n := |times| - 1;
      CountIsLine(b, times[..n], s, t);
      assert times == times[..n] + [times[n]];
      ScaledAppend(b.rate, times[..n], times[n]);
      AdmittedIsLine(b, times[..n], times[n]);
      ProductMonotone(b.rate, s, times[n]);
      ProductMonotone(b.rate, times[n], t);
    }
  }

  lemma QuotaInReadings(b: Bucket, s: real, t: real)
    ensures Quota(b, t - s) == b.max + (Reading(b.rate, t) - Reading(b.rate, s))
  {
  }

  lemma ReadingsInOrder(rate: real, x: real, y: real, z: real)
    requires rate > 0.0 && x <= y <= z
    ensures Reading(rate, x) <= Reading(rate, y) <= Reading(rate, z)
  {
    ProductMonotone(rate, x, y);
    ProductMonotone(rate, y, z);
  }

  /** Theorem (rate bound). In every run, any window [s, t] admits at most burst + rate * (t - s) calls. */
  lemma WindowBound(b: Bucket, times: seq<real>, s: real, t: real)
    requires Fresh(b) && Ordered(b.last, times) && s <= t
    ensures Count(b, times, s, t) as real <= Quota(b, t - s)
  {
    QuotaInReadings(b, s, t);
    ProductMonotone(b.rate, s, t);
    if t < b.last {
      NoneBefore(b, times, s, t);
    } else if s < b.last {
      CountFromStart(b, times, s, t);
      LifeBound(b, times, b.last, t);
      QuotaInReadings(b, b.last, t);
      ProductMonotone(b.rate, s, b.last);
    } else {
      LifeBound(b, times, s, t);
    }
  }

  lemma LifeBound(b: Bucket, times: seq<real>, s: real, t: real)
    requires Fresh(b) && Ordered(b.last, times) && b.last <= s <= t
    ensures Count(b, times, s, t) as real <= Quota(b, t - s)
  {
    CountIsLine(b, times, s, t);
    QuotaInReadings(b, s, t);
    LineBoundScaled(b, times, s, t);
  }

  lemma {:induction false} NoneBefore(b: Bucket, times: seq<real>, s: real, t: real)
    requires Ordered(b.last, times) && t < b.last
    ensures Count(b, times, s, t) == 0
  {
    if times != [] {
      NoneBefore(b, times[..|times| - 1], s, t);
    }
  }

  lemma {:induction false} CountFromStart(b: Bucket, times: seq<real>, s: real, t: real)
    requires Ordered(b.last, times) && s <= b.last
    ensures Count(b, times, s, t) == Count(b, times, b.last, t)
  {
    if times != [] {
      CountFromStart(b, times[..|times| - 1], s, t);
    }
  }

  lemma LineBoundScaled(b: Bucket, times: seq<real>, s: real, t: real)
    requires Fresh(b) && Ordered(b.last, times)
    requires b.last <= s <= t
    ensures LineCount(b.max, Reading(b.rate, b.last), Scaled(b.rate, times), Reading(b.rate, s), Reading(b.rate, t)) as real
         <= b.max + (Reading(b.rate, t) - Reading(b.rate, s))
  {
    ScaledOrdered(b.rate, b.last, times);
    ReadingsInOrder(b.rate, b.last, s, t);
    LineBound(b.max, Reading(b.rate, b.last), Scaled(b.rate, times), Reading(b.rate, s), Reading(b.rate, t));
  }

  /** Would admitting one more call at `now` overrun the quota of the window [s, now]? */
  ghost predicate WouldOverrun(b: Bucket, times: seq<real>, s: real, now: real) {
    && b.last <= s <= now
    && Count(b, times, s, now) as real + 1.0 > Quota(b, now - s)
  }

  /** The same condition in earned-token time. */
  ghost predicate LineOverrun(b: Bucket, times: seq<real>, c: real, now: real) {
    && Reading(b.rate, b.last) <= c <= Reading(b.rate, now)
    && LineCount(b.max, Reading(b.rate, b.last), Scaled(b.rate, times), c, Reading(b.rate, now)) as real + 1.0
         > b.max + (Reading(b.rate, now) - c)
  }

  lemma OverrunIsLine(b: Bucket, times: seq<real>, s: real, now: real)
    requires Fresh(b)
    ensures WouldOverrun(b, times, s, now) <==> LineOverrun(b, times, Reading(b.rate, s), now)
  {
    CountIsLine(b, times, s, now);
    QuotaInReadings(b, s, now);
    ProductMonotone(b.rate, b.last, s);
    ProductMonotone(b.rate, s, now);
  }

  lemma AdmittedFits(b: Bucket, times: seq<real>, now: real, c: real)
    requires Fresh(b) && Ordered(b.last, times + [now])
    requires Admits(After(b, times), now)
    ensures !LineOverrun(b, times, c, now)
  {
    ScaledOrdered(b.rate, b.last, times + [now]);
    ScaledAppend(b.rate, times, now);
    AdmittedIsLine(b, times, now);
    if Reading(b.rate, b.last) <= c <= Reading(b.rate, now) {
      LineAdmitsBelow(b.max, Reading(b.rate, b.last), Scaled(b.rate, times), Reading(b.rate, now), c);
    }
  }

  lemma DeniedOverruns(b: Bucket, times: seq<real>, now: real) returns (c: real)
    requires Fresh(b) && Ordered(b.last, times + [now])
    requires !Admits(After(b, times), now)
    ensures LineOverrun(b, times, c, now)
  {
    ScaledOrdered(b.rate, b.last, times + [now]);
    ScaledAppend(b.rate, times, now);
    AdmittedIsLine(b, times, now);
    c := LineDeniesTight(b.max, Reading(b.rate, b.last), Scaled(b.rate, times), Reading(b.rate, now));
  }

  lemma SomeTimeReads(rate: real, c: real) returns (s: real)
    requires rate > 0.0
    ensures Reading(rate, s) == c
  {
    s := c / rate;
  }

  /**
    Theorem (exactness). After any run, a call at `now` is denied if and only if some
    window ending now would overrun its quota with one more admission.
  */
  lemma DeniedIffSomeWindowFull(b: Bucket, times: seq<real>, now: real)
    requires Fresh(b) && Ordered(b.last, times + [now])
    ensures !Admits(After(b, times), now) <==> exists s :: WouldOverrun(b, times, s, now)
  {
    if Admits(After(b, times), now) {
      forall s ensures !WouldOverrun(b, times, s, now) {
        OverrunIsLine(b, times, s, now);
        AdmittedFits(b, times, now, Reading(b.rate, s));
      }
    } else {
      var c := DeniedOverruns(b, times, now);
      var s := SomeTimeReads(b.rate, c);
      OverrunIsLine(b, times, s, now);
    }
  }

  // ---- observing the balance ----------------------------------------------

  datatype Call = Allow(at: real) | Peek(at: real)

  function Decisions(b: Bucket, calls: seq<Call>): seq<bool>
    decreases |calls|
  {
    if calls == [] then []
    else match calls[0]
      case Allow(t) => [Admits(b, t)] + Decisions(Take(b, t), calls[1..])
      case Peek(t) => Decisions(Refill(b, t), calls[1..])
  }

  function WithoutPeeks(calls: seq<Call>): seq<Call> {
    if calls == [] then []
    else if calls[0].Peek? then WithoutPeeks(calls[1..])
    else [calls[0]] + WithoutPeeks(calls[1..])
  }

  ghost predicate InOrder(from: real, calls: seq<Call>)
    decreases |calls|
  {
    calls == [] || (from <= calls[0].at && InOrder(calls[0].at, calls[1..]))
  }

  lemma RefillTwice(b: Bucket, t: real, u: real)
    requires b.rate >= 0.0 && b.last <= t <= u
    ensures Refill(Refill(b, t), u) == Refill(b, u)
  {
    assert (t - b.last) * b.rate + (u - t) * b.rate == (u - b.last) * b.rate;
    assert (u - t) * b.rate >= 0.0;
  }

  /** `ahead` is `b` refilled at some intermediate time. */
  ghost predicate SameUpToRefill(b: Bucket, ahead: Bucket) {
    b.last <= ahead.last && ahead == Refill(b, ahead.last)
  }

  lemma {:induction false} PeeksInvisibleFrom(b: Bucket, ahead: Bucket, calls: seq<Call>)
    requires b.rate >= 0.0 && SameUpToRefill(b, ahead) && InOrder(ahead.last, calls)
    ensures Decisions(ahead, calls) == Decisions(b, WithoutPeeks(calls))
    decreases |calls|
  {
    if calls != [] {
      var t := calls[0].at;
      RefillTwice(b, ahead.last, t);
      assert Refill(ahead, t) == Refill(b, t);
      if calls[0].Peek? {
        PeeksInvisibleFrom(b, Refill(ahead, t), calls[1..]);
      } else {
        assert Take(ahead, t) == Take(b, t);
        assert SameUpToRefill(Take(b, t), Take(b, t)) by {
          var a := Take(b, t);
          assert a.tokens + (a.last - a.last) * a.rate == a.tokens <= a.max;
        }
        PeeksInvisibleFrom(Take(b, t), Take(b, t), calls[1..]);
        assert WithoutPeeks(calls) == [calls[0]] + WithoutPeeks(calls[1..]);
        assert WithoutPeeks(calls)[1..] == WithoutPeeks(calls[1..]);
      }
    }
  }

  /** Theorem. Reading the balance any number of times changes no later admission. */
  lemma PeeksInvisible(b: Bucket, calls: seq<Call>)
    requires Fresh(b) && InOrder(b.last, calls)
    ensures Decisions(b, calls) == Decisions(b, WithoutPeeks(calls))
  {
    assert b.tokens + (b.last - b.last) * b.rate == b.tokens;
    PeeksInvisibleFrom(b, b, calls);
  }
}
