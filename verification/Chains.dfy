/**
  Chains of statements, continued: what the conditions of `Binding` come to when every `$N`
  is a placeholder, and when the server's count check accepts a chain.
*/
module Chains {
  import opened Placeholders
  import opened Transaction
  import opened Framing
  import opened Validator
  import opened Binding

  /** Placeholders first appear as `$1`, `$2`, `$3`, ... */
  ghost predicate InOrder(ts: seq<Tok>) {
    forall i | 0 <= i < |FirstSeen(ts)| :: FirstSeen(ts)[i] == i + 1
  }

  /** Every `$N` is a placeholder. */
  ghost predicate AllLive(ss: seq<Sight>) {
    forall i | 0 <= i < |ss| && ss[i].tok.Param? :: ss[i].live
  }

  ghost predicate EveryLive<V>(vs: seq<Viewed<V>>) {
    forall k | 0 <= k < |vs| :: AllLive(vs[k].ss)
  }

  ghost predicate EachInOrder<V>(vs: seq<Viewed<V>>, k: nat)
    requires k <= |vs|
  {
    forall i | 0 <= i < k :: InOrder(Toks(vs[i].ss))
  }

  lemma {:induction false} LiveMax(ss: seq<Sight>)
    requires AllLive(ss)
    ensures MaxLive(Toks(ss), Lives(ss)) == MaxParam(Toks(ss))
  {
    var ts, m := Toks(ss), MaxParam(Toks(ss));
    if m > 0 {
      var i :| 0 <= i < |ts| && ts[i] == Param(m);
      assert Lives(ss)[i];
    }
  }

  lemma {:induction false} InOrderCount(ts: seq<Tok>)
    requires InOrder(ts)
    ensures |FirstSeen(ts)| == MaxParam(ts)
  {
    FirstSeenFacts(ts);
    var seen, m := FirstSeen(ts), MaxParam(ts);
    if m > 0 {
      assert m in seen;
    }
    if seen != [] {
      assert seen[|seen| - 1] in seen;
    }
  }

  // The bookkeeping of numbers and parameters, as sums over the statements.

  function Sum(ns: seq<nat>, k: nat): nat
    requires k <= |ns|
  {
    if k == 0 then 0 else Sum(ns, k - 1) + ns[k - 1]
  }

  lemma {:induction false} SumsCompare(a: seq<nat>, b: seq<nat>, k: nat)
    requires |a| == |b| && k <= |a| && forall i | 0 <= i < |a| :: a[i] <= b[i]
    ensures Sum(a, k) <= Sum(b, k)
    ensures Sum(a, k) == Sum(b, k) <==> forall i | 0 <= i < k :: a[i] == b[i]
  {
    if k > 0 {
      SumsCompare(a, b, k - 1);
    }
  }

  /** Distinct `$N` of each statement. */
  function Counts<V>(vs: seq<Viewed<V>>): seq<nat> {
    seq(|vs|, i requires 0 <= i < |vs| => |FirstSeen(Toks(vs[i].ss))|)
  }

  /** Parameters of each statement. */
  function Sizes<V>(vs: seq<Viewed<V>>): seq<nat> {
    seq(|vs|, i requires 0 <= i < |vs| => |vs[i].params|)
  }

  lemma {:induction false} GivenIsSum<V>(vs: seq<Viewed<V>>, k: nat)
    requires k <= |vs|
    ensures Given(Readings(vs), k) == Sum(Counts(vs), k)
  {
    if k > 0 {
      GivenIsSum(vs, k - 1);
    }
  }

  lemma {:induction false} GatheredIsSum<V>(vs: seq<Viewed<V>>, k: nat)
    requires k <= |vs|
    ensures |Gathered(Readings(vs), k)| == Sum(Sizes(vs), k)
  {
    if k > 0 {
      GatheredIsSum(vs, k - 1);
    }
  }

  lemma {:induction false} SumsAgree(a: seq<nat>, b: seq<nat>, k: nat)
    requires k <= |a| && k <= |b| && forall i | 0 <= i < k :: a[i] == b[i]
    ensures Sum(a, k) == Sum(b, k)
  {
    if k > 0 {
      SumsAgree(a, b, k - 1);
    }
  }

  lemma OrderedIsFull<V>(v: Viewed<V>)
    requires Runs(v) && AllLive(v.ss) && InOrder(Toks(v.ss))
    ensures |FirstSeen(Toks(v.ss))| == |v.params|
  {
    LiveMax(v.ss);
    InOrderCount(Toks(v.ss));
  }

  lemma {:induction false} GivenIsGathered<V>(vs: seq<Viewed<V>>, k: nat)
    requires k <= |vs| && AllRunnable(vs) && EveryLive(vs) && EachInOrder(vs, k)
    ensures Given(Readings(vs), k) == |Gathered(Readings(vs), k)|
  {
    forall i | 0 <= i < k ensures Counts(vs)[i] == Sizes(vs)[i] {
      OrderedIsFull(vs[i]);
    }
    SumsAgree(Counts(vs), Sizes(vs), k);
    GivenIsSum(vs, k);
    GatheredIsSum(vs, k);
  }

  lemma {:induction false} InOrderIndex(ts: seq<Tok>, n: nat)
    requires InOrder(ts) && Param(n) in ts
    ensures n == IndexOf(FirstSeen(ts), n) + 1
  {
    FirstSeenFacts(ts);
  }

  lemma {:induction false} IndexGivesOrder(ts: seq<Tok>)
    requires forall n: nat | Param(n) in ts :: n == IndexOf(FirstSeen(ts), n) + 1
    ensures InOrder(ts)
  {
    FirstSeenFacts(ts);
    var seen := FirstSeen(ts);
    forall j | 0 <= j < |seen| ensures seen[j] == j + 1 {
      assert seen[j] in seen;
      assert Param(seen[j]) in ts;
      assert forall i | 0 <= i < j :: seen[i] != seen[j];
    }
  }

  lemma {:induction false} OrderedLands<V>(vs: seq<Viewed<V>>, k: nat, i: nat)
    requires k < |vs| && i < |vs[k].ss| && AllRunnable(vs) && EveryLive(vs) && EachInOrder(vs, |vs|)
    ensures Lands(vs, k, i)
  {
    GivenIsGathered(vs, k);
    var t := vs[k].ss[i].tok;
    if t.Param? {
      assert Toks(vs[k].ss)[i] == Param(t.n);
      InOrderIndex(Toks(vs[k].ss), t.n);
    }
  }

  lemma {:induction false} LandedIsOrdered<V>(vs: seq<Viewed<V>>, k: nat)
    requires k < |vs| && AllLive(vs[k].ss) && Given(Readings(vs), k) == |Gathered(Readings(vs), k)|
    requires forall i: nat | i < |vs[k].ss| :: Lands(vs, k, i)
    ensures InOrder(Toks(vs[k].ss))
  {
    var ts := Toks(vs[k].ss);
    forall n: nat | Param(n) in ts ensures n == IndexOf(FirstSeen(ts), n) + 1 {
      var i: nat :| i < |ts| && ts[i] == Param(n);
      assert Lands(vs, k, i);
    }
    IndexGivesOrder(ts);
  }

  lemma {:induction false} NextIsOrdered<V>(vs: seq<Viewed<V>>, k: nat)
    requires k < |vs| && AllRunnable(vs) && EveryLive(vs) && LandsAll(vs) && EachInOrder(vs, k)
    ensures InOrder(Toks(vs[k].ss))
  {
    GivenIsGathered(vs, k);
    LandedIsOrdered(vs, k);
  }

  lemma {:induction false} LandsOrdered<V>(vs: seq<Viewed<V>>, k: nat)
    requires k <= |vs| && AllRunnable(vs) && EveryLive(vs) && LandsAll(vs)
    ensures EachInOrder(vs, k)
  {
    if k > 0 {
      LandsOrdered(vs, k - 1);
      NextIsOrdered(vs, k - 1);
    }
  }

  lemma {:induction false} LandsIffInOrder<V>(vs: seq<Viewed<V>>)
    requires AllRunnable(vs) && EveryLive(vs)
    ensures LandsAll(vs) <==> EachInOrder(vs, |vs|)
  {
    if LandsAll(vs) {
      LandsOrdered(vs, |vs|);
    }
    if EachInOrder(vs, |vs|) {
      forall k: nat, i: nat | k < |vs| && i < |vs[k].ss| ensures Lands(vs, k, i) {
        OrderedLands(vs, k, i);
      }
    }
  }

  /**
    Theorem. When every `$N` is a placeholder, the chain keeps the meaning of statements the
    server accepts exactly when each first mentions its placeholders in order.
  */
  lemma {:induction false} KeptIffInOrder<V(!new)>(stmts: seq<Statement<V>>, scan: Scanner)
    requires |stmts| > 1 && AllAccepted(stmts, scan) && Composes(stmts, scan)
    requires NoRepeats(Gathered(ReadAll(stmts), |stmts|)) && EveryLive(ViewAll(stmts, scan))
    ensures Kept(stmts, scan) <==> forall k | 0 <= k < |stmts| :: InOrder(Scan(stmts[k].sql))
  {
    AllRun(stmts, scan);
    KeptIffLands(stmts, scan);
    LandsIffInOrder(ViewAll(stmts, scan));
    OrderIsOfTexts(stmts, scan);
  }

  lemma {:induction false} TokensOfView<V>(stmts: seq<Statement<V>>, scan: Scanner, k: nat)
    requires k < |stmts|
    ensures Toks(ViewAll(stmts, scan)[k].ss) == Scan(stmts[k].sql)
  {
  }

  lemma {:induction false} OrderIsOfTexts<V>(stmts: seq<Statement<V>>, scan: Scanner)
    ensures EachInOrder(ViewAll(stmts, scan), |stmts|) <==> forall k | 0 <= k < |stmts| :: InOrder(Scan(stmts[k].sql))
  {
    var vs := ViewAll(stmts, scan);
    forall k | 0 <= k < |stmts| ensures InOrder(Toks(vs[k].ss)) <==> InOrder(Scan(stmts[k].sql)) {
      TokensOfView(stmts, scan, k);
    }
  }

  // ---- when the server accepts a chain --------------------------------------------------------------

  /** How many distinct `$N` a statement mentions up to the first mention of its last placeholder. */
  ghost function Reach(ss: seq<Sight>): nat {
    MaxLive(Renumbered(Toks(ss), 0), Lives(ss))
  }

  ghost function Reaches<V>(vs: seq<Viewed<V>>): seq<nat> {
    seq(|vs|, i requires 0 <= i < |vs| => Reach(vs[i].ss))
  }

  /** Where the last of the first `k` runs of numbers that has a placeholder gets to. */
  function LastReach(counts: seq<nat>, reaches: seq<nat>, k: nat): nat
    requires |counts| == |reaches| && k <= |counts|
  {
    if k == 0 then 0
    else if reaches[k - 1] > 0 then Sum(counts, k - 1) + reaches[k - 1]
    else LastReach(counts, reaches, k - 1)
  }

  /** The number given to the last placeholder of the chain. */
  ghost function LastPlace<V>(vs: seq<Viewed<V>>): nat {
    LastReach(Counts(vs), Reaches(vs), |vs|)
  }

  /** A live `$n`, as a chain spells it. */
  function Mark(n: nat): Sight {
    Sight(Param(n), Show(Param(n)), true)
  }

  lemma {:induction false} ShiftedLive(ss: seq<Sight>, start: nat, n: nat)
    requires Mark(n) in Marked(Renumbered(Toks(ss), start), Lives(ss))
    ensures start < n <= start + Reach(ss)
  {
    var i :| 0 <= i < |ss| && Marked(Renumbered(Toks(ss), start), Lives(ss))[i] == Mark(n);
    assert Renumbered(Toks(ss), 0)[i] == Param(n - start);
    assert Lives(ss)[i];
  }

  lemma {:induction false} ReachIsLive(ss: seq<Sight>, start: nat)
    requires Reach(ss) > 0
    ensures Mark(start + Reach(ss)) in Marked(Renumbered(Toks(ss), start), Lives(ss))
  {
    var i :| 0 <= i < |ss| && Lives(ss)[i] && Renumbered(Toks(ss), 0)[i] == Param(Reach(ss));
    assert Renumbered(Toks(ss), start)[i] == Param(start + Reach(ss));
    assert Marked(Renumbered(Toks(ss), start), Lives(ss))[i] == Mark(start + Reach(ss));
  }

  lemma {:induction false} ReachBounded(ss: seq<Sight>)
    ensures Reach(ss) <= |FirstSeen(Toks(ss))|
  {
    var ts := Toks(ss);
    if Reach(ss) > 0 {
      var i :| 0 <= i < |ts| && Renumbered(ts, 0)[i] == Param(Reach(ss));
      RenumberedTokens(ts, 0, i, i);
    }
  }

  lemma {:induction false} LastReachBounds(counts: seq<nat>, reaches: seq<nat>, k: nat, m: nat)
    requires |counts| == |reaches| && k < m <= |counts| && forall i | 0 <= i < |counts| :: reaches[i] <= counts[i]
    ensures LastReach(counts, reaches, m) <= Sum(counts, m)
    ensures reaches[k] > 0 ==> Sum(counts, k) + reaches[k] <= LastReach(counts, reaches, m)
  {
    if k < m - 1 {
      LastReachBounds(counts, reaches, k, m - 1);
      SumGrows(counts, k + 1, m - 1);
    } else if m > 1 {
      LastReachBounds(counts, reaches, m - 2, m - 1);
    }
  }

  lemma {:induction false} SumGrows(ns: seq<nat>, k: nat, m: nat)
    requires k <= m <= |ns|
    ensures Sum(ns, k) <= Sum(ns, m)
  {
    if k < m {
      SumGrows(ns, k, m - 1);
    }
  }

  lemma {:induction false} LastReachAt(counts: seq<nat>, reaches: seq<nat>, m: nat) returns (k: nat)
    requires |counts| == |reaches| && m <= |counts| && LastReach(counts, reaches, m) > 0
    ensures k < m && reaches[k] > 0 && LastReach(counts, reaches, m) == Sum(counts, k) + reaches[k]
  {
    if reaches[m - 1] > 0 {
      k := m - 1;
    } else {
      k := LastReachAt(counts, reaches, m - 1);
    }
  }

  lemma {:induction false} RenamedIs<V>(vs: seq<Viewed<V>>, k: nat)
    requires k < |vs|
    ensures Renamed(vs, k) == Marked(Renumbered(Toks(vs[k].ss), Sum(Counts(vs), k)), Lives(vs[k].ss))
  {
    GivenIsSum(vs, k);
  }

  lemma {:induction false} ReachesBounded<V>(vs: seq<Viewed<V>>)
    ensures |Counts(vs)| == |Reaches(vs)| == |vs|
    ensures forall i | 0 <= i < |vs| :: Reaches(vs)[i] <= Counts(vs)[i]
  {
    forall i | 0 <= i < |vs| ensures Reaches(vs)[i] <= Counts(vs)[i] {
      ReachBounded(vs[i].ss);
    }
  }

  lemma {:induction false} MarksAreBelow<V>(vs: seq<Viewed<V>>, k: nat, n: nat)
    requires k < |vs| && Mark(n) in Renamed(vs, k)
    ensures 1 <= n <= LastPlace(vs)
  {
    RenamedIs(vs, k);
    ShiftedLive(vs[k].ss, Sum(Counts(vs), k), n);
    ReachesBounded(vs);
    LastReachBounds(Counts(vs), Reaches(vs), k, |vs|);
  }

  lemma {:induction false} LastPlaceIsMarked<V>(vs: seq<Viewed<V>>) returns (k: nat)
    requires LastPlace(vs) > 0
    ensures k < |vs| && Mark(LastPlace(vs)) in Renamed(vs, k)
  {
    k := LastReachAt(Counts(vs), Reaches(vs), |vs|);
    RenamedIs(vs, k);
    ReachIsLive(vs[k].ss, Sum(Counts(vs), k));
  }

  lemma {:induction false} InThree<T>(a: seq<T>, b: seq<T>, c: seq<T>, t: T)
    ensures t in a + b + c <==> t in a || t in b || t in c
  {
  }

  lemma {:induction false} PartMarks(i: nat, body: seq<Sight>, n: nat)
    ensures Mark(n) in Part(i, body, AsSight) <==> Mark(n) in body
  {
    LiftSight(CteHead(i));
    LiftSight(")");
    InThree(Lift(CteHead(i), AsSight), body, Lift(")", AsSight), Mark(n));
  }

  lemma {:induction false} PartsMarks(bodies: seq<seq<Sight>>, k: nat, n: nat)
    requires 0 < k <= |bodies|
    ensures Mark(n) in FramedParts(bodies, k, AsSight) <==> exists i | 0 <= i < k :: Mark(n) in bodies[i]
  {
    PartMarks(k - 1, bodies[k - 1], n);
    if k > 1 {
      PartsMarks(bodies, k - 1, n);
      LiftSight(", ");
      InThree(FramedParts(bodies, k - 1, AsSight), Lift(", ", AsSight), Part(k - 1, bodies[k - 1], AsSight), Mark(n));
    }
  }

  lemma {:induction false} FramedMarks(bodies: seq<seq<Sight>>, n: nat)
    requires |bodies| > 1
    ensures Mark(n) in Framed(bodies, AsSight) <==> exists i | 0 <= i < |bodies| :: Mark(n) in bodies[i]
  {
    var k := |bodies| - 1;
    PartsMarks(bodies, k, n);
    LiftSight("WITH ");
    LiftSight(" ");
    InThree(Lift("WITH ", AsSight) + FramedParts(bodies, k, AsSight), Lift(" ", AsSight), bodies[k], Mark(n));
  }

  /** Spelled as shown, a live `$n` is a mark. */
  lemma {:induction false} MaxLiveOfMarks(ts: seq<Tok>, live: seq<bool>, m: nat)
    requires |ts| == |live|
    requires forall n: nat | Mark(n) in Marked(ts, live) :: 1 <= n <= m
    requires m > 0 ==> Mark(m) in Marked(ts, live)
    ensures MaxLive(ts, live) == m
    ensures forall i | 0 <= i < |ts| && live[i] && ts[i].Param? :: 1 <= ts[i].n <= m
  {
    forall i | 0 <= i < |ts| && live[i] && ts[i].Param? ensures 1 <= ts[i].n <= m {
      assert Marked(ts, live)[i] == Mark(ts[i].n);
    }
    if m > 0 {
      var i :| 0 <= i < |ts| && Marked(ts, live)[i] == Mark(m);
    }
  }

  lemma {:induction false} ChainMarks<V>(vs: seq<Viewed<V>>)
    requires |vs| > 1
    ensures var marks := Framed(RenamedAll(vs), AsSight); var m := LastPlace(vs);
            && (forall n: nat | Mark(n) in marks :: 1 <= n <= m)
            && (m > 0 ==> Mark(m) in marks)
  {
    var bodies, m := RenamedAll(vs), LastPlace(vs);
    forall n: nat | Mark(n) in Framed(bodies, AsSight) ensures 1 <= n <= m {
      FramedMarks(bodies, n);
      var k :| 0 <= k < |bodies| && Mark(n) in bodies[k];
      MarksAreBelow(vs, k, n);
    }
    if m > 0 {
      var k := LastPlaceIsMarked(vs);
      assert bodies[k] == Renamed(vs, k);
      FramedMarks(bodies, m);
    }
  }

  lemma {:induction false} LastPlaceBounded<V>(vs: seq<Viewed<V>>)
    ensures LastPlace(vs) <= Given(Readings(vs), |vs|)
  {
    GivenIsSum(vs, |vs|);
    ReachesBounded(vs);
    if |vs| > 0 {
      LastReachBounds(Counts(vs), Reaches(vs), |vs| - 1, |vs|);
    }
  }

  /**
    Theorem. The server's count of a chain is the number given to its last placeholder, so
    it accepts the chain exactly when that is the number of parameters.
  */
  lemma {:induction false} ChainIsCounted<V>(stmts: seq<Statement<V>>, scan: Scanner, max: nat)
    requires |stmts| > 1 && IsScanner(scan) && Composes(stmts, scan) && Given(ReadAll(stmts), |stmts|) <= MAX_INT
    ensures var chain := Chain(ReadAll(stmts));
            IsCount(chain, scan(chain), max) <==> max == LastPlace(ViewAll(stmts, scan))
  {
    var chain, vs := Chain(ReadAll(stmts)), ViewAll(stmts, scan);
    ReadingsOfViews(stmts, scan);
    ChainSeen(stmts, scan);
    ChainMarks(vs);
    LastPlaceBounded(vs);
    ChainIsMarked(stmts, scan);
    MaxLiveOfMarks(Scan(chain), View(chain, scan(chain)), LastPlace(vs));
    CountIsMaxLive(chain, scan(chain), max);
  }

  lemma {:induction false} ChainIsMarked<V>(stmts: seq<Statement<V>>, scan: Scanner)
    requires |stmts| > 1 && Composes(stmts, scan)
    ensures var chain := Chain(ReadAll(stmts)); Seen(chain, scan) == Marked(Scan(chain), View(chain, scan(chain)))
  {
    var rs := ReadAll(stmts);
    ReadingIsLegible(stmts);
    ChainReads(rs);
    ChainWords(rs);
    SeenIsMarked(Chain(rs), scan, Scan(Chain(rs)), View(Chain(rs), scan(Chain(rs))));
  }

  // ---- ... and when every `$N` is a placeholder -----------------------------------------------------

  /** Every number up to the largest is mentioned. */
  ghost predicate NoGap(ts: seq<Tok>) {
    forall n: nat | 1 <= n <= MaxParam(ts) :: Param(n) in ts
  }

  ghost predicate NoGaps<V>(vs: seq<Viewed<V>>) {
    forall i | 0 <= i < |vs| :: NoGap(Toks(vs[i].ss))
  }

  ghost function Elements(ns: seq<nat>): (r: set<nat>)
    ensures forall n: nat :: n in r <==> n in ns
    ensures Distinct(ns) ==> |r| == |ns|
  {
    if ns == [] then {}
    else
      var k := |ns| - 1;
      assert ns == ns[..k] + [ns[k]];
      Elements(ns[..k]) + {ns[k]}
  }

  ghost function UpTo(m: nat): (r: set<nat>)
    ensures forall n: nat :: n in r <==> 1 <= n <= m
    ensures |r| == m
  {
    if m == 0 then {} else UpTo(m - 1) + {m}
  }

  lemma SubsetSize(a: set<nat>, b: set<nat>)
    requires a <= b
    ensures |a| <= |b| && (|a| == |b| <==> a == b)
  {
    var rest := b - a;
    assert b == a + rest;
  }

  lemma {:induction false} CountIffNoGap(ts: seq<Tok>)
    requires forall n: nat | Param(n) in ts :: 1 <= n
    ensures |FirstSeen(ts)| <= MaxParam(ts)
    ensures |FirstSeen(ts)| == MaxParam(ts) <==> NoGap(ts)
  {
    FirstSeenFacts(ts);
    SubsetSize(Elements(FirstSeen(ts)), UpTo(MaxParam(ts)));
  }

  lemma {:induction false} LiveReach(ss: seq<Sight>)
    requires AllLive(ss)
    ensures Reach(ss) == |FirstSeen(Toks(ss))|
  {
    var ts, r := Toks(ss), Renumbered(Toks(ss), 0);
    var m := |FirstSeen(ts)|;
    ReachBounded(ss);
    RenumberedFirstSeen(ts, 0);
    FirstSeenFacts(r);
    if m > 0 {
      assert FirstSeen(r)[m - 1] == m;
      assert Param(m) in r;
      var i :| 0 <= i < |r| && r[i] == Param(m);
      assert ts[i].Param? && Lives(ss)[i];
    }
  }

  lemma {:induction false} LastReachIsSum(counts: seq<nat>, k: nat)
    requires k <= |counts|
    ensures LastReach(counts, counts, k) == Sum(counts, k)
  {
    if k > 0 {
      LastReachIsSum(counts, k - 1);
    }
  }

  lemma {:induction false} LastPlaceIsSum<V>(vs: seq<Viewed<V>>)
    requires EveryLive(vs)
    ensures LastPlace(vs) == Sum(Counts(vs), |vs|)
  {
    forall i | 0 <= i < |vs| ensures Reaches(vs)[i] == Counts(vs)[i] {
      LiveReach(vs[i].ss);
    }
    assert Reaches(vs) == Counts(vs);
    LastReachIsSum(Counts(vs), |vs|);
  }

  lemma FullIffNoGap<V>(v: Viewed<V>)
    requires Runs(v) && AllLive(v.ss)
    ensures |FirstSeen(Toks(v.ss))| <= |v.params|
    ensures |FirstSeen(Toks(v.ss))| == |v.params| <==> NoGap(Toks(v.ss))
  {
    LiveMax(v.ss);
    forall n: nat | Param(n) in Toks(v.ss) ensures 1 <= n {
      var i :| 0 <= i < |v.ss| && Toks(v.ss)[i] == Param(n);
      assert v.ss[i].live;
    }
    CountIffNoGap(Toks(v.ss));
  }

  lemma {:induction false} PlacesIffNoGaps<V>(vs: seq<Viewed<V>>)
    requires AllRunnable(vs) && EveryLive(vs)
    ensures LastPlace(vs) == |All(vs)| <==> NoGaps(vs)
  {
    LastPlaceIsSum(vs);
    GatheredIsSum(vs, |vs|);
    forall i | 0 <= i < |vs|
      ensures Counts(vs)[i] <= Sizes(vs)[i] && (Counts(vs)[i] == Sizes(vs)[i] <==> NoGap(Toks(vs[i].ss)))
    {
      FullIffNoGap(vs[i]);
    }
    SumsCompare(Counts(vs), Sizes(vs), |vs|);
  }

  /**
    Theorem. When every `$N` is a placeholder, the server's count check passes on the chain
    of accepted statements exactly when none skips a number.
  */
  lemma {:induction false} AcceptedIffNoGaps<V>(stmts: seq<Statement<V>>, scan: Scanner, max: nat)
    requires |stmts| > 1 && AllAccepted(stmts, scan) && Composes(stmts, scan)
    requires Given(ReadAll(stmts), |stmts|) <= MAX_INT && EveryLive(ViewAll(stmts, scan))
    requires var chain := Chain(ReadAll(stmts)); IsCount(chain, scan(chain), max)
    ensures max == |Gathered(ReadAll(stmts), |stmts|)| <==> forall i | 0 <= i < |stmts| :: NoGap(Scan(stmts[i].sql))
  {
    AllRun(stmts, scan);
    ReadingsOfViews(stmts, scan);
    ChainIsCounted(stmts, scan, max);
    PlacesIffNoGaps(ViewAll(stmts, scan));
    GapsAreOfTexts(stmts, scan);
  }

  lemma {:induction false} GapsAreOfTexts<V>(stmts: seq<Statement<V>>, scan: Scanner)
    ensures NoGaps(ViewAll(stmts, scan)) <==> forall i | 0 <= i < |stmts| :: NoGap(Scan(stmts[i].sql))
  {
    var vs := ViewAll(stmts, scan);
    forall k | 0 <= k < |stmts| ensures NoGap(Toks(vs[k].ss)) <==> NoGap(Scan(stmts[k].sql)) {
      TokensOfView(stmts, scan, k);
    }
  }
}
