/**
  What a chain of statements means to the server, and when it means what its statements
  meant.

  The client renames every `$N` it reads, also one inside a literal, a comment or an
  identifier. The server binds only those its scanner reports as tokens: these are live.
  A request means its text with every live `$N` replaced by the value it selects and every
  other token as it is spelled. A chain should mean its frame, with each part meaning what
  the statement means when sent alone.

  The scanner is any function from texts to token ranges. It is assumed that a token which
  reads as a number is a whole `$N` (`IsScanner`), and that it sees in each part of a chain
  what it sees in the statement alone (`Composes`): statements end outside any literal and
  comment. `Literals` has a scanner of which both are proved.
*/
module Binding {
  import opened Placeholders
  import opened Transaction
  import opened Framing
  import opened Validator

  // ---- meaning -----------------------------------------------------------------------------

  /** A token as client and server see it. */
  datatype Sight = Sight(tok: Tok, word: string, live: bool)

  datatype Piece<V> = Verbatim(text: string) | Val(v: V) | Unbound

  function Bind<V>(s: Sight, params: seq<V>): Piece<V> {
    if s.live && s.tok.Param? then
      if 1 <= s.tok.n <= |params| then Val(params[s.tok.n - 1]) else Unbound
    else Verbatim(s.word)
  }

  function Bound<V>(ss: seq<Sight>, params: seq<V>): seq<Piece<V>> {
    seq(|ss|, i requires 0 <= i < |ss| => Bind(ss[i], params))
  }

  type Scanner = string -> seq<Range>

  ghost predicate IsScanner(scan: Scanner) {
    forall sql {:trigger Whole(sql, scan(sql))} :: Whole(sql, scan(sql))
  }

  function Seen(sql: string, scan: Scanner): seq<Sight> {
    seq(|Scan(sql)|, i requires 0 <= i < |Scan(sql)| => Sight(Scan(sql)[i], Words(sql)[i], View(sql, scan(sql))[i]))
  }

  /** A statement as client and server see it. */
  datatype Viewed<V> = Viewed(ss: seq<Sight>, params: seq<V>)

  function ViewAll<V>(stmts: seq<Statement<V>>, scan: Scanner): seq<Viewed<V>> {
    seq(|stmts|, i requires 0 <= i < |stmts| => Viewed(Seen(stmts[i].sql, scan), stmts[i].params))
  }

  function Toks(ss: seq<Sight>): seq<Tok> {
    seq(|ss|, i requires 0 <= i < |ss| => ss[i].tok)
  }

  function Lives(ss: seq<Sight>): seq<bool> {
    seq(|ss|, i requires 0 <= i < |ss| => ss[i].live)
  }

  /** The client's part of it. */
  function Readings<V>(vs: seq<Viewed<V>>): seq<Reading<V>> {
    seq(|vs|, i requires 0 <= i < |vs| => Reading(Toks(vs[i].ss), vs[i].params))
  }

  /** The server runs the statement: its numbers start at 1, and the largest is the number of parameters. */
  ghost predicate Runs<V>(v: Viewed<V>) {
    && (forall i | 0 <= i < |v.ss| && v.ss[i].live && v.ss[i].tok.Param? :: 1 <= v.ss[i].tok.n)
    && MaxLive(Toks(v.ss), Lives(v.ss)) == |v.params|
  }

  /** Text is spelled as it is. */
  ghost predicate Spelled(ss: seq<Sight>) {
    forall i | 0 <= i < |ss| && ss[i].tok.Text? :: ss[i].word == [ss[i].tok.c]
  }

  // ---- a chain as the server sees it -----------------------------------------------------------

  function AsSight(c: char): Sight {
    Sight(Text(c), [c], false)
  }

  function AsPiece<V>(c: char): Piece<V> {
    Verbatim([c])
  }

  function AsNo(c: char): bool {
    false
  }

  lemma LiftSight(s: string)
    ensures forall i | 0 <= i < |s| :: Lift(s, AsSight)[i] == Sight(Text(s[i]), [s[i]], false)
  {
    var f: char -> Sight := AsSight;
    assert forall c: char :: f(c) == AsSight(c);
  }

  lemma LiftPiece<V>(s: string)
    ensures forall i | 0 <= i < |s| :: Lift(s, AsPiece<V>)[i] == Verbatim([s[i]])
  {
    var f: char -> Piece<V> := AsPiece<V>;
    assert forall c: char :: f(c) == AsPiece<V>(c);
  }

  lemma LiftNo(s: string)
    ensures forall i | 0 <= i < |s| :: !Lift(s, AsNo)[i]
  {
    var f: char -> bool := AsNo;
    assert forall c: char :: f(c) == AsNo(c);
  }

  /** Tokens in their usual spelling. */
  function Marked(ts: seq<Tok>, live: seq<bool>): seq<Sight>
    requires |ts| == |live|
  {
    seq(|ts|, i requires 0 <= i < |ts| => Sight(ts[i], Show(ts[i]), live[i]))
  }

  /** The sights of statement `k` once renumbered. */
  function Renamed<V>(vs: seq<Viewed<V>>, k: nat): seq<Sight>
    requires k < |vs|
  {
    Marked(Body(Readings(vs), k), Lives(vs[k].ss))
  }

  function RenamedAll<V>(vs: seq<Viewed<V>>): seq<seq<Sight>> {
    seq(|vs|, i requires 0 <= i < |vs| => Renamed(vs, i))
  }

  function Masks<V>(vs: seq<Viewed<V>>): seq<seq<bool>> {
    seq(|vs|, i requires 0 <= i < |vs| => Lives(vs[i].ss))
  }

  function MarkedEach(tss: seq<seq<Tok>>, masks: seq<seq<bool>>): seq<seq<Sight>>
    requires SameShape(tss, masks)
  {
    seq(|tss|, i requires 0 <= i < |tss| => Marked(tss[i], masks[i]))
  }

  lemma {:induction false} MarkedTwo(a: seq<Tok>, b: seq<Tok>, x: seq<bool>, y: seq<bool>)
    requires |a| == |x| && |b| == |y|
    ensures Marked(a + b, x + y) == Marked(a, x) + Marked(b, y)
  {
  }

  lemma {:induction false} MarkedThree(a: seq<Tok>, b: seq<Tok>, c: seq<Tok>, x: seq<bool>, y: seq<bool>, z: seq<bool>)
    requires |a| == |x| && |b| == |y| && |c| == |z|
    ensures Marked(a + b + c, x + y + z) == Marked(a, x) + Marked(b, y) + Marked(c, z)
  {
    MarkedTwo(a + b, c, x + y, z);
    MarkedTwo(a, b, x, y);
  }

  lemma MarkedLift(s: string)
    ensures Marked(Lift(s, AsTok), Lift(s, AsNo)) == Lift(s, AsSight)
  {
    LiftTok(s);
    LiftNo(s);
    LiftSight(s);
  }

  lemma {:induction false} MarkedPart(i: nat, body: seq<Tok>, live: seq<bool>)
    requires |body| == |live|
    ensures |Part(i, body, AsTok)| == |Part(i, live, AsNo)|
    ensures Marked(Part(i, body, AsTok), Part(i, live, AsNo)) == Part(i, Marked(body, live), AsSight)
  {
    var h := CteHead(i);
    MarkedThree(Lift(h, AsTok), body, Lift(")", AsTok), Lift(h, AsNo), live, Lift(")", AsNo));
    MarkedLift(h);
    MarkedLift(")");
  }

  lemma {:induction false} MarkedParts(tss: seq<seq<Tok>>, masks: seq<seq<bool>>, k: nat)
    requires SameShape(tss, masks) && 0 < k <= |tss|
    ensures |FramedParts(tss, k, AsTok)| == |FramedParts(masks, k, AsNo)|
    ensures Marked(FramedParts(tss, k, AsTok), FramedParts(masks, k, AsNo)) ==
            FramedParts(MarkedEach(tss, masks), k, AsSight)
  {
    MarkedPart(k - 1, tss[k - 1], masks[k - 1]);
    if k > 1 {
      MarkedParts(tss, masks, k - 1);
      MarkedThree(FramedParts(tss, k - 1, AsTok), Lift(", ", AsTok), Part(k - 1, tss[k - 1], AsTok),
                  FramedParts(masks, k - 1, AsNo), Lift(", ", AsNo), Part(k - 1, masks[k - 1], AsNo));
      MarkedLift(", ");
    }
  }

  lemma {:induction false} MarkedFramed(tss: seq<seq<Tok>>, masks: seq<seq<bool>>)
    requires SameShape(tss, masks) && |tss| > 1
    ensures |Framed(tss, AsTok)| == |Framed(masks, AsNo)|
    ensures Marked(Framed(tss, AsTok), Framed(masks, AsNo)) == Framed(MarkedEach(tss, masks), AsSight)
  {
    var k := |tss| - 1;
    MarkedParts(tss, masks, k);
    var t, m := FramedParts(tss, k, AsTok), FramedParts(masks, k, AsNo);
    MarkedTwo(Lift("WITH ", AsTok), t, Lift("WITH ", AsNo), m);
    MarkedThree(Lift("WITH ", AsTok) + t, Lift(" ", AsTok), tss[k], Lift("WITH ", AsNo) + m, Lift(" ", AsNo), masks[k]);
    MarkedLift("WITH ");
    MarkedLift(" ");
  }

  /** The scanner sees in each part what it sees in the statement alone, and no placeholder around them. */
  ghost predicate Composes<V>(stmts: seq<Statement<V>>, scan: Scanner)
    requires |stmts| > 1
  {
    var chain := Chain(ReadAll(stmts));
    View(chain, scan(chain)) == Framed(Masks(ViewAll(stmts, scan)), AsNo)
  }

  lemma {:induction false} ReadingsOfViews<V>(stmts: seq<Statement<V>>, scan: Scanner)
    ensures Readings(ViewAll(stmts, scan)) == ReadAll(stmts)
  {
    var rs, vs := ReadAll(stmts), ViewAll(stmts, scan);
    forall i | 0 <= i < |stmts| ensures Readings(vs)[i] == rs[i] {
      assert Toks(vs[i].ss) == Scan(stmts[i].sql);
    }
  }

  /** The server sees the frame around the renumbered statements, live where they were live. */
  lemma {:induction false} ChainSeen<V>(stmts: seq<Statement<V>>, scan: Scanner)
    requires |stmts| > 1 && Composes(stmts, scan)
    ensures Seen(Chain(ReadAll(stmts)), scan) == Framed(RenamedAll(ViewAll(stmts, scan)), AsSight)
  {
    var rs, vs := ReadAll(stmts), ViewAll(stmts, scan);
    ReadingsOfViews(stmts, scan);
    ReadingIsLegible(stmts);
    ChainReads(rs);
    ChainWords(rs);
    MarkedBodies(vs);
    MarkedFramed(Bodies(rs), Masks(vs));
    SeenIsMarked(Chain(rs), scan, Framed(Bodies(rs), AsTok), Framed(Masks(vs), AsNo));
  }

  lemma {:induction false} MarkedBodies<V>(vs: seq<Viewed<V>>)
    ensures SameShape(Bodies(Readings(vs)), Masks(vs))
    ensures MarkedEach(Bodies(Readings(vs)), Masks(vs)) == RenamedAll(vs)
  {
  }

  lemma {:induction false} SeenIsMarked(sql: string, scan: Scanner, ts: seq<Tok>, live: seq<bool>)
    requires |ts| == |live| && Scan(sql) == ts && Words(sql) == Shows(ts) && View(sql, scan(sql)) == live
    ensures Seen(sql, scan) == Marked(ts, live)
  {
  }

  // ---- binding a frame ----------------------------------------------------------------------------

  lemma {:induction false} BoundTwo<V>(a: seq<Sight>, b: seq<Sight>, params: seq<V>)
    ensures Bound(a + b, params) == Bound(a, params) + Bound(b, params)
  {
  }

  lemma {:induction false} BoundThree<V>(a: seq<Sight>, b: seq<Sight>, c: seq<Sight>, params: seq<V>)
    ensures Bound(a + b + c, params) == Bound(a, params) + Bound(b, params) + Bound(c, params)
  {
    BoundTwo(a + b, c, params);
    BoundTwo(a, b, params);
  }

  lemma {:induction false} BoundLift<V>(s: string, params: seq<V>)
    ensures Bound(Lift(s, AsSight), params) == Lift(s, AsPiece<V>)
  {
    LiftSight(s);
    LiftPiece<V>(s);
  }

  function BoundEach<V>(bodies: seq<seq<Sight>>, params: seq<V>): seq<seq<Piece<V>>> {
    seq(|bodies|, i requires 0 <= i < |bodies| => Bound(bodies[i], params))
  }

  lemma {:induction false} BoundPart<V>(i: nat, body: seq<Sight>, params: seq<V>)
    ensures Bound(Part(i, body, AsSight), params) == Part(i, Bound(body, params), AsPiece<V>)
  {
    BoundThree(Lift(CteHead(i), AsSight), body, Lift(")", AsSight), params);
    BoundLift(CteHead(i), params);
    BoundLift(")", params);
  }

  lemma {:induction false} BoundParts<V>(bodies: seq<seq<Sight>>, k: nat, params: seq<V>)
    requires 0 < k <= |bodies|
    ensures Bound(FramedParts(bodies, k, AsSight), params) == FramedParts(BoundEach(bodies, params), k, AsPiece<V>)
  {
    BoundPart(k - 1, bodies[k - 1], params);
    if k > 1 {
      BoundParts(bodies, k - 1, params);
      BoundThree(FramedParts(bodies, k - 1, AsSight), Lift(", ", AsSight), Part(k - 1, bodies[k - 1], AsSight), params);
      BoundLift(", ", params);
    }
  }

  lemma {:induction false} BoundFramed<V>(bodies: seq<seq<Sight>>, params: seq<V>)
    requires |bodies| > 1
    ensures Bound(Framed(bodies, AsSight), params) == Framed(BoundEach(bodies, params), AsPiece<V>)
  {
    var k := |bodies| - 1;
    BoundParts(bodies, k, params);
    var p := FramedParts(bodies, k, AsSight);
    BoundTwo(Lift("WITH ", AsSight), p, params);
    BoundThree(Lift("WITH ", AsSight) + p, Lift(" ", AsSight), bodies[k], params);
    BoundLift("WITH ", params);
    BoundLift(" ", params);
  }

  // ---- when a chain keeps the meaning of its statements ----------------------------------------------

  function Meanings<V>(vs: seq<Viewed<V>>): seq<seq<Piece<V>>> {
    seq(|vs|, i requires 0 <= i < |vs| => Bound(vs[i].ss, vs[i].params))
  }

  function All<V>(vs: seq<Viewed<V>>): seq<V> {
    Gathered(Readings(vs), |vs|)
  }

  /** What `Commit` sends means the frame around what the statements mean alone. */
  ghost predicate Kept<V>(stmts: seq<Statement<V>>, scan: Scanner)
    requires |stmts| > 1
  {
    var rs := ReadAll(stmts);
    Bound(Seen(Chain(rs), scan), Gathered(rs, |rs|)) == Framed(Meanings(ViewAll(stmts, scan)), AsPiece<V>)
  }

  ghost predicate KeptAt<V>(vs: seq<Viewed<V>>, k: nat)
    requires k < |vs|
  {
    Bound(Renamed(vs, k), All(vs)) == Bound(vs[k].ss, vs[k].params)
  }

  lemma {:induction false} KeptIffKeptAt<V>(stmts: seq<Statement<V>>, scan: Scanner)
    requires |stmts| > 1 && Composes(stmts, scan)
    ensures Kept(stmts, scan) <==> AllKept(ViewAll(stmts, scan))
  {
    var vs := ViewAll(stmts, scan);
    ReadingsOfViews(stmts, scan);
    ChainSeen(stmts, scan);
    BoundFramed(RenamedAll(vs), All(vs));
    var got, want := BoundEach(RenamedAll(vs), All(vs)), Meanings(vs);
    SameBodies(vs);
    if Kept(stmts, scan) {
      FrameDetermines(got, want, AsPiece<V>);
    }
  }

  lemma {:induction false} SameBodies<V>(vs: seq<Viewed<V>>)
    ensures SameShape(BoundEach(RenamedAll(vs), All(vs)), Meanings(vs))
    ensures BoundEach(RenamedAll(vs), All(vs)) == Meanings(vs) <==> AllKept(vs)
  {
    var got, want := BoundEach(RenamedAll(vs), All(vs)), Meanings(vs);
    forall k: nat | k < |vs| ensures |got[k]| == |want[k]| && (KeptAt(vs, k) <==> got[k] == want[k]) {
      assert RenamedAll(vs)[k] == Renamed(vs, k);
    }
  }

  /** The number token `i` of statement `k` is given. */
  function NumberGiven<V>(vs: seq<Viewed<V>>, k: nat, n: nat): nat
    requires k < |vs|
  {
    Given(Readings(vs), k) + 1 + IndexOf(FirstSeen(Toks(vs[k].ss)), n)
  }

  /**
    A live `$N` is given the place its parameter takes among all parameters; any other `$N`
    is given the number it is spelled with.
  */
  ghost predicate Lands<V>(vs: seq<Viewed<V>>, k: nat, i: nat)
    requires k < |vs| && i < |vs[k].ss|
  {
    var s := vs[k].ss[i];
    s.tok.Param? ==>
      var m := NumberGiven(vs, k, s.tok.n);
      if s.live then m == |Gathered(Readings(vs), k)| + s.tok.n else s.word == Show(Param(m))
  }

  ghost predicate LandsAll<V>(vs: seq<Viewed<V>>) {
    forall k: nat, i: nat | k < |vs| && i < |vs[k].ss| :: Lands(vs, k, i)
  }

  ghost predicate NoRepeats<V(!new)>(s: seq<V>) {
    forall i, j | 0 <= i < j < |s| :: s[i] != s[j]
  }

  /** `params` stands in `all` from `start` on. */
  ghost predicate Holds<V>(all: seq<V>, start: nat, params: seq<V>) {
    start + |params| <= |all| && all[start..start + |params|] == params
  }

  lemma {:induction false} HoldsAt<V>(all: seq<V>, start: nat, params: seq<V>, n: nat)
    requires Holds(all, start, params) && 1 <= n <= |params|
    ensures start + n <= |all| && all[start + n - 1] == params[n - 1]
  {
    assert all[start..start + |params|][n - 1] == all[start + n - 1];
  }

  /** The parameters of each statement stand together in the gathered list. */
  lemma {:induction false} GatheredHolds<V>(rs: seq<Reading<V>>, k: nat, m: nat)
    requires k < m <= |rs|
    ensures Holds(Gathered(rs, m), |Gathered(rs, k)|, rs[k].params)
  {
    if m > k + 1 {
      GatheredHolds(rs, k, m - 1);
    }
  }

  /** One token: where it lands decides whether it means the same. */
  lemma {:induction false} TokenKept<V(!new)>(s: Sight, m: nat, start: nat, params: seq<V>, all: seq<V>)
    requires s.tok.Param? && (s.live ==> 1 <= s.tok.n <= |params|) && Holds(all, start, params)
    ensures (if s.live then m == start + s.tok.n else s.word == Show(Param(m))) ==>
              Bind(Sight(Param(m), Show(Param(m)), s.live), all) == Bind(s, params)
    ensures NoRepeats(all) && Bind(Sight(Param(m), Show(Param(m)), s.live), all) == Bind(s, params) ==>
              if s.live then m == start + s.tok.n else s.word == Show(Param(m))
  {
    if s.live {
      HoldsAt(all, start, params, s.tok.n);
    }
  }

  lemma {:induction false} RenamedAt<V>(vs: seq<Viewed<V>>, k: nat, i: nat)
    requires k < |vs| && i < |vs[k].ss|
    ensures |Renamed(vs, k)| == |vs[k].ss|
    ensures var s := vs[k].ss[i];
            Renamed(vs, k)[i] ==
            if s.tok.Param? then var t := Param(NumberGiven(vs, k, s.tok.n)); Sight(t, Show(t), s.live)
            else Sight(s.tok, Show(s.tok), s.live)
  {
  }

  lemma {:induction false} TokenKeptAt<V(!new)>(vs: seq<Viewed<V>>, k: nat, i: nat)
    requires k < |vs| && i < |vs[k].ss| && Runs(vs[k]) && Spelled(vs[k].ss)
    ensures Lands(vs, k, i) ==> Bind(Renamed(vs, k)[i], All(vs)) == Bind(vs[k].ss[i], vs[k].params)
    ensures NoRepeats(All(vs)) && Bind(Renamed(vs, k)[i], All(vs)) == Bind(vs[k].ss[i], vs[k].params) ==> Lands(vs, k, i)
  {
    var s, rs := vs[k].ss[i], Readings(vs);
    RenamedAt(vs, k, i);
    if s.tok.Param? {
      GatheredHolds(rs, k, |rs|);
      assert Toks(vs[k].ss)[i] == s.tok && Lives(vs[k].ss)[i] == s.live;
      TokenKept(s, NumberGiven(vs, k, s.tok.n), |Gathered(rs, k)|, vs[k].params, All(vs));
    }
  }

  lemma {:induction false} KeptAtIffLands<V(!new)>(vs: seq<Viewed<V>>, k: nat)
    requires k < |vs| && Runs(vs[k]) && Spelled(vs[k].ss)
    ensures (forall i: nat | i < |vs[k].ss| :: Lands(vs, k, i)) ==> KeptAt(vs, k)
    ensures NoRepeats(All(vs)) && KeptAt(vs, k) ==> forall i: nat | i < |vs[k].ss| :: Lands(vs, k, i)
  {
    var got, want := Bound(Renamed(vs, k), All(vs)), Bound(vs[k].ss, vs[k].params);
    forall i: nat | i < |vs[k].ss|
      ensures |got| == |want|
      ensures Lands(vs, k, i) ==> got[i] == want[i]
      ensures NoRepeats(All(vs)) && got[i] == want[i] ==> Lands(vs, k, i)
    {
      RenamedAt(vs, k, i);
      TokenKeptAt(vs, k, i);
    }
  }

  ghost predicate AllRunnable<V>(vs: seq<Viewed<V>>) {
    forall k | 0 <= k < |vs| :: Runs(vs[k]) && Spelled(vs[k].ss)
  }

  ghost predicate AllKept<V>(vs: seq<Viewed<V>>) {
    forall k: nat | k < |vs| :: KeptAt(vs, k)
  }

  lemma {:induction false} AllKeptIffLands<V(!new)>(vs: seq<Viewed<V>>)
    requires AllRunnable(vs)
    ensures LandsAll(vs) ==> AllKept(vs)
    ensures NoRepeats(All(vs)) && AllKept(vs) ==> LandsAll(vs)
  {
    forall k: nat | k < |vs|
      ensures (forall i: nat | i < |vs[k].ss| :: Lands(vs, k, i)) ==> KeptAt(vs, k)
      ensures NoRepeats(All(vs)) && KeptAt(vs, k) ==> forall i: nat | i < |vs[k].ss| :: Lands(vs, k, i)
    {
      KeptAtIffLands(vs, k);
    }
  }

  // ---- statements the server accepts --------------------------------------------------------------------

  /** The server's count check passes on the statement alone. */
  ghost predicate Accepted<V>(s: Statement<V>, scan: Scanner) {
    InRange(Scan(s.sql), View(s.sql, scan(s.sql))) && IsCount(s.sql, scan(s.sql), |s.params|)
  }

  lemma AcceptedRuns<V>(s: Statement<V>, scan: Scanner)
    requires IsScanner(scan) && Accepted(s, scan)
    ensures var v := Viewed(Seen(s.sql, scan), s.params); Runs(v) && Spelled(v.ss)
  {
    var ss := Seen(s.sql, scan);
    assert Toks(ss) == Scan(s.sql) && Lives(ss) == View(s.sql, scan(s.sql));
    CountIsMaxLive(s.sql, scan(s.sql), |s.params|);
    forall i | 0 <= i < |ss| && ss[i].tok.Text? ensures ss[i].word == [ss[i].tok.c] {
      WordIs(s.sql, i);
    }
  }

  ghost predicate AllAccepted<V>(stmts: seq<Statement<V>>, scan: Scanner) {
    IsScanner(scan) && forall i | 0 <= i < |stmts| :: Accepted(stmts[i], scan)
  }

  lemma {:induction false} AllRun<V>(stmts: seq<Statement<V>>, scan: Scanner)
    requires AllAccepted(stmts, scan)
    ensures AllRunnable(ViewAll(stmts, scan))
  {
    forall i | 0 <= i < |stmts| ensures Runs(ViewAll(stmts, scan)[i]) && Spelled(ViewAll(stmts, scan)[i].ss) {
      AcceptedRuns(stmts[i], scan);
    }
  }

  /**
    Theorem. Of statements the server accepts, the chain that is sent keeps the meaning
    exactly when every live `$N` is given the place of its parameter and every other `$N`
    keeps its spelling. Values that repeat could hide a swap.
  */
  lemma {:induction false} KeptIffLands<V(!new)>(stmts: seq<Statement<V>>, scan: Scanner)
    requires |stmts| > 1 && AllAccepted(stmts, scan) && Composes(stmts, scan)
    requires NoRepeats(Gathered(ReadAll(stmts), |stmts|))
    ensures Kept(stmts, scan) <==> LandsAll(ViewAll(stmts, scan))
  {
    AllRun(stmts, scan);
    ReadingsOfViews(stmts, scan);
    KeptIffKeptAt(stmts, scan);
    AllKeptIffLands(ViewAll(stmts, scan));
  }

  /** One direction for all values, also repeated ones. */
  lemma {:induction false} LandedIsKept<V(!new)>(stmts: seq<Statement<V>>, scan: Scanner)
    requires |stmts| > 1 && AllAccepted(stmts, scan) && Composes(stmts, scan) && LandsAll(ViewAll(stmts, scan))
    ensures Kept(stmts, scan)
  {
    AllRun(stmts, scan);
    KeptIffKeptAt(stmts, scan);
    AllKeptIffLands(ViewAll(stmts, scan));
  }
}
