/**
  A scanner that knows string literals: it reports every `$N` that is not between quotes.
  It meets what `Binding` asks of a scanner, for all statements that close their literals,
  so what `Chains` says of chains holds of it, and the failures it describes occur.
*/
module Literals {
  import opened Placeholders
  import opened Transaction
  import opened Framing
  import opened Validator
  import opened Binding
  import opened Chains

  /** Whether a literal is open after `ts`; a doubled quote closes and opens again. */
  function Open(ts: seq<Tok>, open: bool): bool {
    if ts == [] then open else Open(ts[1..], open != (ts[0] == Text('\'')))
  }

  /** Which tokens are placeholders. */
  function Outside(ts: seq<Tok>, open: bool): (r: seq<bool>)
    ensures |r| == |ts|
  {
    if ts == [] then [] else [ts[0].Param? && !open] + Outside(ts[1..], open != (ts[0] == Text('\'')))
  }

  function Chosen(rs: seq<Range>, which: seq<bool>): seq<Range>
    requires |rs| == |which|
  {
    if rs == [] then []
    else (if which[0] then [rs[0]] else []) + Chosen(rs[1..], which[1..])
  }

  function Unquoted(sql: string): seq<Range> {
    Chosen(Spans(sql), Outside(Scan(sql), false))
  }

  predicate Closed(sql: string) {
    !Open(Scan(sql), false)
  }

  // ---- it is a scanner ------------------------------------------------------------------------

  lemma {:induction false} ChosenAre(rs: seq<Range>, which: seq<bool>, r: Range)
    requires |rs| == |which|
    ensures r in Chosen(rs, which) <==> exists i | 0 <= i < |rs| :: which[i] && rs[i] == r
  {
    if rs != [] {
      ChosenAre(rs[1..], which[1..], r);
      assert forall i | 1 <= i < |rs| :: rs[i] == rs[1..][i - 1] && which[i] == which[1..][i - 1];
    }
  }

  lemma {:induction false} OutsideAreParams(ts: seq<Tok>, open: bool, i: nat)
    requires i < |ts| && Outside(ts, open)[i]
    ensures ts[i].Param?
  {
    if i > 0 {
      OutsideAreParams(ts[1..], open != (ts[0] == Text('\'')), i - 1);
    }
  }

  lemma {:induction false} AfterShrinks(s: string, i: nat, j: nat)
    requires i < j <= |Scan(s)|
    ensures |After(s, j)| < |After(s, i)|
    decreases j
  {
    AfterEnds(s, j - 1);
    if i < j - 1 {
      AfterShrinks(s, i, j - 1);
    }
  }

  lemma SpansDiffer(sql: string, i: nat, j: nat)
    requires i < |Scan(sql)| && j < |Scan(sql)| && Spans(sql)[i] == Spans(sql)[j]
    ensures i == j
  {
    if i < j {
      AfterShrinks(sql, i, j);
    } else if j < i {
      AfterShrinks(sql, j, i);
    }
  }

  lemma UnquotedIsWhole(sql: string)
    ensures Whole(sql, Unquoted(sql))
  {
    forall r | r in Unquoted(sql) ensures exists i | 0 <= i < |Scan(sql)| :: Spans(sql)[i] == r && Scan(sql)[i].Param? {
      ChosenAre(Spans(sql), Outside(Scan(sql), false), r);
      var i :| 0 <= i < |Scan(sql)| && Outside(Scan(sql), false)[i] && Spans(sql)[i] == r;
      OutsideAreParams(Scan(sql), false, i);
    }
  }

  lemma UnquotedIsScanner()
    ensures IsScanner(Unquoted)
  {
    var scan: Scanner := Unquoted;
    forall sql: string ensures Whole(sql, scan(sql)) {
      UnquotedIsWhole(sql);
    }
  }

  lemma UnquotedView(sql: string)
    ensures View(sql, Unquoted(sql)) == Outside(Scan(sql), false)
  {
    var live := Outside(Scan(sql), false);
    forall i: nat | i < |Scan(sql)| ensures View(sql, Unquoted(sql))[i] == live[i] {
      ChosenAre(Spans(sql), live, Spans(sql)[i]);
      if live[i] {
        OutsideAreParams(Scan(sql), false, i);
      } else if Spans(sql)[i] in Unquoted(sql) {
        var j: nat :| j < |Scan(sql)| && live[j] && Spans(sql)[j] == Spans(sql)[i];
        SpansDiffer(sql, i, j);
      }
    }
  }

  // ---- it sees in a chain what it sees in the statements -------------------------------------------

  lemma {:induction false} OpenConcat(a: seq<Tok>, b: seq<Tok>, open: bool)
    ensures Open(a + b, open) == Open(b, Open(a, open))
    ensures Outside(a + b, open) == Outside(a, open) + Outside(b, Open(a, open))
  {
    if a == [] {
      assert a + b == b;
    } else {
      assert (a + b)[1..] == a[1..] + b;
      OpenConcat(a[1..], b, open != (a[0] == Text('\'')));
    }
  }

  /** Closed pieces are seen one by one. */
  lemma {:induction false} OpenThree(a: seq<Tok>, b: seq<Tok>, c: seq<Tok>)
    requires !Open(a, false) && !Open(b, false)
    ensures Open(a + b + c, false) == Open(c, false)
    ensures Outside(a + b + c, false) == Outside(a, false) + Outside(b, false) + Outside(c, false)
  {
    OpenConcat(a + b, c, false);
    OpenConcat(a, b, false);
  }

  lemma {:induction false} OpenText(s: string)
    requires '\'' !in s
    ensures !Open(Lift(s, AsTok), false) && Outside(Lift(s, AsTok), false) == Lift(s, AsNo)
  {
    LiftTok(s);
    LiftNo(s);
    if s != "" {
      OpenText(s[1..]);
      LiftTok(s[1..]);
      LiftNo(s[1..]);
      assert Lift(s, AsTok)[1..] == Lift(s[1..], AsTok);
      assert Lift(s, AsNo) == [false] + Lift(s[1..], AsNo);
    }
  }

  /** Renaming placeholders leaves literals where they are. */
  lemma {:induction false} OpenRenamed(ts: seq<Tok>, seen: seq<nat>, start: nat, open: bool)
    ensures Open(RenameAll(ts, seen, start), open) == Open(ts, open)
    ensures Outside(RenameAll(ts, seen, start), open) == Outside(ts, open)
  {
    if ts != [] {
      OpenRenamed(ts[1..], seen, start, open != (ts[0] == Text('\'')));
      assert RenameAll(ts, seen, start)[1..] == RenameAll(ts[1..], seen, start);
    }
  }

  ghost predicate AllClosed(tss: seq<seq<Tok>>) {
    forall i | 0 <= i < |tss| :: !Open(tss[i], false)
  }

  function OutsideEach(tss: seq<seq<Tok>>): seq<seq<bool>> {
    seq(|tss|, i requires 0 <= i < |tss| => Outside(tss[i], false))
  }

  lemma {:induction false} OpenPart(i: nat, body: seq<Tok>)
    requires !Open(body, false)
    ensures !Open(Part(i, body, AsTok), false)
    ensures Outside(Part(i, body, AsTok), false) == Part(i, Outside(body, false), AsNo)
  {
    assert forall k | 0 <= k < |Decimal(i)| :: Decimal(i)[k] != '\'';
    OpenText(CteHead(i));
    OpenText(")");
    OpenThree(Lift(CteHead(i), AsTok), body, Lift(")", AsTok));
  }

  lemma {:induction false} OpenParts(tss: seq<seq<Tok>>, k: nat)
    requires AllClosed(tss) && 0 < k <= |tss|
    ensures !Open(FramedParts(tss, k, AsTok), false)
    ensures Outside(FramedParts(tss, k, AsTok), false) == FramedParts(OutsideEach(tss), k, AsNo)
  {
    OpenPart(k - 1, tss[k - 1]);
    if k > 1 {
      OpenParts(tss, k - 1);
      OpenText(", ");
      OpenThree(FramedParts(tss, k - 1, AsTok), Lift(", ", AsTok), Part(k - 1, tss[k - 1], AsTok));
    }
  }

  lemma {:induction false} OpenFramed(tss: seq<seq<Tok>>)
    requires AllClosed(tss) && |tss| > 1
    ensures Outside(Framed(tss, AsTok), false) == Framed(OutsideEach(tss), AsNo)
  {
    var k := |tss| - 1;
    OpenParts(tss, k);
    OpenText("WITH ");
    OpenText(" ");
    var w, parts := Lift("WITH ", AsTok), FramedParts(tss, k, AsTok);
    OpenConcat(w, parts, false);
    OpenThree(w + parts, Lift(" ", AsTok), tss[k]);
  }

  lemma {:induction false} BodiesAreClosed<V>(stmts: seq<Statement<V>>)
    requires forall k | 0 <= k < |stmts| :: Closed(stmts[k].sql)
    ensures AllClosed(Bodies(ReadAll(stmts)))
    ensures OutsideEach(Bodies(ReadAll(stmts))) == Masks(ViewAll(stmts, Unquoted))
  {
    var rs, vs := ReadAll(stmts), ViewAll(stmts, Unquoted);
    forall k: nat | k < |stmts|
      ensures !Open(Bodies(rs)[k], false) && Outside(Bodies(rs)[k], false) == Masks(vs)[k]
    {
      OpenRenamed(rs[k].ts, FirstSeen(rs[k].ts), Given(rs, k), false);
      UnquotedView(stmts[k].sql);
      assert Lives(vs[k].ss) == View(stmts[k].sql, Unquoted(stmts[k].sql));
    }
  }

  /** Theorem. Statements that close their literals compose. */
  lemma {:induction false} ClosedCompose<V>(stmts: seq<Statement<V>>)
    requires |stmts| > 1 && forall k | 0 <= k < |stmts| :: Closed(stmts[k].sql)
    ensures Composes(stmts, Unquoted)
  {
    var rs := ReadAll(stmts);
    BodiesAreClosed(stmts);
    ReadingIsLegible(stmts);
    ChainReads(rs);
    OpenFramed(Bodies(rs));
    UnquotedView(Chain(rs));
  }

  /** So for such statements nothing is left to assume about the scanner. */
  lemma {:induction false} ClosedKeptIffLands<V(!new)>(stmts: seq<Statement<V>>)
    requires |stmts| > 1 && (forall k | 0 <= k < |stmts| :: Closed(stmts[k].sql)) && AllAccepted(stmts, Unquoted)
    requires NoRepeats(Gathered(ReadAll(stmts), |stmts|))
    ensures Kept(stmts, Unquoted) <==> LandsAll(ViewAll(stmts, Unquoted))
  {
    ClosedCompose(stmts);
    KeptIffLands(stmts, Unquoted);
  }

  // ---- the failures occur ---------------------------------------------------------------------------

  /** Tokens of a text that the server runs with `n` parameters, and that closes its literals. */
  ghost predicate Good(ts: seq<Tok>, n: nat) {
    var live := Outside(ts, false);
    Separated(ts) && !Open(ts, false) && InRange(ts, live) && IsMaxLive(ts, live, n)
  }

  lemma {:induction false} WrittenIsSeen(ts: seq<Tok>, sql: string)
    requires Separated(ts) && sql == Render(ts)
    ensures Scan(sql) == ts && Seen(sql, Unquoted) == Marked(ts, Outside(ts, false))
  {
    ScanOfRender(ts);
    WordsOfRender(ts);
    UnquotedView(sql);
    SeenIsMarked(sql, Unquoted, ts, Outside(ts, false));
  }

  lemma {:induction false} WrittenIsAccepted<V>(s: Statement<V>, ts: seq<Tok>)
    requires s.sql == Render(ts) && Good(ts, |s.params|)
    ensures Accepted(s, Unquoted)
  {
    WrittenIsSeen(ts, s.sql);
    UnquotedIsWhole(s.sql);
    UnquotedView(s.sql);
    CountIsMaxLive(s.sql, Unquoted(s.sql), |s.params|);
  }

  function Pair<V>(a: seq<Tok>, p: seq<V>, b: seq<Tok>, q: seq<V>): seq<Statement<V>> {
    [Statement(Render(a), p), Statement(Render(b), q)]
  }

  lemma {:induction false} PairIsAccepted<V>(a: seq<Tok>, p: seq<V>, b: seq<Tok>, q: seq<V>)
    requires Good(a, |p|) && Good(b, |q|)
    ensures AllAccepted(Pair(a, p, b, q), Unquoted)
  {
    var stmts := Pair(a, p, b, q);
    UnquotedIsScanner();
    forall i | 0 <= i < |stmts| ensures Accepted(stmts[i], Unquoted) {
      WrittenIsAccepted(stmts[i], if i == 0 then a else b);
    }
  }

  lemma {:induction false} PairComposes<V>(a: seq<Tok>, p: seq<V>, b: seq<Tok>, q: seq<V>)
    requires Good(a, |p|) && Good(b, |q|)
    ensures Composes(Pair(a, p, b, q), Unquoted)
  {
    var stmts := Pair(a, p, b, q);
    forall i | 0 <= i < |stmts| ensures Closed(stmts[i].sql) {
      WrittenIsSeen(if i == 0 then a else b, stmts[i].sql);
    }
    ClosedCompose(stmts);
  }

  lemma {:induction false} PairIsSeen<V>(a: seq<Tok>, p: seq<V>, b: seq<Tok>, q: seq<V>)
    requires Separated(a) && Separated(b)
    ensures ViewAll(Pair(a, p, b, q), Unquoted) == [Viewed(Marked(a, Outside(a, false)), p), Viewed(Marked(b, Outside(b, false)), q)]
  {
    WrittenIsSeen(a, Render(a));
    WrittenIsSeen(b, Render(b));
  }

  lemma {:induction false} PairGathers<V>(stmts: seq<Statement<V>>)
    requires |stmts| == 2
    ensures Gathered(ReadAll(stmts), |stmts|) == stmts[0].params + stmts[1].params
  {
    var rs := ReadAll(stmts);
    assert Gathered(rs, 1) == Gathered(rs, 0) + rs[0].params;
    assert [] + rs[0].params == rs[0].params;
  }

  ghost predicate Strays<V>(vs: seq<Viewed<V>>, k: nat, i: nat) {
    k < |vs| && i < |vs[k].ss| && !Lands(vs, k, i)
  }

  /** A token that does not land is enough. */
  lemma {:induction false} StrayIsNotKept<V(!new)>(stmts: seq<Statement<V>>, scan: Scanner, k: nat, i: nat)
    requires |stmts| > 1 && AllAccepted(stmts, scan) && Composes(stmts, scan)
    requires NoRepeats(Gathered(ReadAll(stmts), |stmts|))
    requires Strays(ViewAll(stmts, scan), k, i)
    ensures !Kept(stmts, scan)
  {
    KeptIffLands(stmts, scan);
  }

  lemma {:induction false} NoRepeatsOfTwo(s: seq<int>)
    requires s == [10, 20]
    ensures NoRepeats(s)
  {
  }

  /** What the client reads in a marked text. */
  lemma {:induction false} MarkedReads(ts: seq<Tok>, live: seq<bool>)
    requires |ts| == |live|
    ensures Toks(Marked(ts, live)) == ts && Lives(Marked(ts, live)) == live
  {
  }

  lemma {:induction false} OutsideStep(t: Tok, ts: seq<Tok>, open: bool)
    ensures Open([t] + ts, open) == Open(ts, open != (t == Text('\'')))
    ensures Outside([t] + ts, open) == [t.Param? && !open] + Outside(ts, open != (t == Text('\'')))
  {
    assert ([t] + ts)[1..] == ts;
  }

  lemma OneIsNotTwo()
    ensures Show(Param(1)) != Show(Param(2))
  {
    assert Show(Param(1))[1] == '1' && Show(Param(2))[1] == '2';
  }

  /** Only `$1` is mentioned. */
  lemma {:induction false} OnlyOnes(ts: seq<Tok>)
    requires Param(1) in ts && forall n: nat | Param(n) in ts :: n == 1
    ensures FirstSeen(ts) == [1]
  {
    FirstSeenFacts(ts);
    var seen := FirstSeen(ts);
    assert 1 in seen;
    assert forall i | 0 <= i < |seen| :: seen[i] in seen;
    assert seen[0] == 1 && seen[|seen| - 1] == 1;
  }

  lemma {:induction false} ReachOfOnes(ss: seq<Sight>, i: nat)
    requires i < |ss| && ss[i].live && ss[i].tok == Param(1) && FirstSeen(Toks(ss)) == [1]
    ensures Reach(ss) == 1
  {
    ReachBounded(ss);
    assert Renumbered(Toks(ss), 0)[i] == Param(1);
    assert Lives(ss)[i];
  }

  /** `$1` with 10, and `'$1',$1` with 20, of which only the second `$1` is a placeholder. */
  ghost predicate WithLiteral(vs: seq<Viewed<int>>, a: seq<Tok>, b: seq<Tok>) {
    && a == [Param(1)] && b == [Text('\''), Param(1), Text('\''), Text(','), Param(1)]
    && |vs| == 2 && vs[0] == Viewed(Marked(a, [true]), [10])
    && vs[1] == Viewed(Marked(b, [false, false, false, false, true]), [20])
  }

  lemma {:induction false} LiteralCounts(vs: seq<Viewed<int>>, a: seq<Tok>, b: seq<Tok>)
    requires WithLiteral(vs, a, b)
    ensures Counts(vs) == [1, 1] && Reaches(vs) == [1, 1]
    ensures FirstSeen(Toks(vs[1].ss)) == [1]
  {
    MarkedReads(a, [true]);
    MarkedReads(b, [false, false, false, false, true]);
    assert a[0] == Param(1) && b[1] == Param(1);
    OnlyOnes(a);
    OnlyOnes(b);
    ReachOfOnes(vs[0].ss, 0);
    ReachOfOnes(vs[1].ss, 4);
  }

  lemma {:induction false} LiteralMoves(vs: seq<Viewed<int>>, a: seq<Tok>, b: seq<Tok>)
    requires WithLiteral(vs, a, b)
    ensures Strays(vs, 1, 1) && LastPlace(vs) == 2 && Given(Readings(vs), 2) == 2
  {
    LiteralCounts(vs, a, b);
    GivenIsSum(vs, 1);
    GivenIsSum(vs, 2);
    assert Sum([1, 1], 1) == 1 && Sum([1, 1], 2) == 2;
    assert IndexOf([1], 1) == 0;
    assert vs[1].ss[1] == Sight(Param(1), Show(Param(1)), false);
    OneIsNotTwo();
  }

  lemma {:induction false} LiteralOutside(a: seq<Tok>, b: seq<Tok>)
    requires a == [Param(1)] && b == [Text('\''), Param(1), Text('\''), Text(','), Param(1)]
    ensures Outside(a, false) == [true] && Outside(b, false) == [false, false, false, false, true]
    ensures !Open(a, false) && !Open(b, false)
  {
    assert a == [Param(1)] + [];
    assert b[1..] == [Param(1)] + b[2..] && b[2..] == [Text('\'')] + b[3..] && b[3..] == [Text(',')] + b[4..] && b[4..] == a;
    assert b == [Text('\'')] + b[1..];
    OutsideStep(Param(1), [], false);
    OutsideStep(Text(','), b[4..], false);
    OutsideStep(Text('\''), b[3..], true);
    OutsideStep(Param(1), b[2..], true);
    OutsideStep(Text('\''), b[1..], false);
  }

  lemma {:induction false} LiteralShape(a: seq<Tok>, b: seq<Tok>)
    requires a == [Param(1)] && b == [Text('\''), Param(1), Text('\''), Text(','), Param(1)]
    ensures Outside(a, false) == [true] && Outside(b, false) == [false, false, false, false, true]
    ensures Good(a, 1) && Good(b, 1)
  {
    LiteralOutside(a, b);
    assert a[0] == Param(1) && b[4] == Param(1);
  }

  lemma {:induction false} LiteralIsSeen(stmts: seq<Statement<int>>, a: seq<Tok>, b: seq<Tok>)
    requires a == [Param(1)] && b == [Text('\''), Param(1), Text('\''), Text(','), Param(1)] && stmts == Pair(a, [10], b, [20])
    ensures var vs := ViewAll(stmts, Unquoted); Strays(vs, 1, 1) && LastPlace(vs) == 2 && Given(Readings(vs), 2) == 2
    ensures Gathered(ReadAll(stmts), |stmts|) == [10, 20]
  {
    LiteralViews(stmts, a, b);
    PairGathers(stmts);
    LiteralMoves(ViewAll(stmts, Unquoted), a, b);
  }

  lemma {:induction false} LiteralViews(stmts: seq<Statement<int>>, a: seq<Tok>, b: seq<Tok>)
    requires a == [Param(1)] && b == [Text('\''), Param(1), Text('\''), Text(','), Param(1)] && stmts == Pair(a, [10], b, [20])
    ensures WithLiteral(ViewAll(stmts, Unquoted), a, b)
  {
    LiteralShape(a, b);
    PairIsSeen(a, [10], b, [20]);
  }

  /** `$1` with 10 and `'$1',$1` with 20: accepted, the literal in the chain reads `'$2'`, and it is accepted too. */
  lemma {:induction false} LiteralHappens(stmts: seq<Statement<int>>, a: seq<Tok>, b: seq<Tok>)
    requires a == [Param(1)] && b == [Text('\''), Param(1), Text('\''), Text(','), Param(1)] && stmts == Pair(a, [10], b, [20])
    ensures AllAccepted(stmts, Unquoted) && !Kept(stmts, Unquoted)
    ensures var chain := Chain(ReadAll(stmts)); IsCount(chain, Unquoted(chain), |Gathered(ReadAll(stmts), |stmts|)|)
  {
    LiteralShape(a, b);
    PairIsAccepted(a, [10], b, [20]);
    PairComposes(a, [10], b, [20]);
    LiteralIsSeen(stmts, a, b);
    NoRepeatsOfTwo(Gathered(ReadAll(stmts), |stmts|));
    StrayIsNotKept(stmts, Unquoted, 1, 1);
    ReadingsOfViews(stmts, Unquoted);
    ChainIsCounted(stmts, Unquoted, 2);
  }

  lemma {:induction false} SwappedTokens(ts: seq<Tok>)
    requires ts == [Param(2), Text(','), Param(1)]
    ensures FirstSeen(ts) == [2, 1]
  {
    assert ts[..2] == [Param(2), Text(',')] && ts[..2][..1] == [Param(2)] && [Param(2)][..0] == [];
    assert FirstSeen(ts[..2][..1]) == [2];
    assert FirstSeen(ts[..2]) == [2];
    assert FirstSeen(ts) == [2, 1];
  }

  lemma {:induction false} SwapMoves(vs: seq<Viewed<int>>, a: seq<Tok>)
    requires a == [Param(2), Text(','), Param(1)] && |vs| == 2 && vs[0] == Viewed(Marked(a, [true, false, true]), [10, 20])
    ensures Strays(vs, 0, 0)
  {
    MarkedReads(a, [true, false, true]);
    SwappedTokens(a);
    assert IndexOf([2, 1], 2) == 0;
    assert vs[0].ss[0].tok == Param(2);
  }

  lemma {:induction false} SwapShape(a: seq<Tok>, b: seq<Tok>)
    requires a == [Param(2), Text(','), Param(1)] && b == [Text('x')]
    ensures Outside(a, false) == [true, false, true] && Good(a, 2) && Good(b, 0)
  {
    assert a[1..] == [Text(',')] + a[2..] && a[2..] == [Param(1)] + [] && a == [Param(2)] + a[1..] && b == [Text('x')] + [];
    OutsideStep(Text('x'), [], false);
    OutsideStep(Param(1), [], false);
    OutsideStep(Text(','), a[2..], false);
    OutsideStep(Param(2), a[1..], false);
    assert a[0] == Param(2);
  }

  /** `$2,$1` with 10 and 20, then `x`: accepted, and in the chain the two values change places. */
  lemma {:induction false} SwapHappens(stmts: seq<Statement<int>>, a: seq<Tok>, b: seq<Tok>)
    requires a == [Param(2), Text(','), Param(1)] && b == [Text('x')] && stmts == Pair(a, [10, 20], b, [])
    ensures AllAccepted(stmts, Unquoted) && !Kept(stmts, Unquoted)
  {
    SwapShape(a, b);
    PairIsAccepted(a, [10, 20], b, []);
    PairComposes(a, [10, 20], b, []);
    PairIsSeen(a, [10, 20], b, []);
    PairGathers(stmts);
    SwapMoves(ViewAll(stmts, Unquoted), a);
    NoRepeatsOfTwo(Gathered(ReadAll(stmts), |stmts|));
    StrayIsNotKept(stmts, Unquoted, 0, 0);
  }

  lemma {:induction false} GapCounts(vs: seq<Viewed<int>>, a: seq<Tok>, b: seq<Tok>)
    requires a == [Param(2)] && b == [Text('x')]
    requires |vs| == 2 && vs[0] == Viewed(Marked(a, [true]), [10, 20]) && vs[1] == Viewed(Marked(b, [false]), [])
    ensures LastPlace(vs) <= 1 && Given(Readings(vs), 2) == 1
  {
    MarkedReads(a, [true]);
    MarkedReads(b, [false]);
    assert [Param(2)][..0] == [] && [Text('x')][..0] == [];
    assert Counts(vs) == [1, 0];
    assert Sum([1, 0], 1) == 1 && Sum([1, 0], 2) == 1;
    GivenIsSum(vs, 2);
    LastPlaceBounded(vs);
  }

  lemma {:induction false} GapShape(a: seq<Tok>, b: seq<Tok>)
    requires a == [Param(2)] && b == [Text('x')]
    ensures Outside(a, false) == [true] && Outside(b, false) == [false] && Good(a, 2) && Good(b, 0)
  {
    assert a == [Param(2)] + [] && b == [Text('x')] + [];
    OutsideStep(Text('x'), [], false);
    OutsideStep(Param(2), [], false);
    assert a[0] == Param(2);
  }

  /** `$2` with two values, then `x`: accepted one by one, and the chain is not. */
  lemma {:induction false} GapHappens(stmts: seq<Statement<int>>, a: seq<Tok>, b: seq<Tok>)
    requires a == [Param(2)] && b == [Text('x')] && stmts == Pair(a, [10, 20], b, [])
    ensures AllAccepted(stmts, Unquoted)
    ensures var chain := Chain(ReadAll(stmts)); !IsCount(chain, Unquoted(chain), |Gathered(ReadAll(stmts), |stmts|)|)
  {
    GapShape(a, b);
    PairIsAccepted(a, [10, 20], b, []);
    PairComposes(a, [10, 20], b, []);
    PairIsSeen(a, [10, 20], b, []);
    PairGathers(stmts);
    GapCounts(ViewAll(stmts, Unquoted), a, b);
    ReadingsOfViews(stmts, Unquoted);
    ChainIsCounted(stmts, Unquoted, 2);
  }
}
