/**
  The text of a chain of statements: a frame of fixed text around the renumbered bodies.
  The frame is the same over tokens, over what the server sees, and over meanings, so it is
  written once for all of them.
*/
module Framing {
  import opened Placeholders
  import opened Transaction

  function AsTok(c: char): Tok {
    Text(c)
  }

  function Lift<T>(s: string, lift: char -> T): seq<T> {
    seq(|s|, i requires 0 <= i < |s| => lift(s[i]))
  }

  function Part<T>(i: nat, body: seq<T>, lift: char -> T): seq<T> {
    Lift(CteHead(i), lift) + body + Lift(")", lift)
  }

  function FramedParts<T>(bodies: seq<seq<T>>, k: nat, lift: char -> T): seq<T>
    requires 0 < k <= |bodies|
  {
    if k == 1 then Part(0, bodies[0], lift)
    else FramedParts(bodies, k - 1, lift) + Lift(", ", lift) + Part(k - 1, bodies[k - 1], lift)
  }

  function Framed<T>(bodies: seq<seq<T>>, lift: char -> T): seq<T>
    requires |bodies| > 1
  {
    var k := |bodies| - 1;
    Lift("WITH ", lift) + FramedParts(bodies, k, lift) + Lift(" ", lift) + bodies[k]
  }

  function Bodies<V>(rs: seq<Reading<V>>): seq<seq<Tok>> {
    seq(|rs|, i requires 0 <= i < |rs| => Body(rs, i))
  }

  // ---- reading a chain back ------------------------------------------------------------------

  lemma PlainReads(s: string)
    requires '$' !in s
    ensures Scan(s) == Lift(s, AsTok)
  {
    ScanPlain(s);
    LiftTok(s);
  }

  lemma LiftTok(s: string)
    ensures forall i | 0 <= i < |s| :: Lift(s, AsTok)[i] == Text(s[i])
  {
    var f: char -> Tok := AsTok;
    assert forall c: char :: f(c) == AsTok(c) == Text(c);
  }

  lemma CteHeadPlain(i: nat)
    ensures '$' !in CteHead(i) && CteHead(i)[|CteHead(i)| - 1] == '('
  {
    assert forall k | 0 <= k < |Decimal(i)| :: Decimal(i)[k] != '$';
  }

  /** Text, then a body, then text: read piece by piece. */
  lemma Surrounded(a: string, body: string, b: string)
    requires a != "" && b != "" && '$' !in a && '$' !in b
    requires !IsDigit(a[|a| - 1]) && !IsDigit(b[0])
    ensures Scan(a + body + b) == Lift(a, AsTok) + Scan(body) + Lift(b, AsTok)
  {
    ScanConcat(a, body);
    ScanConcat(a + body, b);
    PlainReads(a);
    PlainReads(b);
  }

  /** True of whatever was read from a text. */
  ghost predicate Legible<V>(rs: seq<Reading<V>>) {
    forall i | 0 <= i < |rs| :: Separated(rs[i].ts)
  }

  lemma {:induction false} ReadingIsLegible<V>(stmts: seq<Statement<V>>)
    ensures Legible(ReadAll(stmts))
  {
    forall i | 0 <= i < |stmts| ensures Separated(ReadAll(stmts)[i].ts) {
      ScanSeparated(stmts[i].sql);
    }
  }

  lemma {:induction false} BodyReads<V>(rs: seq<Reading<V>>, k: nat)
    requires Legible(rs) && k < |rs|
    ensures Scan(Render(Body(rs, k))) == Bodies(rs)[k]
  {
    RenumberedReads(rs[k].ts, Given(rs, k));
  }

  lemma {:induction false} PartReads<V>(rs: seq<Reading<V>>, k: nat)
    requires Legible(rs) && k < |rs|
    ensures Scan(CteHead(k) + Render(Body(rs, k)) + ")") == Part(k, Bodies(rs)[k], AsTok)
  {
    CteHeadPlain(k);
    Surrounded(CteHead(k), Render(Body(rs, k)), ")");
    BodyReads(rs, k);
  }

  lemma {:induction false} PartsRead<V>(rs: seq<Reading<V>>, k: nat)
    requires Legible(rs) && 0 < k <= |rs|
    ensures Scan(Parts(rs, k)) == FramedParts(Bodies(rs), k, AsTok)
  {
    PartReads(rs, k - 1);
    if k > 1 {
      PartsRead(rs, k - 1);
      Joined(Parts(rs, k - 1), ", ", CteHead(k - 1) + Render(Body(rs, k - 1)) + ")");
    }
  }

  lemma Joined(a: string, sep: string, b: string)
    requires sep != "" && '$' !in sep && !IsDigit(sep[0]) && !IsDigit(sep[|sep| - 1])
    ensures Scan(a + sep + b) == Scan(a) + Lift(sep, AsTok) + Scan(b)
  {
    ScanConcat(a, sep + b);
    ScanConcat(sep, b);
    PlainReads(sep);
    ConcatAssoc(a, sep, b);
  }

  lemma Headed(a: string, b: string, sep: string, c: string)
    requires a != "" && '$' !in a && !IsDigit(a[|a| - 1])
    requires sep != "" && '$' !in sep && !IsDigit(sep[0]) && !IsDigit(sep[|sep| - 1])
    ensures Scan(a + b + sep + c) == Lift(a, AsTok) + Scan(b) + Lift(sep, AsTok) + Scan(c)
  {
    Joined(a + b, sep, c);
    PlainReads(a);
    ScanConcat(a, b);
  }

  lemma WithReads(parts: string, last: string)
    ensures Scan("WITH " + parts + " " + last) == Lift("WITH ", AsTok) + Scan(parts) + Lift(" ", AsTok) + Scan(last)
  {
    Headed("WITH ", parts, " ", last);
  }

  /** The chain reads as its frame around the renumbered statements, and nothing runs together. */
  lemma {:induction false} ChainReads<V>(rs: seq<Reading<V>>)
    requires Legible(rs) && |rs| > 1
    ensures Scan(Chain(rs)) == Framed(Bodies(rs), AsTok)
  {
    var k := |rs| - 1;
    PartsRead(rs, k);
    BodyReads(rs, k);
    WithReads(Parts(rs, k), Render(Body(rs, k)));
  }

  // ---- a chain is spelled as it is shown -------------------------------------------------------

  lemma {:induction false} RenderLift(s: string)
    ensures Render(Lift(s, AsTok)) == s
  {
    LiftTok(s);
    if s != "" {
      RenderLift(s[1..]);
      LiftTok(s[1..]);
      assert Lift(s, AsTok)[1..] == Lift(s[1..], AsTok);
      assert s == [s[0]] + s[1..];
    }
  }

  lemma {:induction false} RenderThree(a: seq<Tok>, b: seq<Tok>, c: seq<Tok>)
    ensures Render(a + b + c) == Render(a) + Render(b) + Render(c)
  {
    RenderConcat(a + b, c);
    RenderConcat(a, b);
  }

  lemma {:induction false} RenderPart(i: nat, body: seq<Tok>)
    ensures Render(Part(i, body, AsTok)) == CteHead(i) + Render(body) + ")"
  {
    RenderThree(Lift(CteHead(i), AsTok), body, Lift(")", AsTok));
    RenderLift(CteHead(i));
    RenderLift(")");
  }

  lemma {:induction false} RenderParts<V>(rs: seq<Reading<V>>, k: nat)
    requires 0 < k <= |rs|
    ensures Render(FramedParts(Bodies(rs), k, AsTok)) == Parts(rs, k)
  {
    RenderPart(k - 1, Bodies(rs)[k - 1]);
    if k > 1 {
      RenderParts(rs, k - 1);
      RenderThree(FramedParts(Bodies(rs), k - 1, AsTok), Lift(", ", AsTok), Part(k - 1, Bodies(rs)[k - 1], AsTok));
      RenderLift(", ");
    }
  }

  lemma {:induction false} ChainIsRendered<V>(rs: seq<Reading<V>>)
    requires |rs| > 1
    ensures Chain(rs) == Render(Framed(Bodies(rs), AsTok))
  {
    var bodies, k := Bodies(rs), |rs| - 1;
    RenderParts(rs, k);
    RenderThree(Lift("WITH ", AsTok) + FramedParts(bodies, k, AsTok), Lift(" ", AsTok), bodies[k]);
    RenderConcat(Lift("WITH ", AsTok), FramedParts(bodies, k, AsTok));
    RenderLift("WITH ");
    RenderLift(" ");
  }

  lemma {:induction false} ChainWords<V>(rs: seq<Reading<V>>)
    requires Legible(rs) && |rs| > 1
    ensures Words(Chain(rs)) == Shows(Framed(Bodies(rs), AsTok))
  {
    ChainReads(rs);
    ChainIsRendered(rs);
    ScanSeparated(Chain(rs));
    WordsOfRender(Framed(Bodies(rs), AsTok));
  }

  // ---- a frame determines what is in it ----------------------------------------------------------

  ghost predicate SameShape<T, U>(a: seq<seq<T>>, b: seq<seq<U>>) {
    |a| == |b| && forall i | 0 <= i < |a| :: |a[i]| == |b[i]|
  }

  lemma {:induction false} SplitEqual<T>(a: seq<T>, b: seq<T>, c: seq<T>, d: seq<T>)
    requires |a| == |c| && a + b == c + d
    ensures a == c && b == d
  {
    assert a == (a + b)[..|a|] == (c + d)[..|c|] == c;
    assert b == (a + b)[|a|..] == (c + d)[|c|..] == d;
  }

  lemma {:induction false} PartsLength<T, U>(a: seq<seq<T>>, b: seq<seq<U>>, k: nat, lift: char -> T, lift': char -> U)
    requires SameShape(a, b) && 0 < k <= |a|
    ensures |FramedParts(a, k, lift)| == |FramedParts(b, k, lift')|
  {
    if k > 1 {
      PartsLength(a, b, k - 1, lift, lift');
    }
  }

  lemma {:induction false} PartDetermines<T>(i: nat, a: seq<T>, b: seq<T>, lift: char -> T)
    requires |a| == |b| && Part(i, a, lift) == Part(i, b, lift)
    ensures a == b
  {
    var h := Lift(CteHead(i), lift);
    SplitEqual(h + a, Lift(")", lift), h + b, Lift(")", lift));
    SplitEqual(h, a, h, b);
  }

  lemma {:induction false} PartsDetermine<T>(a: seq<seq<T>>, b: seq<seq<T>>, k: nat, lift: char -> T)
    requires SameShape(a, b) && 0 < k <= |a| && FramedParts(a, k, lift) == FramedParts(b, k, lift)
    ensures a[..k] == b[..k]
  {
    if k == 1 {
      PartDetermines(0, a[0], b[0], lift);
    } else {
      PartsLength(a, b, k - 1, lift, lift);
      var sep := Lift(", ", lift);
      SplitEqual(FramedParts(a, k - 1, lift) + sep, Part(k - 1, a[k - 1], lift),
                 FramedParts(b, k - 1, lift) + sep, Part(k - 1, b[k - 1], lift));
      SplitEqual(FramedParts(a, k - 1, lift), sep, FramedParts(b, k - 1, lift), sep);
      PartsDetermine(a, b, k - 1, lift);
      PartDetermines(k - 1, a[k - 1], b[k - 1], lift);
      assert a[..k] == a[..k - 1] + [a[k - 1]] && b[..k] == b[..k - 1] + [b[k - 1]];
    }
  }

  lemma {:induction false} FrameDetermines<T>(a: seq<seq<T>>, b: seq<seq<T>>, lift: char -> T)
    requires SameShape(a, b) && |a| > 1 && Framed(a, lift) == Framed(b, lift)
    ensures a == b
  {
    var k := |a| - 1;
    var w, sp := Lift("WITH ", lift), Lift(" ", lift);
    var pa, pb := FramedParts(a, k, lift), FramedParts(b, k, lift);
    PartsLength(a, b, k, lift, lift);
    SplitEqual(w + pa + sp, a[k], w + pb + sp, b[k]);
    SplitEqual(w + pa, sp, w + pb, sp);
    SplitEqual(w, pa, w, pb);
    PartsDetermine(a, b, k, lift);
    assert a == a[..k] + [a[k]] && b == b[..k] + [b[k]];
  }
}
