/**
  SQL text as the client sees it: a sequence of characters and `$N` placeholders.
  Digits are the ASCII digits.
*/
module Placeholders {

  datatype Tok = Text(c: char) | Param(n: nat)

  predicate IsDigit(c: char) {
    '0' <= c <= '9'
  }

  predicate AllDigits(s: string) {
    forall i | 0 <= i < |s| :: IsDigit(s[i])
  }

  /** The number a string of digits denotes; leading zeros do not matter. */
  function Value(s: string): nat
    requires AllDigits(s)
  {
    if s == "" then 0 else 10 * Value(s[..|s| - 1]) + (s[|s| - 1] as int - '0' as int)
  }

  function Digit(d: nat): char
    requires d < 10
  {
    '0' + d as char
  }

  /** The decimal numeral of `n`. */
  function Decimal(n: nat): (s: string)
    ensures s != "" && AllDigits(s)
  {
    if n < 10 then [Digit(n)] else Decimal(n / 10) + [Digit(n % 10)]
  }

  lemma {:induction false} ValueOfDecimal(n: nat)
    ensures Value(Decimal(n)) == n
  {
    if n < 10 {
      assert [Digit(n)][..0] == "";
    } else {
      ValueOfDecimal(n / 10);
      var s := Decimal(n / 10) + [Digit(n % 10)];
      assert s[..|s| - 1] == Decimal(n / 10);
    }
  }

  /** `d` is how `n` is written: its digits, without leading zeros. */
  ghost predicate IsNumeral(d: string, n: nat) {
    d != "" && AllDigits(d) && Value(d) == n && (d[0] == '0' ==> |d| == 1)
  }

  lemma {:induction false} DecimalIsNumeral(n: nat)
    ensures IsNumeral(Decimal(n), n) && (n > 0 ==> Decimal(n)[0] != '0')
  {
    ValueOfDecimal(n);
    if n >= 10 {
      DecimalIsNumeral(n / 10);
    }
  }

  /** Length of the longest prefix of digits. */
  function Run(s: string): (n: nat)
    ensures n <= |s| && AllDigits(s[..n]) && (n < |s| ==> !IsDigit(s[n]))
  {
    if s == "" || !IsDigit(s[0]) then 0 else 1 + Run(s[1..])
  }

  /** Does a placeholder start here? */
  predicate Starts(s: string) {
    |s| > 1 && s[0] == '$' && IsDigit(s[1])
  }

  /** The first token of a non-empty text, and what follows it. */
  function Head(s: string): Tok
    requires s != ""
  {
    if Starts(s) then Param(Value(s[1..][..Run(s[1..])])) else Text(s[0])
  }

  function Tail(s: string): (r: string)
    requires s != ""
    ensures |r| < |s|
  {
    if Starts(s) then s[1..][Run(s[1..])..] else s[1..]
  }

  function Scan(s: string): seq<Tok>
    decreases |s|
  {
    if s == "" then [] else [Head(s)] + Scan(Tail(s))
  }

  /** The text of the first token. */
  function Word(s: string): string
    requires s != ""
  {
    s[..|s| - |Tail(s)|]
  }

  /** The text of each token. */
  function Words(s: string): (ws: seq<string>)
    ensures |ws| == |Scan(s)|
    decreases |s|
  {
    if s == "" then [] else [Word(s)] + Words(Tail(s))
  }

  function Show(t: Tok): string {
    match t case Text(c) => [c] case Param(n) => "$" + Decimal(n)
  }

  function Render(ts: seq<Tok>): string {
    if ts == [] then "" else Show(ts[0]) + Render(ts[1..])
  }

  lemma {:induction false} RenderConcat(a: seq<Tok>, b: seq<Tok>)
    ensures Render(a + b) == Render(a) + Render(b)
  {
    if a == [] {
      assert a + b == b;
    } else {
      var c := a + b;
      assert c[0] == a[0] && c[1..] == a[1..] + b;
      RenderConcat(a[1..], b);
      RenderStep(c);
      RenderStep(a);
      ConcatAssoc(Show(a[0]), Render(a[1..]), Render(b));
    }
  }

  lemma RenderStep(ts: seq<Tok>)
    requires ts != []
    ensures Render(ts) == Show(ts[0]) + Render(ts[1..])
  {
  }

  lemma ConcatAssoc<T>(x: seq<T>, y: seq<T>, z: seq<T>)
    ensures x + (y + z) == (x + y) + z
  {
  }

  // ---- scanning undoes rendering -----------------------------------------------------

  /** No placeholder or dollar runs into a digit that follows it as text. */
  ghost predicate Separated(ts: seq<Tok>) {
    forall i | 0 <= i < |ts| - 1 :: ts[i + 1].Text? && IsDigit(ts[i + 1].c) ==> ts[i].Text? && ts[i].c != '$'
  }

  lemma {:induction false} RunIs(s: string, n: nat)
    requires n <= |s| && (forall i | 0 <= i < n :: IsDigit(s[i])) && (n < |s| ==> !IsDigit(s[n]))
    ensures Run(s) == n
  {
    if n > 0 {
      RunIs(s[1..], n - 1);
    }
  }

  lemma RunExact(d: string, rest: string)
    requires AllDigits(d) && (rest == "" || !IsDigit(rest[0]))
    ensures Run(d + rest) == |d|
  {
    RunIs(d + rest, |d|);
  }

  lemma RenderStart(ts: seq<Tok>)
    ensures Render(ts) != "" ==> ts != [] && Render(ts)[0] == if ts[0].Text? then ts[0].c else '$'
    ensures ts != [] ==> Render(ts) != ""
  {
  }

  lemma {:induction false} ScanOfRender(ts: seq<Tok>)
    requires Separated(ts)
    ensures Scan(Render(ts)) == ts
  {
    if ts != [] {
      var rest := ts[1..];
      RestSeparated(ts);
      ScanOfRender(rest);
      RenderStart(rest);
      match ts[0] {
        case Text(ch) =>
          var s := [ch] + Render(rest);
          assert s[1..] == Render(rest);
          assert !Starts(s);
        case Param(n) =>
          ParamScans(n, Render(rest));
      }
    }
  }

  lemma ParamScans(n: nat, rest: string)
    requires rest == "" || !IsDigit(rest[0])
    ensures Scan("$" + Decimal(n) + rest) == [Param(n)] + Scan(rest)
  {
    ValueOfDecimal(n);
    DollarSplits(Decimal(n), rest);
  }

  lemma DollarSplits(d: string, rest: string)
    requires d != "" && AllDigits(d) && (rest == "" || !IsDigit(rest[0]))
    ensures Head("$" + d + rest) == Param(Value(d)) && Tail("$" + d + rest) == rest
  {
    var s := "$" + d + rest;
    assert s[1..] == d + rest;
    RunExact(d, rest);
    assert (d + rest)[..|d|] == d;
    assert (d + rest)[|d|..] == rest;
  }

  function Shows(ts: seq<Tok>): seq<string> {
    seq(|ts|, i requires 0 <= i < |ts| => Show(ts[i]))
  }

  lemma ShowLeads(t: Tok, rest: string)
    requires Scan(Show(t) + rest) == [t] + Scan(rest) && Tail(Show(t) + rest) == rest
    ensures Words(Show(t) + rest) == [Show(t)] + Words(rest)
  {
    var s := Show(t) + rest;
    assert Word(s) == Show(t);
  }

  /** In a written text each token is spelled as it is shown. */
  lemma {:induction false} WordsOfRender(ts: seq<Tok>)
    requires Separated(ts)
    ensures Words(Render(ts)) == Shows(ts)
  {
    if ts != [] {
      var rest := ts[1..];
      RestSeparated(ts);
      WordsOfRender(rest);
      RenderTail(ts);
      ScanOfRender(ts);
      ScanOfRender(rest);
      assert ts == [ts[0]] + rest;
      ShowLeads(ts[0], Render(rest));
      assert Shows(ts) == [Show(ts[0])] + Shows(rest);
    }
  }

  lemma RestSeparated(ts: seq<Tok>)
    requires Separated(ts) && ts != []
    ensures Separated(ts[1..])
  {
    var rest := ts[1..];
    forall i | 0 <= i < |rest| - 1 && rest[i + 1].Text? && IsDigit(rest[i + 1].c) ensures rest[i].Text? && rest[i].c != '$' {
      assert ts[i + 2] == rest[i + 1] && ts[i + 1] == rest[i];
    }
  }

  lemma RenderTail(ts: seq<Tok>)
    requires Separated(ts) && ts != []
    ensures Render(ts) == Show(ts[0]) + Render(ts[1..]) && Tail(Render(ts)) == Render(ts[1..])
  {
    var rest := Render(ts[1..]);
    RenderStart(ts[1..]);
    match ts[0] {
      case Text(c) =>
        var s := [c] + rest;
        assert s[1..] == rest && !Starts(s);
      case Param(n) =>
        DollarSplits(Decimal(n), rest);
    }
  }

  lemma {:induction false} ScanSeparated(s: string)
    ensures Separated(Scan(s))
    ensures Scan(s) != [] ==> s != "" && (Scan(s)[0].Text? ==> Scan(s)[0].c == s[0])
    decreases |s|
  {
    if s != "" {
      var rest := Tail(s);
      ScanSeparated(rest);
      var ts := Scan(s);
      assert ts[1..] == Scan(rest);
      forall i | 0 <= i < |ts| - 1 && ts[i + 1].Text? && IsDigit(ts[i + 1].c) ensures ts[i].Text? && ts[i].c != '$' {
        if i > 0 {
          assert ts[i + 1] == Scan(rest)[i] && ts[i] == Scan(rest)[i - 1];
        } else {
          assert ts[1] == Scan(rest)[0];
        }
      }
    }
  }

  /** How a token is spelled. */
  lemma {:induction false} WordIs(s: string, i: nat)
    requires i < |Scan(s)|
    ensures Scan(s)[i].Text? ==> Words(s)[i] == [Scan(s)[i].c]
    ensures Scan(s)[i].Param? ==>
              var w := Words(s)[i];
              |w| > 1 && w[0] == '$' && AllDigits(w[1..]) && Value(w[1..]) == Scan(s)[i].n
    decreases |s|
  {
    if i == 0 {
      FirstWord(s);
    } else {
      WordIs(Tail(s), i - 1);
    }
  }

  lemma FirstWord(s: string)
    requires s != ""
    ensures Head(s).Text? ==> Word(s) == [Head(s).c]
    ensures Head(s).Param? ==> |Word(s)| > 1 && Word(s)[0] == '$' && AllDigits(Word(s)[1..]) && Value(Word(s)[1..]) == Head(s).n
  {
    if Starts(s) {
      var n := Run(s[1..]);
      assert Word(s) == s[..n + 1];
      assert s[..n + 1][1..] == s[1..][..n];
      assert n > 0;
    }
  }

  // ---- joining texts -------------------------------------------------------------------

  /** Joining the two creates or extends no placeholder. */
  predicate Clean(a: string, b: string) {
    a == "" || b == "" || !IsDigit(b[0]) || (a[|a| - 1] != '$' && !IsDigit(a[|a| - 1]))
  }

  lemma RunJoin(a: string, b: string)
    requires Run(a) < |a| || b == "" || !IsDigit(b[0])
    ensures Run(a + b) == Run(a)
  {
    var n := Run(a);
    assert forall i | 0 <= i < n :: (a + b)[i] == a[..n][i];
    RunIs(a + b, n);
  }

  lemma SliceJoin(a: string, b: string, n: nat)
    requires n <= |a|
    ensures (a + b)[..n] == a[..n] && (a + b)[n..] == a[n..] + b
  {
  }

  /** The first token of a clean join is that of its first part. */
  lemma JoinHead(a: string, b: string)
    requires a != "" && Clean(a, b)
    ensures Head(a + b) == Head(a) && Tail(a + b) == Tail(a) + b && Clean(Tail(a), b)
  {
    var r := a[1..];
    assert (a + b)[1..] == r + b;
    if Starts(a) {
      var n := Run(r);
      assert n > 0;
      assert n == |r| ==> r[..n][n - 1] == a[|a| - 1];
      RunJoin(r, b);
      SliceJoin(r, b, n);
      assert Starts(a + b);
      assert n < |r| ==> r[n..][|r| - n - 1] == a[|a| - 1];
    } else {
      assert !Starts(a + b);
    }
  }

  lemma {:induction false} ScanConcat(a: string, b: string)
    requires Clean(a, b)
    ensures Scan(a + b) == Scan(a) + Scan(b)
    decreases |a|
  {
    if a == "" {
      assert a + b == b;
    } else {
      JoinHead(a, b);
      ScanConcat(Tail(a), b);
    }
  }

  lemma {:induction false} ScanPlain(s: string)
    requires '$' !in s
    ensures |Scan(s)| == |s| && forall i | 0 <= i < |s| :: Scan(s)[i] == Text(s[i])
  {
    if s != "" {
      ScanPlain(s[1..]);
    }
  }

  // ---- which placeholders -----------------------------------------------------------------

  /** Position of `n` in `ns`, or the length. */
  function IndexOf(ns: seq<nat>, n: nat): (i: nat)
    ensures i <= |ns| && (i < |ns| ==> ns[i] == n) && (i < |ns| <==> n in ns)
    ensures forall j | 0 <= j < i :: ns[j] != n
  {
    if ns == [] then 0 else if ns[0] == n then 0 else 1 + IndexOf(ns[1..], n)
  }

  /** The distinct placeholder numbers, in order of first appearance. */
  function FirstSeen(ts: seq<Tok>): seq<nat> {
    if ts == [] then []
    else
      var before, t := FirstSeen(ts[..|ts| - 1]), ts[|ts| - 1];
      if t.Param? && t.n !in before then before + [t.n] else before
  }

  ghost predicate Distinct(ns: seq<nat>) {
    forall i, j | 0 <= i < j < |ns| :: ns[i] != ns[j]
  }

  lemma {:induction false} FirstSeenFacts(ts: seq<Tok>)
    ensures Distinct(FirstSeen(ts))
    ensures forall n: nat :: n in FirstSeen(ts) <==> Param(n) in ts
  {
    if ts != [] {
      var k := |ts| - 1;
      FirstSeenFacts(ts[..k]);
      assert ts == ts[..k] + [ts[k]];
    }
  }

  /** The largest placeholder number, 0 if there is none. */
  function MaxParam(ts: seq<Tok>): (m: nat)
    ensures forall n: nat | Param(n) in ts :: n <= m
    ensures m == 0 || Param(m) in ts
  {
    if ts == [] then 0
    else
      var m := MaxParam(ts[..|ts| - 1]);
      assert ts == ts[..|ts| - 1] + [ts[|ts| - 1]];
      if ts[|ts| - 1].Param? && ts[|ts| - 1].n > m then ts[|ts| - 1].n else m
  }
}
