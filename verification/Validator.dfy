/**
  The server's parameter count: the largest `$N` among the tokens of the PostgreSQL
  scanner, compared with the number of parameters supplied. The scanner itself is not part
  of this model; its tokens are given as byte ranges of the text.
*/
module Validator {
  import opened Prelude
  import opened Placeholders

  const MAX_INT := 0x7fff_ffff_ffff_ffff

  /** `strconv.Atoi`: an optional sign, at least one digit, within 64 bits. */
  function Atoi(s: string): Option<int> {
    var signed := s != "" && (s[0] == '+' || s[0] == '-');
    var digits := if signed then s[1..] else s;
    if digits == "" || !AllDigits(digits) then None
    else
      var v: int := Value(digits);
      var n := if signed && s[0] == '-' then -v else v;
      if -MAX_INT - 1 <= n <= MAX_INT then Some(n) else None
  }

  datatype Range = Range(start: int, end: int)

  /** The number of the placeholder at a token, if it is one. */
  function NumberAt(sql: string, tok: Range): Option<int> {
    if tok.start < 0 || tok.end > |sql| || tok.start >= tok.end then None
    else
      var text := sql[tok.start..tok.end];
      if |text| < 2 || text[0] != '$' then None else Atoi(text[1..])
  }

  /** A dollar sign, perhaps a sign, and digits that denote `n`. */
  ghost predicate Denotes(text: string, n: int) {
    || (exists d: string :: d != "" && AllDigits(d) && (text == "$" + d || text == "$+" + d) && n == Value(d))
    || (exists d: string :: d != "" && AllDigits(d) && text == "$-" + d && n + Value(d) == 0)
  }

  /** Which tokens count, and as what: exactly those within the text that denote a 64-bit number. */
  lemma NumberAtIff(sql: string, tok: Range, n: int)
    ensures NumberAt(sql, tok) == Some(n) <==>
            && 0 <= tok.start < tok.end <= |sql| && Denotes(sql[tok.start..tok.end], n)
            && -0x8000_0000_0000_0000 <= n <= 0x7fff_ffff_ffff_ffff
  {
    if 0 <= tok.start < tok.end <= |sql| {
      TextDenotes(sql[tok.start..tok.end], n);
    }
  }

  lemma AtoiDenotes(s: string)
    requires s != "" && Atoi(s).Some?
    ensures Denotes("$" + s, Atoi(s).value)
  {
    if s[0] == '+' || s[0] == '-' {
      var d := s[1..];
      assert "$" + s == (if s[0] == '+' then "$+" else "$-") + d;
    }
  }

  lemma UnsignedDenotes(d: string, text: string)
    requires d != "" && AllDigits(d) && (text == "$" + d || text == "$+" + d)
    ensures |text| >= 2 && text[0] == '$' && Atoi(text[1..]) == if Value(d) <= MAX_INT then Some(Value(d)) else None
  {
    if text == "$" + d {
      assert text[1..] == d && IsDigit(d[0]);
    } else {
      assert text[1..][0] == '+' && text[1..][1..] == d;
    }
  }

  lemma NegativeDenotes(d: string, text: string)
    requires d != "" && AllDigits(d) && text == "$-" + d
    ensures |text| >= 2 && text[0] == '$' && Atoi(text[1..]) == if Value(d) <= MAX_INT + 1 then Some(0 - Value(d)) else None
  {
    assert text[1..][0] == '-' && text[1..][1..] == d;
  }

  lemma TextDenotes(text: string, n: int)
    ensures |text| >= 2 && text[0] == '$' && Atoi(text[1..]) == Some(n) <==> Denotes(text, n) && -MAX_INT - 1 <= n <= MAX_INT
  {
    if |text| >= 2 && text[0] == '$' && Atoi(text[1..]) == Some(n) {
      AtoiDenotes(text[1..]);
      assert text == "$" + text[1..];
    }
    if d: string :| d != "" && AllDigits(d) && (text == "$" + d || text == "$+" + d) && n == Value(d) {
      UnsignedDenotes(d, text);
    }
    if d: string :| d != "" && AllDigits(d) && text == "$-" + d && n + Value(d) == 0 {
      NegativeDenotes(d, text);
    }
  }

  /** The largest number a token carries, 0 if none is positive. */
  ghost predicate IsCount(sql: string, toks: seq<Range>, max: nat) {
    && (forall i | 0 <= i < |toks| && NumberAt(sql, toks[i]).Some? :: NumberAt(sql, toks[i]).value <= max)
    && (max > 0 ==> exists i | 0 <= i < |toks| :: NumberAt(sql, toks[i]) == Some(max))
  }

  method CountPlaceholders(sql: string, toks: seq<Range>) returns (max: nat)
    ensures IsCount(sql, toks, max)
  {
    max := 0;
    for k := 0 to |toks|
      invariant IsCount(sql, toks[..k], max)
    {
      NextToken(sql, toks, k, max);
      var start, end := toks[k].start, toks[k].end;
      if start < 0 || end > |sql| || start >= end {
        continue;
      }
      var text := sql[start..end];
      if |text| < 2 || text[0] != '$' {
        continue;
      }
      match Atoi(text[1..]) {
        case None => continue;
        case Some(n) =>
          if n > max {
            max := n;
          }
      }
    }
    assert toks[..|toks|] == toks;
  }

  lemma NextToken(sql: string, toks: seq<Range>, k: nat, max: nat)
    requires k < |toks| && IsCount(sql, toks[..k], max)
    ensures var n := NumberAt(sql, toks[k]);
            IsCount(sql, toks[..k + 1], if n.Some? && n.value > max then n.value else max)
  {
    var before, upto, n := toks[..k], toks[..k + 1], NumberAt(sql, toks[k]);
    assert upto == before + [toks[k]];
    if n.Some? && n.value > max {
      assert upto[k] == toks[k];
    } else if max > 0 {
      var i :| 0 <= i < |before| && NumberAt(sql, before[i]) == Some(max);
      assert upto[i] == before[i];
    }
  }

  // ---- what the server takes for a placeholder ----------------------------------------------

  /** What is left of a text after its first `i` tokens. */
  function After(s: string, i: nat): (r: string)
    requires i <= |Scan(s)|
    ensures |r| <= |s|
    decreases i
  {
    if i == 0 then s else After(Tail(s), i - 1)
  }

  /** Where the client's tokens stand. */
  function Spans(sql: string): (r: seq<Range>)
    ensures |r| == |Scan(sql)|
  {
    seq(|Scan(sql)|, i requires 0 <= i < |Scan(sql)| => Range(|sql| - |After(sql, i)|, |sql| - |After(sql, i + 1)|))
  }

  /**
    Which of the client's tokens the scanner reports as tokens of their own. A `$N` inside
    a literal, a comment or an identifier is not one.
  */
  function View(sql: string, toks: seq<Range>): (r: seq<bool>)
    ensures |r| == |Scan(sql)|
  {
    seq(|Scan(sql)|, i requires 0 <= i < |Scan(sql)| => Scan(sql)[i].Param? && Spans(sql)[i] in toks)
  }

  /** A scanner token that reads as a number is a whole `$N` of the text. */
  ghost predicate Whole(sql: string, toks: seq<Range>) {
    forall r | r in toks && NumberAt(sql, r).Some? ::
      exists i | 0 <= i < |Scan(sql)| :: Spans(sql)[i] == r && Scan(sql)[i].Param?
  }

  ghost predicate Ends(s: string, t: string) {
    |t| <= |s| && s[|s| - |t|..] == t
  }

  lemma {:induction false} AfterEnds(s: string, i: nat)
    requires i < |Scan(s)|
    ensures Ends(s, After(s, i)) && After(s, i) != "" && After(s, i + 1) == Tail(After(s, i))
    decreases i
  {
    if i > 0 {
      AfterEnds(Tail(s), i - 1);
      EndsTail(s, After(Tail(s), i - 1));
    }
  }

  lemma {:induction false} WordAfter(s: string, i: nat)
    requires i < |Scan(s)| && After(s, i) != ""
    ensures Words(s)[i] == Word(After(s, i))
    decreases i
  {
    if i > 0 {
      WordAfter(Tail(s), i - 1);
    }
  }

  lemma EndsTail(s: string, t: string)
    requires s != "" && Ends(Tail(s), t)
    ensures Ends(s, t)
  {
    var r := Tail(s);
    assert Ends(s, r);
    assert s[|s| - |r|..][|r| - |t|..] == s[|s| - |t|..];
  }

  lemma {:induction false} SpanIs(s: string, i: nat)
    requires i < |Scan(s)|
    ensures var t := After(s, i); Ends(s, t) && t != "" && Spans(s)[i] == Range(|s| - |t|, |s| - |Tail(t)|)
  {
    AfterEnds(s, i);
  }

  lemma {:induction false} SpanText(s: string, i: nat)
    requires i < |Scan(s)|
    ensures var r := Spans(s)[i]; 0 <= r.start < r.end <= |s| && s[r.start..r.end] == Words(s)[i]
  {
    SpanIs(s, i);
    WordEnds(s, After(s, i));
    WordAfter(s, i);
  }

  lemma WordEnds(s: string, t: string)
    requires Ends(s, t) && t != ""
    ensures |Tail(t)| < |t| && s[|s| - |t|..|s| - |Tail(t)|] == Word(t)
  {
    Prefix(s, t, |t| - |Tail(t)|);
  }

  lemma Prefix(s: string, t: string, n: nat)
    requires Ends(s, t) && n <= |t|
    ensures s[|s| - |t|..|s| - |t| + n] == t[..n]
  {
    assert s[|s| - |t|..][..n] == s[|s| - |t|..|s| - |t| + n];
  }

  /** The token of a `$N` is read as its number, up to the 64-bit limit. */
  lemma SpanReads(sql: string, i: nat)
    requires i < |Scan(sql)| && Scan(sql)[i].Param?
    ensures NumberAt(sql, Spans(sql)[i]) == if Scan(sql)[i].n <= MAX_INT then Some(Scan(sql)[i].n) else None
  {
    SpanText(sql, i);
    WordIs(sql, i);
    var d := Words(sql)[i][1..];
    assert IsDigit(d[0]);
  }

  ghost predicate IsMaxLive(ts: seq<Tok>, live: seq<bool>, m: nat)
    requires |ts| == |live|
  {
    && (forall i | 0 <= i < |ts| && live[i] && ts[i].Param? :: ts[i].n <= m)
    && (m == 0 || exists i | 0 <= i < |ts| :: live[i] && ts[i] == Param(m))
  }

  lemma {:induction false} MaxLiveExists(ts: seq<Tok>, live: seq<bool>) returns (m: nat)
    requires |ts| == |live|
    ensures IsMaxLive(ts, live, m)
  {
    if ts == [] {
      m := 0;
    } else {
      var k := |ts| - 1;
      m := MaxLiveExists(ts[..k], live[..k]);
      assert forall i | 0 <= i < k :: ts[..k][i] == ts[i] && live[..k][i] == live[i];
      if live[k] && ts[k].Param? && ts[k].n > m {
        m := ts[k].n;
      }
    }
  }

  /** The largest number of a token marked live, 0 if there is none. */
  ghost function MaxLive(ts: seq<Tok>, live: seq<bool>): (m: nat)
    requires |ts| == |live|
    ensures IsMaxLive(ts, live, m)
  {
    assert exists m: nat :: IsMaxLive(ts, live, m) by { var m := MaxLiveExists(ts, live); }
    var m: nat :| IsMaxLive(ts, live, m);
    m
  }

  /** Every number the server sees is positive and fits its integers. */
  ghost predicate InRange(ts: seq<Tok>, live: seq<bool>)
    requires |ts| == |live|
  {
    forall i | 0 <= i < |ts| && live[i] && ts[i].Param? :: 1 <= ts[i].n <= MAX_INT
  }

  lemma CountIsUnique(sql: string, toks: seq<Range>, a: nat, b: nat)
    requires IsCount(sql, toks, a) && IsCount(sql, toks, b)
    ensures a == b
  {
  }

  lemma NoneAbove(sql: string, toks: seq<Range>, r: Range, m: nat)
    requires Whole(sql, toks) && r in toks && NumberAt(sql, r).Some? && m == MaxLive(Scan(sql), View(sql, toks))
    ensures NumberAt(sql, r).value <= m
  {
    var i :| 0 <= i < |Scan(sql)| && Spans(sql)[i] == r && Scan(sql)[i].Param?;
    SpanReads(sql, i);
    assert View(sql, toks)[i];
  }

  lemma SomeEqual(sql: string, toks: seq<Range>, i: nat) returns (j: nat)
    requires i < |Scan(sql)| && View(sql, toks)[i] && Scan(sql)[i].n <= MAX_INT
    ensures j < |toks| && NumberAt(sql, toks[j]) == Some(Scan(sql)[i].n)
  {
    SpanReads(sql, i);
    j :| 0 <= j < |toks| && toks[j] == Spans(sql)[i];
  }

  /** The server's count is the largest number among the placeholders it sees. */
  lemma CountIsMaxLive(sql: string, toks: seq<Range>, max: nat)
    requires Whole(sql, toks) && InRange(Scan(sql), View(sql, toks))
    ensures IsCount(sql, toks, max) <==> max == MaxLive(Scan(sql), View(sql, toks))
  {
    MaxLiveCounts(sql, toks, MaxLive(Scan(sql), View(sql, toks)));
    if IsCount(sql, toks, max) {
      CountIsUnique(sql, toks, max, MaxLive(Scan(sql), View(sql, toks)));
    }
  }

  lemma MaxLiveCounts(sql: string, toks: seq<Range>, m: nat)
    requires Whole(sql, toks) && InRange(Scan(sql), View(sql, toks)) && m == MaxLive(Scan(sql), View(sql, toks))
    ensures IsCount(sql, toks, m)
  {
    forall k | 0 <= k < |toks| && NumberAt(sql, toks[k]).Some? ensures NumberAt(sql, toks[k]).value <= m {
      NoneAbove(sql, toks, toks[k], m);
    }
    if m > 0 {
      var i :| 0 <= i < |Scan(sql)| && View(sql, toks)[i] && Scan(sql)[i] == Param(m);
      var j := SomeEqual(sql, toks, i);
    }
  }
}
