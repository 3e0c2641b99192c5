/**
  The client's transaction builder: several statements, each with its own `$1..$n`, are
  sent as one `WITH` chain whose placeholders are renumbered so that they do not collide.

  A text is read as tokens (`Scan`). What the chain means to the server, and when it keeps
  the meaning of its statements, is in `Binding` and `Chains`.
*/
module Transaction {
  import opened Prelude
  import opened Placeholders

  // ---- renumbering one statement ----------------------------------------------------------

  function Rename(t: Tok, seen: seq<nat>, start: nat): Tok {
    if t.Param? then Param(start + 1 + IndexOf(seen, t.n)) else t
  }

  function RenameAll(ts: seq<Tok>, seen: seq<nat>, start: nat): seq<Tok> {
    seq(|ts|, i requires 0 <= i < |ts| => Rename(ts[i], seen, start))
  }

  /** Each distinct placeholder gets the next number after `start`, at its first appearance. */
  function Renumbered(ts: seq<Tok>, start: nat): seq<Tok> {
    RenameAll(ts, FirstSeen(ts), start)
  }

  lemma {:induction false} IndexOfGrows(ns: seq<nat>, x: nat, n: nat)
    requires n in ns
    ensures IndexOf(ns + [x], n) == IndexOf(ns, n)
  {
    var j := IndexOf(ns, n);
    assert (ns + [x])[j] == n;
    assert forall i | 0 <= i < |ns| :: (ns + [x])[i] == ns[i];
  }

  function Noted(seen: seq<nat>, t: Tok): seq<nat> {
    if t.Param? && t.n !in seen then seen + [t.n] else seen
  }

  lemma FirstSeenGrows(ts: seq<Tok>, t: Tok)
    ensures FirstSeen(ts + [t]) == Noted(FirstSeen(ts), t)
  {
    var e := ts + [t];
    assert e[..|e| - 1] == ts;
  }

  lemma RenameStays(ts: seq<Tok>, t: Tok, start: nat, i: nat)
    requires i < |ts|
    ensures Rename(ts[i], FirstSeen(ts + [t]), start) == Rename(ts[i], FirstSeen(ts), start)
  {
    FirstSeenGrows(ts, t);
    FirstSeenFacts(ts);
    var seen := FirstSeen(ts);
    if ts[i].Param? && Noted(seen, t) != seen {
      assert Param(ts[i].n) in ts;
      IndexOfGrows(seen, t.n, ts[i].n);
    }
  }

  lemma RenumberedGrows(ts: seq<Tok>, t: Tok, start: nat)
    ensures Renumbered(ts + [t], start) == Renumbered(ts, start) + [Rename(t, FirstSeen(ts + [t]), start)]
  {
    var e := ts + [t];
    forall i | 0 <= i < |ts| ensures Renumbered(e, start)[i] == Renumbered(ts, start)[i] {
      assert e[i] == ts[i];
      RenameStays(ts, t, start, i);
    }
  }

  /** The dictionary of numbers given out so far. */
  ghost predicate Numbers(given: map<nat, nat>, seen: seq<nat>, start: nat) {
    && (forall n: nat :: n in given <==> n in seen)
    && (forall n: nat | n in given :: given[n] == start + 1 + IndexOf(seen, n))
  }

  lemma NumbersGrow(given: map<nat, nat>, seen: seq<nat>, start: nat, n: nat)
    requires Numbers(given, seen, start) && n !in seen
    ensures Numbers(given[n := start + 1 + |seen|], seen + [n], start)
  {
    assert (seen + [n])[|seen|] == n;
    assert forall j | 0 <= j < |seen| :: (seen + [n])[j] == seen[j] != n;
    forall m: nat | m in seen ensures IndexOf(seen + [n], m) == IndexOf(seen, m) {
      IndexOfGrows(seen, n, m);
    }
  }

  /** The end of the run of digits that starts at `i`. */
  method EndOfDigits(sql: string, i: nat) returns (j: nat)
    requires i < |sql| && IsDigit(sql[i])
    ensures i < j <= |sql| && j == i + Run(sql[i..])
  {
    j := i;
    while j < |sql| && IsDigit(sql[j])
      invariant i <= j <= |sql| && forall k | i <= k < j :: IsDigit(sql[k])
    {
      j := j + 1;
    }
    RunIs(sql[i..], j - i);
  }

  /** The token at `i` and where the next one starts. */
  method NextToken(sql: string, i: nat) returns (t: Tok, j: nat)
    requires i < |sql|
    ensures i < j <= |sql| && t == Head(sql[i..]) && sql[j..] == Tail(sql[i..])
  {
    if sql[i] == '$' && i + 1 < |sql| && IsDigit(sql[i + 1]) {
      j := EndOfDigits(sql, i + 1);
      SliceFacts(sql, i, j);
      t := Param(Value(sql[i + 1..j]));
    } else {
      t, j := Text(sql[i]), i + 1;
      SliceFacts(sql, i, j);
    }
  }

  lemma SliceFacts(sql: string, i: nat, j: nat)
    requires i < j <= |sql|
    ensures sql[i..][1..] == sql[i + 1..] && sql[i..][0] == sql[i]
    ensures sql[i + 1..][..j - i - 1] == sql[i + 1..j] && sql[i + 1..][j - i - 1..] == sql[j..]
  {
  }

  lemma ScanAdvance(all: seq<Tok>, done: seq<Tok>, rest: string)
    requires rest != "" && all == done + Scan(rest)
    ensures all == (done + [Head(rest)]) + Scan(Tail(rest))
  {
    ConcatShift(done, Head(rest), Scan(Tail(rest)));
  }

  lemma ConcatShift(a: seq<Tok>, t: Tok, b: seq<Tok>)
    ensures a + ([t] + b) == (a + [t]) + b
  {
  }

  /** The number of placeholder `n`: the one it has, or the next one. */
  method NumberOf(given: map<nat, nat>, next: nat, n: nat, ghost seen: seq<nat>, ghost start: nat)
    returns (m: nat, given': map<nat, nat>, next': nat)
    requires Numbers(given, seen, start) && next == start + |seen|
    ensures Numbers(given', Noted(seen, Param(n)), start) && next' == start + |Noted(seen, Param(n))|
    ensures m == start + 1 + IndexOf(Noted(seen, Param(n)), n)
  {
    given', next' := given, next;
    if n !in given {
      NumbersGrow(given, seen, start, n);
      next' := next + 1;
      given' := given[n := next'];
    }
    m := given'[n];
  }

  /** The text read and written so far. */
  ghost predicate Progress(all: seq<Tok>, rest: string, done: seq<Tok>, out: string, start: nat) {
    all == done + Scan(rest) && out == Render(Renumbered(done, start))
  }

  lemma Progresses(all: seq<Tok>, rest: string, done: seq<Tok>, out: string, start: nat, t: Tok, out': string)
    requires rest != "" && Progress(all, rest, done, out, start) && t == Head(rest)
    requires out' == out + Show(Rename(t, Noted(FirstSeen(done), t), start))
    ensures Progress(all, Tail(rest), done + [t], out', start)
    ensures FirstSeen(done + [t]) == Noted(FirstSeen(done), t)
  {
    StepText(done, t, start);
    ScanAdvance(all, done, rest);
  }

  method Renumber(sql: string, start: nat) returns (out: string, next: nat)
    ensures out == Render(Renumbered(Scan(sql), start))
    ensures next == start + |FirstSeen(Scan(sql))|
  {
    out, next := "", start;
    var i, given: map<nat, nat> := 0, map[];
    ghost var all, done, seen: seq<nat>, rest := Scan(sql), [], [], sql;
    while i < |sql|
      invariant i <= |sql| && rest == sql[i..] && seen == FirstSeen(done)
      invariant Progress(all, rest, done, out, start)
      invariant next == start + |seen| && Numbers(given, seen, start)
    {
      var t, j := NextToken(sql, i);
      var m, before := 0, out;
      if t.Param? {
        m, given, next := NumberOf(given, next, t.n, seen, start);
        out := out + ("$" + Decimal(m));
      } else {
        out := out + [t.c];
      }
      Progresses(all, rest, done, before, start, t, out);
      i, done, seen, rest := j, done + [t], Noted(seen, t), Tail(rest);
    }
    assert done == all;
  }

  lemma StepText(done: seq<Tok>, t: Tok, start: nat)
    ensures Render(Renumbered(done + [t], start)) ==
            Render(Renumbered(done, start)) + Show(Rename(t, Noted(FirstSeen(done), t), start))
    ensures FirstSeen(done + [t]) == Noted(FirstSeen(done), t)
  {
    RenumberedGrows(done, t, start);
    var r := Rename(t, FirstSeen(done + [t]), start);
    RenderConcat(Renumbered(done, start), [r]);
    assert Render([r]) == Show(r) + Render([]);
    FirstSeenGrows(done, t);
  }

  // ---- what renumbering keeps, for every text ------------------------------------------------

  lemma RenumberedSeparated(ts: seq<Tok>, start: nat)
    requires Separated(ts)
    ensures Separated(Renumbered(ts, start))
  {
    var r := Renumbered(ts, start);
    forall i | 0 <= i < |r| - 1 && r[i + 1].Text? && IsDigit(r[i + 1].c) ensures r[i].Text? && r[i].c != '$' {
      assert r[i + 1] == ts[i + 1];
    }
  }

  /** Read back, the renumbered text is the original with its placeholders renamed. */
  lemma RenumberedReads(ts: seq<Tok>, start: nat)
    requires Separated(ts)
    ensures Scan(Render(Renumbered(ts, start))) == Renumbered(ts, start)
  {
    RenumberedSeparated(ts, start);
    ScanOfRender(Renumbered(ts, start));
  }

  /** The new numbers are those after `start`, none skipped, in order of first appearance. */
  lemma {:induction false} RenumberedFirstSeen(ts: seq<Tok>, start: nat)
    ensures |FirstSeen(Renumbered(ts, start))| == |FirstSeen(ts)|
    ensures forall i | 0 <= i < |FirstSeen(ts)| :: FirstSeen(Renumbered(ts, start))[i] == start + 1 + i
  {
    if ts != [] {
      var k := |ts| - 1;
      var before, t := ts[..k], ts[k];
      assert ts == before + [t];
      RenumberedFirstSeen(before, start);
      RenumberedGrows(before, t, start);
      FirstSeenGrows(before, t);
      FirstSeenGrows(Renumbered(before, start), Rename(t, FirstSeen(ts), start));
      NewNumber(FirstSeen(before), FirstSeen(Renumbered(before, start)), t, start);
    }
  }

  lemma NewNumber(seen: seq<nat>, given: seq<nat>, t: Tok, start: nat)
    requires |given| == |seen| && forall i | 0 <= i < |seen| :: given[i] == start + 1 + i
    ensures t.Param? && t.n !in seen ==> IndexOf(seen + [t.n], t.n) == |seen| && start + 1 + |seen| !in given
    ensures t.Param? && t.n in seen ==> start + 1 + IndexOf(seen, t.n) in given
  {
    if t.Param? {
      if t.n in seen {
        assert given[IndexOf(seen, t.n)] == start + 1 + IndexOf(seen, t.n);
      } else {
        assert (seen + [t.n])[|seen|] == t.n;
        assert forall j | 0 <= j < |seen| :: (seen + [t.n])[j] == seen[j] != t.n;
      }
    }
  }

  /** Text stays, placeholders stay placeholders, and two are equal afterwards iff they were. */
  lemma RenumberedTokens(ts: seq<Tok>, start: nat, i: nat, j: nat)
    requires i < |ts| && j < |ts|
    ensures |Renumbered(ts, start)| == |ts|
    ensures ts[i].Text? ==> Renumbered(ts, start)[i] == ts[i]
    ensures ts[i].Param? ==>
              Renumbered(ts, start)[i].Param? && start < Renumbered(ts, start)[i].n <= start + |FirstSeen(ts)|
    ensures Renumbered(ts, start)[i] == Renumbered(ts, start)[j] <==> ts[i] == ts[j]
  {
    FirstSeenFacts(ts);
    assert ts[i] in ts && ts[j] in ts;
    assert forall k | k == i || k == j :: ts[k].Param? ==> Param(ts[k].n) in ts;
  }

  // ---- the chain -------------------------------------------------------------------------------

  datatype Statement<V> = Statement(sql: string, params: seq<V>)

  /** A statement as the client reads it. */
  datatype Reading<V> = Reading(ts: seq<Tok>, params: seq<V>)

  function ReadAll<V>(stmts: seq<Statement<V>>): seq<Reading<V>> {
    seq(|stmts|, i requires 0 <= i < |stmts| => Reading(Scan(stmts[i].sql), stmts[i].params))
  }

  /** Numbers given out to the first `k` statements. */
  function Given<V>(rs: seq<Reading<V>>, k: nat): nat
    requires k <= |rs|
  {
    if k == 0 then 0 else Given(rs, k - 1) + |FirstSeen(rs[k - 1].ts)|
  }

  /** The parameters of the first `k` statements, one after the other. */
  function Gathered<V>(rs: seq<Reading<V>>, k: nat): seq<V>
    requires k <= |rs|
  {
    if k == 0 then [] else Gathered(rs, k - 1) + rs[k - 1].params
  }

  function Body<V>(rs: seq<Reading<V>>, k: nat): seq<Tok>
    requires k < |rs|
  {
    Renumbered(rs[k].ts, Given(rs, k))
  }

  function CteHead(i: nat): string {
    "_agentcoopdb_w" + Decimal(i) + " AS ("
  }

  /** The first `k` statements as named parts, separated by commas. */
  function Parts<V>(rs: seq<Reading<V>>, k: nat): string
    requires 0 < k <= |rs|
  {
    var part := CteHead(k - 1) + Render(Body(rs, k - 1)) + ")";
    if k == 1 then part else Parts(rs, k - 1) + ", " + part
  }

  function Chain<V>(rs: seq<Reading<V>>): string
    requires |rs| > 1
  {
    var k := |rs| - 1;
    "WITH " + Parts(rs, k) + " " + Render(Body(rs, k))
  }

  function Join(sep: string, parts: seq<string>): string {
    if parts == [] then ""
    else if |parts| == 1 then parts[0]
    else Join(sep, parts[..|parts| - 1]) + sep + parts[|parts| - 1]
  }

  lemma JoinGrows(sep: string, parts: seq<string>, p: string)
    requires parts != []
    ensures Join(sep, parts + [p]) == Join(sep, parts) + sep + p
  {
    var e := parts + [p];
    assert e[..|e| - 1] == parts;
  }

  // ---- the names of the parts, read from the text ------------------------------------------

  /** What stands before the first ` AS (`. */
  function NameOf(part: string): string {
    if part == "" || " AS (" <= part then "" else [part[0]] + NameOf(part[1..])
  }

  lemma {:induction false} NameIsRead(name: string, rest: string)
    requires ' ' !in name
    ensures NameOf(name + " AS (" + rest) == name
  {
    var part := name + " AS (" + rest;
    if name == "" {
      assert part[..5] == " AS (";
    } else {
      assert part[0] == name[0] != ' ';
      assert part[1..] == name[1..] + " AS (" + rest;
      NameIsRead(name[1..], rest);
      assert name == [name[0]] + name[1..];
    }
  }

  /** `name AS (body)` with the name of number `i`. */
  ghost predicate IsPart(part: string, i: nat, body: string) {
    var name := NameOf(part);
    && part == name + " AS (" + body + ")"
    && "_agentcoopdb_w" <= name && IsNumeral(name[14..], i)
  }

  /** A `WITH` list of numbered parts, then the last statement. */
  ghost predicate IsList<V>(rs: seq<Reading<V>>, sql: string, parts: seq<string>)
    requires |rs| > 1
  {
    var k := |rs| - 1;
    && |parts| == k && sql == "WITH " + Join(", ", parts) + " " + Render(Body(rs, k))
    && (forall i | 0 <= i < k :: IsPart(parts[i], i, Render(Body(rs, i))))
    && (forall i, j | 0 <= i < j < k :: NameOf(parts[i]) != NameOf(parts[j]))
  }

  lemma PartIsRead(i: nat, body: string)
    ensures IsPart("_agentcoopdb_w" + Decimal(i) + " AS (" + body + ")", i, body)
  {
    var name := "_agentcoopdb_w" + Decimal(i);
    assert ' ' !in name;
    NameIsRead(name, body + ")");
    assert name + " AS (" + (body + ")") == name + " AS (" + body + ")";
    assert name[14..] == Decimal(i);
    DecimalIsNumeral(i);
  }

  /** Different numbers make different names. */
  lemma PartsDiffer(p: string, i: nat, a: string, q: string, j: nat, b: string)
    requires IsPart(p, i, a) && IsPart(q, j, b) && i != j
    ensures NameOf(p) != NameOf(q)
  {
  }

  ghost predicate PartOf<V>(rs: seq<Reading<V>>, part: string, i: nat) {
    i < |rs| && IsPart(part, i, Render(Body(rs, i)))
  }

  /** The parts are the statements, in order. */
  ghost predicate AreParts<V>(rs: seq<Reading<V>>, parts: seq<string>) {
    var n := |parts| - 1;
    |parts| < |rs| && (parts == [] || (AreParts(rs, parts[..n]) && PartOf(rs, parts[n], n)))
  }

  /** ... and joined they are the list of `Chain`. */
  ghost predicate Listed<V>(rs: seq<Reading<V>>, parts: seq<string>) {
    AreParts(rs, parts) && (parts != [] ==> Join(", ", parts) == Parts(rs, |parts|))
  }

  lemma {:induction false} MoreParts<V>(rs: seq<Reading<V>>, parts: seq<string>, part: string)
    requires AreParts(rs, parts) && |parts| + 1 < |rs| && PartOf(rs, part, |parts|)
    ensures AreParts(rs, parts + [part])
  {
    assert (parts + [part])[..|parts|] == parts;
  }

  lemma {:induction false} PartAt<V>(rs: seq<Reading<V>>, parts: seq<string>, i: nat)
    requires AreParts(rs, parts) && i < |parts|
    ensures PartOf(rs, parts[i], i)
  {
    if i < |parts| - 1 {
      PartAt(rs, parts[..|parts| - 1], i);
    }
  }

  lemma {:induction false} ListGrows<V>(rs: seq<Reading<V>>, parts: seq<string>, text: string, part: string)
    requires Listed(rs, parts) && |parts| + 1 < |rs| && text == Render(Body(rs, |parts|))
    requires part == "_agentcoopdb_w" + Decimal(|parts|) + " AS (" + text + ")"
    ensures Listed(rs, parts + [part])
  {
    PartIsRead(|parts|, text);
    MoreParts(rs, parts, part);
    if parts != [] {
      JoinGrows(", ", parts, part);
    }
  }

  lemma {:induction false} ListEnds<V>(rs: seq<Reading<V>>, parts: seq<string>, last: string, sql: string)
    requires Listed(rs, parts) && |parts| + 1 == |rs| > 1 && last == Render(Body(rs, |parts|))
    requires sql == "WITH " + Join(", ", parts) + " " + last
    ensures sql == Chain(rs) && IsList(rs, sql, parts)
  {
    NamesDiffer(rs, parts);
    forall i | 0 <= i < |parts| ensures IsPart(parts[i], i, Render(Body(rs, i))) {
      PartAt(rs, parts, i);
    }
  }

  lemma {:induction false} NamesDiffer<V>(rs: seq<Reading<V>>, parts: seq<string>)
    requires AreParts(rs, parts)
    ensures forall i, j | 0 <= i < j < |parts| :: NameOf(parts[i]) != NameOf(parts[j])
  {
    forall i, j | 0 <= i < j < |parts| ensures NameOf(parts[i]) != NameOf(parts[j]) {
      PartAt(rs, parts, i);
      PartAt(rs, parts, j);
      PartsDiffer(parts[i], i, Render(Body(rs, i)), parts[j], j, Render(Body(rs, j)));
    }
  }

  method Renumbering<V>(stmts: seq<Statement<V>>, i: nat, idx: nat, ghost rs: seq<Reading<V>>)
    returns (text: string, next: nat)
    requires i < |stmts| && rs == ReadAll(stmts) && idx == Given(rs, i)
    ensures text == Render(Body(rs, i)) && next == Given(rs, i + 1)
    ensures rs[i].params == stmts[i].params
  {
    text, next := Renumber(stmts[i].sql, idx);
  }

  /** What is sent: nothing for no statement, a single one as it is, otherwise the chain. */
  method Commit<V>(stmts: seq<Statement<V>>) returns (sent: Option<Statement<V>>)
    ensures stmts == [] ==> sent == None
    ensures |stmts| == 1 ==> sent == Some(stmts[0])
    ensures |stmts| > 1 ==>
              sent == Some(Statement(Chain(ReadAll(stmts)), Gathered(ReadAll(stmts), |stmts|)))
    // every statement but the last is a part of the WITH list, under a name of its own
    ensures |stmts| > 1 ==> exists parts :: IsList(ReadAll(stmts), sent.value.sql, parts)
  {
    if stmts == [] {
      return None;
    }
    if |stmts| == 1 {
      return Some(stmts[0]);
    }
    ghost var rs := ReadAll(stmts);
    var ctes: seq<string>, all: seq<V>, idx, i := [], [], 0, 0;
    while i < |stmts| - 1
      invariant i <= |stmts| - 1 && idx == Given(rs, i) && all == Gathered(rs, i)
      invariant |ctes| == i && Listed(rs, ctes)
    {
      var renumbered, next := Renumbering(stmts, i, idx, rs);
      var part := "_agentcoopdb_w" + Decimal(i) + " AS (" + renumbered + ")";
      ListGrows(rs, ctes, renumbered, part);
      ctes, all, idx, i := ctes + [part], all + stmts[i].params, next, i + 1;
    }
    var last, _ := Renumbering(stmts, i, idx, rs);
    ListEnds(rs, ctes, last, "WITH " + Join(", ", ctes) + " " + last);
    return Some(Statement("WITH " + Join(", ", ctes) + " " + last, all + stmts[i].params));
  }
}
