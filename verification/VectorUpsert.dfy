/**
  The bulk vector upsert: one INSERT whose VALUES list is generated from the rows, three
  placeholders to a row. Whatever the rows, the request means the insert with row `i`'s id,
  metadata and vector in the places of row `i`.

  A number of a vector is given as the text it is formatted to.
*/
module VectorUpsert {
  import opened Prelude
  import opened Placeholders
  import opened Transaction
  import opened Framing
  import opened Validator
  import opened Binding
  import Literals

  const MAX_ROWS := 100
  const MAX_IDENT := 63

  predicate IdentChar(c: char) {
    'a' <= c <= 'z' || '0' <= c <= '9' || c == '_'
  }

  /** Can the string stand between double quotes in the text as it is? */
  method IsSafeIdent(s: string) returns (ok: bool)
    ensures ok <==> Safe(s)
  {
    if s == "" || |s| > MAX_IDENT {
      return false;
    }
    for k := 0 to |s|
      invariant forall i | 0 <= i < k :: IdentChar(s[i])
    {
      if !IdentChar(s[k]) {
        return false;
      }
    }
    return true;
  }

  /** 1 to 63 lower-case letters, digits and underscores. */
  ghost predicate Safe(s: string) {
    0 < |s| <= 63 && forall i | 0 <= i < |s| :: 'a' <= s[i] <= 'z' || '0' <= s[i] <= '9' || s[i] == '_'
  }

  // ---- the rows of a request -----------------------------------------------------------------

  datatype RawMeta = NoMeta | NotAnObject | Unmarshalable | Meta(json: string)

  /** A row as decoded: `id` is empty and `vector` is None where they are missing or of another type. */
  datatype RawRow = NotARow | RawRow(id: string, meta: RawMeta, vector: Option<seq<Option<string>>>)

  datatype Row = Row(id: string, meta: string, vector: string)

  datatype Fault =
    | BadTable | BadIdColumn | BadVectorColumn
    | RowsMissing | RowsEmpty | TooManyRows
    | RowNotObject(i: nat) | IdMissing(i: nat)
    | MetaMissing(i: nat) | MetaNotObject(i: nat) | MetaUnmarshalable(i: nat)
    | VectorEmpty(i: nat) | NotANumber(i: nat, j: nat)

  datatype Result<T> = Ok(value: T) | Err(fault: Fault)

  /** A vector literal: the numbers between brackets, separated by commas. */
  function VectorText(v: seq<string>): string {
    "[" + Join(",", v) + "]"
  }

  /** What stands between commas. */
  function Split(s: string): (r: seq<string>)
    ensures r != []
  {
    if s == "" then [""]
    else
      var k := |s| - 1;
      var before := Split(s[..k]);
      if s[k] == ',' then before + [""] else before[..|before| - 1] + [before[|before| - 1] + [s[k]]]
  }

  lemma {:induction false} SplitWord(w: string)
    requires ',' !in w
    ensures Split(w) == [w]
  {
    if w != "" {
      SplitWord(w[..|w| - 1]);
      assert w == w[..|w| - 1] + [w[|w| - 1]];
    }
  }

  lemma {:induction false} SplitLast(a: string, w: string)
    requires ',' !in w
    ensures Split(a + "," + w) == Split(a) + [w]
  {
    var s := a + "," + w;
    if w == "" {
      assert s[..|s| - 1] == a;
    } else {
      var k := |w| - 1;
      SplitLast(a, w[..k]);
      assert s[..|s| - 1] == a + "," + w[..k];
      assert w == w[..k] + [w[k]];
    }
  }

  ghost predicate NoCommas(v: seq<string>) {
    forall j | 0 <= j < |v| :: ',' !in v[j]
  }

  lemma {:induction false} CommasRest(v: seq<string>)
    requires |v| > 1 && NoCommas(v)
    ensures var k := |v| - 1;
            NoCommas(v[..k]) && ',' !in v[k] && v == v[..k] + [v[k]] && Join(",", v) == Join(",", v[..k]) + "," + v[k]
  {
  }

  lemma {:induction false} SplitMore(a: string, v: seq<string>, w: string, s: string)
    requires Split(a) == v && ',' !in w && s == a + "," + w
    ensures Split(s) == v + [w]
  {
    SplitLast(a, w);
  }

  lemma {:induction false} SplitJoin(v: seq<string>, s: string)
    requires v != [] && NoCommas(v) && s == Join(",", v)
    ensures Split(s) == v
  {
    if |v| == 1 {
      SplitOne(v, s);
    } else {
      var k := |v| - 1;
      CommasRest(v);
      SplitJoin(v[..k], Join(",", v[..k]));
      SplitMore(Join(",", v[..k]), v[..k], v[k], s);
    }
  }

  lemma {:induction false} SplitOne(v: seq<string>, s: string)
    requires |v| == 1 && NoCommas(v) && s == Join(",", v)
    ensures Split(s) == v
  {
    SplitWord(v[0]);
    assert v == [v[0]];
  }

  /** A vector literal is read back, number by number. */
  lemma VectorIsRead(v: seq<string>)
    requires v != [] && NoCommas(v)
    ensures var s := VectorText(v); |s| >= 2 && s[0] == '[' && s[|s| - 1] == ']' && Split(s[1..|s| - 1]) == v
  {
    var s := VectorText(v);
    assert s[1..|s| - 1] == Join(",", v);
    SplitJoin(v, Join(",", v));
  }

  ghost predicate AllNumbers(v: seq<Option<string>>) {
    forall j | 0 <= j < |v| :: v[j].Some?
  }

  function Texts(v: seq<Option<string>>): seq<string>
    requires AllNumbers(v)
  {
    seq(|v|, j requires 0 <= j < |v| => v[j].value)
  }

  /** The numbers, or the first position that holds none. */
  method ReadNumbers(i: nat, v: seq<Option<string>>) returns (r: Result<seq<string>>)
    ensures r.Ok? ==> AllNumbers(v) && r.value == Texts(v)
    ensures r.Err? ==> FirstBad(v, i, r.fault)
  {
    var out: seq<string> := [];
    for j := 0 to |v|
      invariant |out| == j && forall l | 0 <= l < j :: v[l] == Some(out[l])
    {
      if v[j].None? {
        return Err(NotANumber(i, j));
      }
      out := out + [v[j].value];
    }
    return Ok(out);
  }

  ghost predicate FirstBad(v: seq<Option<string>>, i: nat, fault: Fault) {
    fault.NotANumber? && fault.i == i && fault.j < |v| && v[fault.j].None? && AllNumbers(v[..fault.j])
  }

  ghost predicate WellFormed(raw: RawRow) {
    && raw.RawRow? && raw.id != "" && raw.meta.Meta?
    && raw.vector.Some? && raw.vector.value != [] && AllNumbers(raw.vector.value)
  }

  ghost function RowOf(raw: RawRow): Row
    requires WellFormed(raw)
  {
    Row(raw.id, raw.meta.json, VectorText(Texts(raw.vector.value)))
  }

  /** The first thing wrong with row `i`. */
  ghost predicate Faulty(raw: RawRow, i: nat, fault: Fault) {
    if raw.NotARow? then fault == RowNotObject(i)
    else if raw.id == "" then fault == IdMissing(i)
    else if raw.meta.NoMeta? then fault == MetaMissing(i)
    else if raw.meta.NotAnObject? then fault == MetaNotObject(i)
    else if raw.meta.Unmarshalable? then fault == MetaUnmarshalable(i)
    else if raw.vector.None? || raw.vector.value == [] then fault == VectorEmpty(i)
    else FirstBad(raw.vector.value, i, fault)
  }

  method ReadRow(raw: RawRow, i: nat) returns (r: Result<Row>)
    ensures r.Ok? <==> WellFormed(raw)
    ensures r.Ok? ==> r.value == RowOf(raw)
    ensures r.Err? ==> Faulty(raw, i, r.fault)
  {
    if raw.NotARow? {
      return Err(RowNotObject(i));
    }
    if raw.id == "" {
      return Err(IdMissing(i));
    }
    match raw.meta {
      case NoMeta => return Err(MetaMissing(i));
      case NotAnObject => return Err(MetaNotObject(i));
      case Unmarshalable => return Err(MetaUnmarshalable(i));
      case Meta(json) =>
        if raw.vector.None? || raw.vector.value == [] {
          return Err(VectorEmpty(i));
        }
        var v := ReadNumbers(i, raw.vector.value);
        if v.Err? {
          return Err(v.fault);
        }
        return Ok(Row(raw.id, json, VectorText(v.value)));
    }
  }

  // ---- the text of a request ---------------------------------------------------------------------

  function Place(n: nat): string {
    "$" + Decimal(n)
  }

  function Clause(i: nat): string {
    var base := i * 3;
    "(" + Place(base + 1) + ", " + Place(base + 2) + "::jsonb, " + Place(base + 3) + "::vector)"
  }

  function Clauses(n: nat): string
    requires n > 0
  {
    if n == 1 then Clause(0) else Clauses(n - 1) + ", " + Clause(n - 1)
  }

  function TextBefore(table: string, idCol: string, vectorCol: string): string {
    "INSERT INTO \"" + table + "\" (\"" + idCol + "\", \"metadata\", \"" + vectorCol + "\") VALUES "
  }

  function TextAfter(idCol: string, vectorCol: string): string {
    " ON CONFLICT (\"" + idCol + "\") DO UPDATE SET " + "\"metadata\" = EXCLUDED.\"metadata\", \"" +
    vectorCol + "\" = EXCLUDED.\"" + vectorCol + "\""
  }

  function Params(rows: seq<Row>): seq<string> {
    if rows == [] then []
    else
      var k := |rows| - 1;
      Params(rows[..k]) + [rows[k].id, rows[k].meta, rows[k].vector]
  }

  ghost predicate AllWellFormed(raws: seq<RawRow>) {
    forall i | 0 <= i < |raws| :: WellFormed(raws[i])
  }

  ghost function RowsOf(raws: seq<RawRow>): seq<Row>
    requires AllWellFormed(raws)
  {
    seq(|raws|, i requires 0 <= i < |raws| => RowOf(raws[i]))
  }

  ghost predicate FirstFaulty(raws: seq<RawRow>, fault: Fault) {
    exists i: nat | i < |raws| :: AllWellFormed(raws[..i]) && Faulty(raws[i], i, fault)
  }

  /** The first thing wrong with a request, in the order of the checks. */
  ghost predicate Refused(table: string, idCol: string, vectorCol: string,
                          raws: Option<seq<RawRow>>, fault: Fault) {
    if !Safe(table) then fault == BadTable
    else if !Safe(idCol) then fault == BadIdColumn
    else if !Safe(vectorCol) then fault == BadVectorColumn
    else if raws.None? then fault == RowsMissing
    else if raws.value == [] then fault == RowsEmpty
    else if |raws.value| > 100 then fault == TooManyRows
    else FirstFaulty(raws.value, fault)
  }

  ghost predicate Acceptable(table: string, idCol: string, vectorCol: string, raws: Option<seq<RawRow>>) {
    && Safe(table) && Safe(idCol) && Safe(vectorCol)
    && raws.Some? && 0 < |raws.value| <= 100 && AllWellFormed(raws.value)
  }

  function Request(table: string, idCol: string, vectorCol: string, rows: seq<Row>): Statement<string>
    requires rows != []
  {
    Statement(TextBefore(table, idCol, vectorCol) + Clauses(|rows|) + TextAfter(idCol, vectorCol), Params(rows))
  }

  /** `raws` is None where there is no `rows`, and empty where `rows` is not a list. */
  method Upsert(table: string, idCol: string, vectorCol: string, raws: Option<seq<RawRow>>)
    returns (r: Result<Statement<string>>)
    ensures r.Ok? <==> Acceptable(table, idCol, vectorCol, raws)
    ensures r.Ok? ==> r.value == Request(table, idCol, vectorCol, RowsOf(raws.value))
    ensures r.Err? ==> Refused(table, idCol, vectorCol, raws, r.fault)
  {
    var ok := IsSafeIdent(table);
    if !ok { return Err(BadTable); }
    ok := IsSafeIdent(idCol);
    if !ok { return Err(BadIdColumn); }
    ok := IsSafeIdent(vectorCol);
    if !ok { return Err(BadVectorColumn); }
    if raws.None? { return Err(RowsMissing); }
    if raws.value == [] { return Err(RowsEmpty); }
    if |raws.value| > MAX_ROWS { return Err(TooManyRows); }
    var built := Build(raws.value);
    if built.Err? { return Err(built.fault); }
    var (values, params) := built.value;
    return Ok(Statement(TextBefore(table, idCol, vectorCol) + values + TextAfter(idCol, vectorCol), params));
  }

  /** The VALUES list and the parameters. */
  method Build(raws: seq<RawRow>) returns (r: Result<(string, seq<string>)>)
    requires raws != []
    ensures r.Ok? <==> AllWellFormed(raws)
    ensures r.Ok? ==> r.value == (Clauses(|raws|), Params(RowsOf(raws)))
    ensures r.Err? ==> FirstFaulty(raws, r.fault)
  {
    var clauses: seq<string>, params: seq<string> := [], [];
    for i := 0 to |raws|
      invariant |clauses| == i && (i > 0 ==> Join(", ", clauses) == Clauses(i))
      invariant AllWellFormed(raws[..i]) && params == Params(RowsOf(raws[..i]))
    {
      var row := ReadRow(raws[i], i);
      if row.Err? {
        return Err(row.fault);
      }
      var clause := Clause(i);
      if i > 0 {
        JoinGrows(", ", clauses, clause);
      }
      OneMore(raws, i);
      clauses, params := clauses + [clause], params + [row.value.id, row.value.meta, row.value.vector];
    }
    assert raws[..|raws|] == raws;
    return Ok((Join(", ", clauses), params));
  }

  lemma {:induction false} OneMore(raws: seq<RawRow>, i: nat)
    requires i < |raws| && AllWellFormed(raws[..i]) && WellFormed(raws[i])
    ensures AllWellFormed(raws[..i + 1])
    ensures var row := RowOf(raws[i]);
            Params(RowsOf(raws[..i + 1])) == Params(RowsOf(raws[..i])) + [row.id, row.meta, row.vector]
  {
    assert raws[..i + 1] == raws[..i] + [raws[i]];
    var rows := RowsOf(raws[..i + 1]);
    assert rows[..i] == RowsOf(raws[..i]);
  }

  // ---- reading a request back ---------------------------------------------------------------------

  function ClauseTokens(i: nat): seq<Tok> {
    Lift("(", AsTok) + [Param(i * 3 + 1)] + Lift(", ", AsTok) + [Param(i * 3 + 2)] +
    Lift("::jsonb, ", AsTok) + [Param(i * 3 + 3)] + Lift("::vector)", AsTok)
  }

  function ClausesTokens(n: nat): seq<Tok>
    requires n > 0
  {
    if n == 1 then ClauseTokens(0) else ClausesTokens(n - 1) + Lift(", ", AsTok) + ClauseTokens(n - 1)
  }

  lemma PlaceReads(before: string, n: nat, sep: string)
    requires sep != "" && '$' !in sep && !IsDigit(sep[0])
    ensures Scan(before + Place(n) + sep) == Scan(before) + [Param(n)] + Lift(sep, AsTok)
  {
    PlaceRead(n);
    var p := Place(n);
    AfterText(before, p);
    AfterText(before + p, sep);
    PlainReads(sep);
  }

  lemma PlaceRead(n: nat)
    ensures Scan(Place(n)) == [Param(n)]
  {
    ParamScans(n, "");
    assert "$" + Decimal(n) + "" == Place(n);
  }

  lemma AfterText(a: string, b: string)
    requires b != "" && !IsDigit(b[0])
    ensures Scan(a + b) == Scan(a) + Scan(b)
  {
    ScanConcat(a, b);
  }

  lemma ClauseReads(i: nat)
    ensures Scan(Clause(i)) == ClauseTokens(i)
  {
    var base := i * 3;
    PlainReads("(");
    PlaceReads("(", base + 1, ", ");
    PlaceReads("(" + Place(base + 1) + ", ", base + 2, "::jsonb, ");
    PlaceReads("(" + Place(base + 1) + ", " + Place(base + 2) + "::jsonb, ", base + 3, "::vector)");
  }

  lemma {:induction false} ClausesRead(n: nat)
    requires n > 0
    ensures Scan(Clauses(n)) == ClausesTokens(n)
  {
    ClauseReads(n - 1);
    if n > 1 {
      ClausesRead(n - 1);
      Joined(Clauses(n - 1), ", ", Clause(n - 1));
    }
  }

  /** No placeholder and no string literal. */
  ghost predicate Plain(s: string) {
    '$' !in s && '\'' !in s
  }

  lemma PlainAround(a: string, ident: string, b: string)
    requires Plain(a) && Safe(ident) && Plain(b)
    ensures Plain(a + ident + b)
  {
    assert Plain(ident);
  }

  lemma PlainTwo(a: string, b: string)
    requires Plain(a) && Plain(b)
    ensures Plain(a + b)
  {
  }

  lemma BeforeIsPlain(table: string, idCol: string, vectorCol: string)
    requires Safe(table) && Safe(idCol) && Safe(vectorCol)
    ensures Plain(TextBefore(table, idCol, vectorCol))
  {
    var a := "INSERT INTO \"" + table + "\" (\"";
    PlainAround("INSERT INTO \"", table, "\" (\"");
    PlainAround(a, idCol, "\", \"metadata\", \"");
    PlainAround(a + idCol + "\", \"metadata\", \"", vectorCol, "\") VALUES ");
  }

  lemma AfterIsPlain(idCol: string, vectorCol: string)
    requires Safe(idCol) && Safe(vectorCol)
    ensures Plain(TextAfter(idCol, vectorCol))
  {
    PlainAround(" ON CONFLICT (\"", idCol, "\") DO UPDATE SET ");
    RestIsPlain(" ON CONFLICT (\"" + idCol + "\") DO UPDATE SET ", vectorCol);
  }

  lemma RestIsPlain(a: string, vectorCol: string)
    requires Plain(a) && Safe(vectorCol)
    ensures Plain(a + "\"metadata\" = EXCLUDED.\"metadata\", \"" + vectorCol + "\" = EXCLUDED.\"" + vectorCol + "\"")
  {
    var b := a + "\"metadata\" = EXCLUDED.\"metadata\", \"";
    PlainTwo(a, "\"metadata\" = EXCLUDED.\"metadata\", \"");
    PlainAround(b, vectorCol, "\" = EXCLUDED.\"");
    PlainAround(b + vectorCol + "\" = EXCLUDED.\"", vectorCol, "\"");
  }

  /** Safe identifiers bring no placeholder and no literal into the text around the rows. */
  lemma FrameIsPlain(table: string, idCol: string, vectorCol: string)
    requires Safe(table) && Safe(idCol) && Safe(vectorCol)
    ensures Plain(TextBefore(table, idCol, vectorCol)) && Plain(TextAfter(idCol, vectorCol))
    ensures TextBefore(table, idCol, vectorCol)[|TextBefore(table, idCol, vectorCol)| - 1] == ' '
    ensures TextAfter(idCol, vectorCol)[0] == ' '
  {
    BeforeIsPlain(table, idCol, vectorCol);
    AfterIsPlain(idCol, vectorCol);
  }

  lemma {:induction false} RequestReads(table: string, idCol: string, vectorCol: string, rows: seq<Row>)
    requires Safe(table) && Safe(idCol) && Safe(vectorCol) && rows != []
    ensures Scan(Request(table, idCol, vectorCol, rows).sql) ==
            Lift(TextBefore(table, idCol, vectorCol), AsTok) + ClausesTokens(|rows|) + Lift(TextAfter(idCol, vectorCol), AsTok)
  {
    FrameIsPlain(table, idCol, vectorCol);
    AroundClauses(TextBefore(table, idCol, vectorCol), |rows|, TextAfter(idCol, vectorCol));
  }

  lemma AroundClauses(before: string, n: nat, after: string)
    requires n > 0 && '$' !in before && '$' !in after
    requires before != "" && after != "" && before[|before| - 1] == after[0] == ' '
    ensures Scan(before + Clauses(n) + after) == Lift(before, AsTok) + ClausesTokens(n) + Lift(after, AsTok)
  {
    ClausesRead(n);
    Surrounded(before, Clauses(n), after);
  }

  // ---- its spelling ------------------------------------------------------------------------------------

  lemma {:induction false} PlaceRenders(before: seq<Tok>, n: nat, sep: string)
    ensures Render(before + [Param(n)] + Lift(sep, AsTok)) == Render(before) + Place(n) + sep
  {
    RenderThree(before, [Param(n)], Lift(sep, AsTok));
    RenderLift(sep);
    PlaceRender(n);
  }

  lemma PlaceRender(n: nat)
    ensures Render([Param(n)]) == Place(n)
  {
    assert [Param(n)][1..] == [];
    assert Render([Param(n)]) == Show(Param(n)) + Render([]);
    assert Place(n) + [] == Place(n);
  }

  lemma ClauseRenders(i: nat)
    ensures Render(ClauseTokens(i)) == Clause(i)
  {
    RenderLift("(");
    var t1 := Lift("(", AsTok) + [Param(i * 3 + 1)] + Lift(", ", AsTok);
    PlaceRenders(Lift("(", AsTok), i * 3 + 1, ", ");
    var t2 := t1 + [Param(i * 3 + 2)] + Lift("::jsonb, ", AsTok);
    PlaceRenders(t1, i * 3 + 2, "::jsonb, ");
    PlaceRenders(t2, i * 3 + 3, "::vector)");
  }

  lemma {:induction false} ClausesRender(n: nat)
    requires n > 0
    ensures Render(ClausesTokens(n)) == Clauses(n)
  {
    ClauseRenders(n - 1);
    if n > 1 {
      ClausesRender(n - 1);
      RenderThree(ClausesTokens(n - 1), Lift(", ", AsTok), ClauseTokens(n - 1));
      RenderLift(", ");
    }
  }

  function RequestTokens(before: string, n: nat, after: string): seq<Tok>
    requires n > 0
  {
    Lift(before, AsTok) + ClausesTokens(n) + Lift(after, AsTok)
  }

  lemma RequestWords(before: string, n: nat, after: string, sql: string)
    requires n > 0 && sql == before + Clauses(n) + after && Scan(sql) == RequestTokens(before, n, after)
    ensures Words(sql) == Shows(Scan(sql))
  {
    RenderThree(Lift(before, AsTok), ClausesTokens(n), Lift(after, AsTok));
    RenderLift(before);
    RenderLift(after);
    ClausesRender(n);
    ScanSeparated(sql);
    WordsOfRender(Scan(sql));
  }

  // ---- what a request means ---------------------------------------------------------------------------

  /** The scanner reports every `$N` of the text: none is inside a literal, a comment or an identifier. */
  ghost predicate SeesAll(sql: string, scan: Scanner) {
    forall i | 0 <= i < |Scan(sql)| && Scan(sql)[i].Param? :: View(sql, scan(sql))[i]
  }

  /** Tokens as shown, every placeholder live. */
  function Sights(ts: seq<Tok>): seq<Sight> {
    seq(|ts|, i requires 0 <= i < |ts| => Sight(ts[i], Show(ts[i]), ts[i].Param?))
  }

  lemma SeenIsSights(sql: string, scan: Scanner)
    requires Words(sql) == Shows(Scan(sql)) && SeesAll(sql, scan)
    ensures Seen(sql, scan) == Sights(Scan(sql))
  {
    var ts := Scan(sql);
    forall i | 0 <= i < |ts| ensures Seen(sql, scan)[i] == Sights(ts)[i] {
      assert Words(sql)[i] == Show(ts[i]);
      assert View(sql, scan(sql))[i] == ts[i].Param?;
    }
  }

  lemma {:induction false} SightsThree(a: seq<Tok>, b: seq<Tok>, c: seq<Tok>)
    ensures Sights(a + b + c) == Sights(a) + Sights(b) + Sights(c)
  {
  }

  lemma SightsLift(s: string)
    ensures Sights(Lift(s, AsTok)) == Lift(s, AsSight)
  {
    LiftTok(s);
    LiftSight(s);
  }

  function RowMeaning(row: Row): seq<Piece<string>> {
    Lift("(", AsPiece) + [Val(row.id)] + Lift(", ", AsPiece) + [Val(row.meta)] +
    Lift("::jsonb, ", AsPiece) + [Val(row.vector)] + Lift("::vector)", AsPiece)
  }

  function RowsMeaning(rows: seq<Row>): seq<Piece<string>>
    requires rows != []
  {
    var k := |rows| - 1;
    if k == 0 then RowMeaning(rows[0]) else RowsMeaning(rows[..k]) + Lift(", ", AsPiece) + RowMeaning(rows[k])
  }

  lemma HoldsMore(a: seq<string>, b: seq<string>, start: nat, ps: seq<string>)
    requires Holds(a, start, ps)
    ensures Holds(a + b, start, ps) && Holds(a + b, |a|, b)
  {
  }

  lemma {:induction false} ParamsHold(rows: seq<Row>, i: nat)
    requires i < |rows|
    ensures |Params(rows)| == 3 * |rows|
    ensures Holds(Params(rows), i * 3, [rows[i].id, rows[i].meta, rows[i].vector])
  {
    var k := |rows| - 1;
    if k > 0 {
      ParamsHold(rows[..k], if i < k then i else 0);
    }
    HoldsMore(Params(rows[..k]), [rows[k].id, rows[k].meta, rows[k].vector], if i < k then i * 3 else 0, if i < k then [rows[i].id, rows[i].meta, rows[i].vector] else []);
  }

  /** The meaning of tokens as shown. */
  function Means(ts: seq<Tok>, params: seq<string>): seq<Piece<string>> {
    Bound(Sights(ts), params)
  }

  lemma {:induction false} MeansThree(a: seq<Tok>, b: seq<Tok>, c: seq<Tok>, params: seq<string>)
    ensures Means(a + b + c, params) == Means(a, params) + Means(b, params) + Means(c, params)
  {
    SightsThree(a, b, c);
    BoundThree(Sights(a), Sights(b), Sights(c), params);
  }

  lemma {:induction false} MeansLift(s: string, params: seq<string>)
    ensures Means(Lift(s, AsTok), params) == Lift(s, AsPiece)
  {
    SightsLift(s);
    BoundLift(s, params);
  }

  lemma {:induction false} PlaceMeans(before: seq<Tok>, n: nat, sep: string, params: seq<string>, v: string)
    requires 1 <= n <= |params| && params[n - 1] == v
    ensures Means(before + [Param(n)] + Lift(sep, AsTok), params) == Means(before, params) + [Val(v)] + Lift(sep, AsPiece)
  {
    MeansThree(before, [Param(n)], Lift(sep, AsTok), params);
    MeansLift(sep, params);
    assert Means([Param(n)], params) == [Val(v)];
  }

  lemma {:induction false} ClauseMeans(i: nat, row: Row, params: seq<string>)
    requires Holds(params, i * 3, [row.id, row.meta, row.vector])
    ensures Means(ClauseTokens(i), params) == RowMeaning(row)
  {
    var three := [row.id, row.meta, row.vector];
    HoldsAt(params, i * 3, three, 1);
    HoldsAt(params, i * 3, three, 2);
    HoldsAt(params, i * 3, three, 3);
    MeansLift("(", params);
    var t1 := Lift("(", AsTok) + [Param(i * 3 + 1)] + Lift(", ", AsTok);
    PlaceMeans(Lift("(", AsTok), i * 3 + 1, ", ", params, row.id);
    var t2 := t1 + [Param(i * 3 + 2)] + Lift("::jsonb, ", AsTok);
    PlaceMeans(t1, i * 3 + 2, "::jsonb, ", params, row.meta);
    PlaceMeans(t2, i * 3 + 3, "::vector)", params, row.vector);
  }

  lemma {:induction false} ClausesMean(rows: seq<Row>, params: seq<string>)
    requires rows != []
    requires forall i | 0 <= i < |rows| :: Holds(params, i * 3, [rows[i].id, rows[i].meta, rows[i].vector])
    ensures Means(ClausesTokens(|rows|), params) == RowsMeaning(rows)
  {
    var k := |rows| - 1;
    ClauseMeans(k, rows[k], params);
    if k > 0 {
      ClausesMean(rows[..k], params);
      MeansThree(ClausesTokens(k), Lift(", ", AsTok), ClauseTokens(k), params);
      MeansLift(", ", params);
    }
  }

  lemma {:induction false} TokensMean(before: string, rows: seq<Row>, after: string)
    requires rows != []
    ensures Means(RequestTokens(before, |rows|, after), Params(rows)) ==
            Lift(before, AsPiece) + RowsMeaning(rows) + Lift(after, AsPiece)
  {
    var params := Params(rows);
    forall i | 0 <= i < |rows| ensures Holds(params, i * 3, [rows[i].id, rows[i].meta, rows[i].vector]) {
      ParamsHold(rows, i);
    }
    ClausesMean(rows, params);
    MeansThree(Lift(before, AsTok), ClausesTokens(|rows|), Lift(after, AsTok), params);
    MeansLift(before, params);
    MeansLift(after, params);
  }

  /** The request means the insert with each row's values in that row's places. */
  lemma {:induction false} RequestMeans(table: string, idCol: string, vectorCol: string, rows: seq<Row>, scan: Scanner)
    requires Safe(table) && Safe(idCol) && Safe(vectorCol) && rows != []
    requires SeesAll(Request(table, idCol, vectorCol, rows).sql, scan)
    ensures var q := Request(table, idCol, vectorCol, rows);
            Bound(Seen(q.sql, scan), q.params) ==
            Lift(TextBefore(table, idCol, vectorCol), AsPiece) + RowsMeaning(rows) + Lift(TextAfter(idCol, vectorCol), AsPiece)
  {
    var before, after := TextBefore(table, idCol, vectorCol), TextAfter(idCol, vectorCol);
    var sql := Request(table, idCol, vectorCol, rows).sql;
    RequestReads(table, idCol, vectorCol, rows);
    RequestWords(before, |rows|, after, sql);
    SeenIsSights(sql, scan);
    TokensMean(before, rows, after);
  }

  // ---- its placeholders -----------------------------------------------------------------------------------

  /** The placeholder numbers as they stand in the text. */
  function Mentions(ts: seq<Tok>): seq<nat> {
    if ts == [] then [] else Mention(ts[0]) + Mentions(ts[1..])
  }

  function Mention(t: Tok): seq<nat> {
    if t.Param? then [t.n] else []
  }

  function Counting(n: nat): seq<nat> {
    if n == 0 then [] else Counting(n - 1) + [n]
  }

  lemma {:induction false} MentionsConcat(a: seq<Tok>, b: seq<Tok>)
    ensures Mentions(a + b) == Mentions(a) + Mentions(b)
  {
    if a == [] {
      assert a + b == b;
    } else {
      var c := a + b;
      assert c[0] == a[0] && c[1..] == a[1..] + b;
      MentionsConcat(a[1..], b);
      ConcatAssoc(Mention(a[0]), Mentions(a[1..]), Mentions(b));
    }
  }

  lemma {:induction false} MentionsPlain(ts: seq<Tok>)
    requires forall i | 0 <= i < |ts| :: ts[i].Text?
    ensures Mentions(ts) == []
  {
    if ts != [] {
      MentionsPlain(ts[1..]);
    }
  }

  lemma {:induction false} MentionsPlace(before: seq<Tok>, n: nat, sep: string)
    ensures Mentions(before + [Param(n)] + Lift(sep, AsTok)) == Mentions(before) + [n]
  {
    MentionsConcat(before + [Param(n)], Lift(sep, AsTok));
    MentionsConcat(before, [Param(n)]);
    LiftTok(sep);
    MentionsPlain(Lift(sep, AsTok));
    assert [Param(n)][1..] == [];
    assert Mentions([Param(n)]) == [n] + Mentions([]);
  }

  lemma ClauseMentions(i: nat)
    ensures Mentions(ClauseTokens(i)) == [i * 3 + 1, i * 3 + 2, i * 3 + 3]
  {
    LiftTok("(");
    MentionsPlain(Lift("(", AsTok));
    var t1 := Lift("(", AsTok) + [Param(i * 3 + 1)] + Lift(", ", AsTok);
    MentionsPlace(Lift("(", AsTok), i * 3 + 1, ", ");
    var t2 := t1 + [Param(i * 3 + 2)] + Lift("::jsonb, ", AsTok);
    MentionsPlace(t1, i * 3 + 2, "::jsonb, ");
    MentionsPlace(t2, i * 3 + 3, "::vector)");
  }

  lemma {:induction false} ClausesMention(n: nat)
    requires n > 0
    ensures Mentions(ClausesTokens(n)) == Counting(3 * n)
  {
    ClauseMentions(n - 1);
    CountingThree(3 * n);
    if n > 1 {
      ClausesMention(n - 1);
      MentionsAfterText(ClausesTokens(n - 1), ", ", ClauseTokens(n - 1));
    }
  }

  lemma {:induction false} MentionsAfterText(a: seq<Tok>, sep: string, b: seq<Tok>)
    ensures Mentions(a + Lift(sep, AsTok) + b) == Mentions(a) + Mentions(b)
  {
    LiftTok(sep);
    MentionsAround(a, Lift(sep, AsTok), b);
  }

  lemma {:induction false} MentionsAround(a: seq<Tok>, text: seq<Tok>, b: seq<Tok>)
    requires forall i | 0 <= i < |text| :: text[i].Text?
    ensures Mentions(a + text + b) == Mentions(a) + Mentions(b)
  {
    MentionsConcat(a + text, b);
    MentionsConcat(a, text);
    MentionsPlain(text);
    assert Mentions(a) + [] == Mentions(a);
  }

  lemma CountingThree(m: nat)
    requires m >= 3
    ensures Counting(m) == Counting(m - 3) + [m - 2, m - 1, m]
  {
    assert Counting(m - 1) == Counting(m - 2) + [m - 1];
  }

  /** The placeholders are `$1`, `$2`, ..., `$3n`, each once and in this order, one for each parameter. */
  lemma {:induction false} RequestMentions(table: string, idCol: string, vectorCol: string, rows: seq<Row>)
    requires Safe(table) && Safe(idCol) && Safe(vectorCol) && rows != []
    ensures var q := Request(table, idCol, vectorCol, rows);
            Mentions(Scan(q.sql)) == Counting(3 * |rows|) && |q.params| == 3 * |rows|
  {
    var before, after := Lift(TextBefore(table, idCol, vectorCol), AsTok), Lift(TextAfter(idCol, vectorCol), AsTok);
    RequestReads(table, idCol, vectorCol, rows);
    ParamsHold(rows, 0);
    ClausesMention(|rows|);
    MentionsConcat(before + ClausesTokens(|rows|), after);
    MentionsConcat(before, ClausesTokens(|rows|));
    LiftTok(TextBefore(table, idCol, vectorCol));
    LiftTok(TextAfter(idCol, vectorCol));
    MentionsPlain(before);
    MentionsPlain(after);
  }

  lemma {:induction false} Mentioned(ts: seq<Tok>, n: nat)
    ensures n in Mentions(ts) <==> Param(n) in ts
  {
    if ts != [] {
      Mentioned(ts[1..], n);
      assert Param(n) in ts <==> ts[0] == Param(n) || Param(n) in ts[1..];
    }
  }

  lemma {:induction false} Counted(m: nat, n: nat)
    ensures n in Counting(m) <==> 1 <= n <= m
  {
    if m > 0 {
      Counted(m - 1, n);
    }
  }

  /** So the server's count is the number of parameters. */
  lemma {:induction false} RequestIsCounted(table: string, idCol: string, vectorCol: string, rows: seq<Row>, scan: Scanner)
    requires Safe(table) && Safe(idCol) && Safe(vectorCol) && 0 < |rows| <= MAX_ROWS
    requires IsScanner(scan) && SeesAll(Request(table, idCol, vectorCol, rows).sql, scan)
    ensures var q := Request(table, idCol, vectorCol, rows); IsCount(q.sql, scan(q.sql), |q.params|)
  {
    var sql := Request(table, idCol, vectorCol, rows).sql;
    RequestMentions(table, idCol, vectorCol, rows);
    CountedFrom(sql, scan(sql), 3 * |rows|);
  }

  lemma CountedFrom(sql: string, toks: seq<Range>, m: nat)
    requires Mentions(Scan(sql)) == Counting(m) && m <= MAX_INT && Whole(sql, toks)
    requires forall i | 0 <= i < |Scan(sql)| && Scan(sql)[i].Param? :: View(sql, toks)[i]
    ensures IsCount(sql, toks, m)
  {
    LargestMention(Scan(sql), View(sql, toks), m);
    CountIsMaxLive(sql, toks, m);
  }

  lemma {:induction false} LargestMention(ts: seq<Tok>, live: seq<bool>, m: nat)
    requires Mentions(ts) == Counting(m) && |ts| == |live| && forall i | 0 <= i < |ts| && ts[i].Param? :: live[i]
    ensures MaxLive(ts, live) == m
    ensures forall i | 0 <= i < |ts| && ts[i].Param? :: 1 <= ts[i].n <= m
  {
    forall i | 0 <= i < |ts| && ts[i].Param? ensures 1 <= ts[i].n <= m {
      assert ts[i] == Param(ts[i].n);
      Mentioned(ts, ts[i].n);
      Counted(m, ts[i].n);
    }
    if m > 0 {
      Mentioned(ts, m);
      Counted(m, m);
      var i :| 0 <= i < |ts| && ts[i] == Param(m);
      assert live[i];
    }
  }

  // ---- for a scanner that knows string literals --------------------------------------------------------

  ghost predicate QuoteFree(ts: seq<Tok>) {
    Text('\'') !in ts
  }

  lemma QuoteFreeText(s: string)
    requires '\'' !in s
    ensures QuoteFree(Lift(s, AsTok))
  {
    LiftTok(s);
  }

  lemma QuoteFreePlace(before: seq<Tok>, n: nat, sep: string)
    requires QuoteFree(before) && '\'' !in sep
    ensures QuoteFree(before + [Param(n)] + Lift(sep, AsTok))
  {
    QuoteFreeText(sep);
  }

  lemma ClauseIsQuoteFree(i: nat)
    ensures QuoteFree(ClauseTokens(i))
  {
    QuoteFreeText("(");
    var t1 := Lift("(", AsTok) + [Param(i * 3 + 1)] + Lift(", ", AsTok);
    QuoteFreePlace(Lift("(", AsTok), i * 3 + 1, ", ");
    var t2 := t1 + [Param(i * 3 + 2)] + Lift("::jsonb, ", AsTok);
    QuoteFreePlace(t1, i * 3 + 2, "::jsonb, ");
    QuoteFreePlace(t2, i * 3 + 3, "::vector)");
  }

  lemma {:induction false} ClausesAreQuoteFree(n: nat)
    requires n > 0
    ensures QuoteFree(ClausesTokens(n))
  {
    ClauseIsQuoteFree(n - 1);
    if n > 1 {
      ClausesAreQuoteFree(n - 1);
      QuoteFreeText(", ");
    }
  }

  lemma {:induction false} QuoteFreeIsOutside(ts: seq<Tok>, i: nat)
    requires QuoteFree(ts) && i < |ts|
    ensures Literals.Outside(ts, false)[i] == ts[i].Param?
  {
    if i > 0 {
      QuoteFreeIsOutside(ts[1..], i - 1);
    }
  }

  /** Theorem. A generated text has no literal, so this scanner reports every `$N` of it. */
  lemma UnquotedSeesAll(table: string, idCol: string, vectorCol: string, rows: seq<Row>)
    requires Safe(table) && Safe(idCol) && Safe(vectorCol) && rows != []
    ensures SeesAll(Request(table, idCol, vectorCol, rows).sql, Literals.Unquoted)
  {
    var sql := Request(table, idCol, vectorCol, rows).sql;
    RequestReads(table, idCol, vectorCol, rows);
    FrameIsPlain(table, idCol, vectorCol);
    QuoteFreeText(TextBefore(table, idCol, vectorCol));
    ClausesAreQuoteFree(|rows|);
    QuoteFreeText(TextAfter(idCol, vectorCol));
    Literals.UnquotedView(sql);
    forall i | 0 <= i < |Scan(sql)| && Scan(sql)[i].Param? ensures View(sql, Literals.Unquoted(sql))[i] {
      QuoteFreeIsOutside(Scan(sql), i);
    }
  }

  /** So for this scanner nothing is left to assume: the request means the insert, and the count check passes. */
  lemma RequestHolds(table: string, idCol: string, vectorCol: string, rows: seq<Row>)
    requires Safe(table) && Safe(idCol) && Safe(vectorCol) && 0 < |rows| <= MAX_ROWS
    ensures var q := Request(table, idCol, vectorCol, rows);
            && Bound(Seen(q.sql, Literals.Unquoted), q.params) ==
               Lift(TextBefore(table, idCol, vectorCol), AsPiece) + RowsMeaning(rows) + Lift(TextAfter(idCol, vectorCol), AsPiece)
            && IsCount(q.sql, Literals.Unquoted(q.sql), |q.params|)
  {
    Literals.UnquotedIsScanner();
    UnquotedSeesAll(table, idCol, vectorCol, rows);
    RequestMeans(table, idCol, vectorCol, rows, Literals.Unquoted);
    RequestIsCounted(table, idCol, vectorCol, rows, Literals.Unquoted);
  }
}
