/**
  Which column each value of a vector upsert goes to, read from the text of the request by a
  reader of double-quoted words that knows nothing of how the text was built.
*/
module UpsertColumns {
  import opened Placeholders
  import opened Transaction
  import opened Framing
  import opened Binding
  import opened VectorUpsert
  import Literals

  /** A reader of double-quoted words: those finished, and the one it is in. */
  datatype Reader = Reader(words: seq<string>, open: bool, word: string)

  function Feed(r: Reader, c: char): Reader {
    if c == '"' then if r.open then Reader(r.words + [r.word], false, "") else Reader(r.words, true, "")
    else if r.open then r.(word := r.word + [c])
    else r
  }

  function ReadOn(r: Reader, s: string): Reader {
    if s == "" then r else Feed(ReadOn(r, s[..|s| - 1]), s[|s| - 1])
  }

  /** The double-quoted words of a text, in order. */
  function Identifiers(s: string): seq<string> {
    ReadOn(Reader([], false, ""), s).words
  }

  lemma {:induction false} ReadConcat(r: Reader, a: string, b: string)
    ensures ReadOn(r, a + b) == ReadOn(ReadOn(r, a), b)
  {
    if b == "" {
      assert a + b == a;
    } else {
      var k := |b| - 1;
      assert (a + b)[..|a + b| - 1] == a + b[..k];
      ReadConcat(r, a, b[..k]);
    }
  }

  lemma {:induction false} ReadPlain(r: Reader, p: string)
    requires '"' !in p
    ensures ReadOn(r, p) == if r.open then r.(word := r.word + p) else r
  {
    if p == "" {
      assert r.word + p == r.word;
    } else {
      var k := |p| - 1;
      ReadPlain(r, p[..k]);
      assert p == p[..k] + [p[k]];
      assert r.word + p == r.word + p[..k] + [p[k]];
    }
  }

  lemma ReadQuote(r: Reader)
    ensures ReadOn(r, "\"") == Feed(r, '"')
  {
    assert "\""[..0] == "";
  }

  /** Text, and a quote that opens. */
  lemma ReadOpening(words: seq<string>, p: string)
    requires '"' !in p
    ensures ReadOn(Reader(words, false, ""), p + "\"") == Reader(words, true, "")
  {
    ReadConcat(Reader(words, false, ""), p, "\"");
    ReadPlain(Reader(words, false, ""), p);
    ReadQuote(Reader(words, false, ""));
  }

  /** A word, a quote that closes it, and text. */
  lemma ReadClosing(words: seq<string>, w: string, p: string)
    requires '"' !in w && '"' !in p
    ensures ReadOn(Reader(words, true, ""), w + ("\"" + p)) == Reader(words + [w], false, "")
  {
    var r := Reader(words, true, "");
    ReadConcat(r, w, "\"" + p);
    ReadPlain(r, w);
    assert "" + w == w;
    ReadConcat(r.(word := w), "\"", p);
    ReadQuote(r.(word := w));
    ReadPlain(Reader(words + [w], false, ""), p);
  }

  /** A word, and text up to the next opening quote. */
  lemma ReadWord(words: seq<string>, w: string, p: string)
    requires '"' !in w && '"' !in p
    ensures ReadOn(Reader(words, true, ""), w + ("\"" + p + "\"")) == Reader(words + [w], true, "")
  {
    var r := Reader(words, true, "");
    ReadClosing(words, w, p);
    ReadConcat(r, w + ("\"" + p), "\"");
    ReadQuote(Reader(words + [w], false, ""));
    assert w + ("\"" + p + "\"") == (w + ("\"" + p)) + "\"";
  }

  /** A text read from left to right. */
  ghost predicate Reads(s: string, words: seq<string>, open: bool) {
    ReadOn(Reader([], false, ""), s) == Reader(words, open, "")
  }

  lemma ThenWord(s: string, words: seq<string>, w: string, p: string)
    requires Reads(s, words, true) && '"' !in w && '"' !in p
    ensures Reads(s + w + ("\"" + p + "\""), words + [w], true)
  {
    ReadConcat(Reader([], false, ""), s, w + ("\"" + p + "\""));
    ReadWord(words, w, p);
    assert s + w + ("\"" + p + "\"") == s + (w + ("\"" + p + "\""));
  }

  lemma ThenLastWord(s: string, words: seq<string>, w: string, p: string)
    requires Reads(s, words, true) && '"' !in w && '"' !in p
    ensures Reads(s + w + ("\"" + p), words + [w], false)
  {
    ReadConcat(Reader([], false, ""), s, w + ("\"" + p));
    ReadClosing(words, w, p);
    assert s + w + ("\"" + p) == s + (w + ("\"" + p));
  }

  lemma ThenOpening(s: string, words: seq<string>, p: string)
    requires Reads(s, words, false) && '"' !in p
    ensures Reads(s + (p + "\""), words, true)
  {
    ReadConcat(Reader([], false, ""), s, p + "\"");
    ReadOpening(words, p);
  }

  lemma ThenPlain(s: string, words: seq<string>, p: string)
    requires Reads(s, words, false) && '"' !in p
    ensures Reads(s + p, words, false)
  {
    ReadConcat(Reader([], false, ""), s, p);
    ReadPlain(Reader(words, false, ""), p);
  }

  /** A word, then the metadata column. */
  lemma ThenMetadata(s: string, words: seq<string>, w: string)
    requires Reads(s, words, true) && '"' !in w
    ensures Reads(s + w + "\", \"metadata\", \"", words + [w, "metadata"], true)
  {
    var s' := s + w + "\", \"";
    assert "\", \"" == "\"" + ", " + "\"";
    ThenWord(s, words, w, ", ");
    ThenWord(s', words + [w], "metadata", ", ");
    assert s' + "metadata" + "\", \"" == s + w + "\", \"metadata\", \"";
    assert words + [w] + ["metadata"] == words + [w, "metadata"];
  }

  lemma BeforeIsRead(table: string, idCol: string, vectorCol: string)
    requires Safe(table) && Safe(idCol) && Safe(vectorCol)
    ensures Reads(TextBefore(table, idCol, vectorCol), [table, idCol, "metadata", vectorCol], false)
  {
    var s1, s2 := "INSERT INTO \"", "INSERT INTO \"" + table + "\" (\"";
    ReadOpening([], "INSERT INTO ");
    assert s1 == "INSERT INTO " + "\"" && "\" (\"" == "\"" + " (" + "\"" && "\") VALUES " == "\"" + ") VALUES ";
    ThenWord(s1, [], table, " (");
    ThenMetadata(s2, [table], idCol);
    ThenLastWord(s2 + idCol + "\", \"metadata\", \"", [table, idCol, "metadata"], vectorCol, ") VALUES ");
  }

  lemma AfterIsRead(s: string, words: seq<string>, idCol: string, vectorCol: string)
    requires Reads(s, words, false) && Safe(idCol) && Safe(vectorCol)
    ensures Reads(s + TextAfter(idCol, vectorCol), words + [idCol, "metadata", "metadata", vectorCol, vectorCol], false)
  {
    var s1 := s + " ON CONFLICT (\"" + idCol + "\") DO UPDATE SET ";
    ConflictIsRead(s, words, idCol);
    UpdateIsRead(s1, words + [idCol], vectorCol);
    Regroup(s, idCol, vectorCol);
    assert words + [idCol] + ["metadata", "metadata", vectorCol, vectorCol] == words + [idCol, "metadata", "metadata", vectorCol, vectorCol];
  }

  lemma Regroup(s: string, idCol: string, vectorCol: string)
    ensures s + TextAfter(idCol, vectorCol) ==
            s + " ON CONFLICT (\"" + idCol + "\") DO UPDATE SET " + "\"metadata\" = EXCLUDED.\"metadata\", \"" + vectorCol +
            "\" = EXCLUDED.\"" + vectorCol + "\""
  {
  }

  lemma ConflictIsRead(s: string, words: seq<string>, idCol: string)
    requires Reads(s, words, false) && Safe(idCol)
    ensures Reads(s + " ON CONFLICT (\"" + idCol + "\") DO UPDATE SET ", words + [idCol], false)
  {
    assert " ON CONFLICT (\"" == " ON CONFLICT (" + "\"" && "\") DO UPDATE SET " == "\"" + ") DO UPDATE SET ";
    ThenOpening(s, words, " ON CONFLICT (");
    ThenLastWord(s + " ON CONFLICT (\"", words, idCol, ") DO UPDATE SET ");
  }

  lemma UpdateIsRead(s: string, words: seq<string>, vectorCol: string)
    requires Reads(s, words, false) && Safe(vectorCol)
    ensures Reads(s + "\"metadata\" = EXCLUDED.\"metadata\", \"" + vectorCol + "\" = EXCLUDED.\"" + vectorCol + "\"",
                  words + ["metadata", "metadata", vectorCol, vectorCol], false)
  {
    var s2 := s + "\"metadata\" = EXCLUDED.\"metadata\", \"";
    MetadataIsRead(s, words);
    assert "\" = EXCLUDED.\"" == "\"" + " = EXCLUDED." + "\"" && "\"" == "\"" + "";
    ThenWord(s2, words + ["metadata", "metadata"], vectorCol, " = EXCLUDED.");
    ThenLastWord(s2 + vectorCol + "\" = EXCLUDED.\"", words + ["metadata", "metadata"] + [vectorCol], vectorCol, "");
    assert words + ["metadata", "metadata"] + [vectorCol] + [vectorCol] == words + ["metadata", "metadata", vectorCol, vectorCol];
  }

  lemma FiveTexts(s: string, a: string, b: string, c: string, d: string, e: string)
    ensures s + a + b + c + d + e == s + (a + b + c + d + e)
  {
  }

  lemma MetadataText()
    ensures "\"" + "metadata" + "\" = EXCLUDED.\"" + "metadata" + "\", \"" == "\"metadata\" = EXCLUDED.\"metadata\", \""
  {
    assert "\"" + "metadata" + "\" = EXCLUDED.\"" == "\"metadata\" = EXCLUDED.\"";
  }

  lemma MetadataIsRead(s: string, words: seq<string>)
    requires Reads(s, words, false)
    ensures Reads(s + "\"metadata\" = EXCLUDED.\"metadata\", \"", words + ["metadata", "metadata"], true)
  {
    var s1 := s + "\"";
    assert "" + "\"" == "\"" && "\" = EXCLUDED.\"" == "\"" + " = EXCLUDED." + "\"" && "\", \"" == "\"" + ", " + "\"";
    ThenOpening(s, words, "");
    ThenWord(s1, words, "metadata", " = EXCLUDED.");
    var s2 := s1 + "metadata" + "\" = EXCLUDED.\"";
    ThenWord(s2, words + ["metadata"], "metadata", ", ");
    FiveTexts(s, "\"", "metadata", "\" = EXCLUDED.\"", "metadata", "\", \"");
    MetadataText();
    assert words + ["metadata"] + ["metadata"] == words + ["metadata", "metadata"];
  }

  lemma {:induction false} ClausesHaveNoWords(n: nat)
    requires n > 0
    ensures '"' !in Clauses(n)
  {
    assert forall m: nat :: '"' !in Decimal(m);
    assert '"' !in Clause(n - 1);
    if n > 1 {
      ClausesHaveNoWords(n - 1);
    }
  }

  /** Theorem. The identifiers of the text, in order. */
  lemma {:induction false} RequestIdentifiers(table: string, idCol: string, vectorCol: string, rows: seq<Row>)
    requires Safe(table) && Safe(idCol) && Safe(vectorCol) && rows != []
    ensures Identifiers(Request(table, idCol, vectorCol, rows).sql) ==
            [table, idCol, "metadata", vectorCol, idCol, "metadata", "metadata", vectorCol, vectorCol]
  {
    var words := [table, idCol, "metadata", vectorCol];
    BeforeIsRead(table, idCol, vectorCol);
    ClausesHaveNoWords(|rows|);
    ThenPlain(TextBefore(table, idCol, vectorCol), words, Clauses(|rows|));
    AfterIsRead(TextBefore(table, idCol, vectorCol) + Clauses(|rows|), words, idCol, vectorCol);
    assert words + [idCol, "metadata", "metadata", vectorCol, vectorCol] ==
           [table, idCol, "metadata", vectorCol, idCol, "metadata", "metadata", vectorCol, vectorCol];
  }

  // ---- the values under them ---------------------------------------------------------------------------

  /** The values of a meaning, in order. */
  function Values(ps: seq<Piece<string>>): seq<string> {
    if ps == [] then [] else Values(ps[..|ps| - 1]) + if ps[|ps| - 1].Val? then [ps[|ps| - 1].v] else []
  }

  lemma {:induction false} ValuesConcat(a: seq<Piece<string>>, b: seq<Piece<string>>)
    ensures Values(a + b) == Values(a) + Values(b)
  {
    if b == [] {
      assert a + b == a;
    } else {
      var k := |b| - 1;
      assert (a + b)[..|a + b| - 1] == a + b[..k];
      ValuesConcat(a, b[..k]);
    }
  }

  lemma {:induction false} NoValues(ps: seq<Piece<string>>)
    requires forall i | 0 <= i < |ps| :: ps[i].Verbatim?
    ensures Values(ps) == []
  {
    if ps != [] {
      NoValues(ps[..|ps| - 1]);
    }
  }

  lemma TextHasNoValues(s: string)
    ensures Values(Lift(s, AsPiece)) == []
  {
    LiftPiece<string>(s);
    NoValues(Lift(s, AsPiece));
  }

  lemma {:induction false} ThenValue(a: seq<Piece<string>>, v: string, s: string)
    ensures Values(a + [Val(v)] + Lift(s, AsPiece)) == Values(a) + [v]
  {
    ValuesConcat(a + [Val(v)], Lift(s, AsPiece));
    ValuesConcat(a, [Val(v)]);
    TextHasNoValues(s);
    assert [Val(v)][..0] == [];
  }

  lemma RowValues(row: Row)
    ensures Values(RowMeaning(row)) == [row.id, row.meta, row.vector]
  {
    var a: seq<Piece<string>> := Lift("(", AsPiece);
    TextHasNoValues("(");
    var b := a + [Val(row.id)] + Lift(", ", AsPiece);
    ThenValue(a, row.id, ", ");
    var c := b + [Val(row.meta)] + Lift("::jsonb, ", AsPiece);
    ThenValue(b, row.meta, "::jsonb, ");
    ThenValue(c, row.vector, "::vector)");
  }

  lemma {:induction false} RowsValues(rows: seq<Row>, i: nat)
    requires i < |rows|
    ensures var vs := Values(RowsMeaning(rows));
            |vs| == 3 * |rows| && vs[3 * i] == rows[i].id && vs[3 * i + 1] == rows[i].meta && vs[3 * i + 2] == rows[i].vector
  {
    var k := |rows| - 1;
    RowValues(rows[k]);
    if k > 0 {
      RowsValues(rows[..k], if i < k then i else 0);
      ValuesConcat(RowsMeaning(rows[..k]) + Lift(", ", AsPiece), RowMeaning(rows[k]));
      ValuesConcat(RowsMeaning(rows[..k]), Lift(", ", AsPiece));
      TextHasNoValues(", ");
    }
  }

  lemma {:induction false} ValuesAround(before: string, ps: seq<Piece<string>>, after: string)
    ensures Values(Lift(before, AsPiece) + ps + Lift(after, AsPiece)) == Values(ps)
  {
    ValuesConcat(Lift(before, AsPiece) + ps, Lift(after, AsPiece));
    ValuesConcat(Lift(before, AsPiece), ps);
    TextHasNoValues(before);
    TextHasNoValues(after);
  }

  /** The values the server puts into a request, in the order of the text. */
  function ServedValues(q: Statement<string>): seq<string> {
    Values(Bound(Seen(q.sql, Literals.Unquoted), q.params))
  }

  lemma {:induction false} RequestValues(table: string, idCol: string, vectorCol: string, rows: seq<Row>)
    requires Safe(table) && Safe(idCol) && Safe(vectorCol) && 0 < |rows| <= 100
    ensures ServedValues(Request(table, idCol, vectorCol, rows)) == Values(RowsMeaning(rows))
  {
    RequestHolds(table, idCol, vectorCol, rows);
    ValuesAround(TextBefore(table, idCol, vectorCol), RowsMeaning(rows), TextAfter(idCol, vectorCol));
  }

  /** Three values to a row: its id, its metadata, its vector. */
  ghost predicate RowByRow(vs: seq<string>, rows: seq<Row>) {
    && |vs| == 3 * |rows|
    && forall i | 0 <= i < |rows| :: vs[3 * i] == rows[i].id && vs[3 * i + 1] == rows[i].meta && vs[3 * i + 2] == rows[i].vector
  }

  lemma {:induction false} RowsAreRowByRow(rows: seq<Row>)
    requires rows != []
    ensures RowByRow(Values(RowsMeaning(rows)), rows)
  {
    RowsValues(rows, 0);
    var vs := Values(RowsMeaning(rows));
    forall i | 0 <= i < |rows| ensures vs[3 * i] == rows[i].id && vs[3 * i + 1] == rows[i].meta && vs[3 * i + 2] == rows[i].vector {
      RowsValues(rows, i);
    }
  }

  lemma {:induction false} RequestRowByRow(q: Statement<string>, rows: seq<Row>)
    requires rows != [] && ServedValues(q) == Values(RowsMeaning(rows))
    ensures RowByRow(ServedValues(q), rows)
  {
    RowsAreRowByRow(rows);
  }

  /**
    Theorem. As the server reads the request, the columns are the id, the metadata and the
    vector column, each row's id, metadata and vector stand under them in this order, there
    are no other values, and rows conflict on the id column.
  */
  lemma {:induction false} ValuesUnderColumns(table: string, idCol: string, vectorCol: string, rows: seq<Row>)
    requires Safe(table) && Safe(idCol) && Safe(vectorCol) && 0 < |rows| <= 100
    ensures Identifiers(Request(table, idCol, vectorCol, rows).sql) ==
            [table, idCol, "metadata", vectorCol, idCol, "metadata", "metadata", vectorCol, vectorCol]
    ensures RowByRow(ServedValues(Request(table, idCol, vectorCol, rows)), rows)
  {
    RequestIdentifiers(table, idCol, vectorCol, rows);
    RequestValues(table, idCol, vectorCol, rows);
    RequestRowByRow(Request(table, idCol, vectorCol, rows), rows);
  }
}
