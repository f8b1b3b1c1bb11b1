/** The text of the statements the writers send: an `INSERT` with one
    placeholder per column, optionally followed by an `ON DUPLICATE KEY
    UPDATE` clause that assigns `col=VALUES(col)` for each updated column.
    Line breaks and indentation inside the source's triple-quoted statements
    are written here as single spaces. */
module Sql {
  import opened Text

  /** `%s` (DB-API positional parameters) or `:name` (SQLAlchemy `text()`
      named parameters). */
  datatype Style = Percent | Colon

  function Placeholder(style: Style, column: string): string {
    match style
    case Percent => "%s"
    case Colon => ":" + column
  }

  /** `', '.join(['%s'] * len(columns))` or `', '.join(':' + c for c in columns)`. */
  function Placeholders(style: Style, columns: seq<string>): string {
    Join(seq(|columns|, i requires 0 <= i < |columns| => Placeholder(style, columns[i])), ", ")
  }

  /** `f"{col}=VALUES({col})"`; the fixed statements write `col = VALUES(col)`. */
  function Assignment(column: string, eq: string): string {
    column + eq + "VALUES(" + column + ")"
  }

  function Assignments(columns: seq<string>, eq: string): string {
    Join(seq(|columns|, i requires 0 <= i < |columns| => Assignment(columns[i], eq)), ", ")
  }

  /** A statement as the writers build it: the target table, the inserted
      columns and their placeholder style, and for an upsert the updated
      columns with the text written between a column and `VALUES`. */
  datatype Query =
    | Insert(target: string, columns: seq<string>, style: Style)
    | Upsert(target: string, columns: seq<string>, style: Style, updated: seq<string>, eq: string)

  /** `INSERT INTO {target} ({cols}) VALUES ({placeholders})`. */
  function InsertSql(target: string, columns: seq<string>, style: Style): string {
    "INSERT INTO " + target + " (" + Join(columns, ", ") + ") VALUES (" + Placeholders(style, columns) + ")"
  }

  /** The insert followed by the update clause for the columns `updated`. */
  function UpsertSql(target: string, columns: seq<string>, style: Style, updated: seq<string>, eq: string): string {
    InsertSql(target, columns, style) + " ON DUPLICATE KEY UPDATE " + Assignments(updated, eq)
  }

  /** The text sent to the driver. */
  function Sql(q: Query): string {
    match q
    case Insert(target, columns, style) => InsertSql(target, columns, style)
    case Upsert(target, columns, style, updated, eq) => UpsertSql(target, columns, style, updated, eq)
  }

  /** The statement built from a mapping's column list: every column is
      inserted and every column is updated. */
  function MappedUpsert(target: string, columns: seq<string>, style: Style): Query {
    Upsert(target, columns, style, columns, "=")
  }

  /** `f"{schema}.{table}"`. */
  function Qualified(schema: string, table: string): string {
    schema + "." + table
  }

  const UsuarioColumns: seq<string> :=
    ["id_usuario", "nome", "descricao", "ativo", "data_ini", "data_use_atu", "usu"]

  const DocumentoColumns: seq<string> :=
    ["id_documento", "id_usuario", "numero_documento", "data", "usu", "tipo"]

  /** The fixed statement for `{DB_SCHEMA}.Usuario`: the key `id_usuario`
      is inserted but not updated. */
  function UsuarioStatement(schema: string): Query {
    Upsert(Qualified(schema, "Usuario"), UsuarioColumns, Percent, UsuarioColumns[1..], " = ")
  }

  /** The fixed statement for `{DB_SCHEMA}.Documento`: the key
      `id_documento` is inserted but not updated. */
  function DocumentoStatement(schema: string): Query {
    Upsert(Qualified(schema, "Documento"), DocumentoColumns, Percent, DocumentoColumns[1..], " = ")
  }

  predicate NoPercent(s: string) {
    '%' !in s
  }

  // ---------------------------------------------------------------------
  // Placeholder counts.

  lemma {:induction false} CountFree(s: string, c: char)
    requires c !in s
    ensures Count(s, c) == 0
    decreases |s|
  {
    if |s| > 0 {
      assert c !in s[1..];
      CountFree(s[1..], c);
    }
  }

  /** Joining pieces that each hold `k` copies of `c` with a separator free
      of `c`. */
  lemma {:induction false} CountJoin(parts: seq<string>, sep: string, c: char, k: nat)
    requires forall i :: 0 <= i < |parts| ==> Count(parts[i], c) == k
    requires Count(sep, c) == 0
    ensures Count(Join(parts, sep), c) == k * |parts|
    decreases |parts|
  {
    if |parts| > 1 {
      var rest := parts[1..];
      assert forall i :: 0 <= i < |rest| ==> Count(rest[i], c) == k by {
        assert forall i :: 0 <= i < |rest| ==> rest[i] == parts[i + 1];
      }
      CountJoin(rest, sep, c, k);
      assert Join(parts, sep) == parts[0] + sep + Join(rest, sep);
      CountConcat(parts[0], sep, c);
      CountConcat(parts[0] + sep, Join(rest, sep), c);
      MulNext(k, |rest|);
    }
  }

  lemma MulNext(k: nat, m: nat)
    ensures k * (m + 1) == k * m + k
  {
  }

  /** A join of pieces free of `c`, with a separator free of `c`, is free of `c`. */
  lemma {:induction false} JoinFree(parts: seq<string>, sep: string, c: char)
    requires forall i :: 0 <= i < |parts| ==> c !in parts[i]
    requires c !in sep
    ensures c !in Join(parts, sep)
    decreases |parts|
  {
    if |parts| > 1 {
      JoinFree(parts[1..], sep, c);
    }
  }

  lemma AssignmentsFree(columns: seq<string>, eq: string)
    requires forall i :: 0 <= i < |columns| ==> NoPercent(columns[i])
    requires NoPercent(eq)
    ensures NoPercent(Assignments(columns, eq))
  {
    var parts := seq(|columns|, i requires 0 <= i < |columns| => Assignment(columns[i], eq));
    forall i | 0 <= i < |parts| ensures '%' !in parts[i] {
      assert NoPercent(columns[i]);
    }
    JoinFree(parts, ", ", '%');
  }

  lemma PercentPlaceholders(columns: seq<string>)
    ensures Count(Placeholders(Percent, columns), '%') == |columns|
  {
    var parts := seq(|columns|, i requires 0 <= i < |columns| => Placeholder(Percent, columns[i]));
    assert Count("%s", '%') == 1 by {
      assert "%s"[1..] == "s";
      assert "s"[1..] == "";
    }
    forall i | 0 <= i < |parts| ensures Count(parts[i], '%') == 1 {
      assert parts[i] == "%s";
    }
    assert Count(", ", '%') == 0 by {
      CountFree(", ", '%');
    }
    CountJoin(parts, ", ", '%', 1);
  }

  /** With names free of `%`, a positional statement holds exactly one `%`
      per inserted column: one placeholder per column. */
  lemma UpsertPlaceholderCount(target: string, columns: seq<string>, updated: seq<string>, eq: string)
    requires NoPercent(target) && NoPercent(eq)
    requires forall i :: 0 <= i < |columns| ==> NoPercent(columns[i])
    requires forall i :: 0 <= i < |updated| ==> NoPercent(updated[i])
    ensures Count(UpsertSql(target, columns, Percent, updated, eq), '%') == |columns|
  {
    JoinFree(columns, ", ", '%');
    AssignmentsFree(updated, eq);
    PercentPlaceholders(columns);
    var head := "INSERT INTO " + target + " (" + Join(columns, ", ") + ") VALUES (";
    var d := Placeholders(Percent, columns);
    var tail := ")" + " ON DUPLICATE KEY UPDATE " + Assignments(updated, eq);
    assert UpsertSql(target, columns, Percent, updated, eq) == head + d + tail;
    CountFree(head, '%');
    CountFree(tail, '%');
    CountConcat(head, d, '%');
    CountConcat(head + d, tail, '%');
  }

  /** Every updated column has its `col=VALUES(col)` assignment in the
      statement. */
  lemma UpsertUpdates(target: string, columns: seq<string>, style: Style, updated: seq<string>, eq: string, i: nat)
    requires i < |updated|
    ensures Contains(UpsertSql(target, columns, style, updated, eq), Assignment(updated[i], eq))
  {
    var parts := seq(|updated|, k requires 0 <= k < |updated| => Assignment(updated[k], eq));
    var pre, post := JoinPiece(parts, ", ", i);
    var head := InsertSql(target, columns, style) + " ON DUPLICATE KEY UPDATE ";
    assert UpsertSql(target, columns, style, updated, eq) == (head + pre) + Assignment(updated[i], eq) + post;
    ContainsPiece(head + pre, Assignment(updated[i], eq), post);
  }

  /** Every column of a named-parameter insert has its `:name` placeholder. */
  lemma InsertNamesColumns(target: string, columns: seq<string>, i: nat)
    requires i < |columns|
    ensures Contains(InsertSql(target, columns, Colon), ":" + columns[i])
  {
    var parts := seq(|columns|, k requires 0 <= k < |columns| => Placeholder(Colon, columns[k]));
    var pre, post := JoinPiece(parts, ", ", i);
    var head := "INSERT INTO " + target + " (" + Join(columns, ", ") + ") VALUES (";
    assert InsertSql(target, columns, Colon) == (head + pre) + (":" + columns[i]) + (post + ")");
    ContainsPiece(head + pre, ":" + columns[i], post + ")");
  }

  /** The mapped statement inserts with one placeholder per column and
      updates every column. */
  lemma MappedUpsertShape(target: string, columns: seq<string>)
    requires NoPercent(target)
    requires forall i :: 0 <= i < |columns| ==> NoPercent(columns[i])
    ensures Count(Sql(MappedUpsert(target, columns, Percent)), '%') == |columns|
    ensures forall i :: 0 <= i < |columns| ==>
      Contains(Sql(MappedUpsert(target, columns, Percent)), Assignment(columns[i], "="))
  {
    UpsertPlaceholderCount(target, columns, columns, "=");
    forall i | 0 <= i < |columns|
      ensures Contains(Sql(MappedUpsert(target, columns, Percent)), Assignment(columns[i], "="))
    {
      UpsertUpdates(target, columns, Percent, columns, "=", i);
    }
  }

  /** The user statement has one placeholder per column: 7. */
  lemma UsuarioPlaceholders(schema: string)
    requires NoPercent(schema)
    ensures Count(Sql(UsuarioStatement(schema)), '%') == 7
  {
    var target := Qualified(schema, "Usuario");
    NoPercentConcat(schema, ".Usuario");
    UsuarioColumnsClean();
    assert Sql(UsuarioStatement(schema)) == UpsertSql(target, UsuarioColumns, Percent, UsuarioColumns[1..], " = ");
    UpsertPlaceholderCount(target, UsuarioColumns, UsuarioColumns[1..], " = ");
  }

  /** The user statement assigns every column but the key `id_usuario`. */
  lemma UsuarioUpdates(schema: string)
    ensures forall i :: 1 <= i < 7 ==> Contains(Sql(UsuarioStatement(schema)), Assignment(UsuarioColumns[i], " = "))
  {
    var target := Qualified(schema, "Usuario");
    assert Sql(UsuarioStatement(schema)) == UpsertSql(target, UsuarioColumns, Percent, UsuarioColumns[1..], " = ");
    forall i | 1 <= i < 7 ensures Contains(Sql(UsuarioStatement(schema)), Assignment(UsuarioColumns[i], " = ")) {
      UpsertUpdates(target, UsuarioColumns, Percent, UsuarioColumns[1..], " = ", i - 1);
    }
  }

  /** The document statement has one placeholder per column: 6. */
  lemma DocumentoPlaceholders(schema: string)
    requires NoPercent(schema)
    ensures Count(Sql(DocumentoStatement(schema)), '%') == 6
  {
    var target := Qualified(schema, "Documento");
    NoPercentConcat(schema, ".Documento");
    DocumentoColumnsClean();
    assert Sql(DocumentoStatement(schema)) == UpsertSql(target, DocumentoColumns, Percent, DocumentoColumns[1..], " = ");
    UpsertPlaceholderCount(target, DocumentoColumns, DocumentoColumns[1..], " = ");
  }

  /** The document statement assigns every column but the key `id_documento`. */
  lemma DocumentoUpdates(schema: string)
    ensures forall i :: 1 <= i < 6 ==> Contains(Sql(DocumentoStatement(schema)), Assignment(DocumentoColumns[i], " = "))
  {
    var target := Qualified(schema, "Documento");
    assert Sql(DocumentoStatement(schema)) == UpsertSql(target, DocumentoColumns, Percent, DocumentoColumns[1..], " = ");
    forall i | 1 <= i < 6 ensures Contains(Sql(DocumentoStatement(schema)), Assignment(DocumentoColumns[i], " = ")) {
      UpsertUpdates(target, DocumentoColumns, Percent, DocumentoColumns[1..], " = ", i - 1);
    }
  }

  lemma UsuarioColumnsClean()
    ensures forall i :: 0 <= i < |UsuarioColumns| ==> NoPercent(UsuarioColumns[i])
    ensures forall i :: 0 <= i < |UsuarioColumns[1..]| ==> NoPercent(UsuarioColumns[1..][i])
  {
  }

  lemma DocumentoColumnsClean()
    ensures forall i :: 0 <= i < |DocumentoColumns| ==> NoPercent(DocumentoColumns[i])
    ensures forall i :: 0 <= i < |DocumentoColumns[1..]| ==> NoPercent(DocumentoColumns[1..][i])
  {
  }

  lemma NoPercentConcat(a: string, b: string)
    requires NoPercent(a) && NoPercent(b)
    ensures NoPercent(a + b)
  {
  }
}
