/** The configurable row mapper: every configured table gets one tuple per
    non-empty CSV row, each column of the tuple filled from its source — a
    field of the row, a constant, a function tag or nothing — and then
    optionally transformed.  Three copies of this code exist; `Variant`
    records the points where they differ. */
module Mapper {
  import opened Values
  import opened Clock
  import opened Transforms

  /** A column's `source` (`origem`) dict; any of its keys may be missing. */
  datatype Source = Source(kind: Option<string>, index: Option<int>, value: Option<Cell>, transform: Option<string>)

  /** A column of a table mapping; its `source` key may be missing. */
  datatype Column = Column(name: string, source: Option<Source>)

  /** A table mapping: `{'name': ..., 'columns': [...]}` (or `tabela`/`colunas`). */
  datatype Table = Table(name: string, columns: seq<Column>)

  datatype Variant =
    | ProcessFile // process_file of s3-to-rds-v2/app.py and of v1_leitura_py_padrao_sql.py
    | ProcessCsv  // DataProcessor.process_csv of s3tords
    | Processar   // ProcessadorArquivo.processar of lambdaS3-RDS

  /** The field a `column` source picks: `None` when the index is not below
      `len(row)`, Python's negative indexing otherwise (too negative an
      index raises IndexError). */
  function Extract(row: seq<string>, index: int): Result<Cell> {
    if index >= |row| then Ok(Null)
    else if index >= 0 then Ok(Str(row[index]))
    else if index >= -|row| then Ok(Str(row[|row| + index]))
    else Err(IndexError)
  }

  /** `transform_value(None, source['value'])`: a tag that is not a string
      matches no branch and gives back `None`. */
  function FunctionValue(tag: Cell, now: Instant): Result<Cell> {
    if tag.Str? then TransformValue(Null, tag.s, now) else Ok(Null)
  }

  /** The value chosen by `source['type']`, before the transform. */
  function SourceValue(row: seq<string>, src: Source, now: Instant): Result<Cell> {
    if src.kind.None? then Err(KeyError)
    else if src.kind.value == "column" then
      (if src.index.None? then Err(KeyError) else Extract(row, src.index.value))
    else if src.kind.value == "constant" then
      (if src.value.None? then Err(KeyError) else Ok(src.value.value))
    else if src.kind.value == "function" then
      (if src.value.None? then Err(KeyError) else FunctionValue(src.value.value, now))
    else Ok(Null)
  }

  /** The inner `try` of process_file and `_get_column_value` of s3tords:
      a value that is not `None` is transformed when `transform` is given. */
  function ResolveSource(row: seq<string>, src: Source, now: Instant): Result<Cell> {
    match SourceValue(row, src, now)
    case Err(e) => Err(e)
    case Ok(v) =>
      if v != Null && src.transform.Some? then TransformValue(v, src.transform.value, now) else Ok(v)
  }

  /** The value chosen by `origem['tipo']` in `_obter_valor_coluna`; a
      `funcao` starts from `None`. */
  function OrigemValue(row: seq<string>, src: Source): Result<Cell> {
    if src.kind.None? then Err(KeyError)
    else if src.kind.value == "coluna" then
      (if src.index.None? then Err(KeyError) else Extract(row, src.index.value))
    else if src.kind.value == "constante" then
      (if src.value.None? then Err(KeyError) else Ok(src.value.value))
    else Ok(Null)
  }

  /** `_obter_valor_coluna`: a non-`None` value with `transformacao` is
      transformed; otherwise a `funcao` applies its tag to `None`. */
  function ResolveOrigem(row: seq<string>, src: Source, now: Instant): Result<Cell> {
    match OrigemValue(row, src)
    case Err(e) => Err(e)
    case Ok(v) =>
      if v != Null && src.transform.Some? then AplicarTransformacao(v, src.transform.value, now)
      else if src.kind == Some("funcao") then
        (if src.value.None? then Err(KeyError)
         else if src.value.value.Str? then AplicarTransformacao(Null, src.value.value.s, now)
         else Ok(Null))
      else Ok(v)
  }

  function Resolve(variant: Variant, row: seq<string>, src: Source, now: Instant): Result<Cell> {
    if variant == Processar then ResolveOrigem(row, src, now) else ResolveSource(row, src, now)
  }

  /** The cell a column contributes: any exception raised while resolving
      it is caught per column and recorded as `None`. */
  function CellOf(variant: Variant, row: seq<string>, col: Column, now: Instant): Cell {
    match col.source
    case None => Null
    case Some(src) =>
      match Resolve(variant, row, src, now)
      case Ok(v) => v
      case Err(_) => Null
  }

  /** In process_file `col['source']` is read outside the per-column `try`,
      so a column without a source abandons the rest of the row. */
  predicate Aborts(variant: Variant, t: Table) {
    variant == ProcessFile && exists k :: 0 <= k < |t.columns| && t.columns[k].source.None?
  }

  /** `tuple(values)` for one table and one row. */
  function TupleOf(variant: Variant, row: seq<string>, t: Table, now: Instant): seq<Cell> {
    seq(|t.columns|, k requires 0 <= k < |t.columns| => CellOf(variant, row, t.columns[k], now))
  }

  /** The result dict: its keys in insertion order, and each key's list. */
  datatype TableData = TableData(names: seq<string>, lists: map<string, seq<seq<Cell>>>)

  /** The keys of `{table['name']: [] for table in tables}`, in order: a
      repeated name keeps its first position. */
  function Names(tables: seq<Table>): (names: seq<string>)
    ensures forall a, b :: 0 <= a < b < |names| ==> names[a] != names[b]
    ensures forall n :: n in names <==> exists i :: 0 <= i < |tables| && tables[i].name == n
    decreases |tables|
  {
    if tables == [] then []
    else
      var front := Names(tables[..|tables| - 1]);
      var n := tables[|tables| - 1].name;
      assert forall i :: 0 <= i < |tables| - 1 ==> tables[..|tables| - 1][i] == tables[i];
      if n in front then front else front + [n]
  }

  function Empty(tables: seq<Table>): TableData {
    TableData(Names(tables), map n | n in Names(tables) :: [])
  }

  function Append(td: TableData, name: string, tuple: seq<Cell>): TableData
    requires name in td.lists
  {
    td.(lists := td.lists[name := td.lists[name] + [tuple]])
  }

  predicate HasKeys(td: TableData, tables: seq<Table>) {
    forall i :: 0 <= i < |tables| ==> tables[i].name in td.lists
  }

  /** The loop over the tables for one non-empty row: each table appends its
      tuple, until a table abandons the row. */
  function AddTables(variant: Variant, td: TableData, row: seq<string>, tables: seq<Table>, now: Instant): (r: TableData)
    requires HasKeys(td, tables)
    ensures r.names == td.names && r.lists.Keys == td.lists.Keys
    decreases |tables|
  {
    if tables == [] || Aborts(variant, tables[0]) then td
    else AddTables(variant, Append(td, tables[0].name, TupleOf(variant, row, tables[0], now)), row, tables[1..], now)
  }

  /** One row: an empty row is skipped. */
  function AddRow(variant: Variant, td: TableData, row: seq<string>, tables: seq<Table>, now: Instant): (r: TableData)
    requires HasKeys(td, tables)
    ensures r.names == td.names && r.lists.Keys == td.lists.Keys
  {
    if row == [] then td else AddTables(variant, td, row, tables, now)
  }

  /** The result of the mapper for the given rows. */
  function MapRows(variant: Variant, rows: seq<seq<string>>, tables: seq<Table>, now: Instant): (r: TableData)
    ensures r.names == Names(tables)
    ensures r.lists.Keys == set n | n in Names(tables)
    ensures HasKeys(r, tables)
    decreases |rows|
  {
    if rows == [] then Empty(tables)
    else AddRow(variant, MapRows(variant, rows[..|rows| - 1], tables, now), rows[|rows| - 1], tables, now)
  }

  /** The mapper: the dict of lists filled in the row, table and column
      loops. */
  method MapFile(variant: Variant, rows: seq<seq<string>>, tables: seq<Table>, now: Instant) returns (td: TableData)
    ensures td == MapRows(variant, rows, tables, now)
  {
    td := Empty(tables);
    var i := 0;
    while i < |rows|
      invariant 0 <= i <= |rows|
      invariant td == MapRows(variant, rows[..i], tables, now)
    {
      MapRowsStep(variant, rows, tables, now, i);
      if rows[i] != [] {
        td := MapRow(variant, td, rows[i], tables, now);
      }
      i := i + 1;
    }
    assert rows[..|rows|] == rows;
  }

  /** The rows loop takes one more row. */
  lemma MapRowsStep(variant: Variant, rows: seq<seq<string>>, tables: seq<Table>, now: Instant, i: nat)
    requires i < |rows|
    ensures HasKeys(MapRows(variant, rows[..i], tables, now), tables)
    ensures MapRows(variant, rows[..i + 1], tables, now) == AddRow(variant, MapRows(variant, rows[..i], tables, now), rows[i], tables, now)
  {
    assert rows[..i + 1][..i] == rows[..i];
  }

  /** The tables loop for one non-empty row. */
  method MapRow(variant: Variant, td: TableData, row: seq<string>, tables: seq<Table>, now: Instant) returns (r: TableData)
    requires HasKeys(td, tables)
    ensures r == AddTables(variant, td, row, tables, now)
  {
    r := td;
    var j := 0;
    while j < |tables|
      invariant 0 <= j <= |tables|
      invariant HasKeys(r, tables[j..]) && r.lists.Keys == td.lists.Keys
      invariant AddTables(variant, r, row, tables[j..], now) == AddTables(variant, td, row, tables, now)
    {
      var t := tables[j];
      assert tables[j..][1..] == tables[j + 1..];
      var values, abandoned := MapColumns(variant, row, t, now);
      if abandoned {
        return;
      }
      r := Append(r, t.name, values);
      j := j + 1;
    }
  }

  /** The columns loop for one table: the tuple, or the notice that a
      missing `source` abandoned the row. */
  method MapColumns(variant: Variant, row: seq<string>, t: Table, now: Instant) returns (values: seq<Cell>, abandoned: bool)
    ensures abandoned == Aborts(variant, t)
    ensures !abandoned ==> values == TupleOf(variant, row, t, now)
  {
    values := [];
    var k := 0;
    while k < |t.columns|
      invariant 0 <= k <= |t.columns|
      invariant |values| == k
      invariant forall m :: 0 <= m < k ==> values[m] == CellOf(variant, row, t.columns[m], now)
      invariant variant == ProcessFile ==> forall m :: 0 <= m < k ==> t.columns[m].source.Some?
    {
      var col := t.columns[k];
      if variant == ProcessFile && col.source.None? {
        return values, true;
      }
      values := values + [CellOf(variant, row, col, now)];
      k := k + 1;
    }
    abandoned := false;
  }

  // ---------------------------------------------------------------------
  // What the mapper promises.

  /** The rows that are not empty, in order. */
  function NonEmpty(rows: seq<seq<string>>): seq<seq<string>>
    decreases |rows|
  {
    if rows == [] then []
    else NonEmpty(rows[..|rows| - 1]) + (if rows[|rows| - 1] == [] then [] else [rows[|rows| - 1]])
  }

  /** One tuple of table `t` per given row, in order. */
  function Tuples(variant: Variant, rows: seq<seq<string>>, t: Table, now: Instant): seq<seq<Cell>> {
    seq(|rows|, i requires 0 <= i < |rows| => TupleOf(variant, rows[i], t, now))
  }

  predicate DistinctNames(tables: seq<Table>) {
    forall a, b :: 0 <= a < b < |tables| ==> tables[a].name != tables[b].name
  }

  /** No table up to index `j` abandons the row, so table `j` is reached. */
  predicate Reached(variant: Variant, tables: seq<Table>, j: nat) {
    forall i :: 0 <= i <= j && i < |tables| ==> !Aborts(variant, tables[i])
  }

  /** One row appends exactly one tuple to each table it reaches and leaves
      every other list alone. */
  lemma {:induction false} AddTablesEffect(variant: Variant, td: TableData, row: seq<string>, tables: seq<Table>, now: Instant, j: nat)
    requires HasKeys(td, tables) && DistinctNames(tables) && j < |tables|
    ensures AddTables(variant, td, row, tables, now).lists[tables[j].name]
      == td.lists[tables[j].name] + (if Reached(variant, tables, j) then [TupleOf(variant, row, tables[j], now)] else [])
    decreases |tables|
  {
    if Aborts(variant, tables[0]) {
      assert !Reached(variant, tables, j);
    } else {
      var td' := Append(td, tables[0].name, TupleOf(variant, row, tables[0], now));
      assert HasKeys(td', tables[1..]);
      assert DistinctNames(tables[1..]);
      if j == 0 {
        assert Reached(variant, tables, 0);
        AddTablesUntouched(variant, td', row, tables[1..], now, tables[0].name);
      } else {
        AddTablesEffect(variant, td', row, tables[1..], now, j - 1);
        assert tables[1..][j - 1] == tables[j];
        assert tables[0].name != tables[j].name;
        assert Reached(variant, tables, j) == Reached(variant, tables[1..], j - 1) by {
          assert forall i :: 1 <= i <= j ==> tables[1..][i - 1] == tables[i];
        }
      }
    }
  }

  /** A name that none of the tables carries keeps its list. */
  lemma {:induction false} AddTablesUntouched(variant: Variant, td: TableData, row: seq<string>, tables: seq<Table>, now: Instant, name: string)
    requires HasKeys(td, tables) && name in td.lists
    requires forall i :: 0 <= i < |tables| ==> tables[i].name != name
    ensures AddTables(variant, td, row, tables, now).lists[name] == td.lists[name]
    decreases |tables|
  {
    if tables != [] && !Aborts(variant, tables[0]) {
      var td' := Append(td, tables[0].name, TupleOf(variant, row, tables[0], now));
      assert HasKeys(td', tables[1..]);
      AddTablesUntouched(variant, td', row, tables[1..], now, name);
    }
  }

  lemma TuplesSnoc(variant: Variant, rows: seq<seq<string>>, row: seq<string>, t: Table, now: Instant)
    ensures Tuples(variant, rows + [row], t, now) == Tuples(variant, rows, t, now) + [TupleOf(variant, row, t, now)]
  {
  }

  /** The mapper's result, table by table: with distinct table names, every
      table that no earlier table cuts off holds one tuple per non-empty row,
      in row order; a table that is cut off holds nothing. */
  lemma {:induction false} MapRowsTable(variant: Variant, rows: seq<seq<string>>, tables: seq<Table>, now: Instant, j: nat)
    requires DistinctNames(tables) && j < |tables|
    ensures MapRows(variant, rows, tables, now).lists[tables[j].name]
      == if Reached(variant, tables, j) then Tuples(variant, NonEmpty(rows), tables[j], now) else []
    decreases |rows|
  {
    if rows == [] {
      assert tables[j].name in Names(tables);
    } else {
      var front := rows[..|rows| - 1];
      var last := rows[|rows| - 1];
      MapRowsTable(variant, front, tables, now, j);
      if last != [] {
        AddTablesEffect(variant, MapRows(variant, front, tables, now), last, tables, now, j);
        TuplesSnoc(variant, NonEmpty(front), last, tables[j], now);
      }
    }
  }

  /** Hence a reached table has exactly one tuple per non-empty row, and
      every tuple is as long as its table has columns. */
  lemma MapRowsCounts(variant: Variant, rows: seq<seq<string>>, tables: seq<Table>, now: Instant, j: nat)
    requires DistinctNames(tables) && j < |tables|
    ensures Reached(variant, tables, j) ==> |MapRows(variant, rows, tables, now).lists[tables[j].name]| == |NonEmpty(rows)|
    ensures forall u :: u in MapRows(variant, rows, tables, now).lists[tables[j].name] ==> |u| == |tables[j].columns|
  {
    MapRowsTable(variant, rows, tables, now, j);
  }

  /** Every configured table name is a key of the result, and nothing else. */
  lemma MapRowsKeys(variant: Variant, rows: seq<seq<string>>, tables: seq<Table>, now: Instant)
    ensures forall i :: 0 <= i < |tables| ==> tables[i].name in MapRows(variant, rows, tables, now).lists
    ensures forall n :: n in MapRows(variant, rows, tables, now).lists ==> exists i :: 0 <= i < |tables| && tables[i].name == n
  {
  }

  /** Empty rows add nothing. */
  lemma EmptyRowsIgnored(variant: Variant, rows: seq<seq<string>>, tables: seq<Table>, now: Instant)
    ensures MapRows(variant, rows + [[]], tables, now) == MapRows(variant, rows, tables, now)
  {
    assert (rows + [[]])[..|rows|] == rows;
  }

  /** Column isolation: position `k` of a tuple depends on column `k` alone,
      and a column whose resolution raises holds `None`. */
  lemma TupleIsolation(variant: Variant, row: seq<string>, t: Table, now: Instant, k: nat, c: Column)
    requires k < |t.columns|
    ensures var u := TupleOf(variant, row, t.(columns := t.columns[k := c]), now);
      |u| == |t.columns| && u[k] == CellOf(variant, row, c, now)
      && forall i :: 0 <= i < |u| && i != k ==> u[i] == TupleOf(variant, row, t, now)[i]
    ensures c.source.Some? && Resolve(variant, row, c.source.value, now).Err? ==> CellOf(variant, row, c, now) == Null
  {
  }

  // ---------------------------------------------------------------------
  // The column rules of process_file and process_csv.

  /** A `column` source: an index at or past the end gives `None` even with
      a transform; an index inside the row gives that field (transformed
      when asked). */
  lemma ColumnSourceRule(row: seq<string>, index: int, transform: Option<string>, now: Instant)
    ensures var src := Source(Some("column"), Some(index), None, transform);
      (index >= |row| ==> ResolveSource(row, src, now) == Ok(Null))
      && (0 <= index < |row| && transform.None? ==> ResolveSource(row, src, now) == Ok(Str(row[index])))
      && (0 <= index < |row| && transform.Some? ==>
            ResolveSource(row, src, now) == TransformValue(Str(row[index]), transform.value, now))
  {
  }

  /** A `constant` is transformed when it is not `None` and carries a
      `transform` key. */
  lemma ConstantSourceRule(row: seq<string>, v: Cell, tag: string, now: Instant)
    ensures v != Null ==>
      ResolveSource(row, Source(Some("constant"), None, Some(v), Some(tag)), now) == TransformValue(v, tag, now)
    ensures ResolveSource(row, Source(Some("constant"), None, Some(v), None), now) == Ok(v)
    ensures ResolveSource(row, Source(Some("constant"), None, Some(Null), Some(tag)), now) == Ok(Null)
  {
  }

  /** A `function` source ignores the row; an unknown type gives `None`; a
      missing type raises, which the caller records as `None`. */
  lemma OtherSourceRules(row: seq<string>, row': seq<string>, src: Source, now: Instant)
    ensures src.kind == Some("function") ==> ResolveSource(row, src, now) == ResolveSource(row', src, now)
    ensures src.kind == Some("function") && src.value == Some(Str("now")) && src.transform.None? ==>
      ResolveSource(row, src, now) == Ok(Str(Timestamp(now)))
    ensures src.kind.Some? && src.kind.value !in {"column", "constant", "function"} ==> ResolveSource(row, src, now) == Ok(Null)
    ensures src.kind.None? ==>
      ResolveSource(row, src, now) == Err(KeyError) && CellOf(ProcessCsv, row, Column("c", Some(src)), now) == Null
  {
  }

  /** A missing `source` gives `None` in process_csv but abandons the row in
      process_file. */
  lemma MissingSourceRule(row: seq<string>, t: Table, now: Instant, k: nat)
    requires k < |t.columns| && t.columns[k].source.None?
    ensures TupleOf(ProcessCsv, row, t, now)[k] == Null
    ensures Aborts(ProcessFile, t) && !Aborts(ProcessCsv, t) && !Aborts(Processar, t)
  {
  }

  // ---------------------------------------------------------------------
  // The column rules of processar.

  /** A `coluna` source past the end stays `None`; a `constante` is
      transformed when not `None`; a `funcao` always applies its tag to
      `None`, whatever `transformacao` says, and ignores the row. */
  lemma OrigemRules(row: seq<string>, row': seq<string>, src: Source, now: Instant)
    ensures src.kind == Some("coluna") && src.index.Some? && src.index.value >= |row| ==> ResolveOrigem(row, src, now) == Ok(Null)
    ensures src.kind == Some("constante") && src.value.Some? && src.value.value != Null && src.transform.Some? ==>
      ResolveOrigem(row, src, now) == AplicarTransformacao(src.value.value, src.transform.value, now)
    ensures src.kind == Some("funcao") && src.value.Some? && src.value.value.Str? ==>
      ResolveOrigem(row, src, now) == AplicarTransformacao(Null, src.value.value.s, now)
      && ResolveOrigem(row, src, now) == ResolveOrigem(row', src, now)
    ensures src.kind.Some? && src.kind.value !in {"coluna", "constante", "funcao"} ==> ResolveOrigem(row, src, now) == Ok(Null)
  {
  }
}
