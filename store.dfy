/** Writing a mapper's result table by table, as the `save_to_db` functions of
    s3-to-rds-v2/app.py and v1_leitura_py_padrao_sql.py do: tables without
    rows are skipped, and each table's tuples are sent in slices under the
    statement built from the column names the mapping gives that table. */
module Store {
  import opened Values
  import opened Effects
  import opened Slicing
  import opened Batching
  import opened Sql
  import opened Mapper

  function ColumnNames(t: Table): seq<string> {
    seq(|t.columns|, k requires 0 <= k < |t.columns| => t.columns[k].name)
  }

  /** `[col['name'] for table in tables if table['name'] == name for col in
      table['columns']]`: the columns of every table of that name, in order. */
  function ColumnsFor(tables: seq<Table>, name: string): seq<string>
    decreases |tables|
  {
    if tables == [] then []
    else (if tables[0].name == name then ColumnNames(tables[0]) else []) + ColumnsFor(tables[1..], name)
  }

  /** For a name carried by one table only, its own column names. */
  lemma {:induction false} ColumnsForUnique(tables: seq<Table>, j: nat)
    requires DistinctNames(tables) && j < |tables|
    ensures ColumnsFor(tables, tables[j].name) == ColumnNames(tables[j])
    decreases |tables|
  {
    if j == 0 {
      ColumnsForAbsent(tables[1..], tables[0].name);
    } else {
      assert tables[1..][j - 1] == tables[j];
      assert DistinctNames(tables[1..]);
      ColumnsForUnique(tables[1..], j - 1);
    }
  }

  lemma {:induction false} ColumnsForAbsent(tables: seq<Table>, name: string)
    requires forall i :: 0 <= i < |tables| ==> tables[i].name != name
    ensures ColumnsFor(tables, name) == []
    decreases |tables|
  {
    if tables != [] {
      ColumnsForAbsent(tables[1..], name);
    }
  }

  /** The statement for one table: `%s` or `:name` placeholders. */
  function Statement(schema: string, tables: seq<Table>, name: string, style: Style): Query {
    MappedUpsert(Qualified(schema, name), ColumnsFor(tables, name), style)
  }

  /** Positional tuples for `%s`; records zipped with the column names for
      `:name`. */
  function BindingFor(style: Style, columns: seq<string>): Binding {
    if style == Percent then ByPosition else ByName(columns)
  }

  /** The calls for one table's tuples. */
  function TablePlan(schema: string, style: Style, tables: seq<Table>, name: string, data: seq<seq<Cell>>, n: int): seq<Event> {
    SlicePlan(Statement(schema, tables, name, style), BindingFor(style, ColumnsFor(tables, name)), SlicesOf(data, n), false)
  }

  /** The tuples collected for a table (none for a name that is not a key). */
  function ListOf(td: TableData, name: string): seq<seq<Cell>> {
    if name in td.lists then td.lists[name] else []
  }

  /** The calls for the tables `names`, in order, skipping those without rows. */
  function StorePlan(schema: string, style: Style, tables: seq<Table>, td: TableData, names: seq<string>, n: int): seq<Event>
    decreases |names|
  {
    if names == [] then []
    else TableStep(schema, style, tables, td, names[0], n) + StorePlan(schema, style, tables, td, names[1..], n)
  }

  /** Some table has rows, so `range(0, len(data), 0)` is reached and raises. */
  predicate AnyRows(td: TableData, names: seq<string>)
  {
    exists i :: 0 <= i < |names| && ListOf(td, names[i]) != []
  }

  const RangeError: Error := ValueError("range() arg 3 must not be zero")

  /** The calls for one table: none when it has no rows. */
  function TableStep(schema: string, style: Style, tables: seq<Table>, td: TableData, name: string, n: int): seq<Event>
  {
    if ListOf(td, name) == [] then [] else TablePlan(schema, style, tables, name, ListOf(td, name), n)
  }

  /** One iteration: `if not data: continue`, then the slice loop. */
  method StoreTable(env: Env, schema: string, style: Style, tables: seq<Table>, td: TableData, name: string, n: int)
    returns (ok: bool)
    requires n != 0
    modifies env
    ensures env.trace == old(env.trace) + Attempt(env.world, |old(env.trace)|, TableStep(schema, style, tables, td, name, n))
    ensures ok == Completes(env.world, |old(env.trace)|, TableStep(schema, style, tables, td, name, n))
  {
    var data := ListOf(td, name);
    if data == [] {
      AttemptComplete(env.world, |env.trace|, []);
      return true;
    }
    var columns := ColumnsFor(tables, name);
    ok := ExecuteSlices(env, Statement(schema, tables, name, style), BindingFor(style, columns), data, n, false);
  }

  /** The table loop's pass over `names[j]`, after the calls `done`. */
  method TableIteration(env: Env, schema: string, style: Style, tables: seq<Table>, td: TableData, names: seq<string>,
                        j: nat, n: int, ghost t0: seq<Event>, ghost done: seq<Event>)
    returns (ok: bool, ghost step: seq<Event>)
    requires n != 0 && j < |names|
    requires env.trace == t0 + done && Completes(env.world, |t0|, done)
    modifies env
    ensures ok ==>
      env.trace == t0 + (done + step) && Completes(env.world, |t0|, done + step)
      && StorePlan(schema, style, tables, td, names[j..], n) == step + StorePlan(schema, style, tables, td, names[j + 1..], n)
    ensures !ok ==>
      env.trace == t0 + Attempt(env.world, |t0|, done + StorePlan(schema, style, tables, td, names[j..], n))
      && !Completes(env.world, |t0|, done + StorePlan(schema, style, tables, td, names[j..], n))
  {
    ghost var w := env.world;
    ghost var rest := StorePlan(schema, style, tables, td, names[j + 1..], n);
    step := TableStep(schema, style, tables, td, names[j], n);
    assert names[j..][1..] == names[j + 1..];
    assert StorePlan(schema, style, tables, td, names[j..], n) == step + rest;
    ok := StoreTable(env, schema, style, tables, td, names[j], n);
    if !ok {
      StepStops(w, t0, done, step, rest);
    } else {
      StepGoes(w, t0, done, step);
    }
  }

  /** The loop over `table_data.items()` for a step that is not zero. */
  method StoreTables(env: Env, schema: string, style: Style, tables: seq<Table>, td: TableData, n: int) returns (ok: bool)
    requires n != 0
    modifies env
    ensures env.trace == old(env.trace) + Attempt(env.world, |old(env.trace)|, StorePlan(schema, style, tables, td, td.names, n))
    ensures ok == Completes(env.world, |old(env.trace)|, StorePlan(schema, style, tables, td, td.names, n))
  {
    ghost var t0 := env.trace;
    var names := td.names;
    ghost var plan := StorePlan(schema, style, tables, td, names, n);
    assert names[0..] == names;
    ghost var done: seq<Event> := [];
    var j := 0;
    while j < |names|
      invariant 0 <= j <= |names|
      invariant env.trace == t0 + done && Completes(env.world, |t0|, done)
      invariant plan == done + StorePlan(schema, style, tables, td, names[j..], n)
      decreases |names| - j
    {
      ghost var step;
      ok, step := TableIteration(env, schema, style, tables, td, names, j, n, t0, done);
      if !ok {
        return;
      }
      Assoc(done, step, StorePlan(schema, style, tables, td, names[j + 1..], n));
      done := done + step;
      j := j + 1;
    }
    assert names[j..] == [];
    assert plan == done;
    AttemptComplete(env.world, |t0|, plan);
    ok := true;
  }

  // ---------------------------------------------------------------------
  // What the plan sends.

  /** The positional tuples one call sends. */
  function RowsOf(e: Event): seq<seq<Cell>> {
    if e.Exec? && e.params.Positional? then e.params.rows else []
  }

  /** The named records one call sends. */
  function RecordsOf(e: Event): seq<map<string, Cell>> {
    if e.Exec? && e.params.Named? then Zipped(e.params.columns, e.params.rows) else []
  }

  /** The positional tuples the executes among `events` send, in order. */
  function SentRows(events: seq<Event>): seq<seq<Cell>>
    decreases |events|
  {
    if events == [] then [] else RowsOf(events[0]) + SentRows(events[1..])
  }

  /** The named records the executes among `events` send, in order. */
  function SentRecords(events: seq<Event>): seq<map<string, Cell>>
    decreases |events|
  {
    if events == [] then [] else RecordsOf(events[0]) + SentRecords(events[1..])
  }

  lemma SeqAssoc<T>(a: seq<T>, b: seq<T>, c: seq<T>)
    ensures a + (b + c) == (a + b) + c
  {
  }

  lemma SentConcat(a: seq<Event>, b: seq<Event>)
    ensures SentRows(a + b) == SentRows(a) + SentRows(b)
    ensures SentRecords(a + b) == SentRecords(a) + SentRecords(b)
  {
    SentRowsConcat(a, b);
    SentRecordsConcat(a, b);
  }

  lemma {:induction false} SentRowsConcat(a: seq<Event>, b: seq<Event>)
    ensures SentRows(a + b) == SentRows(a) + SentRows(b)
    decreases |a|
  {
    if a != [] {
      var h := RowsOf(a[0]);
      assert SentRows(a + b) == h + SentRows(a[1..] + b) by {
        assert (a + b)[0] == a[0];
        assert (a + b)[1..] == a[1..] + b;
      }
      SentRowsConcat(a[1..], b);
      SeqAssoc(h, SentRows(a[1..]), SentRows(b));
    } else {
      assert a + b == b;
    }
  }

  lemma {:induction false} SentRecordsConcat(a: seq<Event>, b: seq<Event>)
    ensures SentRecords(a + b) == SentRecords(a) + SentRecords(b)
    decreases |a|
  {
    if a != [] {
      var h := RecordsOf(a[0]);
      assert SentRecords(a + b) == h + SentRecords(a[1..] + b) by {
        assert (a + b)[0] == a[0];
        assert (a + b)[1..] == a[1..] + b;
      }
      SentRecordsConcat(a[1..], b);
      SeqAssoc(h, SentRecords(a[1..]), SentRecords(b));
    } else {
      assert a + b == b;
    }
  }

  /** The records of a named slice plan are the tuples zipped with the
      columns, in order. */
  function Zipped(columns: seq<string>, rows: seq<seq<Cell>>): seq<map<string, Cell>> {
    seq(|rows|, i requires 0 <= i < |rows| => ZipRecord(columns, rows[i]))
  }

  /** What the calls for one slice send. */
  lemma HeadSends(statement: Query, binding: Binding, batch: seq<seq<Cell>>, commitEach: bool)
    ensures var head := [Exec(statement, Bind(binding, batch))] + (if commitEach then [Commit] else []);
      SentRows(head) == (if binding.ByPosition? then batch else [])
      && SentRecords(head) == (if binding.ByName? then Zipped(binding.columns, batch) else [])
  {
    var e := Exec(statement, Bind(binding, batch));
    var tail: seq<Event> := if commitEach then [Commit] else [];
    SentConcat([e], tail);
    assert [e][1..] == [];
    if commitEach {
      assert tail[1..] == [];
    }
  }

  lemma ZippedConcat(columns: seq<string>, a: seq<seq<Cell>>, b: seq<seq<Cell>>)
    ensures Zipped(columns, a + b) == Zipped(columns, a) + Zipped(columns, b)
  {
  }

  lemma {:induction false} SlicePlanSends(statement: Query, binding: Binding, slices: seq<seq<seq<Cell>>>, commitEach: bool)
    ensures binding.ByPosition? ==> SentRows(SlicePlan(statement, binding, slices, commitEach)) == Flatten(slices)
    ensures binding.ByName? ==>
      SentRecords(SlicePlan(statement, binding, slices, commitEach)) == Zipped(binding.columns, Flatten(slices))
    decreases |slices|
  {
    if slices != [] {
      var head := [Exec(statement, Bind(binding, slices[0]))] + (if commitEach then [Commit] else []);
      var rest := SlicePlan(statement, binding, slices[1..], commitEach);
      assert SlicePlan(statement, binding, slices, commitEach) == head + rest;
      HeadSends(statement, binding, slices[0], commitEach);
      SlicePlanSends(statement, binding, slices[1..], commitEach);
      SentConcat(head, rest);
      assert Flatten(slices) == slices[0] + Flatten(slices[1..]);
      if binding.ByName? {
        ZippedConcat(binding.columns, slices[0], Flatten(slices[1..]));
      }
    }
  }

  /** The tuples of each table with rows, in key order. */
  function AllRows(td: TableData, names: seq<string>): seq<seq<Cell>>
    decreases |names|
  {
    if names == [] then [] else ListOf(td, names[0]) + AllRows(td, names[1..])
  }

  /** With a positive batch size, the positional plan sends every tuple of
      every table exactly once, table after table and in order. */
  lemma {:induction false} StorePlanSendsAll(schema: string, tables: seq<Table>, td: TableData, names: seq<string>, n: int)
    requires n > 0
    ensures SentRows(StorePlan(schema, Percent, tables, td, names, n)) == AllRows(td, names)
    decreases |names|
  {
    if names != [] {
      var data := ListOf(td, names[0]);
      StorePlanSendsAll(schema, tables, td, names[1..], n);
      var step := if data == [] then [] else TablePlan(schema, Percent, tables, names[0], data, n);
      SentConcat(step, StorePlan(schema, Percent, tables, td, names[1..], n));
      if data != [] {
        SlicePlanSends(Statement(schema, tables, names[0], Percent), ByPosition, Slices(data, n), false);
        SlicesCover(data, n);
      }
    }
  }

  /** With a positive batch size, the named plan sends every tuple of every
      table once, zipped with that table's column names. */
  lemma {:induction false} TablePlanSendsRecords(schema: string, tables: seq<Table>, name: string, data: seq<seq<Cell>>, n: int)
    requires n > 0
    ensures SentRecords(TablePlan(schema, Colon, tables, name, data, n)) == Zipped(ColumnsFor(tables, name), data)
  {
    SlicePlanSends(Statement(schema, tables, name, Colon), ByName(ColumnsFor(tables, name)), Slices(data, n), false);
    SlicesCover(data, n);
  }

  /** The records of each table with rows, in key order, each tuple
      zipped with the column names of its table. */
  function AllRecords(tables: seq<Table>, td: TableData, names: seq<string>): seq<map<string, Cell>>
    decreases |names|
  {
    if names == [] then [] else Zipped(ColumnsFor(tables, names[0]), ListOf(td, names[0])) + AllRecords(tables, td, names[1..])
  }

  /** With a positive batch size, the named plan sends every tuple of every
      table once, as a record zipped with its table's column names, table
      after table and in order. */
  lemma {:induction false} StorePlanSendsRecords(schema: string, tables: seq<Table>, td: TableData, names: seq<string>, n: int)
    requires n > 0
    ensures SentRecords(StorePlan(schema, Colon, tables, td, names, n)) == AllRecords(tables, td, names)
    decreases |names|
  {
    if names != [] {
      var data := ListOf(td, names[0]);
      StorePlanSendsRecords(schema, tables, td, names[1..], n);
      var step := if data == [] then [] else TablePlan(schema, Colon, tables, names[0], data, n);
      SentConcat(step, StorePlan(schema, Colon, tables, td, names[1..], n));
      if data != [] {
        TablePlanSendsRecords(schema, tables, names[0], data, n);
      }
    }
  }

  /** The slices of one table each hold between 1 and `n` tuples. */
  lemma SliceSizes(data: seq<seq<Cell>>, n: int)
    requires n > 0
    ensures forall k :: 0 <= k < |SlicesOf(data, n)| ==> 1 <= |SlicesOf(data, n)[k]| <= n
    ensures |SlicesOf(data, n)| == (|data| + n - 1) / n
  {
    SlicesSizes(data, n);
    SlicesCount(data, n);
  }

  /** A negative batch size makes `range` empty: nothing is sent. */
  lemma {:induction false} StorePlanNegative(schema: string, style: Style, tables: seq<Table>, td: TableData, names: seq<string>, n: int)
    requires n < 0
    ensures StorePlan(schema, style, tables, td, names, n) == []
    decreases |names|
  {
    if names != [] {
      StorePlanNegative(schema, style, tables, td, names[1..], n);
    }
  }

  /** No commit is part of the plan: the writers commit once, after it. */
  lemma {:induction false} StorePlanNoCommit(schema: string, style: Style, tables: seq<Table>, td: TableData, names: seq<string>, n: int)
    ensures forall i :: 0 <= i < |StorePlan(schema, style, tables, td, names, n)| ==>
      StorePlan(schema, style, tables, td, names, n)[i].Exec?
    decreases |names|
  {
    if names != [] {
      StorePlanNoCommit(schema, style, tables, td, names[1..], n);
      var data := ListOf(td, names[0]);
      if data != [] {
        SlicePlanExecs(Statement(schema, tables, names[0], style), BindingFor(style, ColumnsFor(tables, names[0])), SlicesOf(data, n));
      }
    }
  }

  lemma {:induction false} SlicePlanExecs(statement: Query, binding: Binding, slices: seq<seq<seq<Cell>>>)
    ensures |SlicePlan(statement, binding, slices, false)| == |slices|
    ensures forall i :: 0 <= i < |slices| ==>
      SlicePlan(statement, binding, slices, false)[i] == Exec(statement, Bind(binding, slices[i]))
    decreases |slices|
  {
    if slices != [] {
      SlicePlanExecs(statement, binding, slices[1..]);
    }
  }
}
