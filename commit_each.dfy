/** The batch upsert of s3tords (`DatabaseService.bulk_upsert`) and of
    lambdaS3-RDS (`GerenciadorMySQL.inserir_lote`), which are the same code:
    open a connection, send the tuples of one table slice by slice under an
    `INSERT ... ON DUPLICATE KEY UPDATE c=VALUES(c)` with `%s` placeholders,
    committing after every slice; a raising call is rolled back and
    re-raised as a database error, and the cursor and the connection are
    closed on every exit once the connection exists. */
module CommitEach {
  import opened Values
  import opened Effects
  import opened Slicing
  import opened Sql
  import opened Batching
  import opened Store
  import opened Transactions
  import opened Mapper

  /** The text put in front of the driver's message. */
  const Connecting: string := "Falha na conexão"
  const Persisting: string := "Falha na persistência"

  /** The statement for a table and its column names. */
  function Statement(table: string, columns: seq<string>): Query {
    MappedUpsert(table, columns, Percent)
  }

  /** The executes and commits of the slice loop when none raises. */
  function Plan(table: string, columns: seq<string>, data: seq<seq<Cell>>, n: int): seq<Event> {
    SlicePlan(Statement(table, columns), ByPosition, SlicesOf(data, n), true)
  }

  /** The run of one call whose first call (the connection) is the `p`-th:
      a failed connection raises at once, before any cursor exists. */
  function UpsertRun(w: World, p: nat, table: string, columns: seq<string>, data: seq<seq<Cell>>, n: int): Run<bool> {
    if p in w.fail then Run([Connect], Err(DatabaseFailure(Connecting, ClientError)))
    else Then([Connect], Connected(w, p + 1, table, columns, data, n))
  }

  /** The `try` block once connected, its first call being the `q`-th:
      `range()` with a zero step raises at once, a raising execute or commit
      stops the loop; either is rolled back, and `finally` closes the cursor
      and the connection. */
  function Connected(w: World, q: nat, table: string, columns: seq<string>, data: seq<seq<Cell>>, n: int): Run<bool> {
    if n == 0 then Run([Rollback, CloseCursor, Close], Err(DatabaseFailure(Persisting, RangeError)))
    else
      var plan := Plan(table, columns, data, n);
      var made := Attempt(w, q, plan);
      if Completes(w, q, plan) then Run(made + [CloseCursor, Close], Ok(true))
      else Run(made + [Rollback, CloseCursor, Close], Err(DatabaseFailure(Persisting, ClientError)))
  }

  /** The `except` and `finally` of a failed loop. */
  method RollbackAndClose(env: Env)
    modifies env
    ensures env.trace == old(env.trace) + [Rollback, CloseCursor, Close]
  {
    var _ := env.Call(Rollback);
    var _ := env.Call(CloseCursor);
    var _ := env.Call(Close);
  }

  method BulkUpsert(env: Env, table: string, columns: seq<string>, data: seq<seq<Cell>>, n: int) returns (r: Result<bool>)
    modifies env
    ensures env.trace == old(env.trace) + UpsertRun(env.world, |old(env.trace)|, table, columns, data, n).events
    ensures r == UpsertRun(env.world, |old(env.trace)|, table, columns, data, n).value
  {
    ghost var t0 := env.trace;
    var ok := env.Call(Connect);
    if !ok {
      return Err(DatabaseFailure(Connecting, ClientError));
    }
    ghost var rest := Connected(env.world, |t0| + 1, table, columns, data, n);
    r := SendTable(env, table, columns, data, n);
    Assoc(t0, [Connect], rest.events);
  }

  /** The `try` and `finally` blocks of `bulk_upsert`. */
  method SendTable(env: Env, table: string, columns: seq<string>, data: seq<seq<Cell>>, n: int) returns (r: Result<bool>)
    modifies env
    ensures env.trace == old(env.trace) + Connected(env.world, |old(env.trace)|, table, columns, data, n).events
    ensures r == Connected(env.world, |old(env.trace)|, table, columns, data, n).value
  {
    if n == 0 {
      RollbackAndClose(env);
      return Err(DatabaseFailure(Persisting, RangeError));
    }
    ghost var t0 := env.trace;
    var ok := ExecuteSlices(env, Statement(table, columns), ByPosition, data, n, true);
    ghost var made := env.trace[|t0|..];
    assert env.trace == t0 + made;
    if !ok {
      RollbackAndClose(env);
      Assoc(t0, made, [Rollback, CloseCursor, Close]);
      return Err(DatabaseFailure(Persisting, ClientError));
    }
    var _ := env.Call(CloseCursor);
    var _ := env.Call(Close);
    Assoc(t0, made, [CloseCursor, Close]);
    r := Ok(true);
  }

  // ---------------------------------------------------------------------
  // What stays in the database.

  /** How many leading slices had both their execute and their commit go
      through, the first slice's execute being the `pos`-th call. */
  function Committed(w: World, pos: nat, slices: seq<seq<seq<Cell>>>): (k: nat)
    ensures k <= |slices|
    decreases |slices|
  {
    if slices == [] || pos in w.fail || pos + 1 in w.fail then 0
    else 1 + Committed(w, pos + 2, slices[1..])
  }

  /** What ends the session: with a rollback after a failure, without one
      after success. */
  predicate Closing(tail: seq<Event>) {
    tail == [Rollback, CloseCursor, Close] || tail == [CloseCursor, Close]
  }

  /** Closing the session discards whatever is still pending. */
  lemma ClosingSettles(w: World, pos: nat, tail: seq<Event>, pending: seq<Event>)
    requires Closing(tail)
    ensures Settle(w, pos, tail, pending) == []
  {
    var close := [CloseCursor, Close];
    assert close[1..] == [Close] && [Close][1..] == [];
    if tail != close {
      assert tail[1..] == close;
    }
  }

  /** An execute that raised leaves nothing durable. */
  lemma SettleFailedExec(w: World, pos: nat, e: Event, tail: seq<Event>)
    requires pos in w.fail && e.Exec? && Closing(tail)
    ensures Settle(w, pos, [e] + tail, []) == []
  {
    assert ([e] + tail)[1..] == tail;
    ClosingSettles(w, pos + 1, tail, []);
  }

  /** A call that raised changes nothing in the session. */
  lemma SettleRaised(w: World, pos: nat, e: Event, rest: seq<Event>, pending: seq<Event>)
    requires Fails(w, pos, e)
    ensures Settle(w, pos, [e] + rest, pending) == Settle(w, pos + 1, rest, pending)
  {
    assert ([e] + rest)[1..] == rest;
  }

  /** An execute whose commit raised leaves nothing durable. */
  lemma SettleFailedCommit(w: World, pos: nat, e: Event, tail: seq<Event>)
    requires pos !in w.fail && pos + 1 in w.fail && e.Exec? && Closing(tail)
    ensures Settle(w, pos, [e] + [Commit] + tail, []) == []
  {
    var s := [e] + [Commit] + tail;
    assert s[1..] == [Commit] + tail;
    assert s[1..][1..] == tail;
    ClosingSettles(w, pos + 2, tail, [e]);
    SettleRaised(w, pos + 1, Commit, tail, [e]);
    assert [] + [e] == [e];
    assert Settle(w, pos, s, []) == Settle(w, pos + 1, [Commit] + tail, [e]);
  }

  /** An execute and its commit that went through make the execute
      durable. */
  lemma SettleCommitted(w: World, pos: nat, e: Event, more: seq<Event>)
    requires pos !in w.fail && pos + 1 !in w.fail && e.Exec?
    ensures Settle(w, pos, [e] + ([Commit] + more), []) == [e] + Settle(w, pos + 2, more, [])
  {
    var s := [e] + ([Commit] + more);
    assert s[1..] == [Commit] + more;
    assert s[1..][1..] == more;
  }

  /** What the loop leaves durable after the calls of `slices`, and
      whether they went through. */
  ghost predicate SettlesTo(w: World, pos: nat, statement: Query, slices: seq<seq<seq<Cell>>>, tail: seq<Event>) {
    Settle(w, pos, Attempt(w, pos, SlicePlan(statement, ByPosition, slices, true)) + tail, [])
      == SlicePlan(statement, ByPosition, slices[..Committed(w, pos, slices)], false)
    && (Completes(w, pos, SlicePlan(statement, ByPosition, slices, true)) <==> Committed(w, pos, slices) == |slices|)
  }

  /** The calls of the first slice, then those of the others. */
  lemma FirstSlice(statement: Query, slices: seq<seq<seq<Cell>>>)
    requires slices != []
    ensures SlicePlan(statement, ByPosition, slices, true)
      == [Exec(statement, Bind(ByPosition, slices[0]))] + ([Commit] + SlicePlan(statement, ByPosition, slices[1..], true))
  {
    assert slices == [slices[0]] + slices[1..];
    PlanStep(statement, ByPosition, slices[0], slices[1..], true);
  }

  /** The first execute raised. */
  lemma StepFailedExec(w: World, pos: nat, statement: Query, slices: seq<seq<seq<Cell>>>, tail: seq<Event>)
    requires slices != [] && Closing(tail) && pos in w.fail
    ensures SettlesTo(w, pos, statement, slices, tail)
  {
    var e := Exec(statement, Bind(ByPosition, slices[0]));
    var rest := SlicePlan(statement, ByPosition, slices[1..], true);
    FirstSlice(statement, slices);
    AttemptCons(w, pos, e, [Commit] + rest);
    SettleFailedExec(w, pos, e, tail);
    assert slices[..Committed(w, pos, slices)] == [];
  }

  /** The first commit raised. */
  lemma StepFailedCommit(w: World, pos: nat, statement: Query, slices: seq<seq<seq<Cell>>>, tail: seq<Event>)
    requires slices != [] && Closing(tail) && pos !in w.fail && pos + 1 in w.fail
    ensures SettlesTo(w, pos, statement, slices, tail)
  {
    var e := Exec(statement, Bind(ByPosition, slices[0]));
    var rest := SlicePlan(statement, ByPosition, slices[1..], true);
    FirstSlice(statement, slices);
    AttemptCons(w, pos, e, [Commit] + rest);
    AttemptCons(w, pos + 1, Commit, rest);
    assert Attempt(w, pos, [e] + ([Commit] + rest)) == [e] + [Commit];
    SettleFailedCommit(w, pos, e, tail);
    assert slices[..Committed(w, pos, slices)] == [];
  }

  /** The first slice was committed, and the others leave what they do. */
  lemma StepCommitted(w: World, pos: nat, statement: Query, slices: seq<seq<seq<Cell>>>, tail: seq<Event>)
    requires slices != [] && Closing(tail) && pos !in w.fail && pos + 1 !in w.fail
    requires SettlesTo(w, pos + 2, statement, slices[1..], tail)
    ensures SettlesTo(w, pos, statement, slices, tail)
  {
    var e := Exec(statement, Bind(ByPosition, slices[0]));
    var rest := SlicePlan(statement, ByPosition, slices[1..], true);
    FirstSlice(statement, slices);
    AttemptCons(w, pos, e, [Commit] + rest);
    AttemptCons(w, pos + 1, Commit, rest);
    CommittedDurable(w, pos, statement, slices, tail, e, Attempt(w, pos + 2, rest));
  }

  /** The durable part of `StepCommitted`. */
  lemma CommittedDurable(w: World, pos: nat, statement: Query, slices: seq<seq<seq<Cell>>>, tail: seq<Event>,
                         e: Event, more: seq<Event>)
    requires slices != [] && pos !in w.fail && pos + 1 !in w.fail
    requires e == Exec(statement, Bind(ByPosition, slices[0])) && e.Exec?
    requires Settle(w, pos + 2, more + tail, [])
      == SlicePlan(statement, ByPosition, slices[1..][..Committed(w, pos + 2, slices[1..])], false)
    ensures Settle(w, pos, [e] + ([Commit] + more) + tail, [])
      == SlicePlan(statement, ByPosition, slices[..Committed(w, pos, slices)], false)
  {
    var k := Committed(w, pos, slices);
    assert [e] + ([Commit] + more) + tail == [e] + ([Commit] + (more + tail));
    SettleCommitted(w, pos, e, more + tail);
    var front := slices[1..][..k - 1];
    assert slices[..k] == [slices[0]] + front;
    PlanStep(statement, ByPosition, slices[0], front, false);
    assert [e] + [] + SlicePlan(statement, ByPosition, front, false) == [e] + SlicePlan(statement, ByPosition, front, false);
  }

  /** The loop's calls followed by the close: the slices committed before
      the first raising call are durable, and nothing else is; the loop
      goes through exactly when every slice was committed. */
  lemma {:induction false} CommitEachSettles(w: World, pos: nat, statement: Query, slices: seq<seq<seq<Cell>>>, tail: seq<Event>)
    requires Closing(tail)
    ensures Settle(w, pos, Attempt(w, pos, SlicePlan(statement, ByPosition, slices, true)) + tail, [])
      == SlicePlan(statement, ByPosition, slices[..Committed(w, pos, slices)], false)
    ensures Completes(w, pos, SlicePlan(statement, ByPosition, slices, true)) <==> Committed(w, pos, slices) == |slices|
    decreases |slices|
  {
    if slices == [] {
      assert Attempt(w, pos, SlicePlan(statement, ByPosition, slices, true)) + tail == tail;
      ClosingSettles(w, pos, tail, []);
      assert slices[..Committed(w, pos, slices)] == [];
    } else {
      if pos in w.fail {
        StepFailedExec(w, pos, statement, slices, tail);
      } else if pos + 1 in w.fail {
        StepFailedCommit(w, pos, statement, slices, tail);
      } else {
        CommitEachSettles(w, pos + 2, statement, slices[1..], tail);
        StepCommitted(w, pos, statement, slices, tail);
      }
    }
  }

  /** The executes left in the database by one call: none when the
      connection failed or the step is zero, otherwise the slices committed
      before the first raising call; the call returns exactly when every
      slice was committed. */
  lemma UpsertDurable(w: World, p: nat, table: string, columns: seq<string>, data: seq<seq<Cell>>, n: int)
    ensures var r := UpsertRun(w, p, table, columns, data, n);
      var slices := SlicesOf(data, n);
      Durable(w, p, r.events)
        == (if p in w.fail || n == 0 then [] else SlicePlan(Statement(table, columns), ByPosition, slices[..Committed(w, p + 1, slices)], false))
      && (r.value.Ok? <==> p !in w.fail && n != 0 && Committed(w, p + 1, slices) == |slices|)
  {
    var r := UpsertRun(w, p, table, columns, data, n);
    assert r.events[0] == Connect && r.events == [Connect] + r.events[1..];
    if p in w.fail {
      assert r.events[1..] == [];
    } else if n == 0 {
      ClosingSettles(w, p + 1, [Rollback, CloseCursor, Close], []);
    } else {
      var slices := SlicesOf(data, n);
      var plan := Plan(table, columns, data, n);
      var tail: seq<Event> := if Completes(w, p + 1, plan) then [CloseCursor, Close] else [Rollback, CloseCursor, Close];
      CommitEachSettles(w, p + 1, Statement(table, columns), slices, tail);
      if Completes(w, p + 1, plan) {
        AttemptComplete(w, p + 1, plan);
      }
      assert r.events[1..] == Attempt(w, p + 1, plan) + tail;
    }
  }

  /** With a positive batch size the tuples left in the database are the
      first `k` slices, `k` being the slices committed before the first
      raising call: after a successful call, all of the data, in order. */
  lemma UpsertKeepsCommitted(w: World, p: nat, table: string, columns: seq<string>, data: seq<seq<Cell>>, n: int)
    requires n > 0 && p !in w.fail
    ensures var k := Committed(w, p + 1, Slices(data, n));
      SentRows(Durable(w, p, UpsertRun(w, p, table, columns, data, n).events)) == Flatten(Slices(data, n)[..k])
    ensures UpsertRun(w, p, table, columns, data, n).value.Ok? ==>
      SentRows(Durable(w, p, UpsertRun(w, p, table, columns, data, n).events)) == data
  {
    var slices := Slices(data, n);
    var k := Committed(w, p + 1, slices);
    UpsertDurable(w, p, table, columns, data, n);
    SlicePlanSends(Statement(table, columns), ByPosition, slices[..k], false);
    SlicesCover(data, n);
    assert k == |slices| ==> slices[..k] == slices;
  }

  /** Every call raises a database error carrying the connection or the
      persistence context; a connection failure makes no other call, and
      once connected the cursor and the connection are closed last, after
      a rollback when the call raises. */
  lemma UpsertShape(w: World, p: nat, table: string, columns: seq<string>, data: seq<seq<Cell>>, n: int)
    ensures var r := UpsertRun(w, p, table, columns, data, n);
      (p in w.fail <==> r.value == Err(DatabaseFailure(Connecting, ClientError)))
      && (p in w.fail ==> r.events == [Connect])
      && (p !in w.fail ==> |r.events| >= 3 && r.events[0] == Connect && r.events[|r.events| - 2..] == [CloseCursor, Close])
      && (p !in w.fail && r.value.Err? ==>
            r.events[|r.events| - 3] == Rollback && r.value.error.DatabaseFailure? && r.value.error.context == Persisting)
  {
  }

  /** With no data and a step that is not zero, no execute and no commit is
      issued. */
  lemma EmptyData(w: World, p: nat, table: string, columns: seq<string>, n: int)
    requires n != 0 && p !in w.fail
    ensures UpsertRun(w, p, table, columns, [], n) == Run([Connect, CloseCursor, Close], Ok(true))
  {
    var none: seq<seq<Cell>> := [];
    assert SlicesOf(none, n) == [];
  }

  // ---------------------------------------------------------------------
  // The loops over the tables that call the upsert once per table.

  /** The tables `names` from the `p`-th call, `table(q, name)` being the
      run of one table whose first call is the `q`-th: in order, stopping
      at the first that raises. */
  function EachTable(p: nat, names: seq<string>, table: (nat, string) -> Run<bool>): Run<bool>
    decreases |names|
  {
    if names == [] then Run([], Ok(true))
    else
      var r := table(p, names[0]);
      if r.value.Err? then r else Then(r.events, EachTable(p + |r.events|, names[1..], table))
  }

  /** The loop invariant carried past a table whose run made the calls
      `step` and returned. */
  lemma EachTableNext(p: nat, names: seq<string>, j: nat, done: seq<Event>, table: (nat, string) -> Run<bool>)
    requires j < |names| && table(p + |done|, names[j]).value.Ok?
    requires EachTable(p, names, table) == Then(done, EachTable(p + |done|, names[j..], table))
    ensures var step := table(p + |done|, names[j]).events;
      EachTable(p, names, table) == Then(done + step, EachTable(p + |done + step|, names[j + 1..], table))
  {
    var step := table(p + |done|, names[j]).events;
    assert names[j..][1..] == names[j + 1..];
    ThenAssoc(done, step, EachTable(p + |done + step|, names[j + 1..], table));
  }

  /** A table whose run raised ends the loop. */
  lemma EachTableStop(p: nat, names: seq<string>, j: nat, done: seq<Event>, table: (nat, string) -> Run<bool>)
    requires j < |names| && table(p + |done|, names[j]).value.Err?
    ensures Then(done, EachTable(p + |done|, names[j..], table))
      == Run(done + table(p + |done|, names[j]).events, table(p + |done|, names[j]).value)
  {
  }

  lemma EachTableDone(p: nat, names: seq<string>, done: seq<Event>, table: (nat, string) -> Run<bool>)
    ensures Then(done, EachTable(p, names[|names|..], table)) == Run(done, Ok(true))
  {
    assert names[|names|..] == [];
    assert done + [] == done;
  }

  /** When every table can raise only a ProcessingError, so can the loop. */
  lemma {:induction false} EachTableRaises(p: nat, names: seq<string>, table: (nat, string) -> Run<bool>)
    requires forall q: nat, j :: 0 <= j < |names| && table(q, names[j]).value.Err? ==> IsProcessingError(table(q, names[j]).value.error)
    ensures EachTable(p, names, table).value.Err? ==> IsProcessingError(EachTable(p, names, table).value.error)
    decreases |names|
  {
    if names != [] {
      var r := table(p, names[0]);
      if r.value.Ok? {
        assert forall j :: 0 <= j < |names[1..]| ==> names[1..][j] == names[j + 1];
        EachTableRaises(p + |r.events|, names[1..], table);
      }
    }
  }

  /** Whatever every table may raise, the loop may raise and nothing else. */
  lemma {:induction false} EachTableRaisesOnly(p: nat, names: seq<string>, table: (nat, string) -> Run<bool>, allowed: Error -> bool)
    requires forall q: nat, j :: 0 <= j < |names| && table(q, names[j]).value.Err? ==> allowed(table(q, names[j]).value.error)
    ensures EachTable(p, names, table).value.Err? ==> allowed(EachTable(p, names, table).value.error)
    decreases |names|
  {
    if names != [] {
      var r := table(p, names[0]);
      if r.value.Ok? {
        assert forall j :: 0 <= j < |names[1..]| ==> names[1..][j] == names[j + 1];
        EachTableRaisesOnly(p + |r.events|, names[1..], table, allowed);
      }
    }
  }

  // ---------------------------------------------------------------------
  // The table loop for a mapping

  /** `next(t for t in mapping if t['name'] == name)` (`t['tabela']` in
      lambdaS3-RDS): the first table of that name. */
  function FirstTable(tables: seq<Table>, name: string): (t: Option<Table>)
    ensures t.Some? ==> t.value.name == name && t.value in tables
    decreases |tables|
  {
    if tables == [] then None
    else if tables[0].name == name then Some(tables[0])
    else FirstTable(tables[1..], name)
  }

  /** The search finds exactly the tables that are mapped, and gives the
      first of them. */
  lemma {:induction false} FirstTableFound(tables: seq<Table>, name: string)
    ensures FirstTable(tables, name).Some? <==> name in Names(tables)
    ensures FirstTable(tables, name).Some? ==>
      exists i :: 0 <= i < |tables| && FirstTable(tables, name) == Some(tables[i])
        && forall j :: 0 <= j < i ==> tables[j].name != name
    decreases |tables|
  {
    if tables != [] && tables[0].name != name {
      FirstTableFound(tables[1..], name);
      assert forall j :: 1 <= j < |tables| ==> tables[1..][j - 1] == tables[j];
      if FirstTable(tables, name).Some? {
        var i :| 0 <= i < |tables[1..]| && FirstTable(tables[1..], name) == Some(tables[1..][i])
          && forall j :: 0 <= j < i ==> tables[1..][j].name != name;
        assert FirstTable(tables, name) == Some(tables[i + 1]);
      }
    } else if tables != [] {
      assert FirstTable(tables, name) == Some(tables[0]);
    }
  }

  /** One pass of the loop over the tables of the mapped data (`for
      table_name, data in table_data.items()`): a table
      without tuples is skipped, the others are upserted under the column
      names of their first mapping. */
  function TableRun(w: World, p: nat, tables: seq<Table>, batch: int, td: TableData, name: string): Run<bool> {
    var data := ListOf(td, name);
    if data == [] then Run([], Ok(true))
    else
      var t := FirstTable(tables, name);
      if t.None? then Run([], Err(StopIteration))
      else UpsertRun(w, p, name, ColumnNames(t.value), data, batch)
  }

  /** The run of every table, from every position. */
  function PerTable(w: World, tables: seq<Table>, batch: int, td: TableData): (nat, string) -> Run<bool> {
    (p: nat, name: string) => TableRun(w, p, tables, batch, td, name)
  }

  /** The upserts of the tables of `td`, in key order. */
  function TablesRun(w: World, p: nat, tables: seq<Table>, batch: int, td: TableData): Run<bool> {
    EachTable(p, td.names, PerTable(w, tables, batch, td))
  }

  ghost predicate TablesRealize(table: (nat, string) -> Run<bool>, w: World, tables: seq<Table>, batch: int, td: TableData) {
    forall p: nat, name: string {:trigger TableRun(w, p, tables, batch, td, name)} :: table(p, name) == TableRun(w, p, tables, batch, td, name)
  }

  lemma TablesRealized(w: World, tables: seq<Table>, batch: int, td: TableData)
    ensures TablesRealize(PerTable(w, tables, batch, td), w, tables, batch, td)
  {
  }

  method UpsertTable(env: Env, tables: seq<Table>, batch: int, td: TableData, name: string, ghost table: (nat, string) -> Run<bool>)
    returns (r: Result<bool>, ghost step: seq<Event>)
    requires TablesRealize(table, env.world, tables, batch, td)
    modifies env
    ensures step == table(|old(env.trace)|, name).events && r == table(|old(env.trace)|, name).value
    ensures env.trace == old(env.trace) + step
  {
    ghost var run := TableRun(env.world, |env.trace|, tables, batch, td, name);
    step := run.events;
    var data := ListOf(td, name);
    if data == [] {
      return Ok(true), step;
    }
    var t := FirstTable(tables, name);
    if t.None? {
      return Err(StopIteration), step;
    }
    r := BulkUpsert(env, name, ColumnNames(t.value), data, batch);
  }

  /** The loop over the tables of `td`. */
  method EachTableLoop(env: Env, tables: seq<Table>, batch: int, td: TableData, ghost table: (nat, string) -> Run<bool>) returns (r: Result<bool>)
    requires TablesRealize(table, env.world, tables, batch, td)
    modifies env
    ensures env.trace == old(env.trace) + EachTable(|old(env.trace)|, td.names, table).events
    ensures r == EachTable(|old(env.trace)|, td.names, table).value
  {
    ghost var t0 := env.trace;
    var names := td.names;
    ghost var done: seq<Event> := [];
    assert names[0..] == names;
    assert Then([], EachTable(|t0|, names, table)) == EachTable(|t0|, names, table);
    var j := 0;
    while j < |names|
      invariant 0 <= j <= |names|
      invariant env.trace == t0 + done
      invariant EachTable(|t0|, names, table) == Then(done, EachTable(|t0| + |done|, names[j..], table))
      decreases |names| - j
    {
      ghost var step;
      r, step := UpsertTable(env, tables, batch, td, names[j], table);
      Assoc(t0, done, step);
      if r.Err? {
        EachTableStop(|t0|, names, j, done, table);
        return;
      }
      EachTableNext(|t0|, names, j, done, table);
      done := done + step;
      j := j + 1;
    }
    EachTableDone(|t0| + |done|, names, done, table);
    r := Ok(true);
  }

  method UpsertTables(env: Env, tables: seq<Table>, batch: int, td: TableData) returns (r: Result<bool>)
    modifies env
    ensures env.trace == old(env.trace) + TablesRun(env.world, |old(env.trace)|, tables, batch, td).events
    ensures r == TablesRun(env.world, |old(env.trace)|, tables, batch, td).value
  {
    TablesRealized(env.world, tables, batch, td);
    r := EachTableLoop(env, tables, batch, td, PerTable(env.world, tables, batch, td));
  }

  /** A table with tuples but no mapping of its name raises StopIteration
      before any call. */
  lemma UnmappedTableStops(w: World, p: nat, tables: seq<Table>, batch: int, td: TableData, name: string)
    requires ListOf(td, name) != [] && name !in Names(tables)
    ensures TableRun(w, p, tables, batch, td, name) == Run([], Err(StopIteration))
  {
    FirstTableFound(tables, name);
  }

  /** The upsert of a mapped table raises only a DatabaseError. */
  lemma MappedTableRaises(w: World, p: nat, tables: seq<Table>, batch: int, td: TableData, name: string)
    requires name in Names(tables)
    ensures TableRun(w, p, tables, batch, td, name).value.Err? ==> TableRun(w, p, tables, batch, td, name).value.error.DatabaseFailure?
  {
    FirstTableFound(tables, name);
    if ListOf(td, name) != [] {
      var t := FirstTable(tables, name).value;
      UpsertShape(w, p, name, ColumnNames(t), ListOf(td, name), batch);
    }
  }

  /** When every table is mapped, the loop raises only a DatabaseError. */
  lemma MappedTablesRaise(w: World, p: nat, tables: seq<Table>, batch: int, td: TableData)
    requires forall name :: name in td.names ==> name in Names(tables)
    ensures TablesRun(w, p, tables, batch, td).value.Err? ==> IsProcessingError(TablesRun(w, p, tables, batch, td).value.error)
  {
    forall q: nat, j | 0 <= j < |td.names|
      ensures PerTable(w, tables, batch, td)(q, td.names[j]).value.Err? ==> IsProcessingError(PerTable(w, tables, batch, td)(q, td.names[j]).value.error)
    {
      MappedTableRaises(w, q, tables, batch, td, td.names[j]);
    }
    EachTableRaises(p, td.names, PerTable(w, tables, batch, td));
  }

  /** What each table's own run leaves durable, for the tables the loop
      reaches: the tables before the first that raised, and that one. */
  function DurableEach(w: World, p: nat, names: seq<string>, table: (nat, string) -> Run<bool>): seq<Event>
    decreases |names|
  {
    if names == [] then []
    else
      var r := table(p, names[0]);
      Durable(w, p, r.events) + (if r.value.Err? then [] else DurableEach(w, p + |r.events|, names[1..], table))
  }

  /** When every table's run leaves nothing pending, a table that raised
      takes back nothing the tables before it committed: the loop leaves
      durable what each table's run does. */
  lemma {:induction false} EachTableDurable(w: World, p: nat, names: seq<string>, table: (nat, string) -> Run<bool>)
    requires forall q: nat, name: string :: PendingAfter(w, q, table(q, name).events, []) == []
    ensures Durable(w, p, EachTable(p, names, table).events) == DurableEach(w, p, names, table)
    decreases |names|
  {
    if names != [] {
      var r := table(p, names[0]);
      if r.value.Err? {
        assert Durable(w, p, r.events) + [] == Durable(w, p, r.events);
      } else {
        var rest := EachTable(p + |r.events|, names[1..], table);
        SettleConcat(w, p, r.events, rest.events, []);
        EachTableDurable(w, p + |r.events|, names[1..], table);
      }
    }
  }

  /** The upsert of one table leaves nothing pending when it returns. */
  lemma UpsertSettled(w: World, p: nat, table: string, columns: seq<string>, data: seq<seq<Cell>>, n: int)
    ensures PendingAfter(w, p, UpsertRun(w, p, table, columns, data, n).events, []) == []
  {
    var ev := UpsertRun(w, p, table, columns, data, n).events;
    UpsertShape(w, p, table, columns, data, n);
    if p !in w.fail {
      var front := ev[..|ev| - 1];
      assert ev == front + [Close] by {
        assert ev[|ev| - 2..][1] == ev[|ev| - 1];
      }
      ClosedSession(w, p, front, []);
    }
  }

  /** What the loop over the tables leaves durable: for each table it
      reaches, its committed slices, whatever a later table does. */
  lemma TablesDurable(w: World, p: nat, tables: seq<Table>, batch: int, td: TableData)
    ensures Durable(w, p, TablesRun(w, p, tables, batch, td).events) == DurableEach(w, p, td.names, PerTable(w, tables, batch, td))
  {
    forall q: nat, name: string
      ensures PendingAfter(w, q, PerTable(w, tables, batch, td)(q, name).events, []) == []
    {
      var t := FirstTable(tables, name);
      if ListOf(td, name) != [] && t.Some? {
        UpsertSettled(w, q, name, ColumnNames(t.value), ListOf(td, name), batch);
      }
    }
    EachTableDurable(w, p, td.names, PerTable(w, tables, batch, td));
  }

  /** One table's share: nothing for a skipped or unmapped table, its
      committed slices otherwise. */
  lemma TableDurable(w: World, p: nat, tables: seq<Table>, batch: int, td: TableData, name: string)
    requires ListOf(td, name) != [] && FirstTable(tables, name).Some?
    ensures var t := FirstTable(tables, name).value;
      var slices := SlicesOf(ListOf(td, name), batch);
      Durable(w, p, TableRun(w, p, tables, batch, td, name).events)
        == if p in w.fail || batch == 0 then []
           else SlicePlan(Statement(name, ColumnNames(t)), ByPosition, slices[..Committed(w, p + 1, slices)], false)
  {
    UpsertDurable(w, p, name, ColumnNames(FirstTable(tables, name).value), ListOf(td, name), batch);
  }
}
