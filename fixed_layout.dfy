/** The two hard-coded importers, s3-to-rds/app.py and rds-generico/app.py:
    every `;`-separated row with at least eight fields gives one tuple for
    `{schema}.Usuario` and one for `{schema}.Documento`; both lists are sent
    slice by slice under fixed upsert statements inside one transaction,
    committed once, rolled back and re-raised on failure, and the connection
    is closed on every exit once it was opened. */
module FixedLayout {
  import opened Values
  import opened Clock
  import opened Effects
  import opened Transforms
  import opened Slicing
  import opened Sql
  import opened Batching
  import opened Store
  import opened Transactions

  /** The two copies of the code differ only in `convert_date`'s fallback
      and in the guard around `convert_ippi`. */
  datatype Importer = S3ToRds | RdsGenerico

  /** `CURRENT_USER`. */
  const CurrentUser: string := "000000000"

  /** The fixed `numero_documento`. */
  const DocumentNumber: string := "rg-111111"

  /** `convert_date(row[2])`. */
  function DataIni(imp: Importer, s: string, now: Instant): string {
    match imp
    case S3ToRds => ConvertDate(s, now)
    case RdsGenerico => ConvertDateKeep(s)
  }

  /** `convert_ippi(row[0])`. */
  function Tipo(imp: Importer, s: string): int {
    match imp
    case S3ToRds => ConvertIppi(Str(s))
    case RdsGenerico => ConvertIppiText(s)
  }

  /** `len(row) >= 8`: the rows that are imported. */
  predicate Wide(row: seq<string>) {
    |row| >= 8
  }

  /** The `Usuario` tuple of a row:
      `(row[4], row[7], row[7], 'N', convert_date(row[2]), now, CURRENT_USER)`. */
  function Usuario(imp: Importer, row: seq<string>, now: Instant): seq<Cell>
    requires Wide(row)
  {
    [Str(row[4]), Str(row[7]), Str(row[7]), Str("N"), Str(DataIni(imp, row[2], now)), Str(Timestamp(now)), Str(CurrentUser)]
  }

  /** The `Documento` tuple of a row:
      `(row[1], row[4], 'rg-111111', now, CURRENT_USER, convert_ippi(row[0]))`. */
  function Documento(imp: Importer, row: seq<string>, now: Instant): seq<Cell>
    requires Wide(row)
  {
    [Str(row[1]), Str(row[4]), Str(DocumentNumber), Str(Timestamp(now)), Str(CurrentUser), Int(Tipo(imp, row[0]))]
  }

  /** The rows that are imported, in order. */
  function Kept(rows: seq<seq<string>>): seq<seq<string>>
    decreases |rows|
  {
    if rows == [] then []
    else
      var last := rows[|rows| - 1];
      Kept(rows[..|rows| - 1]) + (if Wide(last) then [last] else [])
  }

  /** `usuarios` after the loop over `rows`. */
  function Usuarios(imp: Importer, rows: seq<seq<string>>, now: Instant): seq<seq<Cell>>
    decreases |rows|
  {
    if rows == [] then []
    else
      var last := rows[|rows| - 1];
      Usuarios(imp, rows[..|rows| - 1], now) + (if Wide(last) then [Usuario(imp, last, now)] else [])
  }

  /** `documentos` after the loop over `rows`. */
  function Documentos(imp: Importer, rows: seq<seq<string>>, now: Instant): seq<seq<Cell>>
    decreases |rows|
  {
    if rows == [] then []
    else
      var last := rows[|rows| - 1];
      Documentos(imp, rows[..|rows| - 1], now) + (if Wide(last) then [Documento(imp, last, now)] else [])
  }

  /** `parse_csv_content` on rows already split at `;`: each wide row appends
      one tuple to each list, any other row is skipped.  `now` is read once
      for the whole file. */
  method ParseRows(imp: Importer, rows: seq<seq<string>>, now: Instant)
    returns (usuarios: seq<seq<Cell>>, documentos: seq<seq<Cell>>)
    ensures usuarios == Usuarios(imp, rows, now)
    ensures documentos == Documentos(imp, rows, now)
  {
    usuarios, documentos := [], [];
    var i := 0;
    while i < |rows|
      invariant 0 <= i <= |rows|
      invariant usuarios == Usuarios(imp, rows[..i], now)
      invariant documentos == Documentos(imp, rows[..i], now)
    {
      var row := rows[i];
      assert rows[..i + 1][..i] == rows[..i];
      if |row| >= 8 {
        usuarios := usuarios + [Usuario(imp, row, now)];
        documentos := documentos + [Documento(imp, row, now)];
      }
      i := i + 1;
    }
    assert rows[..i] == rows;
  }

  // ---------------------------------------------------------------------
  // What the parse keeps.

  /** Exactly the wide rows are kept. */
  lemma {:induction false} KeptMembers(rows: seq<seq<string>>)
    ensures forall r :: r in Kept(rows) <==> r in rows && Wide(r)
    ensures |Kept(rows)| <= |rows|
    decreases |rows|
  {
    if rows != [] {
      var init := rows[..|rows| - 1];
      KeptMembers(init);
      assert rows == init + [rows[|rows| - 1]];
    }
  }

  /** Keeping commutes with concatenation: the order of the rows is kept. */
  lemma {:induction false} KeptConcat(a: seq<seq<string>>, b: seq<seq<string>>)
    ensures Kept(a + b) == Kept(a) + Kept(b)
    decreases |b|
  {
    if b == [] {
      assert a + b == a;
    } else {
      var init := b[..|b| - 1];
      KeptConcat(a, init);
      assert (a + b)[..|a + b| - 1] == a + init;
    }
  }

  /** The two lists are as long as the kept rows. */
  lemma {:induction false} ParsedLengths(imp: Importer, rows: seq<seq<string>>, now: Instant)
    ensures |Usuarios(imp, rows, now)| == |Documentos(imp, rows, now)| == |Kept(rows)|
    decreases |rows|
  {
    if rows != [] {
      ParsedLengths(imp, rows[..|rows| - 1], now);
    }
  }

  /** The `k`-th tuples of the two lists are those of the `k`-th kept row. */
  lemma {:induction false} ParsedAt(imp: Importer, rows: seq<seq<string>>, now: Instant, k: nat)
    requires k < |Kept(rows)|
    ensures Wide(Kept(rows)[k]) && k < |Usuarios(imp, rows, now)| && k < |Documentos(imp, rows, now)|
    ensures Usuarios(imp, rows, now)[k] == Usuario(imp, Kept(rows)[k], now)
    ensures Documentos(imp, rows, now)[k] == Documento(imp, Kept(rows)[k], now)
    decreases |rows|
  {
    var init := rows[..|rows| - 1];
    ParsedLengths(imp, init, now);
    if k < |Kept(init)| {
      ParsedAt(imp, init, now, k);
    }
  }

  /** The two lists pair up: their `k`-th tuples are the tuples of the
      `k`-th kept row, so both refer to the same user. */
  lemma ParsedPairs(imp: Importer, rows: seq<seq<string>>, now: Instant)
    ensures |Usuarios(imp, rows, now)| == |Documentos(imp, rows, now)| == |Kept(rows)|
    ensures forall k :: 0 <= k < |Kept(rows)| ==>
      Wide(Kept(rows)[k])
      && Usuarios(imp, rows, now)[k] == Usuario(imp, Kept(rows)[k], now)
      && Documentos(imp, rows, now)[k] == Documento(imp, Kept(rows)[k], now)
    ensures forall k :: 0 <= k < |Kept(rows)| ==>
      |Usuarios(imp, rows, now)[k]| == 7 && |Documentos(imp, rows, now)[k]| == 6
      && Usuarios(imp, rows, now)[k][0] == Documentos(imp, rows, now)[k][1]
  {
    ParsedLengths(imp, rows, now);
    forall k | 0 <= k < |Kept(rows)|
      ensures Wide(Kept(rows)[k])
        && Usuarios(imp, rows, now)[k] == Usuario(imp, Kept(rows)[k], now)
        && Documentos(imp, rows, now)[k] == Documento(imp, Kept(rows)[k], now)
    {
      ParsedAt(imp, rows, now, k);
    }
  }

  /** A row with fewer than eight fields adds nothing. */
  lemma NarrowRowSkipped(imp: Importer, rows: seq<seq<string>>, row: seq<string>, now: Instant)
    requires !Wide(row)
    ensures Usuarios(imp, rows + [row], now) == Usuarios(imp, rows, now)
    ensures Documentos(imp, rows + [row], now) == Documentos(imp, rows, now)
  {
    assert (rows + [row])[..|rows|] == rows;
  }

  /** The date column of s3-to-rds falls back to the clock, that of
      rds-generico to the field itself; both reorder a `d.m.y` field. */
  lemma DataIniFallback(s: string, now: Instant)
    ensures ThreeParts(s) ==> DataIni(S3ToRds, s, now) == DataIni(RdsGenerico, s, now) == Reordered(s)
    ensures !ThreeParts(s) ==> DataIni(S3ToRds, s, now) == Timestamp(now) && DataIni(RdsGenerico, s, now) == s
  {
  }

  // ---------------------------------------------------------------------
  // The transaction.

  /** The executes for both lists, the users first, each cut into slices of
      `n` tuples (`range` with a negative step yields none). */
  function ImportPlan(schema: string, us: seq<seq<Cell>>, ds: seq<seq<Cell>>, n: int): seq<Event> {
    SlicePlan(UsuarioStatement(schema), ByPosition, SlicesOf(us, n), false)
    + SlicePlan(DocumentoStatement(schema), ByPosition, SlicesOf(ds, n), false)
  }

  /** `with conn.cursor() as cursor:` closes the cursor on every exit from
      the block; then the commit at position `q`, or the rollback of the
      `except`, and the close of the `finally`. */
  function Settled(w: World, q: nat, ok: bool): seq<Event> {
    if !ok then [CloseCursor, Rollback, Close]
    else if q in w.fail then [CloseCursor, Commit, Rollback, Close]
    else [CloseCursor, Commit, Close]
  }

  /** The cursor block of an open connection, its first call being the
      `q`-th: a zero step raises in the first `range`; otherwise the
      executes of `plan` are made until one raises, and then the commit. */
  function CursorBlock(w: World, q: nat, plan: seq<Event>, zero: bool, count: nat): Run<nat> {
    if zero then Run(Settled(w, q, false), Err(RangeError))
    else if !Completes(w, q, plan) then
      Run(Attempt(w, q, plan) + Settled(w, q, false), Err(ClientError))
    else
      var commitAt := q + |plan| + 1;
      Run(plan + Settled(w, commitAt, true), if commitAt in w.fail then Err(ClientError) else Ok(count))
  }

  /** The database part of `process_data` and of `import_csv_data`, the
      connection being the `p`-th call: a failed connection leaves `conn`
      unset, so nothing is rolled back or closed.  The value is
      `len(usuarios)`. */
  function ImportRun(w: World, p: nat, schema: string, us: seq<seq<Cell>>, ds: seq<seq<Cell>>, n: int): Run<nat> {
    if p in w.fail then Run([Connect], Err(ClientError))
    else Then([Connect], CursorBlock(w, p + 1, ImportPlan(schema, us, ds, n), n == 0, |us|))
  }

  /** `process_in_batches(data, query, cursor)`, the loops of `process_data`:
      `executemany` on consecutive slices of `n` tuples until one raises. */
  method ProcessInBatches(env: Env, statement: Query, data: seq<seq<Cell>>, n: int) returns (r: Result<bool>)
    modifies env
    ensures n == 0 ==> env.trace == old(env.trace) && r == Err(RangeError)
    ensures n != 0 ==>
      env.trace == old(env.trace) + Attempt(env.world, |old(env.trace)|, SlicePlan(statement, ByPosition, SlicesOf(data, n), false))
      && r.Ok? == Completes(env.world, |old(env.trace)|, SlicePlan(statement, ByPosition, SlicesOf(data, n), false))
      && (r.Err? ==> r.error == ClientError)
  {
    if n == 0 {
      return Err(RangeError);
    }
    var ok := ExecuteSlices(env, statement, ByPosition, data, n, false);
    r := if ok then Ok(true) else Err(ClientError);
  }

  /** The cursor block's exit after a raising call: cursor closed, the
      transaction rolled back and the connection closed. */
  method Abandon(env: Env)
    modifies env
    ensures env.trace == old(env.trace) + Settled(env.world, |old(env.trace)|, false)
  {
    var _ := env.Call(CloseCursor);
    var _ := env.Call(Rollback);
    var _ := env.Call(Close);
  }

  /** The cursor block's normal exit, the commit and the close. */
  method Finish(env: Env, count: nat) returns (r: Result<nat>)
    modifies env
    ensures env.trace == old(env.trace) + Settled(env.world, |old(env.trace)| + 1, true)
    ensures r == if |old(env.trace)| + 1 in env.world.fail then Err(ClientError) else Ok(count)
  {
    var _ := env.Call(CloseCursor);
    var ok := env.Call(Commit);
    if !ok {
      var _ := env.Call(Rollback);
      var _ := env.Call(Close);
      return Err(ClientError);
    }
    var _ := env.Call(Close);
    r := Ok(count);
  }

  /** The two executes loops of one connection, users then documents. */
  method SendBoth(env: Env, schema: string, us: seq<seq<Cell>>, ds: seq<seq<Cell>>, n: int) returns (ok: bool)
    requires n != 0
    modifies env
    ensures env.trace == old(env.trace) + Attempt(env.world, |old(env.trace)|, ImportPlan(schema, us, ds, n))
    ensures ok == Completes(env.world, |old(env.trace)|, ImportPlan(schema, us, ds, n))
  {
    ghost var w := env.world;
    ghost var t0 := env.trace;
    ghost var a := SlicePlan(UsuarioStatement(schema), ByPosition, SlicesOf(us, n), false);
    ghost var b := SlicePlan(DocumentoStatement(schema), ByPosition, SlicesOf(ds, n), false);
    AttemptConcat(w, |t0|, a, b);
    var r := ProcessInBatches(env, UsuarioStatement(schema), us, n);
    if r.Err? {
      return false;
    }
    AttemptComplete(w, |t0|, a);
    ghost var t1 := env.trace;
    r := ProcessInBatches(env, DocumentoStatement(schema), ds, n);
    Assoc(t0, a, Attempt(w, |t1|, b));
    ok := r.Ok?;
  }

  /** `with conn.cursor() as cursor:` and what follows it, as `CursorBlock`
      says. */
  method Transaction(env: Env, schema: string, us: seq<seq<Cell>>, ds: seq<seq<Cell>>, n: int) returns (r: Result<nat>)
    modifies env
    ensures env.trace == old(env.trace) + CursorBlock(env.world, |old(env.trace)|, ImportPlan(schema, us, ds, n), n == 0, |us|).events
    ensures r == CursorBlock(env.world, |old(env.trace)|, ImportPlan(schema, us, ds, n), n == 0, |us|).value
  {
    ghost var w := env.world;
    ghost var t0 := env.trace;
    if n == 0 {
      Abandon(env);
      return Err(RangeError);
    }
    ghost var plan := ImportPlan(schema, us, ds, n);
    var ok := SendBoth(env, schema, us, ds, n);
    if !ok {
      ghost var made := env.trace;
      Abandon(env);
      assert made == t0 + Attempt(w, |t0|, plan);
      return Err(ClientError);
    }
    AttemptComplete(w, |t0|, plan);
    ghost var sent := env.trace;
    assert sent == t0 + plan;
    r := Finish(env, |us|);
  }

  /** `conn = get_connection()` and the cursor block, as `ImportRun` says. */
  method Import(env: Env, schema: string, us: seq<seq<Cell>>, ds: seq<seq<Cell>>, n: int) returns (r: Result<nat>)
    modifies env
    ensures env.trace == old(env.trace) + ImportRun(env.world, |old(env.trace)|, schema, us, ds, n).events
    ensures r == ImportRun(env.world, |old(env.trace)|, schema, us, ds, n).value
  {
    ghost var t0 := env.trace;
    var connected := env.Call(Connect);
    if !connected {
      return Err(ClientError);
    }
    ghost var block := CursorBlock(env.world, |t0| + 1, ImportPlan(schema, us, ds, n), n == 0, |us|);
    r := Transaction(env, schema, us, ds, n);
    Assoc(t0, [Connect], block.events);
  }

  // ---------------------------------------------------------------------
  // What the transaction sends and leaves in the database.

  /** Both statements' executes, and nothing else, make up the plan. */
  lemma ImportPlanExecs(schema: string, us: seq<seq<Cell>>, ds: seq<seq<Cell>>, n: int)
    ensures AllExec(ImportPlan(schema, us, ds, n))
  {
    var a := SlicesOf(us, n);
    var b := SlicesOf(ds, n);
    SlicePlanExecs(UsuarioStatement(schema), ByPosition, a);
    SlicePlanExecs(DocumentoStatement(schema), ByPosition, b);
  }

  /** For a positive step the plan sends every user tuple, then every
      document tuple, in order and each exactly once, in calls of 1 to `n`
      tuples under the statement of its table. */
  lemma ImportPlanSends(schema: string, us: seq<seq<Cell>>, ds: seq<seq<Cell>>, n: int)
    requires n > 0
    ensures SentRows(ImportPlan(schema, us, ds, n)) == us + ds
    ensures forall i :: 0 <= i < |ImportPlan(schema, us, ds, n)| ==>
      var e := ImportPlan(schema, us, ds, n)[i];
      e.Exec? && e.params.Positional? && 1 <= |e.params.rows| <= n
      && (e.query == UsuarioStatement(schema) || e.query == DocumentoStatement(schema))
  {
    var a := SlicePlan(UsuarioStatement(schema), ByPosition, SlicesOf(us, n), false);
    var b := SlicePlan(DocumentoStatement(schema), ByPosition, SlicesOf(ds, n), false);
    SlicePlanSends(UsuarioStatement(schema), ByPosition, SlicesOf(us, n), false);
    SlicePlanSends(DocumentoStatement(schema), ByPosition, SlicesOf(ds, n), false);
    SlicesCover(us, n);
    SlicesCover(ds, n);
    SentConcat(a, b);
    SlicePlanExecs(UsuarioStatement(schema), ByPosition, SlicesOf(us, n));
    SlicePlanExecs(DocumentoStatement(schema), ByPosition, SlicesOf(ds, n));
    SliceSizes(us, n);
    SliceSizes(ds, n);
    forall i | 0 <= i < |a + b|
      ensures var e := (a + b)[i];
        e.Exec? && e.params.Positional? && 1 <= |e.params.rows| <= n
        && (e.query == UsuarioStatement(schema) || e.query == DocumentoStatement(schema))
    {
      if i < |a| {
        assert (a + b)[i] == a[i];
      } else {
        assert (a + b)[i] == b[i - |a|];
      }
    }
  }

  /** A cursor close leaves what is pending as it is. */
  lemma CursorSettles(w: World, pos: nat, rest: seq<Event>, pending: seq<Event>)
    ensures Settle(w, pos, [CloseCursor] + rest, pending) == Settle(w, pos + 1, rest, pending)
    ensures PendingAfter(w, pos, [CloseCursor] + rest, pending) == PendingAfter(w, pos + 1, rest, pending)
  {
    assert ([CloseCursor] + rest)[1..] == rest;
  }

  /** Each way out of the cursor block, its first call being the
      `pos`-th, makes durable what is pending before it after a commit that
      went through, and discards it otherwise; nothing is left pending. */
  lemma SettledSettles(w: World, pos: nat, ok: bool, pending: seq<Event>)
    ensures Settle(w, pos, Settled(w, pos + 1, ok), pending)
      == if ok && pos + 1 !in w.fail then pending else []
    ensures PendingAfter(w, pos, Settled(w, pos + 1, ok), pending) == []
  {
    var s := Settled(w, pos + 1, ok);
    CursorSettles(w, pos, s[1..], pending);
    assert s == [CloseCursor] + s[1..];
    var t := s[1..];
    if !ok {
      assert t == [Rollback, Close] && t[1..] == [Close];
      assert Settle(w, pos + 1, t, pending) == Settle(w, pos + 2, [Close], []);
      assert PendingAfter(w, pos + 1, t, pending) == PendingAfter(w, pos + 2, [Close], []);
      CloseSettles(w, pos + 2, []);
      assert [Close][1..] == [];
    } else if pos + 1 in w.fail {
      assert t == [Commit, Rollback, Close] && t[1..] == [Rollback, Close] && t[1..][1..] == [Close];
      assert Settle(w, pos + 1, t, pending) == Settle(w, pos + 2, [Rollback, Close], pending);
      assert PendingAfter(w, pos + 1, t, pending) == PendingAfter(w, pos + 2, [Rollback, Close], pending);
      assert Settle(w, pos + 2, [Rollback, Close], pending) == Settle(w, pos + 3, [Close], []);
      assert PendingAfter(w, pos + 2, [Rollback, Close], pending) == PendingAfter(w, pos + 3, [Close], []);
      CloseSettles(w, pos + 3, []);
      assert [Close][1..] == [];
    } else {
      assert t == [Commit, Close] && t[1..] == [Close];
      assert Settle(w, pos + 1, t, pending) == pending + Settle(w, pos + 2, [Close], []);
      assert PendingAfter(w, pos + 1, t, pending) == PendingAfter(w, pos + 2, [Close], []);
      CloseSettles(w, pos + 2, []);
      assert [Close][1..] == [];
    }
  }

  /** Executes alone make nothing durable. */
  lemma {:induction false} ExecsCommitNothing(w: World, pos: nat, execs: seq<Event>, pending: seq<Event>)
    requires AllExec(execs)
    ensures Settle(w, pos, execs, pending) == []
    decreases |execs|
  {
    if execs != [] {
      ExecsCommitNothing(w, pos + 1, execs[1..], pending);
      ExecsCommitNothing(w, pos + 1, execs[1..], pending + [execs[0]]);
    }
  }

  /** The executes of `plan` are durable when the block returns, none when
      it raises, and no transaction is left open. */
  lemma CursorBlockSettles(w: World, q: nat, plan: seq<Event>, zero: bool, count: nat)
    requires AllExec(plan)
    ensures var r := CursorBlock(w, q, plan, zero, count);
      Settle(w, q, r.events, []) == (if r.value.Ok? then plan else [])
      && PendingAfter(w, q, r.events, []) == []
  {
    var r := CursorBlock(w, q, plan, zero, count);
    if zero {
      SettledSettles(w, q, false, []);
    } else if !Completes(w, q, plan) {
      var made := Attempt(w, q, plan);
      var tail := Settled(w, q + |made| + 1, false);
      assert Settled(w, q, false) == tail;
      AttemptAllExec(w, q, plan);
      ExecsCommitNothing(w, q, made, []);
      SettleConcat(w, q, made, tail, []);
      SettledSettles(w, q + |made|, false, PendingAfter(w, q, made, []));
    } else {
      var tail := Settled(w, q + |plan| + 1, true);
      SettleExecs(w, q, plan, tail, []);
      SettleConcat(w, q, plan, tail, []);
      SettledSettles(w, q + |plan|, true, plan);
      SettledSettles(w, q + |plan|, true, PendingAfter(w, q, plan, []));
      assert [] + plan == plan;
    }
  }

  /** Once connected, the last call closes the connection, a rollback is
      issued exactly when the block raises, and only the database is
      called. */
  lemma CursorBlockCloses(w: World, q: nat, plan: seq<Event>, zero: bool, count: nat)
    requires AllExec(plan)
    ensures var r := CursorBlock(w, q, plan, zero, count);
      |r.events| > 0 && r.events[|r.events| - 1] == Close
      && (Rollback in r.events <==> r.value.Err?)
      && DatabaseOnly(r.events)
  {
    AttemptAllExec(w, q, plan);
  }

  /** Exactly the executes of the plan are durable once the import returns,
      none when it raises, and no transaction is left open. */
  lemma ImportSettles(w: World, p: nat, schema: string, us: seq<seq<Cell>>, ds: seq<seq<Cell>>, n: int)
    ensures var r := ImportRun(w, p, schema, us, ds, n);
      Durable(w, p, r.events) == (if r.value.Ok? then ImportPlan(schema, us, ds, n) else [])
      && PendingAfter(w, p, r.events, []) == []
  {
    var r := ImportRun(w, p, schema, us, ds, n);
    if p in w.fail {
      assert r.events[1..] == [];
    } else {
      var plan := ImportPlan(schema, us, ds, n);
      var block := CursorBlock(w, p + 1, plan, n == 0, |us|);
      ImportPlanExecs(schema, us, ds, n);
      CursorBlockSettles(w, p + 1, plan, n == 0, |us|);
      assert r.events == [Connect] + block.events;
      assert r.events[1..] == block.events;
    }
  }

  /** A failed connection is the only call made; once connected, the last
      call closes the connection, and a rollback is issued exactly when the
      import raises. */
  lemma ImportCloses(w: World, p: nat, schema: string, us: seq<seq<Cell>>, ds: seq<seq<Cell>>, n: int)
    ensures var r := ImportRun(w, p, schema, us, ds, n);
      (p in w.fail ==> r.events == [Connect] && r.value.Err?)
      && (p !in w.fail ==>
          r.events[0] == Connect && r.events[|r.events| - 1] == Close
          && (Rollback in r.events <==> r.value.Err?))
      && DatabaseOnly(r.events)
  {
    if p !in w.fail {
      var plan := ImportPlan(schema, us, ds, n);
      var block := CursorBlock(w, p + 1, plan, n == 0, |us|);
      ImportPlanExecs(schema, us, ds, n);
      CursorBlockCloses(w, p + 1, plan, n == 0, |us|);
      var r := ImportRun(w, p, schema, us, ds, n);
      assert r.events == [Connect] + block.events;
    }
  }
}
