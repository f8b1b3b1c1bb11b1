/** leitorS3/chalicelib/csv_processor.py: `CSVProcessor` reads a CSV object,
    inserts a record per row into one table through a database session, at
    most 100 records per statement, commits once, and moves the object to
    `processados/`, or to `erros/` when anything raised. */
module LeitorS3 {
  import opened Values
  import opened Text
  import opened Effects
  import opened Csv
  import opened Sql
  import opened Slicing
  import opened Batching
  import opened Moves
  import opened Transactions
  import FixedLayout

  /** The number of records that fills a batch. */
  const BatchSize: nat := 100

  const InputPrefix: string := "entrada/"
  const ProcessedPrefix: string := "processados/"
  const ErrorPrefix: string := "erros/"

  /** The `csv_config` dictionary; an optional key that is absent is `None`. */
  datatype CsvConfig = CsvConfig(
    tableName: string,
    delimiter: char,
    fields: seq<string>,
    fieldCount: Option<int>,
    columnsToInsert: Option<seq<string>>)

  /** The `stats` dictionary. */
  datatype Stats = Stats(processed: nat, skipped: nat)

  /** The dictionary `process_file` returns. */
  datatype Outcome = Outcome(status: string, processed: nat, skipped: nat)

  type Record = map<string, Cell>

  /** What the loop of `_process_content` does with one row. */
  datatype Verdict = Blank | Skipped | Short | Accepted(record: Record)

  /** The fields of a row, each stripped of surrounding white space. */
  function Stripped(row: seq<string>): seq<Cell> {
    seq(|row|, i requires 0 <= i < |row| => Str(Strip(row[i])))
  }

  /** An empty row is passed over; with `field_count` configured, a row of
      another length is skipped; a row with fewer fields than `fields`
      raises IndexError at `row[i]`; any other row becomes the record
      `{field: row[i].strip() for i, field in enumerate(fields)}`. */
  function Classify(cfg: CsvConfig, row: seq<string>): Verdict {
    if row == [] then Blank
    else if cfg.fieldCount.Some? && |row| != cfg.fieldCount.value then Skipped
    else if |row| < |cfg.fields| then Short
    else Accepted(ZipRecord(cfg.fields, Stripped(row)))
  }

  /** `csv_config.get('columns_to_insert', csv_config['fields'])`. */
  function Columns(cfg: CsvConfig): seq<string> {
    if cfg.columnsToInsert.Some? then cfg.columnsToInsert.value else cfg.fields
  }

  /** `{col: rec[col] for col in columns if col in rec}`. */
  function Filter(columns: seq<string>, rec: Record): Record {
    map c | c in columns && c in rec :: rec[c]
  }

  function Filtered(columns: seq<string>, records: seq<Record>): seq<Record> {
    seq(|records|, i requires 0 <= i < |records| => Filter(columns, records[i]))
  }

  /** `INSERT INTO {table_name} ({cols}) VALUES (:col, ...)`. */
  function Statement(cfg: CsvConfig): Query {
    Insert(cfg.tableName, Columns(cfg), Colon)
  }

  /** `_insert_batch(session, batch)`: an empty batch sends nothing, any
      other one execute of its filtered records. */
  function InsertBatch(cfg: CsvConfig, batch: seq<Record>): (r: seq<Event>)
    ensures |r| == (if batch == [] then 0 else 1)
  {
    if batch == [] then [] else [Exec(Statement(cfg), Dicts(Filtered(Columns(cfg), batch)))]
  }

  /** After one row: the loop goes on with a batch and counters, or the
      processing stops with a result. */
  datatype Next = Continue(batch: seq<Record>, stats: Stats) | Stop(value: Result<Stats>)

  /** The calls one row makes and what comes after it. */
  datatype Step = Step(events: seq<Event>, next: Next)

  /** One pass of the `for row in reader` loop, the `q`-th call coming
      next: a full batch is inserted and emptied; an exception closes the
      session (`finally`) and stops the processing. */
  function RowStep(w: World, q: nat, cfg: CsvConfig, row: seq<string>, batch: seq<Record>, stats: Stats): Step {
    match Classify(cfg, row)
    case Blank => Step([], Continue(batch, stats))
    case Skipped => Step([], Continue(batch, Stats(stats.processed, stats.skipped + 1)))
    case Short => Step([Close], Stop(Err(IndexError)))
    case Accepted(rec) =>
      var full := batch + [rec];
      var counted := Stats(stats.processed + 1, stats.skipped);
      if |full| < BatchSize then Step([], Continue(full, counted))
      else
        var e := InsertBatch(cfg, full);
        if !Completes(w, q, e) then Step(e + [Close], Stop(Err(ClientError)))
        else Step(e, Continue([], counted))
  }

  /** The loop over the rows still to read, `batch` holding the records not
      yet inserted and the `q`-th call coming next; the final flush, the
      commit and the close end it. */
  function Loop(w: World, q: nat, cfg: CsvConfig, rows: seq<seq<string>>, batch: seq<Record>, stats: Stats): Run<Stats>
    decreases |rows|
  {
    if rows == [] then Flush(w, q, cfg, batch, stats)
    else
      var st := RowStep(w, q, cfg, rows[0], batch, stats);
      match st.next
      case Stop(v) => Run(st.events, v)
      case Continue(b, c) => Then(st.events, Loop(w, q + |st.events|, cfg, rows[1..], b, c))
  }

  /** `if batch: self._insert_batch(session, batch)`, `session.commit()`,
      then the close. */
  function Flush(w: World, q: nat, cfg: CsvConfig, batch: seq<Record>, stats: Stats): Run<Stats> {
    var e := InsertBatch(cfg, batch);
    if !Completes(w, q, e) then Run(e + [Close], Err(ClientError))
    else Run(e + [Commit, Close], if q + |e| in w.fail then Err(ClientError) else Ok(stats))
  }

  /** `_process_content(content)`, `get_session()` being the `p`-th call:
      it is made before the `try`, so when it raises nothing is closed. */
  function ContentRun(w: World, p: nat, cfg: CsvConfig, content: string): Run<Stats> {
    SessionRun(w, p, cfg, Rows(content, cfg.delimiter))
  }

  /** The session over the rows the reader yields. */
  function SessionRun(w: World, p: nat, cfg: CsvConfig, rows: seq<seq<string>>): Run<Stats> {
    if p in w.fail then Run([Connect], Err(ClientError))
    else Then([Connect], Loop(w, p + 1, cfg, rows, [], Stats(0, 0)))
  }

  // ---------------------------------------------------------------------
  // The methods.

  /** `_insert_batch(session, batch)`. */
  method InsertBatchCall(env: Env, cfg: CsvConfig, batch: seq<Record>) returns (ok: bool)
    modifies env
    ensures env.trace == old(env.trace) + InsertBatch(cfg, batch)
    ensures ok == Completes(env.world, |old(env.trace)|, InsertBatch(cfg, batch))
  {
    if batch == [] {
      return true;
    }
    var columns := if cfg.columnsToInsert.Some? then cfg.columnsToInsert.value else cfg.fields;
    var filtered := seq(|batch|, i requires 0 <= i < |batch| => Filter(columns, batch[i]));
    ghost var p := |env.trace|;
    var e := Exec(Insert(cfg.tableName, columns, Colon), Dicts(filtered));
    ok := env.Call(e);
    AttemptCons(env.world, p, e, []);
    assert [e] + [] == [e];
  }

  /** The exception path inside the `try`: the session is closed and the
      exception raised. */
  method Abort(env: Env, e: Error) returns (r: Result<Stats>)
    modifies env
    ensures env.trace == old(env.trace) + [Close]
    ensures r == Err(e)
  {
    var _ := env.Call(Close);
    r := Err(e);
  }

  /** The end of `_process_content` after the loop. */
  method FlushBatch(env: Env, cfg: CsvConfig, batch: seq<Record>, stats: Stats) returns (r: Result<Stats>)
    modifies env
    ensures env.trace == old(env.trace) + Flush(env.world, |old(env.trace)|, cfg, batch, stats).events
    ensures r == Flush(env.world, |old(env.trace)|, cfg, batch, stats).value
  {
    ghost var t0 := env.trace;
    ghost var e := InsertBatch(cfg, batch);
    var ok := true;
    if batch != [] {
      ok := InsertBatchCall(env, cfg, batch);
    }
    if !ok {
      r := Abort(env, ClientError);
      return;
    }
    ghost var c := |env.trace|;
    ok := env.Call(Commit);
    var _ := env.Call(Close);
    assert env.trace == t0 + (e + [Commit, Close]);
    if !ok {
      return Err(ClientError);
    }
    r := Ok(stats);
  }

  /** The body of the `for row in reader` loop. */
  method ReadRow(env: Env, cfg: CsvConfig, row: seq<string>, batch: seq<Record>, stats: Stats)
    returns (next: Next)
    requires |batch| < BatchSize
    modifies env
    ensures env.trace == old(env.trace) + RowStep(env.world, |old(env.trace)|, cfg, row, batch, stats).events
    ensures next == RowStep(env.world, |old(env.trace)|, cfg, row, batch, stats).next
    ensures next.Continue? ==> |next.batch| < BatchSize
  {
    ghost var t0 := env.trace;
    if row == [] {
      return Continue(batch, stats);
    }
    if cfg.fieldCount.Some? && |row| != cfg.fieldCount.value {
      return Continue(batch, Stats(stats.processed, stats.skipped + 1));
    }
    if |row| < |cfg.fields| {
      var r := Abort(env, IndexError);
      return Stop(r);
    }
    var record := ZipRecord(cfg.fields, Stripped(row));
    var full := batch + [record];
    var counted := Stats(stats.processed + 1, stats.skipped);
    if |full| < BatchSize {
      return Continue(full, counted);
    }
    var ok := InsertBatchCall(env, cfg, full);
    if !ok {
      var r := Abort(env, ClientError);
      Assoc(t0, InsertBatch(cfg, full), [Close]);
      return Stop(r);
    }
    next := Continue([], counted);
  }

  /** One pass of the loop over the rows. */
  lemma LoopCons(w: World, q: nat, cfg: CsvConfig, rows: seq<seq<string>>, batch: seq<Record>, stats: Stats)
    requires rows != []
    ensures var st := RowStep(w, q, cfg, rows[0], batch, stats);
      Loop(w, q, cfg, rows, batch, stats)
      == if st.next.Stop? then Run(st.events, st.next.value)
         else Then(st.events, Loop(w, q + |st.events|, cfg, rows[1..], st.next.batch, st.next.stats))
  {
  }

  /** The trace of the session so far, regrouped. */
  lemma Regroup(t0: seq<Event>, done: seq<Event>, step: seq<Event>)
    ensures (t0 + [Connect] + done) + step == (t0 + [Connect]) + (done + step)
    ensures (t0 + [Connect]) + (done + step) == t0 + ([Connect] + (done + step))
  {
  }

  /** The loop's pass over `rows[i]`, after the calls `done` of the
      session opened by `pre`; `whole` is the whole loop. */
  method Iteration(env: Env, cfg: CsvConfig, rows: seq<seq<string>>, i: nat, batch: seq<Record>, stats: Stats,
                   ghost pre: seq<Event>, ghost done: seq<Event>, ghost whole: Run<Stats>)
    returns (next: Next, ghost step: seq<Event>)
    requires i < |rows| && |batch| < BatchSize
    requires env.trace == pre + done
    requires whole == Then(done, Loop(env.world, |pre| + |done|, cfg, rows[i..], batch, stats))
    modifies env
    ensures next.Stop? ==> env.trace == pre + whole.events && next.value == whole.value
    ensures next.Continue? ==>
      |next.batch| < BatchSize
      && env.trace == pre + (done + step)
      && whole == Then(done + step, Loop(env.world, |pre| + |done + step|, cfg, rows[i + 1..], next.batch, next.stats))
  {
    ghost var w := env.world;
    ghost var pos := |env.trace|;
    ghost var st := RowStep(w, pos, cfg, rows[i], batch, stats);
    assert rows[i..][0] == rows[i] && rows[i..][1..] == rows[i + 1..];
    LoopCons(w, pos, cfg, rows[i..], batch, stats);
    next := ReadRow(env, cfg, rows[i], batch, stats);
    step := st.events;
    Assoc(pre, done, st.events);
    if next.Continue? {
      ghost var rest := Loop(w, pos + |st.events|, cfg, rows[i + 1..], next.batch, next.stats);
      ThenAssoc(done, st.events, rest);
      assert |pre| + |done + st.events| == pos + |st.events|;
    }
  }

  /** `CSVProcessor._process_content(content)`. */
  method ProcessContent(env: Env, cfg: CsvConfig, content: string) returns (r: Result<Stats>)
    modifies env
    ensures env.trace == old(env.trace) + ContentRun(env.world, |old(env.trace)|, cfg, content).events
    ensures r == ContentRun(env.world, |old(env.trace)|, cfg, content).value
  {
    var rows := Rows(content, cfg.delimiter);
    r := ProcessRows(env, cfg, rows);
  }

  /** The session of `_process_content` over the rows of the content. */
  method ProcessRows(env: Env, cfg: CsvConfig, rows: seq<seq<string>>) returns (r: Result<Stats>)
    modifies env
    ensures env.trace == old(env.trace) + SessionRun(env.world, |old(env.trace)|, cfg, rows).events
    ensures r == SessionRun(env.world, |old(env.trace)|, cfg, rows).value
  {
    ghost var t0 := env.trace;
    var ok := env.Call(Connect);
    if !ok {
      return Err(ClientError);
    }
    ghost var pre := t0 + [Connect];
    ghost var whole := Loop(env.world, |pre|, cfg, rows, [], Stats(0, 0));
    assert SessionRun(env.world, |t0|, cfg, rows) == Then([Connect], whole);
    Assoc(t0, [Connect], whole.events);
    r := ReadRows(env, cfg, rows, pre, whole);
  }

  /** The `for row in reader` loop and what follows it, in the session
      opened by `pre`. */
  method ReadRows(env: Env, cfg: CsvConfig, rows: seq<seq<string>>, ghost pre: seq<Event>, ghost whole: Run<Stats>)
    returns (r: Result<Stats>)
    requires env.trace == pre && whole == Loop(env.world, |pre|, cfg, rows, [], Stats(0, 0))
    modifies env
    ensures env.trace == pre + whole.events && r == whole.value
  {
    ghost var w := env.world;
    var stats := Stats(0, 0);
    var batch: seq<Record> := [];
    ghost var done: seq<Event> := [];
    var i := 0;
    assert rows[0..] == rows;
    assert pre + [] == pre;
    while i < |rows|
      invariant 0 <= i <= |rows|
      invariant |batch| < BatchSize
      invariant env.trace == pre + done
      invariant whole == Then(done, Loop(w, |pre| + |done|, cfg, rows[i..], batch, stats))
    {
      var next, step := Iteration(env, cfg, rows, i, batch, stats, pre, done, whole);
      if next.Stop? {
        return next.value;
      }
      done := done + step;
      batch, stats := next.batch, next.stats;
      i := i + 1;
    }
    assert rows[i..] == [];
    r := FinishRows(env, cfg, batch, stats, pre, done, whole);
  }

  /** The flush, the commit and the close after the last row. */
  method FinishRows(env: Env, cfg: CsvConfig, batch: seq<Record>, stats: Stats,
                    ghost pre: seq<Event>, ghost done: seq<Event>, ghost whole: Run<Stats>)
    returns (r: Result<Stats>)
    requires env.trace == pre + done
    requires whole == Then(done, Flush(env.world, |pre| + |done|, cfg, batch, stats))
    modifies env
    ensures env.trace == pre + whole.events && r == whole.value
  {
    ghost var fin := Flush(env.world, |pre| + |done|, cfg, batch, stats);
    r := FlushBatch(env, cfg, batch, stats);
    Assoc(pre, done, fin.events);
  }

  // ---------------------------------------------------------------------
  // What the rows yield.

  /** The records of the rows that are turned into records, in order. */
  function Records(cfg: CsvConfig, rows: seq<seq<string>>): seq<Record>
    decreases |rows|
  {
    if rows == [] then []
    else (if Classify(cfg, rows[0]).Accepted? then [Classify(cfg, rows[0]).record] else []) + Records(cfg, rows[1..])
  }

  /** The number of skipped rows. */
  function SkippedCount(cfg: CsvConfig, rows: seq<seq<string>>): nat
    decreases |rows|
  {
    if rows == [] then 0 else (if Classify(cfg, rows[0]).Skipped? then 1 else 0) + SkippedCount(cfg, rows[1..])
  }

  /** The number of non-empty rows. */
  function NonBlank(rows: seq<seq<string>>): nat
    decreases |rows|
  {
    if rows == [] then 0 else (if rows[0] != [] then 1 else 0) + NonBlank(rows[1..])
  }

  /** No row has fewer fields than `fields` while passing the length check. */
  predicate ShortFree(cfg: CsvConfig, rows: seq<seq<string>>) {
    forall i :: 0 <= i < |rows| ==> !Classify(cfg, rows[i]).Short?
  }

  lemma ShortFreeCons(cfg: CsvConfig, rows: seq<seq<string>>)
    requires rows != []
    ensures ShortFree(cfg, rows) <==> !Classify(cfg, rows[0]).Short? && ShortFree(cfg, rows[1..])
  {
    if !Classify(cfg, rows[0]).Short? && ShortFree(cfg, rows[1..]) {
      forall i | 0 < i < |rows| ensures !Classify(cfg, rows[i]).Short? {
        assert rows[i] == rows[1..][i - 1];
      }
    }
  }

  /** Every non-empty row is either turned into a record or skipped, when
      none raises. */
  lemma {:induction false} CountsAddUp(cfg: CsvConfig, rows: seq<seq<string>>)
    requires ShortFree(cfg, rows)
    ensures |Records(cfg, rows)| + SkippedCount(cfg, rows) == NonBlank(rows)
    decreases |rows|
  {
    if rows != [] {
      ShortFreeCons(cfg, rows);
      CountsAddUp(cfg, rows[1..]);
    }
  }

  /** A record maps every field to the stripped value at the field's
      position, and holds no other key. */
  lemma RecordOfRow(cfg: CsvConfig, row: seq<string>, i: nat)
    requires Classify(cfg, row).Accepted?
    requires forall a, b :: 0 <= a < b < |cfg.fields| ==> cfg.fields[a] != cfg.fields[b]
    requires i < |cfg.fields|
    ensures var rec := Classify(cfg, row).record;
      rec.Keys == (set j | 0 <= j < |cfg.fields| :: cfg.fields[j])
      && cfg.fields[i] in rec && rec[cfg.fields[i]] == Str(Strip(row[i]))
  {
    ZipRecordKeys(cfg.fields, Stripped(row));
    ZipRecordAt(cfg.fields, Stripped(row), i);
  }

  /** Without `columns_to_insert`, filtering a record keeps all of it. */
  lemma DefaultColumnsKeep(cfg: CsvConfig, row: seq<string>)
    requires cfg.columnsToInsert.None? && Classify(cfg, row).Accepted?
    ensures Filter(Columns(cfg), Classify(cfg, row).record) == Classify(cfg, row).record
  {
    var rec := Classify(cfg, row).record;
    ZipRecordKeys(cfg.fields, Stripped(row));
    forall c | c in rec ensures c in cfg.fields {
      var j :| 0 <= j < Min(|cfg.fields|, |Stripped(row)|) && c == cfg.fields[j];
    }
  }

  // ---------------------------------------------------------------------
  // What `_process_content` sends and leaves.

  /** The inserts of the given batches, one after the other. */
  function BatchPlan(cfg: CsvConfig, batches: seq<seq<Record>>): seq<Event>
    decreases |batches|
  {
    if batches == [] then [] else InsertBatch(cfg, batches[0]) + BatchPlan(cfg, batches[1..])
  }

  /** The records one call sends. */
  function DictsOf(e: Event): seq<Record> {
    if e.Exec? && e.params.Dicts? then e.params.records else []
  }

  /** The records the calls among `events` send, in order. */
  function SentDicts(events: seq<Event>): seq<Record>
    decreases |events|
  {
    if events == [] then [] else DictsOf(events[0]) + SentDicts(events[1..])
  }

  lemma {:induction false} SentDictsConcat(a: seq<Event>, b: seq<Event>)
    ensures SentDicts(a + b) == SentDicts(a) + SentDicts(b)
    decreases |a|
  {
    if a != [] {
      assert (a + b)[0] == a[0] && (a + b)[1..] == a[1..] + b;
      SentDictsConcat(a[1..], b);
    } else {
      assert a + b == b;
    }
  }

  lemma FilteredConcat(columns: seq<string>, a: seq<Record>, b: seq<Record>)
    ensures Filtered(columns, a + b) == Filtered(columns, a) + Filtered(columns, b)
  {
  }

  /** The inserts of non-empty batches: one execute of the statement per
      batch, sending the filtered records of all batches in order. */
  lemma {:induction false} BatchPlanSends(cfg: CsvConfig, batches: seq<seq<Record>>)
    requires forall k :: 0 <= k < |batches| ==> batches[k] != []
    ensures |BatchPlan(cfg, batches)| == |batches|
    ensures forall k :: 0 <= k < |batches| ==>
      BatchPlan(cfg, batches)[k] == Exec(Statement(cfg), Dicts(Filtered(Columns(cfg), batches[k])))
    ensures SentDicts(BatchPlan(cfg, batches)) == Filtered(Columns(cfg), Flatten(batches))
    decreases |batches|
  {
    if batches != [] {
      var rest := batches[1..];
      assert forall k :: 0 <= k < |rest| ==> rest[k] == batches[k + 1];
      BatchPlanSends(cfg, rest);
      var head := InsertBatch(cfg, batches[0]);
      assert BatchPlan(cfg, batches) == head + BatchPlan(cfg, rest);
      SentDictsConcat(head, BatchPlan(cfg, rest));
      assert SentDicts(head) == Filtered(Columns(cfg), batches[0]) by {
        assert head[1..] == [];
      }
      FilteredConcat(Columns(cfg), batches[0], Flatten(rest));
    }
  }

  lemma BatchPlanExecs(cfg: CsvConfig, batches: seq<seq<Record>>)
    requires forall k :: 0 <= k < |batches| ==> batches[k] != []
    ensures AllExec(BatchPlan(cfg, batches))
  {
    BatchPlanSends(cfg, batches);
  }

  /** A full batch in front of the records that follow is the first slice. */
  lemma SlicesFull<T>(a: seq<T>, b: seq<T>, n: nat)
    requires n > 0 && |a| == n
    ensures Slices(a + b, n) == [a] + Slices(b, n)
  {
    if b != [] {
      assert (a + b)[..n] == a && (a + b)[n..] == b;
    } else {
      assert a + b == a;
    }
  }

  /** A batch that is not full is the only slice of itself. */
  lemma SlicesPartial<T>(a: seq<T>, n: nat)
    requires 0 < |a| <= n
    ensures Slices(a, n) == [a]
  {
  }

  /** The run `r` of the loop, from the `q`-th call, ends by closing the
      session, after a commit that is made exactly when every insert `made`
      went through; it returns exactly when the commit went through too and
      no row raised, and then the inserts are the records, pending and
      still to come, cut into slices of 100, and the counters have grown by
      the records and the skipped rows. */
  predicate Shaped(w: World, q: nat, cfg: CsvConfig, rows: seq<seq<string>>, batch: seq<Record>, stats: Stats,
                   made: seq<Event>, r: Run<Stats>) {
    AllExec(made)
    && ((r.events == made + [Close] && r.value.Err?)
        || (Completes(w, q, made) && r.events == made + [Commit, Close] && (r.value.Ok? <==> q + |made| !in w.fail)))
    && (r.value.Ok? ==>
        ShortFree(cfg, rows)
        && made == BatchPlan(cfg, Slices(batch + Records(cfg, rows), BatchSize))
        && r.value.value == Stats(stats.processed + |Records(cfg, rows)|, stats.skipped + SkippedCount(cfg, rows)))
  }

  /** The end of the rows. */
  lemma FlushShaped(w: World, q: nat, cfg: CsvConfig, batch: seq<Record>, stats: Stats)
    requires |batch| < BatchSize
    ensures Shaped(w, q, cfg, [], batch, stats, InsertBatch(cfg, batch), Flush(w, q, cfg, batch, stats))
  {
    var made := InsertBatch(cfg, batch);
    assert batch + Records(cfg, []) == batch;
    if batch != [] {
      SlicesPartial(batch, BatchSize);
      assert BatchPlan(cfg, [batch]) == made + BatchPlan(cfg, []);
    }
  }

  /** A row that adds no record and leaves the batch as it is. */
  lemma PassShaped(w: World, q: nat, cfg: CsvConfig, rows: seq<seq<string>>, batch: seq<Record>, stats: Stats,
                   made: seq<Event>, r: Run<Stats>)
    requires rows != [] && (Classify(cfg, rows[0]).Blank? || Classify(cfg, rows[0]).Skipped?)
    requires var c := if Classify(cfg, rows[0]).Skipped? then Stats(stats.processed, stats.skipped + 1) else stats;
      Shaped(w, q, cfg, rows[1..], batch, c, made, r)
    ensures Shaped(w, q, cfg, rows, batch, stats, made, r)
  {
    ShortFreeCons(cfg, rows);
    assert Records(cfg, rows) == [] + Records(cfg, rows[1..]) == Records(cfg, rows[1..]);
  }

  /** A row that is too short for `fields`. */
  lemma ShortShaped(w: World, q: nat, cfg: CsvConfig, rows: seq<seq<string>>, batch: seq<Record>, stats: Stats)
    ensures Shaped(w, q, cfg, rows, batch, stats, [], Run([Close], Err(IndexError)))
  {
  }

  /** A record that does not fill the batch. */
  lemma GrowShaped(w: World, q: nat, cfg: CsvConfig, rows: seq<seq<string>>, batch: seq<Record>, stats: Stats,
                   made: seq<Event>, r: Run<Stats>)
    requires rows != [] && Classify(cfg, rows[0]).Accepted?
    requires Shaped(w, q, cfg, rows[1..], batch + [Classify(cfg, rows[0]).record], Stats(stats.processed + 1, stats.skipped), made, r)
    ensures Shaped(w, q, cfg, rows, batch, stats, made, r)
  {
    ShortFreeCons(cfg, rows);
    assert batch + Records(cfg, rows) == batch + [Classify(cfg, rows[0]).record] + Records(cfg, rows[1..]);
  }

  /** A record that fills the batch, whose insert raises. */
  lemma FullFailShaped(w: World, q: nat, cfg: CsvConfig, rows: seq<seq<string>>, batch: seq<Record>, stats: Stats, e: seq<Event>)
    requires AllExec(e)
    ensures Shaped(w, q, cfg, rows, batch, stats, e, Run(e + [Close], Err(ClientError)))
  {
  }

  /** A record that fills the batch, whose insert goes through. */
  lemma FullShaped(w: World, q: nat, cfg: CsvConfig, rows: seq<seq<string>>, batch: seq<Record>, stats: Stats,
                   sub: seq<Event>, r: Run<Stats>)
    requires rows != [] && Classify(cfg, rows[0]).Accepted? && |batch| + 1 == BatchSize
    requires var e := InsertBatch(cfg, batch + [Classify(cfg, rows[0]).record]);
      Completes(w, q, e) && Shaped(w, q + |e|, cfg, rows[1..], [], Stats(stats.processed + 1, stats.skipped), sub, r)
    ensures var e := InsertBatch(cfg, batch + [Classify(cfg, rows[0]).record]);
      Shaped(w, q, cfg, rows, batch, stats, e + sub, Then(e, r))
  {
    var full := batch + [Classify(cfg, rows[0]).record];
    var e := InsertBatch(cfg, full);
    var rest := Records(cfg, rows[1..]);
    if Completes(w, q + |e|, sub) {
      CompletesAppend(w, q, e, sub);
    }
    Assoc(e, sub, [Close]);
    Assoc(e, sub, [Commit, Close]);
    if r.value.Ok? {
      ShortFreeCons(cfg, rows);
      assert batch + Records(cfg, rows) == full + rest;
      SlicesFull(full, rest, BatchSize);
      assert [] + rest == rest;
      assert BatchPlan(cfg, [full] + Slices(rest, BatchSize)) == e + BatchPlan(cfg, Slices(rest, BatchSize)) by {
        assert ([full] + Slices(rest, BatchSize))[1..] == Slices(rest, BatchSize);
      }
    }
  }

  /** Every run of the loop has the shape `Shaped` describes. */
  lemma {:induction false} LoopShape(w: World, q: nat, cfg: CsvConfig, rows: seq<seq<string>>, batch: seq<Record>, stats: Stats)
    returns (made: seq<Event>)
    requires |batch| < BatchSize
    ensures Shaped(w, q, cfg, rows, batch, stats, made, Loop(w, q, cfg, rows, batch, stats))
    decreases |rows|
  {
    if rows == [] {
      made := InsertBatch(cfg, batch);
      FlushShaped(w, q, cfg, batch, stats);
    } else {
      var rest := rows[1..];
      LoopCons(w, q, cfg, rows, batch, stats);
      match Classify(cfg, rows[0])
      case Blank =>
        made := LoopShape(w, q, cfg, rest, batch, stats);
        PassShaped(w, q, cfg, rows, batch, stats, made, Loop(w, q, cfg, rest, batch, stats));
      case Skipped =>
        var c := Stats(stats.processed, stats.skipped + 1);
        made := LoopShape(w, q, cfg, rest, batch, c);
        PassShaped(w, q, cfg, rows, batch, stats, made, Loop(w, q, cfg, rest, batch, c));
      case Short =>
        made := [];
        ShortShaped(w, q, cfg, rows, batch, stats);
      case Accepted(rec) =>
        var full := batch + [rec];
        var counted := Stats(stats.processed + 1, stats.skipped);
        if |full| < BatchSize {
          made := LoopShape(w, q, cfg, rest, full, counted);
          GrowShaped(w, q, cfg, rows, batch, stats, made, Loop(w, q, cfg, rest, full, counted));
        } else {
          var e := InsertBatch(cfg, full);
          if !Completes(w, q, e) {
            made := e;
            FullFailShaped(w, q, cfg, rows, batch, stats, e);
          } else {
            var sub := LoopShape(w, q + |e|, cfg, rest, [], counted);
            made := e + sub;
            FullShaped(w, q, cfg, rows, batch, stats, sub, Loop(w, q + |e|, cfg, rest, [], counted));
          }
        }
    }
  }

  /** The inserts of the records of the rows: slices of 100, the last one
      partial. */
  function RowsPlan(cfg: CsvConfig, rows: seq<seq<string>>): seq<Event> {
    BatchPlan(cfg, Slices(Records(cfg, rows), BatchSize))
  }

  /** When `_process_content` returns, no row was too short for `fields`,
      every non-empty row was counted once, as processed when it became a
      record and as skipped otherwise, and the calls were the session, the
      inserts of the records in slices of 100, the commit and the close. */
  lemma SessionCounts(w: World, p: nat, cfg: CsvConfig, rows: seq<seq<string>>)
    ensures var r := SessionRun(w, p, cfg, rows);
      r.value.Ok? ==>
        ShortFree(cfg, rows)
        && r.value.value == Stats(|Records(cfg, rows)|, SkippedCount(cfg, rows))
        && r.value.value.processed + r.value.value.skipped == NonBlank(rows)
        && r.events == [Connect] + RowsPlan(cfg, rows) + [Commit, Close]
  {
    if p !in w.fail {
      var made := LoopShape(w, p + 1, cfg, rows, [], Stats(0, 0));
      assert [] + Records(cfg, rows) == Records(cfg, rows);
      if SessionRun(w, p, cfg, rows).value.Ok? {
        CountsAddUp(cfg, rows);
      }
    }
  }

  /** Every insert sends between 1 and 100 records, only the last one
      fewer than 100, and together they send the records of the rows in
      order, each filtered to the columns to insert. */
  lemma RowsPlanSends(cfg: CsvConfig, rows: seq<seq<string>>)
    ensures var plan := RowsPlan(cfg, rows);
      (forall k :: 0 <= k < |plan| ==> plan[k].Exec? && plan[k].query == Statement(cfg) && plan[k].params.Dicts?
                                       && 1 <= |plan[k].params.records| <= BatchSize)
      && (forall k :: 0 <= k < |plan| - 1 ==> |plan[k].params.records| == BatchSize)
      && SentDicts(plan) == Filtered(Columns(cfg), Records(cfg, rows))
  {
    var recs := Records(cfg, rows);
    var slices := Slices(recs, BatchSize);
    SlicesSizes(recs, BatchSize);
    SlicesCover(recs, BatchSize);
    BatchPlanSends(cfg, slices);
  }

  /** A session that was opened is closed on every path, the commit coming
      at most once and only right before the close; a session that could
      not be opened is not closed.  Only database calls are made. */
  lemma SessionCloses(w: World, p: nat, cfg: CsvConfig, rows: seq<seq<string>>) returns (made: seq<Event>)
    ensures var r := SessionRun(w, p, cfg, rows);
      AllExec(made)
      && (p in w.fail ==> r.events == [Connect] && r.value == Err(ClientError))
      && (p !in w.fail ==>
          (r.events == [Connect] + made + [Close] && r.value.Err?)
          || (Completes(w, p + 1, made) && r.events == [Connect] + made + [Commit, Close]
              && (r.value.Ok? <==> p + 1 + |made| !in w.fail)))
      && DatabaseOnly(r.events)
      && (forall i :: 0 <= i < |r.events| && r.events[i].Commit? ==> i == |r.events| - 2)
  {
    var r := SessionRun(w, p, cfg, rows);
    if p in w.fail {
      made := [];
    } else {
      made := LoopShape(w, p + 1, cfg, rows, [], Stats(0, 0));
      forall i | 0 <= i < |r.events|
        ensures !r.events[i].Get? && !r.events[i].Copy? && !r.events[i].Delete? && !r.events[i].Put?
        ensures r.events[i].Commit? ==> i == |r.events| - 2
      {
        if 1 <= i <= |made| {
          assert r.events[i] == made[i - 1];
        }
      }
    }
  }

  /** Executes that went through are all pending afterwards. */
  lemma {:induction false} PendingExecs(w: World, pos: nat, execs: seq<Event>, pending: seq<Event>)
    requires AllExec(execs) && Completes(w, pos, execs)
    ensures PendingAfter(w, pos, execs, pending) == pending + execs
    decreases |execs|
  {
    if execs != [] {
      PendingExecs(w, pos + 1, execs[1..], pending + [execs[0]]);
      assert pending + [execs[0]] + execs[1..] == pending + execs;
    }
  }

  /** The calls after the session was opened: inserts that all went
      through, then a commit and the close, leave the inserts durable
      exactly when the commit went through. */
  lemma CommittedSettles(w: World, q: nat, made: seq<Event>)
    requires AllExec(made) && Completes(w, q, made)
    ensures Settle(w, q, made + [Commit, Close], []) == (if q + |made| in w.fail then [] else made)
    ensures PendingAfter(w, q, made + [Commit, Close], []) == []
  {
    FixedLayout.ExecsCommitNothing(w, q, made, []);
    SettleConcat(w, q, made, [Commit, Close], []);
    PendingExecs(w, q, made, []);
    assert [] + made == made;
    var pend := if q + |made| in w.fail then made else [];
    assert [Commit, Close][1..] == [Close];
    CloseSettles(w, q + |made| + 1, pend);
    assert PendingAfter(w, q + |made| + 1, [Close], pend) == [];
  }

  /** Inserts followed by the close leave nothing durable. */
  lemma AbortedSettles(w: World, q: nat, made: seq<Event>)
    requires AllExec(made)
    ensures Settle(w, q, made + [Close], []) == []
    ensures PendingAfter(w, q, made + [Close], []) == []
  {
    FixedLayout.ExecsCommitNothing(w, q, made, []);
    ClosedSession(w, q, made, []);
  }

  /** When `_process_content` returns, every insert is durable; when it
      raises, none is.  No transaction is left open. */
  lemma SessionDurable(w: World, p: nat, cfg: CsvConfig, rows: seq<seq<string>>)
    ensures var r := SessionRun(w, p, cfg, rows);
      Durable(w, p, r.events) == (if r.value.Ok? then RowsPlan(cfg, rows) else [])
      && PendingAfter(w, p, r.events, []) == []
  {
    var r := SessionRun(w, p, cfg, rows);
    var made := SessionCloses(w, p, cfg, rows);
    SessionCounts(w, p, cfg, rows);
    if p !in w.fail {
      var q := p + 1;
      assert Settle(w, p, r.events, []) == Settle(w, q, r.events[1..], []);
      assert PendingAfter(w, p, r.events, []) == PendingAfter(w, q, r.events[1..], []);
      if r.events == [Connect] + made + [Close] && r.value.Err? {
        assert r.events[1..] == made + [Close];
        AbortedSettles(w, q, made);
      } else {
        assert r.events[1..] == made + [Commit, Close];
        CommittedSettles(w, q, made);
        if r.value.Ok? {
          assert r.events[1..] == RowsPlan(cfg, rows) + [Commit, Close];
          assert made == r.events[1..][..|made|] == RowsPlan(cfg, rows);
        }
      }
    }
  }

  // ---------------------------------------------------------------------
  // `process_file`.

  /** `key.replace('entrada/', 'processados/')`. */
  function ProcessedKey(key: string): string {
    Replace(key, InputPrefix, ProcessedPrefix)
  }

  /** `key.replace('entrada/', 'erros/')`. */
  function ErrorKey(key: string): string {
    Replace(key, InputPrefix, ErrorPrefix)
  }

  /** The `except` branch, its first call being the `m`-th: the object is
      moved to its error key and `e` re-raised, unless the move itself
      raised, whose exception then propagates instead. */
  function Recover(w: World, m: nat, key: string, e: Error): Run<Outcome> {
    var mv := Move(key, ErrorKey(key));
    Run(Attempt(w, m, mv), Err(if Completes(w, m, mv) then e else ClientError))
  }

  /** What follows `_process_content` returning `v`, the next call being
      the `m`-th: the move to the processed key and the summary, or the
      `except` branch. */
  function AfterContent(w: World, m: nat, key: string, v: Result<Stats>): Run<Outcome> {
    if v.Err? then Recover(w, m, key, v.error)
    else
      var mv := Move(key, ProcessedKey(key));
      if Completes(w, m, mv) then Run(mv, Ok(Outcome("success", v.value.processed, v.value.skipped)))
      else
        var made := Attempt(w, m, mv);
        Then(made, Recover(w, m + |made|, key, ClientError))
  }

  /** `process_file(bucket, key)`, the read being the `p`-th call;
      `contents` is the processing of the content. */
  function FileRun(w: World, p: nat, key: string, contents: (nat, string) -> Run<Stats>): Run<Outcome> {
    if p in w.fail then Then([Get(key)], Recover(w, p + 1, key, ClientError))
    else Then([Get(key)], ReadTail(w, p + 1, key, contents(p + 1, Body(w, p))))
  }

  /** The processing of a content under one configuration. */
  function Processing(w: World, cfg: CsvConfig): (nat, string) -> Run<Stats> {
    (q: nat, c: string) => ContentRun(w, q, cfg, c)
  }

  /** `contents` is the processing of a content under `cfg`. */
  ghost predicate Processes(contents: (nat, string) -> Run<Stats>, w: World, cfg: CsvConfig) {
    forall q: nat, c: string {:trigger ContentRun(w, q, cfg, c)} :: contents(q, c) == ContentRun(w, q, cfg, c)
  }

  lemma ProcessingProcesses(w: World, cfg: CsvConfig)
    ensures Processes(Processing(w, cfg), w, cfg)
  {
  }

  /** The `except` branch of `process_file`. */
  method RecoverFile(env: Env, key: string, e: Error) returns (r: Result<Outcome>)
    modifies env
    ensures env.trace == old(env.trace) + Recover(env.world, |old(env.trace)|, key, e).events
    ensures r == Recover(env.world, |old(env.trace)|, key, e).value
  {
    var errorKey := Replace(key, InputPrefix, ErrorPrefix);
    var moved := MoveObject(env, key, errorKey);
    if !moved {
      return Err(ClientError);
    }
    r := Err(e);
  }

  /** The part of `process_file` after `_process_content`. */
  method Conclude(env: Env, key: string, v: Result<Stats>) returns (r: Result<Outcome>)
    modifies env
    ensures env.trace == old(env.trace) + AfterContent(env.world, |old(env.trace)|, key, v).events
    ensures r == AfterContent(env.world, |old(env.trace)|, key, v).value
  {
    ghost var t0 := env.trace;
    if v.Err? {
      r := RecoverFile(env, key, v.error);
      return;
    }
    var newKey := Replace(key, InputPrefix, ProcessedPrefix);
    ghost var mv := Move(key, newKey);
    var moved := MoveObject(env, key, newKey);
    if moved {
      AttemptComplete(env.world, |t0|, mv);
      return Ok(Outcome("success", v.value.processed, v.value.skipped));
    }
    ghost var made := Attempt(env.world, |t0|, mv);
    ghost var rec := Recover(env.world, |t0| + |made|, key, ClientError);
    r := RecoverFile(env, key, ClientError);
    Assoc(t0, made, rec.events);
  }

  /** The processing of a content that was read. */
  method ProcessStage(env: Env, cfg: CsvConfig, content: string,
                      ghost contents: (nat, string) -> Run<Stats>) returns (r: Result<Stats>)
    requires Processes(contents, env.world, cfg)
    modifies env
    ensures env.trace == old(env.trace) + contents(|old(env.trace)|, content).events
    ensures r == contents(|old(env.trace)|, content).value
  {
    assert contents(|env.trace|, content) == ContentRun(env.world, |env.trace|, cfg, content);
    r := ProcessContent(env, cfg, content);
  }

  /** `process_file` over a given processing stage. */
  method ProcessWith(env: Env, cfg: CsvConfig, key: string,
                     ghost contents: (nat, string) -> Run<Stats>) returns (r: Result<Outcome>)
    requires Processes(contents, env.world, cfg)
    modifies env
    ensures env.trace == old(env.trace) + FileRun(env.world, |old(env.trace)|, key, contents).events
    ensures r == FileRun(env.world, |old(env.trace)|, key, contents).value
  {
    ghost var t0 := env.trace;
    var content := env.Read(key);
    if content.Err? {
      ghost var rec := Recover(env.world, |t0| + 1, key, ClientError);
      r := RecoverFile(env, key, content.error);
      Assoc(t0, [Get(key)], rec.events);
      return;
    }
    ghost var c := contents(|t0| + 1, content.value);
    var v := ProcessStage(env, cfg, content.value, contents);
    ghost var tail := AfterContent(env.world, |t0| + 1 + |c.events|, key, v);
    r := Conclude(env, key, v);
    Assoc(t0 + [Get(key)], c.events, tail.events);
    Assoc(t0, [Get(key)], c.events + tail.events);
  }

  /** `CSVProcessor.process_file(bucket, key)`. */
  method ProcessFile(env: Env, cfg: CsvConfig, key: string) returns (r: Result<Outcome>)
    modifies env
    ensures env.trace == old(env.trace) + FileRun(env.world, |old(env.trace)|, key, Processing(env.world, cfg)).events
    ensures r == FileRun(env.world, |old(env.trace)|, key, Processing(env.world, cfg)).value
  {
    ProcessingProcesses(env.world, cfg);
    r := ProcessWith(env, cfg, key, Processing(env.world, cfg));
  }

  // ---------------------------------------------------------------------
  // What `process_file` promises.

  /** A key under `entrada/` that names the folder only once goes to the
      same name under `processados/`, or under `erros/`. */
  lemma KeysOf(key: string)
    requires StartsWith(key, InputPrefix) && !Contains(key[|InputPrefix|..], InputPrefix)
    ensures ProcessedKey(key) == ProcessedPrefix + key[|InputPrefix|..]
    ensures ErrorKey(key) == ErrorPrefix + key[|InputPrefix|..]
  {
    LeadingReplace(key, InputPrefix, ProcessedPrefix);
    LeadingReplace(key, InputPrefix, ErrorPrefix);
    ReplaceAbsent(key[|InputPrefix|..], InputPrefix, ProcessedPrefix);
    ReplaceAbsent(key[|InputPrefix|..], InputPrefix, ErrorPrefix);
  }

  /** The facts about the processing stage that `process_file` relies on. */
  ghost predicate SessionStage(contents: (nat, string) -> Run<Stats>, w: World) {
    forall q: nat, c: string :: DatabaseOnly(contents(q, c).events) && PendingAfter(w, q, contents(q, c).events, []) == []
  }

  lemma ProcessingSession(w: World, cfg: CsvConfig)
    ensures SessionStage(Processing(w, cfg), w)
  {
    forall q: nat, c: string
      ensures DatabaseOnly(ContentRun(w, q, cfg, c).events) && PendingAfter(w, q, ContentRun(w, q, cfg, c).events, []) == []
    {
      var _ := SessionCloses(w, q, cfg, Rows(c, cfg.delimiter));
      SessionDurable(w, q, cfg, Rows(c, cfg.delimiter));
    }
  }

  /** The run ends with the error move: its copy raised and was the last
      call, or the copy and the delete are the last two calls. */
  ghost predicate EndsInRecovery(key: string, events: seq<Event>) {
    |events| >= 1
    && (events[|events| - 1] == Copy(key, ErrorKey(key))
        || (|events| >= 2 && events[|events| - 2..] == Move(key, ErrorKey(key))))
  }

  lemma EndsInRecoveryAfter(key: string, a: seq<Event>, b: seq<Event>)
    requires EndsInRecovery(key, b)
    ensures EndsInRecovery(key, a + b)
  {
    var ab := a + b;
    assert ab[|ab| - 1] == b[|b| - 1];
    if |b| >= 2 {
      assert ab[|ab| - 2..] == b[|b| - 2..];
    }
  }

  /** The error move raises `e` when it goes through, and its own
      exception otherwise.  It ends the run. */
  lemma RecoverShape(w: World, m: nat, key: string, e: Error)
    ensures var r := Recover(w, m, key, e);
      r.value.Err?
      && (r.events == [Copy(key, ErrorKey(key))] || r.events == Move(key, ErrorKey(key)))
      && (m !in w.fail && m + 1 !in w.fail ==> r.value.error == e && r.events == Move(key, ErrorKey(key)))
      && (m in w.fail || m + 1 in w.fail ==> r.value.error == ClientError)
      && SafeDeletes(w, m, r.events) && Outside(r.events)
  {
    MoveAttempt(w, m, key, ErrorKey(key));
  }

  lemma RecoverEnds(w: World, m: nat, key: string, e: Error)
    ensures EndsInRecovery(key, Recover(w, m, key, e).events)
  {
    RecoverShape(w, m, key, e);
    assert Move(key, ErrorKey(key))[0..] == Move(key, ErrorKey(key));
  }

  /** What follows the processing, as `process_file` promises it: the
      summary exactly when the processing returned and the move to the
      processed key went through; otherwise the run ends with the error
      move, which re-raises the processing's exception when it goes through.
      Only the bucket is called, and the object is deleted only right after
      a copy of it went through. */
  ghost predicate Concluded(w: World, m: nat, key: string, v: Result<Stats>, r: Run<Outcome>) {
    Outside(r.events) && SafeDeletes(w, m, r.events)
    && (r.value.Ok? <==> v.Ok? && m !in w.fail && m + 1 !in w.fail)
    && (r.value.Ok? ==>
        r.value.value == Outcome("success", v.value.processed, v.value.skipped)
        && r.events == Move(key, ProcessedKey(key)))
    && (r.value.Err? ==> EndsInRecovery(key, r.events))
    && (v.Err? && m !in w.fail && m + 1 !in w.fail ==> r == Run(Move(key, ErrorKey(key)), Err(v.error)))
  }

  lemma RaisedConcluded(w: World, m: nat, key: string, e: Error)
    ensures Concluded(w, m, key, Err(e), AfterContent(w, m, key, Err(e)))
  {
    RecoverShape(w, m, key, e);
    RecoverEnds(w, m, key, e);
  }

  lemma MovedConcluded(w: World, m: nat, key: string, s: Stats)
    requires m !in w.fail && m + 1 !in w.fail
    ensures Concluded(w, m, key, Ok(s), AfterContent(w, m, key, Ok(s)))
  {
    MoveAttempt(w, m, key, ProcessedKey(key));
    assert Outside(Move(key, ProcessedKey(key)));
  }

  /** The move to the processed key raised at `at`, after `made`. */
  lemma StrandedConcluded(w: World, m: nat, key: string, s: Stats, made: seq<Event>)
    requires made == Attempt(w, m, Move(key, ProcessedKey(key)))
    requires SafeDeletes(w, m, made) && Outside(made)
    requires AfterContent(w, m, key, Ok(s)) == Then(made, Recover(w, m + |made|, key, ClientError))
    requires m in w.fail || m + 1 in w.fail
    ensures Concluded(w, m, key, Ok(s), AfterContent(w, m, key, Ok(s)))
  {
    var rec := Recover(w, m + |made|, key, ClientError);
    RecoverShape(w, m + |made|, key, ClientError);
    RecoverEnds(w, m + |made|, key, ClientError);
    SafeDeletesConcat(w, m, made, rec.events);
    OutsideConcat(made, rec.events);
    EndsInRecoveryAfter(key, made, rec.events);
  }

  lemma UnmovedConcluded(w: World, m: nat, key: string, s: Stats)
    requires m in w.fail || m + 1 in w.fail
    ensures Concluded(w, m, key, Ok(s), AfterContent(w, m, key, Ok(s)))
  {
    MoveAttempt(w, m, key, ProcessedKey(key));
    var made := Attempt(w, m, Move(key, ProcessedKey(key)));
    assert Outside(made);
    StrandedConcluded(w, m, key, s, made);
  }

  lemma AfterContentConcluded(w: World, m: nat, key: string, v: Result<Stats>)
    ensures Concluded(w, m, key, v, AfterContent(w, m, key, v))
  {
    if v.Err? {
      RaisedConcluded(w, m, key, v.error);
    } else if m !in w.fail && m + 1 !in w.fail {
      MovedConcluded(w, m, key, v.value);
    } else {
      UnmovedConcluded(w, m, key, v.value);
    }
  }

  /** The tail of `process_file` after the read: the processing and what
      follows it. */
  function ReadTail(w: World, q: nat, key: string, c: Run<Stats>): Run<Outcome> {
    Then(c.events, AfterContent(w, q + |c.events|, key, c.value))
  }

  /** The processing calls the database only, so the object is deleted
      only after a copy of it went through. */
  lemma ReadTailSafe(w: World, q: nat, key: string, c: Run<Stats>)
    requires DatabaseOnly(c.events)
    ensures SafeDeletes(w, q, ReadTail(w, q, key, c).events)
  {
    var tail := AfterContent(w, q + |c.events|, key, c.value);
    AfterContentConcluded(w, q + |c.events|, key, c.value);
    NoDeletesSafe(w, q, c.events);
    SafeDeletesConcat(w, q, c.events, tail.events);
  }

  /** The processing leaves no transaction open, so what follows it does
      not change what is durable. */
  lemma ReadTailDurable(w: World, q: nat, key: string, c: Run<Stats>)
    requires PendingAfter(w, q, c.events, []) == []
    ensures Durable(w, q, ReadTail(w, q, key, c).events) == Durable(w, q, c.events)
  {
    var tail := AfterContent(w, q + |c.events|, key, c.value);
    AfterContentConcluded(w, q + |c.events|, key, c.value);
    DurableThenOutside(w, q, c.events, tail.events);
  }

  /** After a read that went through, `c` being the processing. */
  lemma ReadOutcome(w: World, q: nat, key: string, c: Run<Stats>)
    ensures var r := Then([Get(key)], ReadTail(w, q, key, c));
      var m := q + |c.events|;
      (r.value.Ok? <==> c.value.Ok? && m !in w.fail && m + 1 !in w.fail)
      && (r.value.Ok? ==>
          r.value.value == Outcome("success", c.value.value.processed, c.value.value.skipped)
          && r.events == [Get(key)] + c.events + Move(key, ProcessedKey(key)))
      && (r.value.Err? ==> EndsInRecovery(key, r.events))
      && (c.value.Err? && m !in w.fail && m + 1 !in w.fail ==>
          r.value == Err(c.value.error) && r.events == [Get(key)] + c.events + Move(key, ErrorKey(key)))
  {
    var m := q + |c.events|;
    var tail := AfterContent(w, m, key, c.value);
    AfterContentConcluded(w, m, key, c.value);
    assert Then([Get(key)], ReadTail(w, q, key, c)) == Run([Get(key)] + c.events + tail.events, tail.value);
    if tail.value.Err? {
      EndsInRecoveryAfter(key, [Get(key)] + c.events, tail.events);
    }
  }

  /** `process_file` returns exactly when the read, the processing and the
      move to the processed key went through, and then reports the
      processing's counters; otherwise the object was last moved towards
      its error key, and the exception of the processing is what is raised
      when that move went through. */
  lemma FileOutcome(w: World, p: nat, key: string, contents: (nat, string) -> Run<Stats>)
    ensures var r := FileRun(w, p, key, contents);
      var c := contents(p + 1, Body(w, p));
      var m := p + 1 + |c.events|;
      (r.value.Ok? <==> p !in w.fail && c.value.Ok? && m !in w.fail && m + 1 !in w.fail)
      && (r.value.Ok? ==>
          r.value.value == Outcome("success", c.value.value.processed, c.value.value.skipped)
          && r.events == [Get(key)] + c.events + Move(key, ProcessedKey(key)))
      && (r.value.Err? ==> EndsInRecovery(key, r.events))
      && (p !in w.fail && c.value.Err? && m !in w.fail && m + 1 !in w.fail ==>
          r.value == Err(c.value.error) && r.events == [Get(key)] + c.events + Move(key, ErrorKey(key)))
  {
    if p in w.fail {
      var rec := Recover(w, p + 1, key, ClientError);
      RecoverShape(w, p + 1, key, ClientError);
      RecoverEnds(w, p + 1, key, ClientError);
      EndsInRecoveryAfter(key, [Get(key)], rec.events);
    } else {
      ReadOutcome(w, p + 1, key, contents(p + 1, Body(w, p)));
    }
  }

  /** The object is deleted only right after a copy of it that went
      through, and what `process_file` leaves in the database is what the
      processing left there, whatever happens to the object afterwards. */
  lemma FileSafe(w: World, p: nat, key: string, contents: (nat, string) -> Run<Stats>)
    requires SessionStage(contents, w)
    ensures var r := FileRun(w, p, key, contents);
      SafeDeletes(w, p, r.events)
      && Durable(w, p, r.events) == (if p in w.fail then [] else Durable(w, p + 1, contents(p + 1, Body(w, p)).events))
  {
    var r := FileRun(w, p, key, contents);
    if p in w.fail {
      var rec := Recover(w, p + 1, key, ClientError);
      RecoverShape(w, p + 1, key, ClientError);
      SafeDeletesConcat(w, p, [Get(key)], rec.events);
      OutsideConcat([Get(key)], rec.events);
      OutsideSettles(w, p, r.events, []);
    } else {
      var c := contents(p + 1, Body(w, p));
      var t := ReadTail(w, p + 1, key, c);
      assert r == Then([Get(key)], t);
      ReadTailSafe(w, p + 1, key, c);
      ReadTailDurable(w, p + 1, key, c);
      SafeDeletesConcat(w, p, [Get(key)], t.events);
      SettleConcat(w, p, [Get(key)], t.events, []);
    }
  }

  /** When the copy to the processed key goes through but the delete
      raises, the `except` branch copies the object to the error key as
      well: it then exists under both keys, and `process_file` raises. */
  lemma StrandedCopy(w: World, p: nat, key: string, contents: (nat, string) -> Run<Stats>)
    requires p !in w.fail && contents(p + 1, Body(w, p)).value.Ok?
    requires var m := p + 1 + |contents(p + 1, Body(w, p)).events|;
      m !in w.fail && m + 1 in w.fail && m + 2 !in w.fail && m + 3 !in w.fail
    ensures var r := FileRun(w, p, key, contents);
      r.value == Err(ClientError)
      && r.events == [Get(key)] + contents(p + 1, Body(w, p)).events
                     + [Copy(key, ProcessedKey(key)), Delete(key), Copy(key, ErrorKey(key)), Delete(key)]
  {
    var c := contents(p + 1, Body(w, p));
    var m := p + 1 + |c.events|;
    MoveAttempt(w, m, key, ProcessedKey(key));
    MoveAttempt(w, m + 2, key, ErrorKey(key));
  }
}
