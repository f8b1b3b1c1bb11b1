/** The s3tords Lambda: for every S3 record, read the file under `entrada/`,
    map it with `DataProcessor.process_csv`, upsert every table that has
    tuples (committing slice by slice), then move the file to
    `processados/`; a `ProcessingError` moves it to `erros/` instead and is
    reported in the results, any other exception ends the handler. */
module S3tordsPipeline {
  import opened Values
  import opened Text
  import opened Clock
  import opened Effects
  import opened Csv
  import opened Mapper
  import opened Store
  import opened Transactions
  import opened Moves
  import opened Keys
  import opened Notifications
  import opened CommitEach
  import PipelineV2

  /** `AppConfig` with `TABLE_MAPPINGS`: the prefixes, the mapping and the
      batch size (`int(BATCH_SIZE)`). */
  datatype Config = Config(s3: Prefixes, tables: seq<Table>, batch: int)

  /** The configuration as shipped; the mapping is the one of
      s3-to-rds-v2. */
  function Shipped(batch: int): Config {
    Config(Folders, [PipelineV2.RuleTable, PipelineV2.CharacteristicTable], batch)
  }

  // ---------------------------------------------------------------------
  // StorageService

  const Reading: string := "Falha ao ler arquivo"
  const Moving: string := "Falha ao mover arquivo"

  /** `get_file`: a key outside the input prefix raises InvalidFileError
      before any read, and that error, like a failed read, is re-raised as
      a StorageError. */
  function GetRun(w: World, p: nat, s3: Prefixes, key: string): Run<string> {
    if !StartsWith(key, s3.input) then Run([], Err(StorageFailure(Reading, InvalidFile(s3.input))))
    else Run([Get(key)], if p in w.fail then Err(StorageFailure(Reading, ClientError)) else Ok(Body(w, p)))
  }

  method GetFile(env: Env, s3: Prefixes, key: string) returns (r: Result<string>)
    modifies env
    ensures env.trace == old(env.trace) + GetRun(env.world, |old(env.trace)|, s3, key).events
    ensures r == GetRun(env.world, |old(env.trace)|, s3, key).value
  {
    if !StartsWith(key, s3.input) {
      return Err(StorageFailure(Reading, InvalidFile(s3.input)));
    }
    var read := env.Read(key);
    if read.Err? {
      return Err(StorageFailure(Reading, ClientError));
    }
    r := Ok(read.value);
  }

  /** The key `move_file` moves to: every occurrence of the input prefix
      replaced by the processed or the error prefix. */
  function NewKey(s3: Prefixes, key: string, success: bool): string {
    Replace(key, s3.input, if success then s3.processed else s3.error)
  }

  /** `move_file`: copy, then delete; a raising call becomes a
      StorageError. */
  function MoveRun(w: World, p: nat, s3: Prefixes, key: string, success: bool): Run<string> {
    var move := Move(key, NewKey(s3, key, success));
    Run(Attempt(w, p, move), if Completes(w, p, move) then Ok(NewKey(s3, key, success)) else Err(StorageFailure(Moving, ClientError)))
  }

  method MoveFile(env: Env, s3: Prefixes, key: string, success: bool) returns (r: Result<string>)
    modifies env
    ensures env.trace == old(env.trace) + MoveRun(env.world, |old(env.trace)|, s3, key, success).events
    ensures r == MoveRun(env.world, |old(env.trace)|, s3, key, success).value
  {
    var newKey := if success then Replace(key, s3.input, s3.processed) else Replace(key, s3.input, s3.error);
    var ok := MoveObject(env, key, newKey);
    r := if ok then Ok(newKey) else Err(StorageFailure(Moving, ClientError));
  }

  /** A key outside the input prefix is refused without a read. */
  lemma GetOutside(w: World, p: nat, s3: Prefixes, key: string)
    requires !StartsWith(key, s3.input)
    ensures GetRun(w, p, s3, key) == Run([], Err(StorageFailure(Reading, InvalidFile(s3.input))))
  {
  }

  /** A key under the input prefix is read once; the content is what the
      read returned, and a failed read is a StorageError. */
  lemma GetInside(w: World, p: nat, s3: Prefixes, key: string)
    requires StartsWith(key, s3.input)
    ensures GetRun(w, p, s3, key).events == [Get(key)]
    ensures GetRun(w, p, s3, key).value == if p in w.fail then Err(StorageFailure(Reading, ClientError)) else Ok(Body(w, p))
  {
  }

  /** The move copies before it deletes, issues no delete when the copy
      raised, and returns the new key exactly when both calls went through. */
  lemma MoveRunShape(w: World, p: nat, s3: Prefixes, key: string, success: bool)
    ensures var r := MoveRun(w, p, s3, key, success);
      var dst := NewKey(s3, key, success);
      SafeDeletes(w, p, r.events)
      && (p in w.fail ==> r.events == [Copy(key, dst)] && r.value == Err(StorageFailure(Moving, ClientError)))
      && (r.value.Ok? <==> r.events == [Copy(key, dst), Delete(key)] && p !in w.fail && p + 1 !in w.fail)
      && (r.value.Ok? ==> r.value.value == dst)
      && (r.value.Err? ==> r.value.error == StorageFailure(Moving, ClientError))
  {
    MoveAttempt(w, p, key, NewKey(s3, key, success));
  }

  // ---------------------------------------------------------------------
  // The table loop of lambda_handler

  // ---------------------------------------------------------------------
  // One record of lambda_handler

  /** An entry of `results`. */
  datatype FileResult =
    | Succeeded(file: string, processed: map<string, nat>)
    | Failed(file: string, error: Error)

  /** `process_csv(content)` with the clock reading `now`. */
  function TableDataOf(content: string, tables: seq<Table>, now: Instant): TableData {
    MapRows(ProcessCsv, Rows(content, ';'), tables, now)
  }

  /** `except ProcessingError as e`: move to the error prefix and report;
      a failure of this move is not caught and ends the handler. */
  function Recover(w: World, p: nat, s3: Prefixes, key: string, e: Error): Run<FileResult> {
    var mv := MoveRun(w, p, s3, key, false);
    Run(mv.events, if mv.value.Ok? then Ok(Failed(mv.value.value, e)) else Err(mv.value.error))
  }

  /** After the move to the processed prefix: its StorageError is caught by
      the same `except`. */
  function MovedTail(w: World, q: nat, s3: Prefixes, key: string, counts: map<string, nat>, v: Result<string>): Run<FileResult> {
    if v.Ok? then Run([], Ok(Succeeded(v.value, counts))) else Recover(w, q, s3, key, v.error)
  }

  /** The move after the upserts. */
  function Finish(w: World, p: nat, s3: Prefixes, key: string, counts: map<string, nat>): Run<FileResult> {
    var mv := MoveRun(w, p, s3, key, true);
    Then(mv.events, MovedTail(w, p + |mv.events|, s3, key, counts, mv.value))
  }

  /** After the upserts: the move, the `except` for a ProcessingError, or
      the propagation of any other exception. */
  function SavedTail(w: World, q: nat, s3: Prefixes, key: string, counts: map<string, nat>, v: Result<bool>): Run<FileResult> {
    if v.Ok? then Finish(w, q, s3, key, counts)
    else if IsProcessingError(v.error) then Recover(w, q, s3, key, v.error)
    else Run([], Err(v.error))
  }

  /** The upserts of every table of a file, from every position. */
  function Upserts(w: World, cfg: Config): (nat, TableData) -> Run<bool> {
    (p: nat, td: TableData) => TablesRun(w, p, cfg.tables, cfg.batch, td)
  }

  ghost predicate UpsertsRealize(upserts: (nat, TableData) -> Run<bool>, w: World, cfg: Config) {
    forall p: nat, td: TableData {:trigger TablesRun(w, p, cfg.tables, cfg.batch, td)} :: upserts(p, td) == TablesRun(w, p, cfg.tables, cfg.batch, td)
  }

  lemma UpsertsRealized(w: World, cfg: Config)
    ensures UpsertsRealize(Upserts(w, cfg), w, cfg)
  {
  }

  /** After the read: the upserts, then the move; `upserts` is the table
      loop, `Upserts(w, cfg)`. */
  function AfterGet(w: World, p: nat, cfg: Config, key: string, td: TableData, upserts: (nat, TableData) -> Run<bool>): Run<FileResult> {
    var saved := upserts(p, td);
    Then(saved.events, SavedTail(w, p + |saved.events|, cfg.s3, key, PipelineV2.Counts(td), saved.value))
  }

  /** After `get_file`. */
  function ReadTail(w: World, q: nat, cfg: Config, key: string, now: Instant, v: Result<string>, upserts: (nat, TableData) -> Run<bool>): Run<FileResult> {
    if v.Err? then Recover(w, q, cfg.s3, key, v.error)
    else AfterGet(w, q, cfg, key, TableDataOf(v.value, cfg.tables, now), upserts)
  }

  /** The body of the loop for one file. */
  function FileRun(w: World, p: nat, cfg: Config, key: string, now: Instant, upserts: (nat, TableData) -> Run<bool>): Run<FileResult> {
    var got := GetRun(w, p, cfg.s3, key);
    Then(got.events, ReadTail(w, p + |got.events|, cfg, key, now, got.value, upserts))
  }

  /** A record without its bucket or key raises KeyError, which is not a
      ProcessingError. */
  function RecordRun(w: World, p: nat, cfg: Config, n: Notification, now: Instant, upserts: (nat, TableData) -> Run<bool>): Run<FileResult> {
    if !WellFormed(n) then Run([], Err(KeyError)) else FileRun(w, p, cfg, n.key.value, now, upserts)
  }

  method RecoverFile(env: Env, s3: Prefixes, key: string, e: Error) returns (r: Result<FileResult>)
    modifies env
    ensures env.trace == old(env.trace) + Recover(env.world, |old(env.trace)|, s3, key, e).events
    ensures r == Recover(env.world, |old(env.trace)|, s3, key, e).value
  {
    var moved := MoveFile(env, s3, key, false);
    r := if moved.Ok? then Ok(Failed(moved.value, e)) else Err(moved.error);
  }

  method FinishFile(env: Env, s3: Prefixes, key: string, counts: map<string, nat>) returns (r: Result<FileResult>)
    modifies env
    ensures env.trace == old(env.trace) + Finish(env.world, |old(env.trace)|, s3, key, counts).events
    ensures r == Finish(env.world, |old(env.trace)|, s3, key, counts).value
  {
    ghost var t0 := env.trace;
    ghost var mv := MoveRun(env.world, |t0|, s3, key, true);
    var moved := MoveFile(env, s3, key, true);
    ghost var tail := MovedTail(env.world, |t0| + |mv.events|, s3, key, counts, moved);
    if moved.Ok? {
      r := Ok(Succeeded(moved.value, counts));
    } else {
      r := RecoverFile(env, s3, key, moved.error);
    }
    assert env.trace == t0 + mv.events + tail.events;
    Assoc(t0, mv.events, tail.events);
  }

  /** The move after the upserts, or the `except` for the error they
      raised. */
  method MoveAfterSave(env: Env, s3: Prefixes, key: string, counts: map<string, nat>, ok: Result<bool>) returns (r: Result<FileResult>)
    modifies env
    ensures env.trace == old(env.trace) + SavedTail(env.world, |old(env.trace)|, s3, key, counts, ok).events
    ensures r == SavedTail(env.world, |old(env.trace)|, s3, key, counts, ok).value
  {
    if ok.Ok? {
      r := FinishFile(env, s3, key, counts);
    } else if IsProcessingError(ok.error) {
      r := RecoverFile(env, s3, key, ok.error);
    } else {
      r := Err(ok.error);
    }
  }

  method SaveAndMove(env: Env, cfg: Config, key: string, td: TableData, ghost upserts: (nat, TableData) -> Run<bool>) returns (r: Result<FileResult>)
    requires UpsertsRealize(upserts, env.world, cfg)
    modifies env
    ensures env.trace == old(env.trace) + AfterGet(env.world, |old(env.trace)|, cfg, key, td, upserts).events
    ensures r == AfterGet(env.world, |old(env.trace)|, cfg, key, td, upserts).value
  {
    ghost var t0 := env.trace;
    ghost var saved := TablesRun(env.world, |t0|, cfg.tables, cfg.batch, td);
    var ok := UpsertTables(env, cfg.tables, cfg.batch, td);
    ghost var tail := SavedTail(env.world, |t0| + |saved.events|, cfg.s3, key, PipelineV2.Counts(td), ok);
    r := MoveAfterSave(env, cfg.s3, key, PipelineV2.Counts(td), ok);
    assert env.trace == t0 + saved.events + tail.events;
    Assoc(t0, saved.events, tail.events);
  }

  /** The `try` block for one file. */
  method ProcessFile(env: Env, cfg: Config, key: string, now: Instant, ghost upserts: (nat, TableData) -> Run<bool>) returns (r: Result<FileResult>)
    requires UpsertsRealize(upserts, env.world, cfg)
    modifies env
    ensures env.trace == old(env.trace) + FileRun(env.world, |old(env.trace)|, cfg, key, now, upserts).events
    ensures r == FileRun(env.world, |old(env.trace)|, cfg, key, now, upserts).value
  {
    ghost var t0 := env.trace;
    ghost var got := GetRun(env.world, |t0|, cfg.s3, key);
    var content := GetFile(env, cfg.s3, key);
    ghost var tail := ReadTail(env.world, |t0| + |got.events|, cfg, key, now, content, upserts);
    if content.Err? {
      r := RecoverFile(env, cfg.s3, key, content.error);
    } else {
      var td := MapFile(ProcessCsv, Rows(content.value, ';'), cfg.tables, now);
      r := SaveAndMove(env, cfg, key, td, upserts);
    }
    assert env.trace == t0 + got.events + tail.events;
    Assoc(t0, got.events, tail.events);
  }

  // ---------------------------------------------------------------------
  // lambda_handler

  /** The run of every record, from every position. */
  function Item(w: World, cfg: Config, now: Instant): (nat, Notification) -> Run<FileResult> {
    (p: nat, n: Notification) => RecordRun(w, p, cfg, n, now, Upserts(w, cfg))
  }

  ghost predicate Realizes(item: (nat, Notification) -> Run<FileResult>, w: World, cfg: Config, now: Instant,
                           upserts: (nat, TableData) -> Run<bool>) {
    forall p: nat, n: Notification {:trigger RecordRun(w, p, cfg, n, now, upserts)} ::
      item(p, n) == RecordRun(w, p, cfg, n, now, upserts)
  }

  lemma ItemRealizes(w: World, cfg: Config, now: Instant)
    ensures Realizes(Item(w, cfg, now), w, cfg, now, Upserts(w, cfg))
  {
  }

  /** One pass of the record loop. */
  method RecordIteration(env: Env, cfg: Config, now: Instant, n: Notification,
                         ghost item: (nat, Notification) -> Run<FileResult>, ghost upserts: (nat, TableData) -> Run<bool>)
    returns (r: Result<FileResult>, ghost step: seq<Event>)
    requires Realizes(item, env.world, cfg, now, upserts) && UpsertsRealize(upserts, env.world, cfg)
    modifies env
    ensures step == item(|old(env.trace)|, n).events && r == item(|old(env.trace)|, n).value
    ensures env.trace == old(env.trace) + step
  {
    ghost var run := RecordRun(env.world, |env.trace|, cfg, n, now, upserts);
    if !WellFormed(n) {
      r := Err(KeyError);
    } else {
      r := ProcessFile(env, cfg, n.key.value, now, upserts);
    }
    step := run.events;
  }

  /** The loop over `event['Records']`, collecting `results`. */
  method HandleRecords(env: Env, cfg: Config, now: Instant, records: seq<Notification>,
                       ghost item: (nat, Notification) -> Run<FileResult>, ghost upserts: (nat, TableData) -> Run<bool>)
    returns (results: Result<seq<FileResult>>)
    requires Realizes(item, env.world, cfg, now, upserts) && UpsertsRealize(upserts, env.world, cfg)
    modifies env
    ensures env.trace == old(env.trace) + CollectRun(|old(env.trace)|, records, item).events
    ensures results == CollectRun(|old(env.trace)|, records, item).value
  {
    ghost var t0 := env.trace;
    ghost var done: seq<Event> := [];
    var acc: seq<FileResult> := [];
    assert records[0..] == records;
    PrependNothing(CollectRun(|t0|, records, item));
    var i := 0;
    while i < |records|
      invariant 0 <= i <= |records|
      invariant env.trace == t0 + done
      invariant CollectRun(|t0|, records, item) == Prepend(done, acc, CollectRun(|t0| + |done|, records[i..], item))
      decreases |records| - i
    {
      var r;
      ghost var step;
      r, step := RecordIteration(env, cfg, now, records[i], item, upserts);
      Assoc(t0, done, step);
      if r.Err? {
        CollectRaise(|t0|, records, i, done, acc, item);
        return Err(r.error);
      }
      CollectNext(|t0|, records, i, done, acc, step, item);
      done := done + step;
      acc := acc + [r.value];
      i := i + 1;
    }
    CollectDone(|t0| + |done|, records, done, acc, item);
    results := Ok(acc);
  }

  /** The response body. */
  datatype Summary = Summary(processedFiles: nat, failedFiles: nat, details: seq<FileResult>)

  function Successes(details: seq<FileResult>): nat
    decreases |details|
  {
    if details == [] then 0 else (if details[0].Succeeded? then 1 else 0) + Successes(details[1..])
  }

  function Failures(details: seq<FileResult>): nat
    decreases |details|
  {
    if details == [] then 0 else (if details[0].Failed? then 1 else 0) + Failures(details[1..])
  }

  function Summarize(details: seq<FileResult>): Summary {
    Summary(Successes(details), Failures(details), details)
  }

  /** The run of `lambda_handler`: KeyError without `Records`, otherwise
      the summary of the collected results, unless a record raised. */
  function HandlerRun(pos: nat, event: Option<seq<Notification>>, item: (nat, Notification) -> Run<FileResult>): Run<Summary> {
    if event.None? then Run([], Err(KeyError))
    else
      var c := CollectRun(pos, event.value, item);
      Run(c.events, if c.value.Ok? then Ok(Summarize(c.value.value)) else Err(c.value.error))
  }

  /** `lambda_handler(event, context)` with `now` the clock reading used by
      the mapper. */
  method LambdaHandler(env: Env, cfg: Config, now: Instant, event: Option<seq<Notification>>) returns (r: Result<Summary>)
    modifies env
    ensures env.trace == old(env.trace) + HandlerRun(|old(env.trace)|, event, Item(env.world, cfg, now)).events
    ensures r == HandlerRun(|old(env.trace)|, event, Item(env.world, cfg, now)).value
  {
    if event.None? {
      return Err(KeyError);
    }
    ItemRealizes(env.world, cfg, now);
    UpsertsRealized(env.world, cfg);
    var results := HandleRecords(env, cfg, now, event.value, Item(env.world, cfg, now), Upserts(env.world, cfg));
    r := if results.Ok? then Ok(Summarize(results.value)) else Err(results.error);
  }

  // ---------------------------------------------------------------------
  // Properties of the handler

  /** Every result is a success or an error: the two counts add up to the
      number of results. */
  lemma {:induction false} SummaryCounts(details: seq<FileResult>)
    ensures Successes(details) + Failures(details) == |details|
    decreases |details|
  {
    if details != [] {
      SummaryCounts(details[1..]);
    }
  }

  /** A handler that returns reports one result per record, with counts
      that add up. */
  lemma HandlerCounts(pos: nat, records: seq<Notification>, item: (nat, Notification) -> Run<FileResult>)
    requires HandlerRun(pos, Some(records), item).value.Ok?
    ensures var s := HandlerRun(pos, Some(records), item).value.value;
      |s.details| == |records| && s.processedFiles + s.failedFiles == |records|
  {
    CollectLength(pos, records, item);
    SummaryCounts(HandlerRun(pos, Some(records), item).value.value.details);
  }

  /** The error a file reports, when it is not a failure of the final error
      move, is the ProcessingError it was moved for. */
  lemma RecoverReports(w: World, p: nat, s3: Prefixes, key: string, e: Error)
    ensures var r := Recover(w, p, s3, key, e);
      r.events == MoveRun(w, p, s3, key, false).events
      && (r.value.Ok? <==> Completes(w, p, Move(key, NewKey(s3, key, false))))
      && (r.value.Ok? ==> r.value.value == Failed(NewKey(s3, key, false), e))
      && (r.value.Err? ==> r.value.error == StorageFailure(Moving, ClientError))
  {
  }

  /** A file outside the input prefix is not read: it is moved to the error
      prefix and reported with the InvalidFileError wrapped in a
      StorageError. */
  lemma OutsideMovedToError(w: World, p: nat, cfg: Config, key: string, now: Instant, upserts: (nat, TableData) -> Run<bool>)
    requires !StartsWith(key, cfg.s3.input) && p !in w.fail && p + 1 !in w.fail
    ensures FileRun(w, p, cfg, key, now, upserts)
      == Run([Copy(key, ErrorKey(cfg.s3, key)), Delete(key)],
             Ok(Failed(ErrorKey(cfg.s3, key), StorageFailure(Reading, InvalidFile(cfg.s3.input)))))
  {
    MoveAttempt(w, p, key, NewKey(cfg.s3, key, false));
    assert [] + [Copy(key, ErrorKey(cfg.s3, key)), Delete(key)] == [Copy(key, ErrorKey(cfg.s3, key)), Delete(key)];
  }

  /** The table loop of every file the mapper produces raises only a
      ProcessingError. */
  ghost predicate UpsertsCatch(upserts: (nat, TableData) -> Run<bool>, cfg: Config, now: Instant) {
    forall q: nat, c: string {:trigger upserts(q, TableDataOf(c, cfg.tables, now))} ::
      upserts(q, TableDataOf(c, cfg.tables, now)).value.Err? ==> IsProcessingError(upserts(q, TableDataOf(c, cfg.tables, now)).value.error)
  }

  lemma UpsertsCaught(w: World, cfg: Config, now: Instant)
    ensures UpsertsCatch(Upserts(w, cfg), cfg, now)
  {
    forall q: nat, c: string
      ensures var saved := TablesRun(w, q, cfg.tables, cfg.batch, TableDataOf(c, cfg.tables, now));
        saved.value.Err? ==> IsProcessingError(saved.value.error)
    {
      MappedTablesRaise(w, q, cfg.tables, cfg.batch, TableDataOf(c, cfg.tables, now));
    }
  }

  /** The final error move is the only failure the handler does not catch. */
  lemma RecoverRaises(w: World, p: nat, s3: Prefixes, key: string, e: Error)
    ensures Recover(w, p, s3, key, e).value.Err? ==> Recover(w, p, s3, key, e).value.error == StorageFailure(Moving, ClientError)
  {
  }

  lemma FinishRaises(w: World, p: nat, s3: Prefixes, key: string, counts: map<string, nat>)
    ensures Finish(w, p, s3, key, counts).value.Err? ==> Finish(w, p, s3, key, counts).value.error == StorageFailure(Moving, ClientError)
  {
    var mv := MoveRun(w, p, s3, key, true);
    if mv.value.Err? {
      RecoverRaises(w, p + |mv.events|, s3, key, mv.value.error);
    }
  }

  lemma ReadTailRaises(w: World, q: nat, cfg: Config, key: string, now: Instant, v: Result<string>, upserts: (nat, TableData) -> Run<bool>)
    requires UpsertsCatch(upserts, cfg, now)
    ensures var r := ReadTail(w, q, cfg, key, now, v, upserts);
      r.value.Err? ==> r.value.error == StorageFailure(Moving, ClientError)
  {
    if v.Err? {
      RecoverRaises(w, q, cfg.s3, key, v.error);
    } else {
      var td := TableDataOf(v.value, cfg.tables, now);
      var saved := upserts(q, td);
      var r := q + |saved.events|;
      if saved.value.Ok? {
        FinishRaises(w, r, cfg.s3, key, PipelineV2.Counts(td));
      } else {
        RecoverRaises(w, r, cfg.s3, key, saved.value.error);
      }
    }
  }

  /** Every failure of a file is reported in its result, except a failure
      of the move that follows: only that one ends the handler. */
  lemma FileRunCatches(w: World, p: nat, cfg: Config, key: string, now: Instant)
    ensures var r := FileRun(w, p, cfg, key, now, Upserts(w, cfg));
      r.value.Err? ==> r.value.error == StorageFailure(Moving, ClientError)
  {
    UpsertsCaught(w, cfg, now);
    FileCatches(w, p, cfg, key, now, Upserts(w, cfg));
  }

  lemma FileCatches(w: World, p: nat, cfg: Config, key: string, now: Instant, upserts: (nat, TableData) -> Run<bool>)
    requires UpsertsCatch(upserts, cfg, now)
    ensures var r := FileRun(w, p, cfg, key, now, upserts);
      r.value.Err? ==> r.value.error == StorageFailure(Moving, ClientError)
  {
    var got := GetRun(w, p, cfg.s3, key);
    ReadTailRaises(w, p + |got.events|, cfg, key, now, got.value, upserts);
    assert FileRun(w, p, cfg, key, now, upserts).value == ReadTail(w, p + |got.events|, cfg, key, now, got.value, upserts).value;
  }

  /** The move after the upserts reports success exactly when it went
      through, under the processed key and with the counts given. */
  lemma FinishSucceeds(w: World, p: nat, s3: Prefixes, key: string, counts: map<string, nat>)
    ensures var f := Finish(w, p, s3, key, counts);
      f.value.Ok? && f.value.value.Succeeded? <==> Completes(w, p, Move(key, NewKey(s3, key, true)))
    ensures var f := Finish(w, p, s3, key, counts);
      f.value.Ok? && f.value.value.Succeeded? ==> f.value.value == Succeeded(NewKey(s3, key, true), counts)
  {
  }

  lemma SavedTailSucceeds(w: World, q: nat, s3: Prefixes, key: string, counts: map<string, nat>, v: Result<bool>)
    requires var f := SavedTail(w, q, s3, key, counts, v); f.value.Ok? && f.value.value.Succeeded?
    ensures v.Ok? && SavedTail(w, q, s3, key, counts, v).value.value == Succeeded(NewKey(s3, key, true), counts)
  {
    if v.Ok? {
      FinishSucceeds(w, q, s3, key, counts);
    }
  }

  lemma ReadTailSucceeds(w: World, q: nat, cfg: Config, key: string, now: Instant, v: Result<string>, upserts: (nat, TableData) -> Run<bool>)
    requires var f := ReadTail(w, q, cfg, key, now, v, upserts); f.value.Ok? && f.value.value.Succeeded?
    ensures v.Ok?
    ensures var td := TableDataOf(v.value, cfg.tables, now);
      upserts(q, td).value.Ok?
      && ReadTail(w, q, cfg, key, now, v, upserts).value.value == Succeeded(NewKey(cfg.s3, key, true), PipelineV2.Counts(td))
  {
    if v.Ok? {
      var td := TableDataOf(v.value, cfg.tables, now);
      var saved := upserts(q, td);
      SavedTailSucceeds(w, q + |saved.events|, cfg.s3, key, PipelineV2.Counts(td), saved.value);
    }
  }

  /** A file reported as processed was read from under the input prefix,
      had its table loop return, and was moved to the processed prefix; its
      counts are those of the mapped data. */
  lemma SucceededFile(w: World, p: nat, cfg: Config, key: string, now: Instant, upserts: (nat, TableData) -> Run<bool>)
    requires var f := FileRun(w, p, cfg, key, now, upserts); f.value.Ok? && f.value.value.Succeeded?
    ensures StartsWith(key, cfg.s3.input) && p !in w.fail
    ensures var td := TableDataOf(Body(w, p), cfg.tables, now);
      upserts(p + 1, td).value.Ok?
      && FileRun(w, p, cfg, key, now, upserts).value.value == Succeeded(NewKey(cfg.s3, key, true), PipelineV2.Counts(td))
  {
    var got := GetRun(w, p, cfg.s3, key);
    ReadTailSucceeds(w, p + |got.events|, cfg, key, now, got.value, upserts);
  }

  /** The errors that end the handler. */
  predicate Uncaught(e: Error) {
    e == KeyError || e == StorageFailure(Moving, ClientError)
  }

  /** `lambda_handler` raises only a KeyError (no `Records`, or a record
      without its bucket or key) or the StorageError of a failed move to
      the error prefix; every other failure is reported in the results. */
  lemma HandlerRaises(w: World, pos: nat, cfg: Config, now: Instant, event: Option<seq<Notification>>)
    ensures var r := HandlerRun(pos, event, Item(w, cfg, now)).value;
      r.Err? ==> Uncaught(r.error)
  {
    if event.Some? {
      var item := Item(w, cfg, now);
      forall p: nat, n: Notification
        ensures item(p, n).value.Err? ==> Uncaught(item(p, n).value.error)
      {
        if WellFormed(n) {
          FileRunCatches(w, p, cfg, n.key.value, now);
        }
      }
      CollectRaises(pos, event.value, item, Uncaught);
    }
  }
}
