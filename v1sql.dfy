/** s3-to-rds-v2/v1_leitura_py_padrao_sql: the SQLAlchemy sibling of the
    s3-to-rds-v2 pipeline.  Its `save_to_db` writes named records through a
    lazily connecting session; its `process_s3_file` has the mapping and the
    save commented out, yet still reports `processed_tables` from the unbound
    `table_data`, so every file that reaches that point is copied to the
    processed folder and then moved to the error folder. */
module PipelineV1Sql {
  import opened Values
  import opened Text
  import opened Clock
  import opened Effects
  import opened Mapper
  import opened Store
  import opened Sql
  import opened Transactions
  import opened Moves
  import opened Keys
  import opened Notifications
  import opened CommitOnce
  import PipelineV2

  // ---------------------------------------------------------------------
  // save_to_db

  /** The table loop of this `save_to_db`: `:column` placeholders bound by
      name, table names qualified by the configured database. */
  function Writes(cfg: PipelineV2.Config): Writer {
    Writer(cfg.database, Colon, cfg.tables, cfg.batch)
  }

  /** `save_to_db(table_data, config)` with its first call the `pos`-th.  The
      session connects on its first execute, so a connection failure is a
      failing execute, rolled back and re-raised like any other. */
  function SaveRun(w: World, pos: nat, cfg: PipelineV2.Config, td: TableData): Run<bool> {
    Session(w, pos, Writes(cfg), td)
  }

  method SaveToDb(env: Env, cfg: PipelineV2.Config, td: TableData) returns (r: Result<bool>)
    modifies env
    ensures env.trace == old(env.trace) + SaveRun(env.world, |old(env.trace)|, cfg, td).events
    ensures r == SaveRun(env.world, |old(env.trace)|, cfg, td).value
  {
    r := SaveSession(env, Writes(cfg), td);
  }

  /** One session for all tables: when `save_to_db` returns, exactly the
      executes of every table are durable; when it raises, none is. */
  lemma SaveAllOrNothing(w: World, pos: nat, cfg: PipelineV2.Config, td: TableData)
    ensures var r := SaveRun(w, pos, cfg, td);
      (r.value.Ok? ==> Durable(w, pos, r.events) == SaveBody(Writes(cfg), td))
      && (r.value.Err? ==> Durable(w, pos, r.events) == [])
      && PendingAfter(w, pos, r.events, []) == []
  {
    SessionSettles(w, pos, Writes(cfg), td);
  }

  /** With a positive batch size a successful save makes every tuple of every
      table durable as the record that zips it with its table's column names,
      table after table; a negative one sends nothing and still commits. */
  lemma SaveSendsRecords(w: World, pos: nat, cfg: PipelineV2.Config, td: TableData)
    requires SaveRun(w, pos, cfg, td).value.Ok?
    ensures cfg.batch > 0 ==>
      SentRecords(Durable(w, pos, SaveRun(w, pos, cfg, td).events)) == AllRecords(cfg.tables, td, td.names)
    ensures cfg.batch < 0 ==> Durable(w, pos, SaveRun(w, pos, cfg, td).events) == []
  {
    SaveAllOrNothing(w, pos, cfg, td);
    if cfg.batch > 0 {
      StorePlanSendsRecords(cfg.database, cfg.tables, td, td.names, cfg.batch);
    } else if cfg.batch < 0 {
      StorePlanNegative(cfg.database, Colon, cfg.tables, td, td.names, cfg.batch);
    }
  }

  /** A zero batch size fails as soon as a table has rows; with no rows the
      empty session commits. */
  lemma ZeroBatch(w: World, pos: nat, cfg: PipelineV2.Config, td: TableData)
    requires cfg.batch == 0
    ensures AnyRows(td, td.names) ==> SaveRun(w, pos, cfg, td) == Run([Rollback, Close], Err(RangeError))
    ensures !AnyRows(td, td.names) && pos !in w.fail ==> SaveRun(w, pos, cfg, td) == Run([Commit, Close], Ok(true))
  {
    CommitOnce.ZeroBatch(w, pos, Writes(cfg), td);
  }

  // ---------------------------------------------------------------------
  // process_s3_file

  /** The dicts `process_s3_file` can return: the success dict is never
      built, since `processed_tables` reads the unbound `table_data`. */
  datatype Outcome = Failure(error: Error, file: string)

  /** The `except` branch: move to the error key, swallowing a failure of
      the move, and report the error with the original key. */
  function ErrorPath(w: World, p: nat, pre: Prefixes, key: string, e: Error): Run<Outcome> {
    Recovery(w, p, key, ErrorKey(pre, key), Failure(e, key))
  }

  /** The copy to the stamped key, the `p`-th call (never followed by a
      delete); whether or not it goes through, the error path follows. */
  function CopyStage(w: World, p: nat, pre: Prefixes, key: string, newKey: string): Run<Outcome> {
    Then([Copy(key, newKey)], ErrorPath(w, p + 1, pre, key, if p in w.fail then ClientError else NameError("table_data")))
  }

  /** `process_s3_file(bucket, key, config)` with `now` the clock reading of
      the rename, its first call being the `pos`-th. */
  function ProcessRun(w: World, pos: nat, pre: Prefixes, key: string, now: Instant): Run<Outcome> {
    if !StartsWith(key, pre.input) then Run([], Ok(Failure(OutsideInput(pre.input), key)))
    else
      var read := ReadAt(w, pos);
      var renamed := RenamedKey(pre, key, now);
      Then([Get(key)],
        if read.Err? then ErrorPath(w, pos + 1, pre, key, read.error)
        else if renamed.Err? then ErrorPath(w, pos + 1, pre, key, renamed.error)
        else CopyStage(w, pos + 1, pre, key, renamed.value))
  }

  method MoveToError(env: Env, pre: Prefixes, key: string, e: Error) returns (out: Outcome)
    modifies env
    ensures env.trace == old(env.trace) + ErrorPath(env.world, |old(env.trace)|, pre, key, e).events
    ensures Ok(out) == ErrorPath(env.world, |old(env.trace)|, pre, key, e).value
  {
    var _ := MoveObject(env, key, ErrorKey(pre, key));
    out := Failure(e, key);
  }

  method CopyToProcessed(env: Env, pre: Prefixes, key: string, newKey: string) returns (out: Outcome)
    modifies env
    ensures env.trace == old(env.trace) + CopyStage(env.world, |old(env.trace)|, pre, key, newKey).events
    ensures Ok(out) == CopyStage(env.world, |old(env.trace)|, pre, key, newKey).value
  {
    ghost var t0 := env.trace;
    var copied := env.Call(Copy(key, newKey));
    ghost var e := if copied then NameError("table_data") else ClientError;
    if !copied {
      out := MoveToError(env, pre, key, ClientError);
    } else {
      out := MoveToError(env, pre, key, NameError("table_data"));
    }
    Assoc(t0, [Copy(key, newKey)], ErrorPath(env.world, |t0| + 1, pre, key, e).events);
  }

  method ProcessS3File(env: Env, pre: Prefixes, key: string, now: Instant) returns (out: Outcome)
    modifies env
    ensures env.trace == old(env.trace) + ProcessRun(env.world, |old(env.trace)|, pre, key, now).events
    ensures Ok(out) == ProcessRun(env.world, |old(env.trace)|, pre, key, now).value
  {
    if !StartsWith(key, pre.input) {
      return Failure(OutsideInput(pre.input), key);
    }
    ghost var t0 := env.trace;
    var read := env.Read(key);
    var renamed := RenamedKey(pre, key, now);
    ghost var mid := env.trace;
    if read.Err? {
      out := MoveToError(env, pre, key, read.error);
    } else if renamed.Err? {
      out := MoveToError(env, pre, key, renamed.error);
    } else {
      out := CopyToProcessed(env, pre, key, renamed.value);
    }
    Assoc(t0, [Get(key)], env.trace[|mid|..]);
  }

  // ---------------------------------------------------------------------
  // What process_s3_file does.



  lemma CopyStageSafe(w: World, p: nat, pre: Prefixes, key: string, newKey: string)
    ensures SafeDeletes(w, p, CopyStage(w, p, pre, key, newKey).events)
  {
    var e := if p in w.fail then ClientError else NameError("table_data");
    RecoverySafe(w, p + 1, key, ErrorKey(pre, key), Failure(e, key));
    NoDeletesSafe(w, p, [Copy(key, newKey)]);
    SafeDeletesConcat(w, p, [Copy(key, newKey)], ErrorPath(w, p + 1, pre, key, e).events);
  }

  /** The run never raises, reports every file as a failure under its
      original key, and deletes the file only right after a copy of it went
      through. */
  lemma ProcessRunFails(w: World, pos: nat, pre: Prefixes, key: string, now: Instant)
    ensures var r := ProcessRun(w, pos, pre, key, now);
      r.value.Ok? && r.value.value.file == key && SafeDeletes(w, pos, r.events)
  {
    if StartsWith(key, pre.input) {
      var read := ReadAt(w, pos);
      var renamed := RenamedKey(pre, key, now);
      if read.Err? {
        RecoverySafe(w, pos + 1, key, ErrorKey(pre, key), Failure(read.error, key));
        ReadThenSafe(w, pos, key, ErrorPath(w, pos + 1, pre, key, read.error).events);
      } else if renamed.Err? {
        RecoverySafe(w, pos + 1, key, ErrorKey(pre, key), Failure(renamed.error, key));
        ReadThenSafe(w, pos, key, ErrorPath(w, pos + 1, pre, key, renamed.error).events);
      } else {
        CopyStageSafe(w, pos + 1, pre, key, renamed.value);
        ReadThenSafe(w, pos, key, CopyStage(w, pos + 1, pre, key, renamed.value).events);
      }
    }
  }

  /** When no call fails on a dotted file under the input folder, the file is
      copied to its stamped processed key, then copied to its error key and
      deleted: it ends up in both folders and is reported with NameError. */
  lemma CopiedToBoth(w: World, pos: nat, pre: Prefixes, key: string, now: Instant)
    requires StartsWith(key, pre.input) && '.' in Basename(key)
    requires pos !in w.fail && pos + 1 !in w.fail && pos + 2 !in w.fail && pos + 3 !in w.fail
    ensures RenamedKey(pre, key, now).Ok?
    ensures ProcessRun(w, pos, pre, key, now) == Run(
      [Get(key), Copy(key, RenamedKey(pre, key, now).value), Copy(key, ErrorKey(pre, key)), Delete(key)],
      Ok(Failure(NameError("table_data"), key)))
  {
    StampedNameNeedsDot(Basename(key), Compact(now));
    MoveAttempt(w, pos + 2, key, ErrorKey(pre, key));
  }

  /** A key outside the input folder is answered without any call. */
  lemma OutsideUntouched(w: World, pos: nat, pre: Prefixes, key: string, now: Instant)
    requires !StartsWith(key, pre.input)
    ensures ProcessRun(w, pos, pre, key, now) == Run([], Ok(Failure(OutsideInput(pre.input), key)))
  {
  }

  // ---------------------------------------------------------------------
  // lambda_handler

  /** The run of one file, from the call it starts at. */
  function FileRun(w: World, pre: Prefixes, now: Instant): (nat, string) -> Run<Outcome> {
    (p: nat, key: string) => ProcessRun(w, p, pre, key, now)
  }

  /** `file` gives the run of `process_s3_file` for every key from every
      position. */
  ghost predicate Realizes(file: (nat, string) -> Run<Outcome>, w: World, pre: Prefixes, now: Instant) {
    forall p: nat, key: string {:trigger ProcessRun(w, p, pre, key, now)} :: file(p, key) == ProcessRun(w, p, pre, key, now)
  }

  lemma FileRunRealizes(w: World, pre: Prefixes, now: Instant)
    ensures Realizes(FileRun(w, pre, now), w, pre, now)
  {
  }

  /** One record of the loop: the run of its file. */
  method RecordIteration(env: Env, pre: Prefixes, now: Instant, key: string, ghost file: (nat, string) -> Run<Outcome>)
    returns (ghost step: seq<Event>)
    requires Realizes(file, env.world, pre, now)
    modifies env
    ensures step == file(|old(env.trace)|, key).events
    ensures env.trace == old(env.trace) + step
  {
    ghost var r := ProcessRun(env.world, |env.trace|, pre, key, now);
    var _ := ProcessS3File(env, pre, key, now);
    step := r.events;
  }

  /** The loop over the records, `file` being the run of one file. */
  method HandleRecords(env: Env, pre: Prefixes, now: Instant, records: seq<Notification>, ghost file: (nat, string) -> Run<Outcome>)
    returns (status: Result<int>)
    requires Realizes(file, env.world, pre, now)
    modifies env
    ensures env.trace == old(env.trace) + RecordsRun(|old(env.trace)|, records, file).events
    ensures status == RecordsRun(|old(env.trace)|, records, file).value
  {
    ghost var t0 := env.trace;
    ghost var done: seq<Event> := [];
    assert records[0..] == records;
    var i := 0;
    while i < |records|
      invariant 0 <= i <= |records|
      invariant env.trace == t0 + done
      invariant RecordsRun(|t0|, records, file) == Then(done, RecordsRun(|t0| + |done|, records[i..], file))
      decreases |records| - i
    {
      if !WellFormed(records[i]) {
        RecordsStop(|t0| + |done|, records, i, done, file);
        return Err(KeyError);
      }
      ghost var step := RecordIteration(env, pre, now, records[i].key.value, file);
      Assoc(t0, done, step);
      RecordsNext(|t0|, records, i, done, step, file);
      done := done + step;
      i := i + 1;
    }
    RecordsDone(|t0| + |done|, records, done, file);
    status := Ok(200);
  }

  /** `lambda_handler(event, context)` with `now` the clock reading of every
      rename. */
  method LambdaHandler(env: Env, pre: Prefixes, now: Instant, event: Option<seq<Notification>>) returns (status: Result<int>)
    modifies env
    ensures env.trace == old(env.trace) + HandlerRun(|old(env.trace)|, event, FileRun(env.world, pre, now)).events
    ensures status == HandlerRun(|old(env.trace)|, event, FileRun(env.world, pre, now)).value
  {
    if event.None? {
      return Err(KeyError);
    }
    FileRunRealizes(env.world, pre, now);
    status := HandleRecords(env, pre, now, event.value, FileRun(env.world, pre, now));
  }
}
