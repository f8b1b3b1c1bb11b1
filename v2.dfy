/** s3-to-rds-v2/app.py: a CSV file that lands under `entrada/` is mapped
    into the configured tables, written to MySQL in one transaction, and
    moved to `processados/` (or to `erros/` when anything fails). */
module PipelineV2 {
  import opened Values
  import opened Text
  import opened Clock
  import opened Effects
  import opened Csv
  import opened Slicing
  import opened Sql
  import opened Mapper
  import opened Store
  import opened Transforms
  import opened Transactions
  import opened Moves
  import opened CommitOnce

  /** The parts of `get_config()` the pipeline reads (connection settings
      other than the schema are left to the driver). */
  datatype Config = Config(
    database: string, input: string, processed: string, error: string,
    batch: int, delimiter: char, tables: seq<Table>)

  function ColumnSource(index: int, transform: Option<string>): Option<Source> {
    Some(Source(Some("column"), Some(index), None, transform))
  }

  function ConstantSource(v: string): Option<Source> {
    Some(Source(Some("constant"), None, Some(Str(v)), None))
  }

  function NowSource(): Option<Source> {
    Some(Source(Some("function"), None, Some(Str("now")), None))
  }

  /** The product-rule table of the shipped mapping. */
  const RuleTable: Table := Table("tbv9088_regr_prod_plar", [
    Column("cod_regr_prod_plar", ColumnSource(4, None)),
    Column("nom_regr_prod_plar", ColumnSource(7, None)),
    Column("des_regr_prod_plar", ColumnSource(7, None)),
    Column("ind_rgto_ativ", ConstantSource("S")),
    Column("dat_hor_inio_vige__regr_prod", ColumnSource(2, Some("date"))),
    Column("dat_hor_usua_atui_rgto", NowSource()),
    Column("num_funl_cola_cogl_atud", ConstantSource("000000000"))])

  /** The rule-characteristic table of the shipped mapping. */
  const CharacteristicTable: Table := Table("tbv9086_carc_regr_prod_plar", [
    Column("cod_regr_prod_plar", ColumnSource(4, None)),
    Column("cod_tipo_carc_espo_prod", ColumnSource(0, Some("ippi"))),
    Column("cod_carc_espo_prod_plar", ColumnSource(1, None)),
    Column("dat_hor_usua_atui_rgto", NowSource()),
    Column("num_funl_cola_cogl_atud", ConstantSource("000000000"))])

  /** `get_config()` for a schema and a `BATCH_SIZE`. */
  function Shipped(database: string, batch: int): Config {
    Config(database, "entrada/", "processados/", "erros/", batch, ';', [RuleTable, CharacteristicTable])
  }

  // ---------------------------------------------------------------------
  // save_to_db

  /** The table loop of `save_to_db`: `%s` placeholders and table names
      qualified by the configured database. */
  function Writes(cfg: Config): Writer {
    Writer(cfg.database, Percent, cfg.tables, cfg.batch)
  }

  /** `save_to_db` as written: when connecting raises, `conn` was never
      bound, so `if conn:` in the handler raises UnboundLocalError instead
      of re-raising the connection error. */
  function SaveRunAsWritten(w: World, pos: nat, cfg: Config, td: TableData): Run<bool> {
    if pos in w.fail then Run([Connect], Err(NameError("conn"))) else Then([Connect], Session(w, pos + 1, Writes(cfg), td))
  }

  /** `save_to_db` with `conn = None` bound before the `try`: a failed
      connection re-raises its own error. */
  function SaveRun(w: World, pos: nat, cfg: Config, td: TableData): Run<bool> {
    if pos in w.fail then Run([Connect], Err(ClientError)) else Then([Connect], Session(w, pos + 1, Writes(cfg), td))
  }

  /** A failed connection is reported as an unbound local variable. */
  lemma ConnectFailureAsWritten(cfg: Config, td: TableData)
    ensures SaveRunAsWritten(World({0}, map[]), 0, cfg, td).value == Err(NameError("conn"))
    ensures SaveRun(World({0}, map[]), 0, cfg, td).value == Err(ClientError)
  {
  }

  /** The two differ only in the error a failed connection reports. */
  lemma AsWrittenOnlyRenamesError(w: World, pos: nat, cfg: Config, td: TableData)
    ensures SaveRunAsWritten(w, pos, cfg, td).events == SaveRun(w, pos, cfg, td).events
    ensures pos !in w.fail ==> SaveRunAsWritten(w, pos, cfg, td) == SaveRun(w, pos, cfg, td)
    ensures SaveRunAsWritten(w, pos, cfg, td).value.Ok? <==> SaveRun(w, pos, cfg, td).value.Ok?
  {
  }

  method SaveToDb(env: Env, cfg: Config, td: TableData) returns (r: Result<bool>)
    modifies env
    ensures env.trace == old(env.trace) + SaveRun(env.world, |old(env.trace)|, cfg, td).events
    ensures r == SaveRun(env.world, |old(env.trace)|, cfg, td).value
  {
    ghost var t0 := env.trace;
    var ok := env.Call(Connect);
    if !ok {
      return Err(ClientError);
    }
    ghost var s := Session(env.world, |t0| + 1, Writes(cfg), td);
    r := SaveSession(env, Writes(cfg), td);
    Assoc(t0, [Connect], s.events);
  }

  // ---------------------------------------------------------------------
  // What save_to_db leaves in the database.

  /** One transaction for all tables: when `save_to_db` returns, exactly the
      executes of every table are durable; when it raises, none is. */
  lemma SaveAllOrNothing(w: World, pos: nat, cfg: Config, td: TableData)
    ensures var r := SaveRun(w, pos, cfg, td);
      (r.value.Ok? ==> Durable(w, pos, r.events) == SaveBody(Writes(cfg), td))
      && (r.value.Err? ==> Durable(w, pos, r.events) == [])
      && PendingAfter(w, pos, r.events, []) == []
  {
    if pos in w.fail {
      assert [Connect][1..] == [];
    } else {
      var s := Session(w, pos + 1, Writes(cfg), td);
      SettleConcat(w, pos, [Connect], s.events, []);
      assert Settle(w, pos, [Connect], []) == [] && PendingAfter(w, pos, [Connect], []) == [] by {
        assert [Connect][1..] == [];
      }
      SessionSettles(w, pos + 1, Writes(cfg), td);
    }
  }

  /** With a positive batch size a successful save makes every tuple of every
      table durable, table after table; a negative one sends nothing and
      still commits. */
  lemma SaveSendsEverything(w: World, pos: nat, cfg: Config, td: TableData)
    requires SaveRun(w, pos, cfg, td).value.Ok?
    ensures cfg.batch > 0 ==>
      SentRows(Durable(w, pos, SaveRun(w, pos, cfg, td).events)) == AllRows(td, td.names)
    ensures cfg.batch < 0 ==> Durable(w, pos, SaveRun(w, pos, cfg, td).events) == []
  {
    SaveAllOrNothing(w, pos, cfg, td);
    if cfg.batch > 0 {
      StorePlanSendsAll(cfg.database, cfg.tables, td, td.names, cfg.batch);
    } else if cfg.batch < 0 {
      StorePlanNegative(cfg.database, Percent, cfg.tables, td, td.names, cfg.batch);
    }
  }

  /** A zero batch size fails as soon as a table has rows; with no rows the
      empty transaction commits. */
  lemma ZeroBatch(w: World, pos: nat, cfg: Config, td: TableData)
    requires cfg.batch == 0 && pos !in w.fail
    ensures AnyRows(td, td.names) ==> SaveRun(w, pos, cfg, td) == Run([Connect, Rollback, Close], Err(RangeError))
    ensures !AnyRows(td, td.names) && pos + 1 !in w.fail ==>
      SaveRun(w, pos, cfg, td) == Run([Connect, Commit, Close], Ok(true))
  {
    CommitOnce.ZeroBatch(w, pos + 1, Writes(cfg), td);
  }

  // ---------------------------------------------------------------------
  // handle_s3_file

  /** The dict `handle_s3_file` returns. */
  datatype Outcome =
    | Success(tables: map<string, nat>, file: string)
    | Failure(error: Error, file: string)

  /** `{k: len(v) for k, v in table_data.items()}`. */
  function Counts(td: TableData): map<string, nat> {
    map k | k in td.lists :: |td.lists[k]|
  }

  /** The `except` branch: move the file to the error prefix, swallowing any
      failure of the move, and report the error with the original key. */
  function ErrorPath(w: World, p: nat, key: string, cfg: Config, e: Error): Run<Outcome> {
    Recovery(w, p, key, Replace(key, cfg.input, cfg.error), Failure(e, key))
  }

  /** Moving the file to the processed prefix after a successful save. */
  function MoveStage(w: World, p: nat, key: string, cfg: Config, counts: map<string, nat>): Run<Outcome> {
    var newKey := Replace(key, cfg.input, cfg.processed);
    if Completes(w, p, Move(key, newKey)) then Run(Move(key, newKey), Ok(Success(counts, newKey)))
    else
      var made := Attempt(w, p, Move(key, newKey));
      Then(made, ErrorPath(w, p + |made|, key, cfg, ClientError))
  }

  /** What follows the save, made from `q`: the error path when it raised,
      the move otherwise. */
  function AfterSaveTail(w: World, q: nat, key: string, cfg: Config, counts: map<string, nat>, v: Result<bool>): Run<Outcome> {
    if v.Err? then ErrorPath(w, q, key, cfg, v.error) else MoveStage(w, q, key, cfg, counts)
  }

  /** What follows a save whose calls were `save.events`, made from `p`. */
  function AfterSave(w: World, p: nat, key: string, cfg: Config, counts: map<string, nat>, save: Run<bool>): Run<Outcome> {
    Then(save.events, AfterSaveTail(w, p + |save.events|, key, cfg, counts, save.value))
  }

  /** Everything after the read: save, then move. */
  function AfterRead(w: World, p: nat, key: string, cfg: Config, td: TableData): Run<Outcome> {
    AfterSave(w, p, key, cfg, Counts(td), SaveRun(w, p, cfg, td))
  }

  /** Over `save_to_db` as written, everything after the read makes the
      same calls and gives the same answer; only a refused connection is
      answered with the unbound-variable error in place of the client's. */
  lemma AfterReadAsWritten(w: World, p: nat, key: string, cfg: Config, td: TableData)
    ensures var written := AfterSave(w, p, key, cfg, Counts(td), SaveRunAsWritten(w, p, cfg, td));
      var fixed := AfterRead(w, p, key, cfg, td);
      written.events == fixed.events
      && (p !in w.fail ==> written == fixed)
      && (p in w.fail ==>
            written.value == Ok(Failure(NameError("conn"), key))
            && fixed.value == Ok(Failure(ClientError, key)))
  {
    AsWrittenOnlyRenamesError(w, p, cfg, td);
  }

  /** `process_file(content, config)`. */
  function FileData(content: string, cfg: Config, now: Instant): TableData {
    MapRows(ProcessFile, Rows(content, cfg.delimiter), cfg.tables, now)
  }

  /** `process_file` with the mapping of `cfg` and the clock reading `now`. */
  function Parser(cfg: Config, now: Instant): string -> TableData {
    c => FileData(c, cfg, now)
  }

  /** The run of `handle_s3_file(file_key, config)` whose first call is the
      `pos`-th, where `parse` turns the file's content into the table data
      (`process_file` with the clock reading of the run). */
  function HandleRun(w: World, pos: nat, key: string, cfg: Config, parse: string -> TableData): Run<Outcome> {
    var read := ReadAt(w, pos);
    Then([Get(key)],
      if read.Err? then ErrorPath(w, pos + 1, key, cfg, read.error)
      else AfterRead(w, pos + 1, key, cfg, parse(read.value)))
  }

  method MoveToError(env: Env, key: string, cfg: Config, e: Error) returns (out: Outcome)
    modifies env
    ensures env.trace == old(env.trace) + ErrorPath(env.world, |old(env.trace)|, key, cfg, e).events
    ensures Ok(out) == ErrorPath(env.world, |old(env.trace)|, key, cfg, e).value
  {
    var _ := MoveObject(env, key, Replace(key, cfg.input, cfg.error));
    out := Failure(e, key);
  }

  method MoveToProcessed(env: Env, key: string, cfg: Config, counts: map<string, nat>) returns (out: Outcome)
    modifies env
    ensures env.trace == old(env.trace) + MoveStage(env.world, |old(env.trace)|, key, cfg, counts).events
    ensures Ok(out) == MoveStage(env.world, |old(env.trace)|, key, cfg, counts).value
  {
    var newKey := Replace(key, cfg.input, cfg.processed);
    ghost var p := |env.trace|;
    MoveAttempt(env.world, p, key, newKey);
    var moved := MoveObject(env, key, newKey);
    if !moved {
      assert |env.trace| == p + |Attempt(env.world, p, Move(key, newKey))|;
      out := MoveToError(env, key, cfg, ClientError);
      return;
    }
    out := Success(counts, newKey);
  }

  method SaveAndMove(env: Env, key: string, cfg: Config, td: TableData) returns (out: Outcome)
    modifies env
    ensures env.trace == old(env.trace) + AfterRead(env.world, |old(env.trace)|, key, cfg, td).events
    ensures Ok(out) == AfterRead(env.world, |old(env.trace)|, key, cfg, td).value
  {
    ghost var w := env.world;
    ghost var t0 := env.trace;
    ghost var save := SaveRun(w, |t0|, cfg, td);
    var saved := SaveToDb(env, cfg, td);
    ghost var mid := env.trace;
    assert mid == t0 + save.events && saved == save.value;
    ghost var tail := AfterSaveTail(w, |mid|, key, cfg, Counts(td), saved);
    assert AfterRead(w, |t0|, key, cfg, td) == Then(save.events, tail);
    if saved.Err? {
      out := MoveToError(env, key, cfg, saved.error);
    } else {
      out := MoveToProcessed(env, key, cfg, Counts(td));
    }
    assert env.trace == mid + tail.events;
    Assoc(t0, save.events, tail.events);
  }

  /** The two ways a run of the handler goes after the read. */
  lemma HandleRunCases(w: World, pos: nat, key: string, cfg: Config, parse: string -> TableData)
    ensures ReadAt(w, pos).Err? ==>
      HandleRun(w, pos, key, cfg, parse) == Then([Get(key)], ErrorPath(w, pos + 1, key, cfg, ReadAt(w, pos).error))
    ensures ReadAt(w, pos).Ok? ==>
      HandleRun(w, pos, key, cfg, parse) == Then([Get(key)], AfterRead(w, pos + 1, key, cfg, parse(ReadAt(w, pos).value)))
  {
  }

  /** The `try` block after the read: map the content, save, move. */
  method ProcessContent(env: Env, key: string, cfg: Config, now: Instant, content: string) returns (out: Outcome)
    modifies env
    ensures env.trace == old(env.trace) + AfterRead(env.world, |old(env.trace)|, key, cfg, FileData(content, cfg, now)).events
    ensures Ok(out) == AfterRead(env.world, |old(env.trace)|, key, cfg, FileData(content, cfg, now)).value
  {
    var td := MapFile(ProcessFile, Rows(content, cfg.delimiter), cfg.tables, now);
    out := SaveAndMove(env, key, cfg, td);
  }

  method HandleS3File(env: Env, key: string, cfg: Config, now: Instant) returns (out: Outcome)
    modifies env
    ensures env.trace == old(env.trace) + HandleRun(env.world, |old(env.trace)|, key, cfg, Parser(cfg, now)).events
    ensures Ok(out) == HandleRun(env.world, |old(env.trace)|, key, cfg, Parser(cfg, now)).value
  {
    ghost var t0 := env.trace;
    ghost var run := HandleRun(env.world, |t0|, key, cfg, Parser(cfg, now));
    HandleRunCases(env.world, |t0|, key, cfg, Parser(cfg, now));
    var read := env.Read(key);
    if read.Err? {
      ghost var rest := ErrorPath(env.world, |t0| + 1, key, cfg, read.error);
      assert run == Then([Get(key)], rest);
      out := MoveToError(env, key, cfg, read.error);
      Assoc(t0, [Get(key)], rest.events);
      assert env.trace == t0 + run.events;
    } else {
      ghost var rest := AfterRead(env.world, |t0| + 1, key, cfg, FileData(read.value, cfg, now));
      assert Parser(cfg, now)(read.value) == FileData(read.value, cfg, now);
      assert run == Then([Get(key)], rest);
      ghost var mid := env.trace;
      assert mid == t0 + [Get(key)] && |mid| == |t0| + 1;
      out := ProcessContent(env, key, cfg, now, read.value);
      Assoc(t0, [Get(key)], rest.events);
      assert env.trace == t0 + run.events;
    }
  }

  // ---------------------------------------------------------------------
  // Properties of handle_s3_file.

  lemma SaveEventsShape(w: World, pos: nat, cfg: Config, td: TableData)
    ensures DatabaseOnly(SaveRun(w, pos, cfg, td).events)
  {
    SessionShape(w, pos + 1, Writes(cfg), td);
  }

  lemma ErrorPathShape(w: World, p: nat, key: string, cfg: Config, e: Error)
    ensures var r := ErrorPath(w, p, key, cfg, e);
      SafeDeletes(w, p, r.events) && Outside(r.events) && |r.events| > 0 && r.events[0].Copy?
      && r.value == Ok(Failure(e, key))
  {
    MoveAttempt(w, p, key, Replace(key, cfg.input, cfg.error));
  }

  lemma MoveStageShape(w: World, p: nat, key: string, cfg: Config, counts: map<string, nat>)
    ensures var r := MoveStage(w, p, key, cfg, counts);
      SafeDeletes(w, p, r.events) && Outside(r.events) && |r.events| > 0 && r.events[0].Copy?
      && r.value.Ok?
      && (r.value.value.Success? ==> r.value.value == Success(counts, Replace(key, cfg.input, cfg.processed))
                                     && r.events == Move(key, r.value.value.file))
      && (r.value.value.Failure? ==> r.value.value.file == key)
  {
    var newKey := Replace(key, cfg.input, cfg.processed);
    MoveAttempt(w, p, key, newKey);
    if !Completes(w, p, Move(key, newKey)) {
      var made := Attempt(w, p, Move(key, newKey));
      ErrorPathShape(w, p + |made|, key, cfg, ClientError);
      SafeDeletesConcat(w, p, made, ErrorPath(w, p + |made|, key, cfg, ClientError).events);
    }
  }

  lemma DatabaseNoDeletes(events: seq<Event>)
    requires DatabaseOnly(events)
    ensures events != [] && NoDeletes(events)
  {
  }

  /** What `handle_s3_file` promises about a run made from position `p`: no
      delete without the copy before it, a dict is always returned (nothing
      raises), a failure names the original key, and a success names the
      processed key and ends with the move of the file to it. */
  predicate Reported(w: World, p: nat, key: string, cfg: Config, r: Run<Outcome>) {
    SafeDeletes(w, p, r.events) && r.value.Ok?
    && (r.value.value.Failure? ==> r.value.value.file == key)
    && (r.value.value.Success? ==>
          r.value.value.file == Replace(key, cfg.input, cfg.processed)
          && |r.events| >= 2 && r.events[|r.events| - 2] == Copy(key, r.value.value.file)
          && r.events[|r.events| - 1] == Delete(key))
  }

  lemma ErrorPathReported(w: World, p: nat, key: string, cfg: Config, e: Error)
    ensures Reported(w, p, key, cfg, ErrorPath(w, p, key, cfg, e))
  {
    ErrorPathShape(w, p, key, cfg, e);
  }

  lemma MoveStageReported(w: World, p: nat, key: string, cfg: Config, counts: map<string, nat>)
    ensures Reported(w, p, key, cfg, MoveStage(w, p, key, cfg, counts))
  {
    MoveStageShape(w, p, key, cfg, counts);
  }

  /** Calls that delete nothing, made before a reported run, keep it
      reported. */
  lemma Prefixed(w: World, p: nat, key: string, cfg: Config, events: seq<Event>, rest: Run<Outcome>)
    requires events != [] && NoDeletes(events)
    requires Reported(w, p + |events|, key, cfg, rest)
    ensures Reported(w, p, key, cfg, Then(events, rest))
  {
    var r := Then(events, rest);
    assert r.events[0] == events[0];
    NoDeletesSafe(w, p, events);
    SafeDeletesConcat(w, p, events, rest.events);
    if rest.value.value.Success? {
      assert r.events[|r.events| - 2] == rest.events[|rest.events| - 2];
    }
  }

  /** The part after the save is a reported run that starts with a copy. */
  lemma TailShape(w: World, q: nat, key: string, cfg: Config, counts: map<string, nat>, v: Result<bool>)
    ensures var t := AfterSaveTail(w, q, key, cfg, counts, v);
      Reported(w, q, key, cfg, t)
      && (t.value.value.Success? ==> v.Ok? && t.value.value.tables == counts)
  {
    if v.Err? {
      ErrorPathReported(w, q, key, cfg, v.error);
      ErrorPathShape(w, q, key, cfg, v.error);
    } else {
      MoveStageReported(w, q, key, cfg, counts);
      MoveStageShape(w, q, key, cfg, counts);
    }
  }

  /** The part after the save does not touch the database. */
  lemma TailOutside(w: World, q: nat, key: string, cfg: Config, counts: map<string, nat>, v: Result<bool>)
    ensures Outside(AfterSaveTail(w, q, key, cfg, counts, v).events)
  {
    if v.Err? {
      ErrorPathShape(w, q, key, cfg, v.error);
    } else {
      MoveStageShape(w, q, key, cfg, counts);
    }
  }

  lemma AfterSaveShape(w: World, p: nat, key: string, cfg: Config, counts: map<string, nat>, save: Run<bool>)
    requires DatabaseOnly(save.events)
    ensures var r := AfterSave(w, p, key, cfg, counts, save);
      Reported(w, p, key, cfg, r)
      && (r.value.value.Success? ==> save.value.Ok? && r.value.value.tables == counts)
  {
    var tail := AfterSaveTail(w, p + |save.events|, key, cfg, counts, save.value);
    TailShape(w, p + |save.events|, key, cfg, counts, save.value);
    DatabaseNoDeletes(save.events);
    Prefixed(w, p, key, cfg, save.events, tail);
  }

  /** The handler never raises and never deletes the file without having
      copied it first; the result names the original key on failure and the
      processed key on success, and a success ends with the move of the file
      to that key. */
  lemma HandleOutcome(w: World, pos: nat, key: string, cfg: Config, parse: string -> TableData)
    ensures Reported(w, pos, key, cfg, HandleRun(w, pos, key, cfg, parse))
  {
    HandleRunCases(w, pos, key, cfg, parse);
    var read := ReadAt(w, pos);
    if read.Err? {
      ReadFailedReported(w, pos, key, cfg, read.error);
    } else {
      ReadReported(w, pos, key, cfg, parse(read.value));
    }
  }

  /** A failed read goes straight to the error path. */
  lemma ReadFailedReported(w: World, pos: nat, key: string, cfg: Config, e: Error)
    ensures Reported(w, pos, key, cfg, Then([Get(key)], ErrorPath(w, pos + 1, key, cfg, e)))
  {
    ErrorPathReported(w, pos + 1, key, cfg, e);
    Prefixed(w, pos, key, cfg, [Get(key)], ErrorPath(w, pos + 1, key, cfg, e));
  }

  /** A successful read is followed by the save and the move. */
  lemma ReadReported(w: World, pos: nat, key: string, cfg: Config, td: TableData)
    ensures Reported(w, pos, key, cfg, Then([Get(key)], AfterRead(w, pos + 1, key, cfg, td)))
  {
    SaveEventsShape(w, pos + 1, cfg, td);
    AfterSaveShape(w, pos + 1, key, cfg, Counts(td), SaveRun(w, pos + 1, cfg, td));
    Prefixed(w, pos, key, cfg, [Get(key)], AfterRead(w, pos + 1, key, cfg, td));
  }

  /** A read, a save and what follows: durable is what the save left
      durable, as long as it left nothing pending. */
  lemma ReadThenSave(w: World, pos: nat, key: string, cfg: Config, counts: map<string, nat>, save: Run<bool>)
    requires PendingAfter(w, pos + 1, save.events, []) == []
    ensures var r := Then([Get(key)], AfterSave(w, pos + 1, key, cfg, counts, save));
      Durable(w, pos, r.events) == Durable(w, pos + 1, save.events)
      && (r.value.value.Success? ==> save.value.Ok?)
  {
    var q := pos + 1 + |save.events|;
    var tail := AfterSaveTail(w, q, key, cfg, counts, save.value);
    TailShape(w, q, key, cfg, counts, save.value);
    TailOutside(w, q, key, cfg, counts, save.value);
    assert Then([Get(key)], AfterSave(w, pos + 1, key, cfg, counts, save)).events == [Get(key)] + (save.events + tail.events);
    DurableBetween(w, pos, [Get(key)], save.events, tail.events);
  }

  /** What the handler leaves in the database is what `save_to_db` commits:
      nothing after a failed read; otherwise every execute of the save when
      it returned and none when it raised.  A failed move after a successful
      save reports an error although the rows are committed. */
  lemma HandleDurable(w: World, pos: nat, key: string, cfg: Config, parse: string -> TableData)
    ensures var r := HandleRun(w, pos, key, cfg, parse);
      var read := ReadAt(w, pos);
      (read.Err? ==> Durable(w, pos, r.events) == [])
      && (read.Ok? ==>
            var save := SaveRun(w, pos + 1, cfg, parse(read.value));
            Durable(w, pos, r.events) == (if save.value.Ok? then SaveBody(Writes(cfg), parse(read.value)) else [])
            && (r.value.value.Success? ==> save.value.Ok?))
  {
    var read := ReadAt(w, pos);
    var r := HandleRun(w, pos, key, cfg, parse);
    HandleRunCases(w, pos, key, cfg, parse);
    if read.Err? {
      var rest := ErrorPath(w, pos + 1, key, cfg, read.error);
      ErrorPathShape(w, pos + 1, key, cfg, read.error);
      assert Outside(r.events) by {
        assert r.events == [Get(key)] + rest.events;
      }
      OutsideSettles(w, pos, r.events, []);
    } else {
      var td := parse(read.value);
      SaveAllOrNothing(w, pos + 1, cfg, td);
      ReadThenSave(w, pos, key, cfg, Counts(td), SaveRun(w, pos + 1, cfg, td));
    }
  }

  /** A table that takes every row is a key holding one tuple per non-empty
      row. */
  lemma TableCount(rows: seq<seq<string>>, tables: seq<Table>, now: Instant, j: nat)
    requires DistinctNames(tables) && j < |tables| && Reached(ProcessFile, tables, j)
    ensures var td := MapRows(ProcessFile, rows, tables, now);
      tables[j].name in td.lists && |td.lists[tables[j].name]| == |NonEmpty(rows)|
  {
    MapRowsKeys(ProcessFile, rows, tables, now);
    MapRowsCounts(ProcessFile, rows, tables, now, j);
  }

  /** Two differently named tables that both take every row: each reports
      one tuple per non-empty row. */
  lemma TwoTableCounts(rows: seq<seq<string>>, tables: seq<Table>, now: Instant)
    requires |tables| == 2 && tables[0].name != tables[1].name
    requires !Aborts(ProcessFile, tables[0]) && !Aborts(ProcessFile, tables[1])
    ensures Counts(MapRows(ProcessFile, rows, tables, now))
      == map[tables[0].name := |NonEmpty(rows)|, tables[1].name := |NonEmpty(rows)|]
  {
    var td := MapRows(ProcessFile, rows, tables, now);
    assert DistinctNames(tables) && Reached(ProcessFile, tables, 1);
    TableCount(rows, tables, now, 0);
    TableCount(rows, tables, now, 1);
    KeysOfTwo(rows, tables, now);
    CountsOfTwo(td, tables[0].name, tables[1].name, |NonEmpty(rows)|);
  }

  /** The keys of the mapper's result for two tables are their names. */
  lemma KeysOfTwo(rows: seq<seq<string>>, tables: seq<Table>, now: Instant)
    requires |tables| == 2
    ensures MapRows(ProcessFile, rows, tables, now).lists.Keys == {tables[0].name, tables[1].name}
  {
    var names := Names(tables);
    forall n | n in names
      ensures n == tables[0].name || n == tables[1].name
    {
      var i :| 0 <= i < |tables| && tables[i].name == n;
    }
    assert tables[0].name in names && tables[1].name in names;
  }

  lemma CountsOfTwo(td: TableData, a: string, b: string, n: nat)
    requires td.lists.Keys == {a, b} && |td.lists[a]| == n && |td.lists[b]| == n
    ensures Counts(td) == map[a := n, b := n]
  {
    assert Counts(td).Keys == {a, b};
  }

  /** With the shipped mapping every non-empty row gives one tuple to each of
      the two tables, so the reported counts are the non-empty rows. */
  lemma ShippedCounts(database: string, batch: int, rows: seq<seq<string>>, now: Instant)
    ensures var td := MapRows(ProcessFile, rows, Shipped(database, batch).tables, now);
      Counts(td) == map[RuleTable.name := |NonEmpty(rows)|, CharacteristicTable.name := |NonEmpty(rows)|]
  {
    assert !Aborts(ProcessFile, RuleTable);
    assert !Aborts(ProcessFile, CharacteristicTable);
    TwoTableCounts(rows, Shipped(database, batch).tables, now);
  }

  /** The product-rule tuple of a row with at least eight fields: fields 4, 7,
      7, the flag `S`, the converted field 2, the clock and the fixed user. */
  lemma ShippedRuleTuple(row: seq<string>, now: Instant)
    requires |row| >= 8
    ensures TupleOf(ProcessFile, row, RuleTable, now) == [
      Str(row[4]), Str(row[7]), Str(row[7]), Str("S"), Str(ConvertDate(row[2], now)),
      Str(Timestamp(now)), Str("000000000")]
  {
  }

  /** The characteristic tuple: field 4, the indicator code of field 0,
      field 1, the clock and the fixed user. */
  lemma ShippedCharacteristicTuple(row: seq<string>, now: Instant)
    requires |row| >= 5
    ensures TupleOf(ProcessFile, row, CharacteristicTable, now) == [
      Str(row[4]), Int(ConvertIppiText(row[0])), Str(row[1]),
      Str(Timestamp(now)), Str("000000000")]
  {
  }
}
