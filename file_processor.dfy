/** lambda-file-processor/app.py: every object created in the bucket whose
    key ends in `.csv` (in any case) is read, its rows are turned into
    records stamped with the processing time, a report of the processing is
    uploaded, and the object is moved to a dated folder under
    `processados/`; any failure moves it to a dated folder under `erros/`
    instead and is answered with the error. */
module FileProcessor {
  import opened Values
  import opened Text
  import opened Clock
  import opened Effects
  import opened Csv
  import opened Moves
  import opened Keys
  import opened Transactions
  import Batching

  const DestinationPrefix: string := "processados/"
  const ErrorPrefix: string := "erros/"

  /** The column every kept record is stamped in. */
  const StampColumn: string := "processed_at"

  /** The column whose blank value drops a row. */
  const ValueColumn: string := "valor"

  /** The message of the `ValueError` for a content without a header. */
  const NoHeader: string := "Arquivo CSV está vazio ou sem cabeçalhos"

  /** A row as `dict(zip(headers, row))`. */
  type Record = map<string, string>

  /** What `process_csv_file` returns: the kept records and the header. */
  datatype Table = Table(data: seq<Record>, headers: seq<string>)

  /** The dict `handle_new_file` returns; `str(e)` is kept as the exception
      itself. */
  datatype Reply =
    | Skipped(file: string)
    | Success(originalFile: string, processedFile: string, timestamp: string, rowsProcessed: nat)
    | Failure(error: Error, file: string, errorLocation: string)

  /** `file_key.lower().endswith('.csv')`. */
  predicate IsCsv(key: string) {
    EndsWith(Lower(key), ".csv")
  }

  // ---------------------------------------------------------------------
  // process_csv_file

  /** `[header.strip().lower() for header in headers]`. */
  function Header(names: seq<string>): seq<string> {
    seq(|names|, i requires 0 <= i < |names| => Lower(Strip(names[i])))
  }

  /** `dict(zip(headers, row))` with `processed_at` set to the stamp. */
  function RowRecord(headers: seq<string>, row: seq<string>, stamp: string): Record {
    Batching.ZipRecord(headers, row)[StampColumn := stamp]
  }

  /** A row is kept when it has one value per header and its `valor`, if
      the record has one, is not blank. */
  predicate Keeps(headers: seq<string>, row: seq<string>, stamp: string) {
    var rec := RowRecord(headers, row, stamp);
    |row| == |headers| && !(ValueColumn in rec && Strip(rec[ValueColumn]) == "")
  }

  /** The records of the kept rows, in order. */
  function Processed(headers: seq<string>, rows: seq<seq<string>>, stamp: string): seq<Record>
    decreases |rows|
  {
    if rows == [] then []
    else (if Keeps(headers, rows[0], stamp) then [RowRecord(headers, rows[0], stamp)] else [])
         + Processed(headers, rows[1..], stamp)
  }

  /** `process_csv_file(csv_content, filename)` with every record stamped
      `stamp`: the reader's first row is the header, and a content without
      any row raises `ValueError`. */
  function ProcessCsv(content: string, stamp: string): Result<Table> {
    var rows := Rows(content, ',');
    if rows == [] then Err(ValueError(NoHeader))
    else Ok(Table(Processed(Header(rows[0]), rows[1..], stamp), Header(rows[0])))
  }

  /** One more row read by the loop. */
  lemma ProcessedSnoc(headers: seq<string>, rows: seq<seq<string>>, i: nat, stamp: string)
    requires i < |rows|
    ensures Processed(headers, rows[..i + 1], stamp)
      == Processed(headers, rows[..i], stamp)
         + (if Keeps(headers, rows[i], stamp) then [RowRecord(headers, rows[i], stamp)] else [])
  {
    assert rows[..i + 1] == rows[..i] + [rows[i]];
    ProcessedConcat(headers, rows[..i], [rows[i]], stamp);
  }

  /** `process_csv_file`: the loop appends the record of every kept row. */
  method ProcessCsvFile(content: string, stamp: string) returns (r: Result<Table>)
    ensures r == ProcessCsv(content, stamp)
  {
    var rows := Rows(content, ',');
    if |rows| == 0 {
      return Err(ValueError(NoHeader));
    }
    var headers := seq(|rows[0]|, i requires 0 <= i < |rows[0]| => Lower(Strip(rows[0][i])));
    var body := rows[1..];
    var data: seq<Record> := [];
    var i := 0;
    while i < |body|
      invariant 0 <= i <= |body|
      invariant data == Processed(headers, body[..i], stamp)
    {
      var row := body[i];
      ProcessedSnoc(headers, body, i, stamp);
      i := i + 1;
      if |row| != |headers| {
        continue;
      }
      var rowData := Batching.ZipRecord(headers, row)[StampColumn := stamp];
      if ValueColumn in rowData && Strip(rowData[ValueColumn]) == "" {
        continue;
      }
      data := data + [rowData];
    }
    assert body[..i] == body;
    r := Ok(Table(data, headers));
  }

  // ---------------------------------------------------------------------
  // What process_csv_file promises.

  /** The records of two stretches of rows, one after the other: the order
      of the rows is kept. */
  lemma {:induction false} ProcessedConcat(headers: seq<string>, a: seq<seq<string>>, b: seq<seq<string>>, stamp: string)
    ensures Processed(headers, a + b, stamp) == Processed(headers, a, stamp) + Processed(headers, b, stamp)
    decreases |a|
  {
    if a == [] {
      assert a + b == b;
    } else {
      assert (a + b)[0] == a[0] && (a + b)[1..] == a[1..] + b;
      ProcessedConcat(headers, a[1..], b, stamp);
    }
  }

  /** The records are exactly those of the kept rows: every kept row gives
      one, and every record comes from a kept row. */
  lemma {:induction false} ProcessedRows(headers: seq<string>, rows: seq<seq<string>>, stamp: string)
    ensures |Processed(headers, rows, stamp)| <= |rows|
    ensures forall i :: 0 <= i < |rows| && Keeps(headers, rows[i], stamp) ==>
      RowRecord(headers, rows[i], stamp) in Processed(headers, rows, stamp)
    ensures forall rec :: rec in Processed(headers, rows, stamp) ==>
      exists i :: 0 <= i < |rows| && Keeps(headers, rows[i], stamp) && rec == RowRecord(headers, rows[i], stamp)
    decreases |rows|
  {
    if rows != [] {
      var rest := rows[1..];
      ProcessedRows(headers, rest, stamp);
      var head := if Keeps(headers, rows[0], stamp) then [RowRecord(headers, rows[0], stamp)] else [];
      assert Processed(headers, rows, stamp) == head + Processed(headers, rest, stamp);
      forall i | 0 < i < |rows| && Keeps(headers, rows[i], stamp)
        ensures RowRecord(headers, rows[i], stamp) in Processed(headers, rows, stamp)
      {
        assert rows[i] == rest[i - 1];
      }
      forall rec | rec in Processed(headers, rows, stamp)
        ensures exists i :: 0 <= i < |rows| && Keeps(headers, rows[i], stamp) && rec == RowRecord(headers, rows[i], stamp)
      {
        if rec !in head {
          var j :| 0 <= j < |rest| && Keeps(headers, rest[j], stamp) && rec == RowRecord(headers, rest[j], stamp);
          assert rows[j + 1] == rest[j];
        }
      }
    }
  }

  /** A kept row's record holds a key per header and `processed_at`, which
      carries the stamp; with distinct headers other than `processed_at`,
      each header maps to the value at its own position, as read, and a
      `valor` column holds a non-blank value. */
  lemma RecordOfRow(headers: seq<string>, row: seq<string>, stamp: string, i: nat)
    requires Keeps(headers, row, stamp)
    requires forall a, b :: 0 <= a < b < |headers| ==> headers[a] != headers[b]
    requires StampColumn !in headers && i < |headers|
    ensures var rec := RowRecord(headers, row, stamp);
      rec.Keys == (set j | 0 <= j < |headers| :: headers[j]) + {StampColumn}
      && rec[StampColumn] == stamp
      && headers[i] in rec && rec[headers[i]] == row[i]
      && (ValueColumn in rec ==> exists k :: 0 <= k < |rec[ValueColumn]| && !IsSpace(rec[ValueColumn][k]))
  {
    var rec := RowRecord(headers, row, stamp);
    Batching.ZipRecordKeys(headers, row);
    Batching.ZipRecordAt(headers, row, i);
    assert Batching.Min(|headers|, |row|) == |headers|;
    if ValueColumn in rec {
      StripBlank(rec[ValueColumn]);
    }
  }

  /** Every header name is stripped and in lower case: lowering it again
      changes nothing. */
  lemma HeaderNormal(names: seq<string>, i: nat)
    requires i < |names|
    ensures var h := Header(names)[i];
      Lower(h) == h && (h == "" || (!IsSpace(h[0]) && !IsSpace(h[|h| - 1])))
  {
    var t := Strip(names[i]);
    StripEnds(names[i]);
    LowerLower(t);
  }

  /** The processing raises exactly when the content has no line, the
      header being its first line; it raises nothing else. */
  lemma ProcessCsvRaises(content: string, stamp: string)
    ensures ProcessCsv(content, stamp).Err? <==> Lines(content) == []
    ensures ProcessCsv(content, stamp).Err? ==> ProcessCsv(content, stamp).error == ValueError(NoHeader)
    ensures ProcessCsv(content, stamp).Ok? ==>
      ProcessCsv(content, stamp).value.headers == Header(Fields(Lines(content)[0], ','))
    ensures content == "" ==> ProcessCsv(content, stamp).Err?
  {
    if content == "" {
      assert Split(content, '\n') == [""];
    }
  }

  // ---------------------------------------------------------------------
  // handle_new_file

  /** `generate_destination_key(file_key)`. */
  function DestinationKey(now: Instant, key: string): string {
    DatedKey(DestinationPrefix, now, key)
  }

  /** The `error_key` of the `except` branch. */
  function ErrorLocation(now: Instant, key: string): string {
    DatedKey(ErrorPrefix, now, key)
  }

  /** The `except` branch, its first call being the `m`-th: the object is
      moved to the error key and the error answered; when the move itself
      raises, its exception leaves the handler. */
  function Recover(w: World, m: nat, key: string, now: Instant, e: Error): Run<Reply> {
    var mv := Move(key, ErrorLocation(now, key));
    Run(Attempt(w, m, mv), if Completes(w, m, mv) then Ok(Failure(e, key, ErrorLocation(now, key))) else Err(ClientError))
  }

  /** The move to the destination key, its first call being the `m`-th,
      and the success answer. */
  function Ship(w: World, m: nat, key: string, now: Instant, t: Table): Run<Reply> {
    var mv := Move(key, DestinationKey(now, key));
    if Completes(w, m, mv) then Run(mv, Ok(Success(key, DestinationKey(now, key), IsoFormat(now), |t.data|)))
    else
      var made := Attempt(w, m, mv);
      Then(made, Recover(w, m + |made|, key, now, ClientError))
  }

  /** The upload of the report, the `m`-th call, then the move. */
  function Publish(w: World, m: nat, key: string, now: Instant, t: Table): Run<Reply> {
    Then([Put(ReportKey(now, key))],
      if m in w.fail then Recover(w, m + 1, key, now, ClientError) else Ship(w, m + 1, key, now, t))
  }

  /** What follows a read that returned `content`, the next call being the
      `m`-th. */
  function AfterRead(w: World, m: nat, key: string, now: Instant, content: string): Run<Reply> {
    match ProcessCsv(content, IsoFormat(now))
    case Err(e) => Recover(w, m, key, now, e)
    case Ok(t) => Publish(w, m, key, now, t)
  }

  /** `handle_new_file(event)` for the object `key`, the read being the
      `p`-th call and `now` the clock. */
  function HandleRun(w: World, p: nat, key: string, now: Instant): Run<Reply> {
    if !IsCsv(key) then Run([], Ok(Skipped(key)))
    else if p in w.fail then Then([Get(key)], Recover(w, p + 1, key, now, ClientError))
    else Then([Get(key)], AfterRead(w, p + 1, key, now, Body(w, p)))
  }

  /** The `except` branch of `handle_new_file`. */
  method RecoverFile(env: Env, key: string, now: Instant, e: Error) returns (r: Result<Reply>)
    modifies env
    ensures env.trace == old(env.trace) + Recover(env.world, |old(env.trace)|, key, now, e).events
    ensures r == Recover(env.world, |old(env.trace)|, key, now, e).value
  {
    var errorKey := ErrorPrefix + Day(now) + "/" + Basename(key);
    var moved := MoveObject(env, key, errorKey);
    if !moved {
      return Err(ClientError);
    }
    r := Ok(Failure(e, key, errorKey));
  }

  /** `move_file` to the destination key and the success answer. */
  method ShipFile(env: Env, key: string, now: Instant, t: Table) returns (r: Result<Reply>)
    modifies env
    ensures env.trace == old(env.trace) + Ship(env.world, |old(env.trace)|, key, now, t).events
    ensures r == Ship(env.world, |old(env.trace)|, key, now, t).value
  {
    ghost var t0 := env.trace;
    ghost var w := env.world;
    var destination := DestinationKey(now, key);
    ghost var mv := Move(key, destination);
    var moved := MoveObject(env, key, destination);
    if moved {
      AttemptComplete(w, |t0|, mv);
      return Ok(Success(key, destination, IsoFormat(now), |t.data|));
    }
    ghost var made := Attempt(w, |t0|, mv);
    ghost var rec := Recover(w, |t0| + |made|, key, now, ClientError);
    r := RecoverFile(env, key, now, ClientError);
    Assoc(t0, made, rec.events);
  }

  /** `upload_report`, then `move_file` to the destination key. */
  method PublishTable(env: Env, key: string, now: Instant, t: Table) returns (r: Result<Reply>)
    modifies env
    ensures env.trace == old(env.trace) + Publish(env.world, |old(env.trace)|, key, now, t).events
    ensures r == Publish(env.world, |old(env.trace)|, key, now, t).value
  {
    ghost var t0 := env.trace;
    ghost var w := env.world;
    var uploaded := env.Call(Put(ReportKey(now, key)));
    ghost var after := if !uploaded then Recover(w, |t0| + 1, key, now, ClientError) else Ship(w, |t0| + 1, key, now, t);
    if !uploaded {
      r := RecoverFile(env, key, now, ClientError);
    } else {
      r := ShipFile(env, key, now, t);
    }
    Assoc(t0, [Put(ReportKey(now, key))], after.events);
  }

  /** `handle_new_file(event)`. */
  method HandleNewFile(env: Env, key: string, now: Instant) returns (r: Result<Reply>)
    modifies env
    ensures env.trace == old(env.trace) + HandleRun(env.world, |old(env.trace)|, key, now).events
    ensures r == HandleRun(env.world, |old(env.trace)|, key, now).value
  {
    if !EndsWith(Lower(key), ".csv") {
      return Ok(Skipped(key));
    }
    ghost var t0 := env.trace;
    ghost var w := env.world;
    var content := env.Read(key);
    if content.Err? {
      ghost var rec := Recover(w, |t0| + 1, key, now, ClientError);
      r := RecoverFile(env, key, now, content.error);
      Assoc(t0, [Get(key)], rec.events);
      return;
    }
    ghost var after := AfterRead(w, |t0| + 1, key, now, content.value);
    var processed := ProcessCsvFile(content.value, IsoFormat(now));
    if processed.Err? {
      r := RecoverFile(env, key, now, processed.error);
    } else {
      r := PublishTable(env, key, now, processed.value);
    }
    Assoc(t0, [Get(key)], after.events);
  }

  // ---------------------------------------------------------------------
  // What handle_new_file promises.

  /** A key that does not end in `.csv`, in any case, is answered as
      skipped without any call. */
  lemma NonCsvUntouched(w: World, p: nat, key: string, now: Instant)
    requires !IsCsv(key)
    ensures HandleRun(w, p, key, now) == Run([], Ok(Skipped(key)))
  {
  }

  /** The extension is matched in any case: a key is processed exactly when
      it ends in a dot followed by `c`, `s` and `v`, each small or capital. */
  lemma CsvAnyCase(key: string)
    ensures IsCsv(key) <==>
      |key| >= 4 && key[|key| - 4] == '.' && key[|key| - 3] in "cC"
      && key[|key| - 2] in "sS" && key[|key| - 1] in "vV"
  {
    var n := |key|;
    if n >= 4 {
      var tail := Lower(key)[n - 4..];
      assert tail == [LowerChar(key[n - 4]), LowerChar(key[n - 3]), LowerChar(key[n - 2]), LowerChar(key[n - 1])];
    }
  }

  /** The error move ends the run: a failed copy is the last call, or the
      copy and the delete are the last two. */
  ghost predicate EndsInRecovery(key: string, now: Instant, events: seq<Event>) {
    |events| >= 1
    && (events[|events| - 1] == Copy(key, ErrorLocation(now, key))
        || (|events| >= 2 && events[|events| - 2..] == Move(key, ErrorLocation(now, key))))
  }

  lemma EndsInRecoveryAfter(key: string, now: Instant, a: seq<Event>, b: seq<Event>)
    requires EndsInRecovery(key, now, b)
    ensures EndsInRecovery(key, now, a + b)
  {
    var ab := a + b;
    assert ab[|ab| - 1] == b[|b| - 1];
    if |b| >= 2 {
      assert ab[|ab| - 2..] == b[|b| - 2..];
    }
  }

  /** What a run from the `m`-th call promises, `ok` being the condition
      for the success answer: only the bucket is called, the object is
      deleted only right after a copy of it went through, a success comes
      exactly under `ok`, a failure answer names the object and its error
      key and follows the completed error move, and an exception leaves
      the handler only when the error move raised. */
  ghost predicate Promised(w: World, m: nat, key: string, now: Instant, ok: bool, r: Run<Reply>) {
    Outside(r.events) && SafeDeletes(w, m, r.events)
    && (r.value.Ok? && r.value.value.Success? <==> ok)
    && (r.value.Ok? && r.value.value.Failure? ==>
        r.value.value.file == key && r.value.value.errorLocation == ErrorLocation(now, key)
        && |r.events| >= 2 && r.events[|r.events| - 2..] == Move(key, ErrorLocation(now, key)))
    && (r.value.Err? ==> r.value.error == ClientError && EndsInRecovery(key, now, r.events))
    && !(r.value.Ok? && r.value.value.Skipped?)
  }

  lemma RecoverPromised(w: World, m: nat, key: string, now: Instant, e: Error)
    ensures var r := Recover(w, m, key, now, e);
      Promised(w, m, key, now, false, r)
      && (m !in w.fail && m + 1 !in w.fail <==> r.value.Ok?)
      && (r.value.Ok? ==> r == Run(Move(key, ErrorLocation(now, key)), Ok(Failure(e, key, ErrorLocation(now, key)))))
  {
    MoveAttempt(w, m, key, ErrorLocation(now, key));
    assert Move(key, ErrorLocation(now, key))[0..] == Move(key, ErrorLocation(now, key));
    assert Outside(Move(key, ErrorLocation(now, key)));
  }

  /** The calls `pre` that went through, none a delete, in front of a run
      keep its promise, a failure answer or an exception still ending it. */
  lemma PromisedAfter(w: World, m: nat, key: string, now: Instant, ok: bool, pre: seq<Event>, r: Run<Reply>)
    requires Promised(w, m + |pre|, key, now, ok, r)
    requires Outside(pre) && SafeDeletes(w, m, pre)
    ensures Promised(w, m, key, now, ok, Then(pre, r))
  {
    OutsideConcat(pre, r.events);
    SafeDeletesConcat(w, m, pre, r.events);
    if r.value.Err? {
      EndsInRecoveryAfter(key, now, pre, r.events);
    }
    if r.value.Ok? && r.value.value.Failure? {
      var all := pre + r.events;
      assert all[|all| - 2..] == r.events[|r.events| - 2..];
    }
  }

  /** The move to the destination went through. */
  lemma ShippedPromised(w: World, m: nat, key: string, now: Instant, t: Table)
    requires m !in w.fail && m + 1 !in w.fail
    ensures Ship(w, m, key, now, t)
      == Run(Move(key, DestinationKey(now, key)), Ok(Success(key, DestinationKey(now, key), IsoFormat(now), |t.data|)))
    ensures Promised(w, m, key, now, true, Ship(w, m, key, now, t))
  {
    MoveAttempt(w, m, key, DestinationKey(now, key));
    assert Outside(Move(key, DestinationKey(now, key)));
  }

  /** The move to the destination raised, after `made`. */
  lemma UnshippedPromised(w: World, m: nat, key: string, now: Instant, made: seq<Event>)
    requires Outside(made) && SafeDeletes(w, m, made)
    ensures Promised(w, m, key, now, false, Then(made, Recover(w, m + |made|, key, now, ClientError)))
  {
    RecoverPromised(w, m + |made|, key, now, ClientError);
    PromisedAfter(w, m, key, now, false, made, Recover(w, m + |made|, key, now, ClientError));
  }

  lemma ShipPromised(w: World, m: nat, key: string, now: Instant, t: Table)
    ensures var r := Ship(w, m, key, now, t);
      Promised(w, m, key, now, m !in w.fail && m + 1 !in w.fail, r)
      && (r.value.Ok? && r.value.value.Success? ==>
          r == Run(Move(key, DestinationKey(now, key)), Ok(Success(key, DestinationKey(now, key), IsoFormat(now), |t.data|))))
  {
    if m !in w.fail && m + 1 !in w.fail {
      ShippedPromised(w, m, key, now, t);
    } else {
      MoveAttempt(w, m, key, DestinationKey(now, key));
      var made := Attempt(w, m, Move(key, DestinationKey(now, key)));
      assert Outside(made);
      assert Ship(w, m, key, now, t) == Then(made, Recover(w, m + |made|, key, now, ClientError));
      UnshippedPromised(w, m, key, now, made);
    }
  }

  lemma PublishPromised(w: World, m: nat, key: string, now: Instant, t: Table)
    ensures var r := Publish(w, m, key, now, t);
      Promised(w, m, key, now, m !in w.fail && m + 1 !in w.fail && m + 2 !in w.fail, r)
      && (r.value.Ok? && r.value.value.Success? ==>
          r == Run([Put(ReportKey(now, key))] + Move(key, DestinationKey(now, key)),
                   Ok(Success(key, DestinationKey(now, key), IsoFormat(now), |t.data|))))
  {
    var put := [Put(ReportKey(now, key))];
    assert Outside(put) && SafeDeletes(w, m, put);
    if m in w.fail {
      RecoverPromised(w, m + 1, key, now, ClientError);
      PromisedAfter(w, m, key, now, false, put, Recover(w, m + 1, key, now, ClientError));
    } else {
      ShipPromised(w, m + 1, key, now, t);
      MoveAttempt(w, m + 1, key, DestinationKey(now, key));
      PromisedAfter(w, m, key, now, m + 1 !in w.fail && m + 2 !in w.fail, put, Ship(w, m + 1, key, now, t));
    }
  }

  /** After a read that went through: success exactly when the processing,
      the upload and the move went through. */
  lemma AfterReadPromised(w: World, m: nat, key: string, now: Instant, content: string)
    ensures var r := AfterRead(w, m, key, now, content);
      var t := ProcessCsv(content, IsoFormat(now));
      Promised(w, m, key, now, t.Ok? && m !in w.fail && m + 1 !in w.fail && m + 2 !in w.fail, r)
      && (r.value.Ok? && r.value.value.Success? ==>
          r == Run([Put(ReportKey(now, key))] + Move(key, DestinationKey(now, key)),
                   Ok(Success(key, DestinationKey(now, key), IsoFormat(now), |t.value.data|))))
  {
    var t := ProcessCsv(content, IsoFormat(now));
    if t.Err? {
      RecoverPromised(w, m, key, now, t.error);
    } else {
      PublishPromised(w, m, key, now, t.value);
    }
  }

  /** `handle_new_file` answers with success exactly when the key is a CSV
      key and the read, the processing, the upload of the report and the
      move to the dated destination went through; the answer then carries
      the destination key and the number of records kept, and the calls
      were the read, the upload and the move.  Every other run of a CSV key
      either answers with the failure after moving the object to its dated
      error key, or raises because that move raised.  Only the bucket is
      called, and the object is never deleted unless a copy of it just went
      through. */
  lemma HandleOutcome(w: World, p: nat, key: string, now: Instant)
    requires IsCsv(key)
    ensures var r := HandleRun(w, p, key, now);
      var t := ProcessCsv(Body(w, p), IsoFormat(now));
      Promised(w, p, key, now,
               p !in w.fail && t.Ok? && p + 1 !in w.fail && p + 2 !in w.fail && p + 3 !in w.fail, r)
      && (r.value.Ok? && r.value.value.Success? ==>
          r.value.value == Success(key, DestinationKey(now, key), IsoFormat(now), |t.value.data|)
          && r.events == [Get(key), Put(ReportKey(now, key))] + Move(key, DestinationKey(now, key)))
  {
    var get := [Get(key)];
    assert Outside(get) && SafeDeletes(w, p, get);
    if p in w.fail {
      RecoverPromised(w, p + 1, key, now, ClientError);
      PromisedAfter(w, p, key, now, false, get, Recover(w, p + 1, key, now, ClientError));
    } else {
      var after := AfterRead(w, p + 1, key, now, Body(w, p));
      AfterReadPromised(w, p + 1, key, now, Body(w, p));
      PromisedAfter(w, p, key, now,
                    ProcessCsv(Body(w, p), IsoFormat(now)).Ok? && p + 1 !in w.fail && p + 2 !in w.fail && p + 3 !in w.fail,
                    get, after);
    }
  }

  /** A CSV object without any line is moved to its dated error key and
      answered with the `ValueError`, when nothing else fails. */
  lemma EmptyToError(w: World, p: nat, key: string, now: Instant)
    requires IsCsv(key) && p !in w.fail && Lines(Body(w, p)) == []
    requires p + 1 !in w.fail && p + 2 !in w.fail
    ensures HandleRun(w, p, key, now)
      == Run([Get(key)] + Move(key, ErrorLocation(now, key)), Ok(Failure(ValueError(NoHeader), key, ErrorLocation(now, key))))
  {
    ProcessCsvRaises(Body(w, p), IsoFormat(now));
    RecoverPromised(w, p + 1, key, now, ValueError(NoHeader));
  }

  /** The move to the destination whose delete raises, followed by the
      error move. */
  lemma ShipStranded(w: World, m: nat, key: string, now: Instant, t: Table)
    requires m !in w.fail && m + 1 in w.fail && m + 2 !in w.fail && m + 3 !in w.fail
    ensures Ship(w, m, key, now, t)
      == Run([Copy(key, DestinationKey(now, key)), Delete(key), Copy(key, ErrorLocation(now, key)), Delete(key)],
             Ok(Failure(ClientError, key, ErrorLocation(now, key))))
  {
    MoveAttempt(w, m, key, DestinationKey(now, key));
    MoveAttempt(w, m + 2, key, ErrorLocation(now, key));
    assert Ship(w, m, key, now, t) == Then(Move(key, DestinationKey(now, key)), Recover(w, m + 2, key, now, ClientError));
  }

  /** When the copy to the destination goes through but the delete raises,
      the `except` branch copies the object to the error key as well: it
      then exists under both keys, and the answer is a failure. */
  lemma StrandedCopy(w: World, p: nat, key: string, now: Instant)
    requires IsCsv(key) && p !in w.fail && ProcessCsv(Body(w, p), IsoFormat(now)).Ok?
    requires p + 1 !in w.fail && p + 2 !in w.fail && p + 3 in w.fail && p + 4 !in w.fail && p + 5 !in w.fail
    ensures HandleRun(w, p, key, now)
      == Run([Get(key), Put(ReportKey(now, key)), Copy(key, DestinationKey(now, key)), Delete(key),
              Copy(key, ErrorLocation(now, key)), Delete(key)],
             Ok(Failure(ClientError, key, ErrorLocation(now, key))))
  {
    var t := ProcessCsv(Body(w, p), IsoFormat(now)).value;
    ShipStranded(w, p + 2, key, now, t);
    assert Publish(w, p + 1, key, now, t) == Then([Put(ReportKey(now, key))], Ship(w, p + 2, key, now, t));
    assert AfterRead(w, p + 1, key, now, Body(w, p)) == Publish(w, p + 1, key, now, t);
    assert HandleRun(w, p, key, now) == Then([Get(key)], Publish(w, p + 1, key, now, t));
  }
}
