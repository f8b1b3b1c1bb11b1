/** rds-generico/app.py: the `POST /importar-csv` route reads one object
    (named in the request body, or the configured default), imports it into
    `Usuario` and `Documento` in one transaction, and answers with the
    number of users imported; any failure becomes a 500 answer carrying the
    error. */
module RdsGenerico {
  import opened Values
  import opened Clock
  import opened Effects
  import opened Csv
  import opened Transactions
  import opened FixedLayout

  /** The defaults of `S3_BUCKET` and `S3_KEY`. */
  const DefaultBucket: string := "dev-bucket-lab01"
  const DefaultKey: string := "dados.csv"

  /** The message of a failed import. */
  const ImportFailed: string := "Falha ao importar arquivo CSV"

  /** The body of `_handle_error`'s answer: `str(exception)` is kept as the
      exception itself. */
  datatype ErrorBody = ErrorBody(success: bool, error: Error, message: string)

  /** What the route answers: the success dictionary, or the pair of
      `_handle_error`. */
  datatype Reply =
    | Imported(success: bool, bucket: string, key: string, rowsProcessed: nat, message: string)
    | Failed(body: ErrorBody, status: int)

  /** `_handle_error(exception, message)`. */
  function HandleError(e: Error, message: string): (r: Reply)
    ensures r.Failed? && r.status == 500
    ensures !r.body.success && r.body.error == e && r.body.message == message
  {
    Failed(ErrorBody(false, e, message), 500)
  }

  /** `import_csv_data(csv_content)`, the connection being the `p`-th call:
      the content is parsed before the connection is opened. */
  function ImportCsvDataRun(w: World, p: nat, content: string, schema: string, n: int, now: Instant): Run<nat> {
    var rows := Rows(content, ';');
    ImportRun(w, p, schema, Usuarios(RdsGenerico, rows, now), Documentos(RdsGenerico, rows, now), n)
  }

  /** `DataService.import_csv_data(csv_content)`. */
  method ImportCsvData(env: Env, content: string, schema: string, n: int, now: Instant) returns (r: Result<nat>)
    modifies env
    ensures env.trace == old(env.trace) + ImportCsvDataRun(env.world, |old(env.trace)|, content, schema, n, now).events
    ensures r == ImportCsvDataRun(env.world, |old(env.trace)|, content, schema, n, now).value
  {
    var rows := Rows(content, ';');
    var usuarios, documentos := ParseRows(RdsGenerico, rows, now);
    r := Import(env, schema, usuarios, documentos, n);
  }

  /** The bucket and key of the request: `body.get(name, default)`, a
      missing or empty JSON body counting as `{}`. */
  function Field(body: map<string, string>, name: string, default: string): string {
    if name in body then body[name] else default
  }

  /** The answer built from the outcome of the import. */
  function Answer(bucket: string, key: string, imported: Result<nat>): Reply {
    match imported
    case Ok(rows) => Imported(true, bucket, key, rows, "Arquivo " + key + " importado com sucesso")
    case Err(e) => HandleError(e, ImportFailed)
  }

  /** The route for a request body, the read being the `p`-th call. */
  function ImportCsvRun(w: World, p: nat, body: map<string, string>, schema: string, n: int, now: Instant): Run<Reply> {
    var bucket := Field(body, "bucket", DefaultBucket);
    var key := Field(body, "key", DefaultKey);
    if p in w.fail then Run([Get(key)], Ok(HandleError(ClientError, ImportFailed)))
    else
      var imp := ImportCsvDataRun(w, p + 1, Body(w, p), schema, n, now);
      Then([Get(key)], Run(imp.events, Ok(Answer(bucket, key, imp.value))))
  }

  /** `import_csv()`: `S3Service.get_file_content` then `import_csv_data`;
      every exception is turned into an answer. */
  method ImportCsv(env: Env, body: map<string, string>, schema: string, n: int, now: Instant) returns (r: Result<Reply>)
    modifies env
    ensures env.trace == old(env.trace) + ImportCsvRun(env.world, |old(env.trace)|, body, schema, n, now).events
    ensures r == ImportCsvRun(env.world, |old(env.trace)|, body, schema, n, now).value
  {
    ghost var t0 := env.trace;
    var bucket := if "bucket" in body then body["bucket"] else DefaultBucket;
    var key := if "key" in body then body["key"] else DefaultKey;
    var content := env.Read(key);
    if content.Err? {
      return Ok(HandleError(content.error, ImportFailed));
    }
    ghost var imp := ImportCsvDataRun(env.world, |t0| + 1, content.value, schema, n, now);
    var rows := ImportCsvData(env, content.value, schema, n, now);
    Assoc(t0, [Get(key)], imp.events);
    r := Ok(Answer(bucket, key, rows));
  }

  // ---------------------------------------------------------------------
  // What the import and the route promise.

  /** `import_csv_data` returns the number of rows with at least eight
      fields, exactly when the whole import was committed, and then exactly
      the user tuples followed by the document tuples are durable; when it
      raises, nothing is. */
  lemma ImportCsvDataOutcome(w: World, p: nat, content: string, schema: string, n: int, now: Instant)
    ensures var r := ImportCsvDataRun(w, p, content, schema, n, now);
      var rows := Rows(content, ';');
      var us := Usuarios(RdsGenerico, rows, now);
      var ds := Documentos(RdsGenerico, rows, now);
      (r.value.Ok? ==> r.value.value == |Kept(rows)| && Durable(w, p, r.events) == ImportPlan(schema, us, ds, n))
      && (r.value.Err? ==> Durable(w, p, r.events) == [])
      && PendingAfter(w, p, r.events, []) == []
  {
    var rows := Rows(content, ';');
    ParsedLengths(RdsGenerico, rows, now);
    ImportSettles(w, p, schema, Usuarios(RdsGenerico, rows, now), Documentos(RdsGenerico, rows, now), n);
  }

  /** The route always answers: with the number of rows imported and the
      bucket and key it read, exactly when the read and the import went
      through; otherwise with the pair of `_handle_error`, a 500 whose body
      carries the exception raised. */
  lemma ImportCsvAnswers(w: World, p: nat, body: map<string, string>, schema: string, n: int, now: Instant)
    ensures var r := ImportCsvRun(w, p, body, schema, n, now);
      var key := Field(body, "key", DefaultKey);
      var imp := ImportCsvDataRun(w, p + 1, Body(w, p), schema, n, now);
      r.value.Ok?
      && r.events[0] == Get(key)
      && (r.value.value.Imported? <==> p !in w.fail && imp.value.Ok?)
      && (r.value.value.Imported? ==>
          r.value.value == Imported(true, Field(body, "bucket", DefaultBucket), key, |Kept(Rows(Body(w, p), ';'))|,
                                    "Arquivo " + key + " importado com sucesso"))
      && (r.value.value.Failed? ==>
          r.value.value.status == 500 && !r.value.value.body.success && r.value.value.body.message == ImportFailed
          && r.value.value.body.error == (if p in w.fail then ClientError else imp.value.error))
  {
    if p !in w.fail {
      ImportCsvDataOutcome(w, p + 1, Body(w, p), schema, n, now);
    }
  }
}
