/** s3-to-rds/app.py (`rds-csv-processor`): a CSV file that lands under
    `entrada/` is read, parsed into `Usuario` and `Documento` tuples,
    written in one transaction, and moved to `processados/`; any failure is
    re-raised and leaves the file where it is. */
module RdsCsvProcessor {
  import opened Values
  import opened Text
  import opened Clock
  import opened Effects
  import opened Csv
  import opened Moves
  import opened Transactions
  import opened Store
  import opened FixedLayout

  const InputPrefix: string := "entrada/"
  const ProcessedPrefix: string := "processados/"

  /** The dictionary `lambda_handler` returns. */
  datatype Summary = Summary(status: string, processedRows: nat, file: string)

  /** `file_key.replace(INPUT_PREFIX, PROCESSED_PREFIX, 1)`. */
  function ProcessedKey(key: string): string {
    ReplaceFirst(key, InputPrefix, ProcessedPrefix)
  }

  /** The file's rows: `csv.reader(io.StringIO(csv_content), delimiter=';')`. */
  function FileRows(content: string): seq<seq<string>> {
    Rows(content, ';')
  }

  /** What follows a finished import `imp` whose first call was the `q`-th:
      a raising import is re-raised, otherwise the file is copied to its
      processed key and deleted, and the summary reports `len(usuarios)`. */
  function AfterImport(w: World, q: nat, key: string, imp: Run<nat>): Run<Summary> {
    if imp.value.Err? then Run(imp.events, Err(imp.value.error))
    else
      var m := q + |imp.events|;
      var dst := ProcessedKey(key);
      Then(imp.events, Run(Attempt(w, m, Move(key, dst)),
        if Completes(w, m, Move(key, dst)) then Ok(Summary("success", imp.value.value, dst)) else Err(ClientError)))
  }

  /** The import of a file's content, its connection being the `q`-th call. */
  function FileImport(w: World, q: nat, schema: string, n: int, now: Instant, content: string): Run<nat> {
    var rows := FileRows(content);
    ImportRun(w, q, schema, Usuarios(S3ToRds, rows, now), Documentos(S3ToRds, rows, now), n)
  }

  /** The import stage of one invocation, as a function of where its first
      call falls and of the content read. */
  function Importing(w: World, schema: string, n: int, now: Instant): (nat, string) -> Run<nat> {
    (q: nat, c: string) => FileImport(w, q, schema, n, now, c)
  }

  /** `imports` is the import stage of one invocation. */
  ghost predicate Imports(imports: (nat, string) -> Run<nat>, w: World, schema: string, n: int, now: Instant) {
    forall q: nat, c: string {:trigger FileImport(w, q, schema, n, now, c)} :: imports(q, c) == FileImport(w, q, schema, n, now, c)
  }

  lemma ImportingImports(w: World, schema: string, n: int, now: Instant)
    ensures Imports(Importing(w, schema, n, now), w, schema, n, now)
  {
  }

  /** `lambda_handler` for the object `key`, the read being the `p`-th call;
      `imports` is the import stage. */
  function HandlerRun(w: World, p: nat, key: string, imports: (nat, string) -> Run<nat>): Run<Summary> {
    if p in w.fail then Run([Get(key)], Err(ClientError))
    else Then([Get(key)], AfterImport(w, p + 1, key, imports(p + 1, Body(w, p))))
  }

  /** The move at the end of a successful import. */
  method Relocate(env: Env, key: string, count: nat) returns (r: Result<Summary>)
    modifies env
    ensures env.trace == old(env.trace) + Attempt(env.world, |old(env.trace)|, Move(key, ProcessedKey(key)))
    ensures r == if Completes(env.world, |old(env.trace)|, Move(key, ProcessedKey(key)))
                 then Ok(Summary("success", count, ProcessedKey(key))) else Err(ClientError)
  {
    var dst := ReplaceFirst(key, InputPrefix, ProcessedPrefix);
    var ok := MoveObject(env, key, dst);
    if !ok {
      return Err(ClientError);
    }
    r := Ok(Summary("success", count, dst));
  }

  /** The parse and the import of a content that was read. */
  method ImportFile(env: Env, schema: string, n: int, now: Instant, content: string,
                    ghost imports: (nat, string) -> Run<nat>) returns (r: Result<nat>)
    requires Imports(imports, env.world, schema, n, now)
    modifies env
    ensures env.trace == old(env.trace) + imports(|old(env.trace)|, content).events
    ensures r == imports(|old(env.trace)|, content).value
  {
    assert imports(|env.trace|, content) == FileImport(env.world, |env.trace|, schema, n, now, content);
    var rows := Rows(content, ';');
    var usuarios, documentos := ParseRows(S3ToRds, rows, now);
    r := Import(env, schema, usuarios, documentos, n);
  }

  /** The import and the move of a content that was read. */
  method ImportAndMove(env: Env, key: string, schema: string, n: int, now: Instant, content: string,
                       ghost imports: (nat, string) -> Run<nat>) returns (r: Result<Summary>)
    requires Imports(imports, env.world, schema, n, now)
    modifies env
    ensures env.trace == old(env.trace) + AfterImport(env.world, |old(env.trace)|, key, imports(|old(env.trace)|, content)).events
    ensures r == AfterImport(env.world, |old(env.trace)|, key, imports(|old(env.trace)|, content)).value
  {
    ghost var t0 := env.trace;
    ghost var imp := imports(|t0|, content);
    var count := ImportFile(env, schema, n, now, content, imports);
    if count.Err? {
      return Err(count.error);
    }
    r := Relocate(env, key, count.value);
    Assoc(t0, imp.events, Attempt(env.world, |t0| + |imp.events|, Move(key, ProcessedKey(key))));
  }

  /** `RDSConnectionManager.lambda_handler(event, context)`: read, parse,
      import and move, re-raising any failure. */
  method Handle(env: Env, key: string, schema: string, n: int, now: Instant,
                ghost imports: (nat, string) -> Run<nat>) returns (r: Result<Summary>)
    requires Imports(imports, env.world, schema, n, now)
    modifies env
    ensures env.trace == old(env.trace) + HandlerRun(env.world, |old(env.trace)|, key, imports).events
    ensures r == HandlerRun(env.world, |old(env.trace)|, key, imports).value
  {
    ghost var t0 := env.trace;
    var content := env.Read(key);
    if content.Err? {
      return Err(content.error);
    }
    ghost var rest := AfterImport(env.world, |t0| + 1, key, imports(|t0| + 1, content.value));
    r := ImportAndMove(env, key, schema, n, now, content.value, imports);
    Assoc(t0, [Get(key)], rest.events);
  }

  /** `handle_s3_event(event)`: the handler for `event.key`, with the
      schema and batch size of the configuration and the invocation's one
      clock reading. */
  method HandleS3Event(env: Env, key: string, schema: string, n: int, now: Instant) returns (r: Result<Summary>)
    modifies env
    ensures env.trace == old(env.trace) + HandlerRun(env.world, |old(env.trace)|, key, Importing(env.world, schema, n, now)).events
    ensures r == HandlerRun(env.world, |old(env.trace)|, key, Importing(env.world, schema, n, now)).value
  {
    ImportingImports(env.world, schema, n, now);
    r := Handle(env, key, schema, n, now, Importing(env.world, schema, n, now));
  }

  // ---------------------------------------------------------------------
  // What the handler promises.

  /** The tail after an import: success exactly when the import returned
      and both calls of the move went through, with the summary reporting
      the import's count and the processed key; the original is deleted
      only after its copy went through, and never when the tail raises. */
  lemma AfterImportShape(w: World, q: nat, key: string, imp: Run<nat>)
    ensures var r := AfterImport(w, q, key, imp);
      var m := q + |imp.events|;
      (r.value.Ok? <==> imp.value.Ok? && m !in w.fail && m + 1 !in w.fail)
      && (r.value.Ok? ==>
          r.value.value == Summary("success", imp.value.value, ProcessedKey(key))
          && r.events == imp.events + Move(key, ProcessedKey(key)))
      && (imp.value.Err? ==> r.events == imp.events && r.value.error == imp.value.error)
      && r.events[..|imp.events|] == imp.events
      && Outside(r.events[|imp.events|..])
      && (r.value.Err? ==> forall i :: |imp.events| <= i < |r.events| && r.events[i].Delete? ==> q + i in w.fail)
  {
    var r := AfterImport(w, q, key, imp);
    var m := q + |imp.events|;
    var dst := ProcessedKey(key);
    MoveAttempt(w, m, key, dst);
    if imp.value.Ok? {
      var tail := Attempt(w, m, Move(key, dst));
      assert r.events == imp.events + tail;
      assert r.events[..|imp.events|] == imp.events;
      assert r.events[|imp.events|..] == tail;
      forall i | 0 <= i < |tail|
        ensures tail[i].Get? || tail[i].Copy? || tail[i].Delete? || tail[i].Put?
      {
      }
    } else {
      assert r.events[..|imp.events|] == imp.events;
      assert r.events[|imp.events|..] == [];
    }
  }

  /** A file whose key starts with `entrada/` goes to `processados/` under
      the rest of its key, which is left as it is even when it names the
      input folder again. */
  lemma ProcessedKeyOf(key: string)
    requires StartsWith(key, InputPrefix)
    ensures ProcessedKey(key) == ProcessedPrefix + key[|InputPrefix|..]
  {
    LeadingReplace(key, InputPrefix, ProcessedPrefix);
  }

  /** A key that does not mention the input folder is kept. */
  lemma ProcessedKeyOutside(key: string)
    requires !Contains(key, InputPrefix)
    ensures ProcessedKey(key) == key
  {
    ReplaceAbsent(key, InputPrefix, ProcessedPrefix);
  }

  /** The import of a file counts its rows with at least eight fields, and
      calls the database only. */
  lemma FileImportFacts(w: World, q: nat, schema: string, n: int, now: Instant, content: string)
    ensures var imp := FileImport(w, q, schema, n, now, content);
      (imp.value.Ok? ==> imp.value.value == |Kept(FileRows(content))|)
      && DatabaseOnly(imp.events)
      && PendingAfter(w, q, imp.events, []) == []
  {
    var rows := FileRows(content);
    ParsedLengths(S3ToRds, rows, now);
    ImportCloses(w, q, schema, Usuarios(S3ToRds, rows, now), Documentos(S3ToRds, rows, now), n);
    ImportSettles(w, q, schema, Usuarios(S3ToRds, rows, now), Documentos(S3ToRds, rows, now), n);
  }

  /** The stage facts the handler's properties rest on. */
  ghost predicate DatabaseStage(imports: (nat, string) -> Run<nat>, w: World) {
    forall q: nat, c: string :: DatabaseOnly(imports(q, c).events) && PendingAfter(w, q, imports(q, c).events, []) == []
  }

  lemma ImportingDatabase(w: World, schema: string, n: int, now: Instant)
    ensures DatabaseStage(Importing(w, schema, n, now), w)
  {
    forall q: nat, c: string
      ensures DatabaseOnly(FileImport(w, q, schema, n, now, c).events)
        && PendingAfter(w, q, FileImport(w, q, schema, n, now, c).events, []) == []
    {
      FileImportFacts(w, q, schema, n, now, c);
    }
  }

  /** The handler returns exactly when the read, the import and the move all
      went through; it then reports the import's count, names the processed
      key, and has moved the file there.  A failing handler never has the
      original deleted. */
  lemma HandlerOutcome(w: World, p: nat, key: string, imports: (nat, string) -> Run<nat>)
    requires DatabaseStage(imports, w)
    ensures var r := HandlerRun(w, p, key, imports);
      var imp := imports(p + 1, Body(w, p));
      (r.value.Ok? <==> p !in w.fail && imp.value.Ok?
                        && p + 1 + |imp.events| !in w.fail && p + 2 + |imp.events| !in w.fail)
      && (r.value.Ok? ==>
          r.value.value == Summary("success", imp.value.value, ProcessedKey(key))
          && r.events == [Get(key)] + imp.events + Move(key, ProcessedKey(key)))
      && (r.value.Err? ==> forall i :: 0 <= i < |r.events| && r.events[i].Delete? ==> p + i in w.fail)
  {
    var r := HandlerRun(w, p, key, imports);
    if p !in w.fail {
      var imp := imports(p + 1, Body(w, p));
      var tail := AfterImport(w, p + 1, key, imp);
      AfterImportShape(w, p + 1, key, imp);
      assert DatabaseOnly(imp.events);
      assert r.events == [Get(key)] + tail.events;
      if r.value.Err? {
        forall i | 0 <= i < |r.events| && r.events[i].Delete?
          ensures p + i in w.fail
        {
          assert r.events[i] == tail.events[i - 1];
        }
      }
    }
  }

  /** What the handler leaves in the database is what its import left
      there, whether or not the move then succeeds; no transaction is left
      open. */
  lemma HandlerDurable(w: World, p: nat, key: string, imports: (nat, string) -> Run<nat>)
    requires DatabaseStage(imports, w)
    ensures var r := HandlerRun(w, p, key, imports);
      Durable(w, p, r.events) == (if p in w.fail then [] else Durable(w, p + 1, imports(p + 1, Body(w, p)).events))
  {
    var r := HandlerRun(w, p, key, imports);
    if p !in w.fail {
      var imp := imports(p + 1, Body(w, p));
      var tail := AfterImport(w, p + 1, key, imp);
      AfterImportShape(w, p + 1, key, imp);
      assert PendingAfter(w, p + 1, imp.events, []) == [];
      var post := tail.events[|imp.events|..];
      assert tail.events == imp.events + post;
      assert r.events == [Get(key)] + (imp.events + post);
      DurableBetween(w, p, [Get(key)], imp.events, post);
    } else {
      OutsideSettles(w, p, r.events, []);
    }
  }
}
