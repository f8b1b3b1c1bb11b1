/** The lambdaS3-RDS handler (`ProcessadorHandler`): for every S3 record,
    read the file under `entrada/` (`GerenciadorS3.ler_conteudo`), map it
    with `ProcessadorArquivo.processar`, and move it to `processados/` under
    a name stamped with the time of the move (`mover_arquivo`); any
    exception of a record is reported in its result and the loop goes on.
    The database writer of this variant (`GerenciadorMySQL.inserir_lote`
    and `persistir`) is modelled too, although the handler no longer calls
    it. */
module LambdaS3Rds {
  import opened Values
  import opened Text
  import opened Clock
  import opened Effects
  import opened Csv
  import opened Mapper
  import opened Store
  import opened Transactions
  import opened Moves
  import opened Keys
  import opened Notifications
  import opened CommitEach
  import PipelineV2

  /** `ConfigApp` with `carregar_mapeamento()`: the folders, the mapping,
      the delimiter of the processor and `tamanho_lote`. */
  datatype Config = Config(storage: Prefixes, mapping: seq<Table>, delimiter: char, batch: int)

  function Coluna(index: int, transform: Option<string>): Option<Source> {
    Some(Source(Some("coluna"), Some(index), None, transform))
  }

  function Constante(v: string): Option<Source> {
    Some(Source(Some("constante"), None, Some(Str(v)), None))
  }

  function Funcao(tag: string): Option<Source> {
    Some(Source(Some("funcao"), None, Some(Str(tag)), None))
  }

  /** The product-rule table of `carregar_mapeamento`. */
  const Regra: Table := Table("tbv9088_regr_prod_plar", [
    Column("cod_regr_prod_plar", Coluna(4, None)),
    Column("nom_regr_prod_plar", Coluna(7, None)),
    Column("des_regr_prod_plar", Coluna(7, None)),
    Column("ind_rgto_ativ", Constante("S")),
    Column("dat_hor_inio_vige__regr_prod", Coluna(2, Some("data"))),
    Column("dat_hor_usua_atui_rgto", Funcao("dataatul")),
    Column("num_funl_cola_cogl_atud", Constante("000000000"))])

  /** The rule-characteristic table of `carregar_mapeamento`. */
  const Caracteristica: Table := Table("tbv9086_carc_regr_prod_plar", [
    Column("cod_regr_prod_plar", Coluna(4, None)),
    Column("cod_tipo_carc_espo_prod", Coluna(0, Some("caracteres"))),
    Column("cod_carc_espo_prod_plar", Coluna(1, None)),
    Column("dat_hor_usua_atui_rgto", Funcao("dataatul")),
    Column("num_funl_cola_cogl_atud", Constante("000000000"))])

  /** The configuration as shipped, for a `BATCH_SIZE`. */
  function Shipped(batch: int): Config {
    Config(Folders, [Regra, Caracteristica], ';', batch)
  }

  /** The message of every member the base classes leave to a subclass. */
  const Abstract: Error := NotImplemented("Deve ser implementado pela subclasse")

  // ---------------------------------------------------------------------
  // GerenciadorBanco / GerenciadorMySQL

  /** The class a database manager is an instance of. */
  datatype DbManager = BaseManager | MySqlManager

  /** `conectar`: the base class raises; MySQL opens a connection, and a
      refused one is re-raised as ErroBancoDados. */
  function ConectarRun(w: World, p: nat, m: DbManager): Run<bool> {
    if m.BaseManager? then Run([], Err(Abstract))
    else Run([Connect], if p in w.fail then Err(DatabaseFailure(Connecting, ClientError)) else Ok(true))
  }

  /** `inserir_lote`: the base class raises; MySQL runs the batch upsert,
      committing after every slice of `tamanho_lote` tuples. */
  function InserirLoteRun(w: World, p: nat, m: DbManager, tabela: string, colunas: seq<string>, dados: seq<seq<Cell>>, n: int): Run<bool> {
    if m.BaseManager? then Run([], Err(Abstract))
    else UpsertRun(w, p, tabela, colunas, dados, n)
  }

  method Conectar(env: Env, m: DbManager) returns (r: Result<bool>)
    modifies env
    ensures env.trace == old(env.trace) + ConectarRun(env.world, |old(env.trace)|, m).events
    ensures r == ConectarRun(env.world, |old(env.trace)|, m).value
  {
    if m.BaseManager? {
      return Err(Abstract);
    }
    var ok := env.Call(Connect);
    r := if ok then Ok(true) else Err(DatabaseFailure(Connecting, ClientError));
  }

  method InserirLote(env: Env, m: DbManager, tabela: string, colunas: seq<string>, dados: seq<seq<Cell>>, n: int) returns (r: Result<bool>)
    modifies env
    ensures env.trace == old(env.trace) + InserirLoteRun(env.world, |old(env.trace)|, m, tabela, colunas, dados, n).events
    ensures r == InserirLoteRun(env.world, |old(env.trace)|, m, tabela, colunas, dados, n).value
  {
    if m.BaseManager? {
      return Err(Abstract);
    }
    r := BulkUpsert(env, tabela, colunas, dados, n);
  }

  /** The base class makes no call and raises NotImplementedError. */
  lemma BaseManagerRaises(w: World, p: nat, tabela: string, colunas: seq<string>, dados: seq<seq<Cell>>, n: int)
    ensures ConectarRun(w, p, BaseManager) == Run([], Err(Abstract))
    ensures InserirLoteRun(w, p, BaseManager, tabela, colunas, dados, n) == Run([], Err(Abstract))
  {
  }

  /** MySQL's `inserir_lote` starts with `conectar`: a refused connection
      is the whole run, with the error `conectar` raised. */
  lemma InserirLoteConnectsFirst(w: World, p: nat, tabela: string, colunas: seq<string>, dados: seq<seq<Cell>>, n: int)
    ensures var r := InserirLoteRun(w, p, MySqlManager, tabela, colunas, dados, n);
      var c := ConectarRun(w, p, MySqlManager);
      r.events[..1] == c.events
      && (c.value.Err? <==> r == c)
  {
    UpsertShape(w, p, tabela, colunas, dados, n);
  }

  const PersistingAll: string := "Falha ao persistir dados"

  /** `persistir`: the table loop, every error of which, StopIteration for
      an unmapped table included, is re-raised as ErroBancoDados. */
  function PersistirRun(w: World, p: nat, mapping: seq<Table>, td: TableData, n: int): Run<bool> {
    var r := TablesRun(w, p, mapping, n, td);
    Run(r.events, if r.value.Ok? then Ok(true) else Err(DatabaseFailure(PersistingAll, r.value.error)))
  }

  method Persistir(env: Env, mapping: seq<Table>, td: TableData, n: int) returns (r: Result<bool>)
    modifies env
    ensures env.trace == old(env.trace) + PersistirRun(env.world, |old(env.trace)|, mapping, td, n).events
    ensures r == PersistirRun(env.world, |old(env.trace)|, mapping, td, n).value
  {
    var ok := UpsertTables(env, mapping, n, td);
    r := if ok.Ok? then Ok(true) else Err(DatabaseFailure(PersistingAll, ok.error));
  }

  /** A failure of `persistir` is always an ErroBancoDados around the error
      raised: StopIteration for a table without a mapping, or an
      ErroBancoDados of `inserir_lote`. */
  lemma PersistirWraps(w: World, p: nat, mapping: seq<Table>, td: TableData, n: int)
    ensures var r := PersistirRun(w, p, mapping, td, n).value;
      r.Err? ==>
        r.error.DatabaseFailure? && r.error.context == PersistingAll
        && (r.error.cause == StopIteration || r.error.cause.DatabaseFailure?)
  {
    forall q: nat, j | 0 <= j < |td.names|
      ensures var t := PerTable(w, mapping, n, td)(q, td.names[j]).value;
        t.Err? ==> t.error == StopIteration || t.error.DatabaseFailure?
    {
      var name := td.names[j];
      if name in Names(mapping) {
        MappedTableRaises(w, q, mapping, n, td, name);
      } else if ListOf(td, name) != [] {
        UnmappedTableStops(w, q, mapping, n, td, name);
      }
    }
    EachTableRaisesOnly(p, td.names, PerTable(w, mapping, n, td), (e: Error) => e == StopIteration || e.DatabaseFailure?);
  }

  /** A first table with tuples but no mapping stops `persistir` before
      any call. */
  lemma PersistirUnmapped(w: World, p: nat, mapping: seq<Table>, td: TableData, n: int)
    requires td.names != [] && ListOf(td, td.names[0]) != [] && td.names[0] !in Names(mapping)
    ensures PersistirRun(w, p, mapping, td, n) == Run([], Err(DatabaseFailure(PersistingAll, StopIteration)))
  {
    UnmappedTableStops(w, p, mapping, n, td, td.names[0]);
  }

  /** The tables written before a failure stay committed: what `persistir`
      leaves durable is what each table it reached committed. */
  lemma PersistirKeepsCommitted(w: World, p: nat, mapping: seq<Table>, td: TableData, n: int)
    ensures Durable(w, p, PersistirRun(w, p, mapping, td, n).events) == DurableEach(w, p, td.names, PerTable(w, mapping, n, td))
  {
    TablesDurable(w, p, mapping, n, td);
  }

  // ---------------------------------------------------------------------
  // GerenciadorArquivos / GerenciadorS3

  /** The class a file manager is an instance of. */
  datatype FileManager = BaseFiles | S3Files

  const ReadingFile: string := "Erro ao ler arquivo"
  const MovingFile: string := "Erro ao mover arquivo"

  /** `validar_local_arquivo`: True for a path under the input folder,
      ErroArquivoInvalido naming that folder otherwise. */
  function ValidarLocal(s3: Prefixes, caminho: string): (r: Result<bool>)
    ensures r.Ok? <==> StartsWith(caminho, s3.input)
    ensures r.Ok? ==> r.value
    ensures r.Err? ==> r.error == InvalidFile(s3.input)
  {
    if !StartsWith(caminho, s3.input) then Err(InvalidFile(s3.input)) else Ok(true)
  }

  /** `ler_conteudo`: validate, then read; any exception is re-raised as
      ErroArmazenamento. */
  function LerRun(w: World, p: nat, f: FileManager, s3: Prefixes, caminho: string): Run<string> {
    if f.BaseFiles? then Run([], Err(Abstract))
    else
      var valid := ValidarLocal(s3, caminho);
      if valid.Err? then Run([], Err(StorageFailure(ReadingFile, valid.error)))
      else Run([Get(caminho)], if p in w.fail then Err(StorageFailure(ReadingFile, ClientError)) else Ok(Body(w, p)))
  }

  /** The copy and the delete of `mover_arquivo` once the destination is
      computed, or the exception computing it raised; any exception is
      re-raised as ErroArmazenamento. */
  function MoveTo(w: World, p: nat, origem: string, destino: Result<string>): Run<string> {
    if destino.Err? then Run([], Err(StorageFailure(MovingFile, destino.error)))
    else
      var move := Move(origem, destino.value);
      Run(Attempt(w, p, move), if Completes(w, p, move) then Ok(destino.value) else Err(StorageFailure(MovingFile, ClientError)))
  }

  /** `mover_arquivo`: the destination is computed first (a file name
      without a dot raises there), then copy and delete. */
  function MoverRun(w: World, p: nat, f: FileManager, s3: Prefixes, origem: string, sucesso: bool, now: Instant): Run<string> {
    if f.BaseFiles? then Run([], Err(Abstract))
    else MoveTo(w, p, origem, Destination(origem, s3.input, if sucesso then s3.processed else s3.error, now))
  }

  method Ler(env: Env, f: FileManager, s3: Prefixes, caminho: string) returns (r: Result<string>)
    modifies env
    ensures env.trace == old(env.trace) + LerRun(env.world, |old(env.trace)|, f, s3, caminho).events
    ensures r == LerRun(env.world, |old(env.trace)|, f, s3, caminho).value
  {
    if f.BaseFiles? {
      return Err(Abstract);
    }
    var valid := ValidarLocal(s3, caminho);
    if valid.Err? {
      return Err(StorageFailure(ReadingFile, valid.error));
    }
    var read := env.Read(caminho);
    r := if read.Err? then Err(StorageFailure(ReadingFile, ClientError)) else Ok(read.value);
  }

  method Mover(env: Env, f: FileManager, s3: Prefixes, origem: string, sucesso: bool, now: Instant) returns (r: Result<string>)
    modifies env
    ensures env.trace == old(env.trace) + MoverRun(env.world, |old(env.trace)|, f, s3, origem, sucesso, now).events
    ensures r == MoverRun(env.world, |old(env.trace)|, f, s3, origem, sucesso, now).value
  {
    if f.BaseFiles? {
      return Err(Abstract);
    }
    var destino := Destination(origem, s3.input, if sucesso then s3.processed else s3.error, now);
    if destino.Err? {
      return Err(StorageFailure(MovingFile, destino.error));
    }
    var ok := MoveObject(env, origem, destino.value);
    r := if ok then Ok(destino.value) else Err(StorageFailure(MovingFile, ClientError));
  }

  /** The base class makes no call and raises NotImplementedError. */
  lemma BaseFilesRaise(w: World, p: nat, s3: Prefixes, caminho: string, sucesso: bool, now: Instant)
    ensures LerRun(w, p, BaseFiles, s3, caminho) == Run([], Err(Abstract))
    ensures MoverRun(w, p, BaseFiles, s3, caminho, sucesso, now) == Run([], Err(Abstract))
  {
  }

  /** A path outside the input folder is refused without a read, with the
      validation error inside the ErroArmazenamento; a path inside is read
      once. */
  lemma LerValidatesFirst(w: World, p: nat, s3: Prefixes, caminho: string)
    ensures !StartsWith(caminho, s3.input) ==>
      LerRun(w, p, S3Files, s3, caminho) == Run([], Err(StorageFailure(ReadingFile, InvalidFile(s3.input))))
    ensures StartsWith(caminho, s3.input) ==>
      LerRun(w, p, S3Files, s3, caminho).events == [Get(caminho)]
      && LerRun(w, p, S3Files, s3, caminho).value == (if p in w.fail then Err(StorageFailure(ReadingFile, ClientError)) else Ok(Body(w, p)))
  {
  }

  /** The destination is raised inside the ErroArmazenamento before any
      call; otherwise the file is copied to it before it is deleted, no
      delete follows a failed copy, and the destination is returned exactly
      when both calls went through. */
  lemma MoveToShape(w: World, p: nat, origem: string, destino: Result<string>)
    ensures var r := MoveTo(w, p, origem, destino);
      Outside(r.events)
      && (destino.Err? ==> r == Run([], Err(StorageFailure(MovingFile, destino.error))))
      && (destino.Ok? ==>
            r.events == (if p in w.fail then [Copy(origem, destino.value)] else [Copy(origem, destino.value), Delete(origem)])
            && SafeDeletes(w, p, r.events)
            && (r.value.Ok? <==> p !in w.fail && p + 1 !in w.fail)
            && (r.value.Ok? ==> r.value.value == destino.value)
            && (r.value.Err? ==> r.value.error == StorageFailure(MovingFile, ClientError)))
  {
    if destino.Ok? {
      MoveAttempt(w, p, origem, destino.value);
    }
  }

  /** A file name without a dot raises IndexError, inside the
      ErroArmazenamento, before any copy or delete; a name with a dot has
      its destination under the success or the error folder. */
  lemma MoverNeedsDot(w: World, p: nat, s3: Prefixes, origem: string, sucesso: bool, now: Instant)
    ensures '.' !in Basename(origem) <==>
      MoverRun(w, p, S3Files, s3, origem, sucesso, now) == Run([], Err(StorageFailure(MovingFile, IndexError)))
    ensures '.' in Basename(origem) <==> Destination(origem, s3.input, if sucesso then s3.processed else s3.error, now).Ok?
  {
    var d := Destination(origem, s3.input, if sucesso then s3.processed else s3.error, now);
    StampedNameNeedsDot(Basename(origem), Compact(now));
    MoveToShape(w, p, origem, d);
  }

  // ---------------------------------------------------------------------
  // ProcessadorHandler

  /** `{t: len(r) for t, r in dados.items()}` as `_processar_registro`
      returns it, with the new path. */
  datatype Processed = Processed(arquivo: string, registrosProcessados: map<string, nat>)

  /** One entry of `resultados`: `sucesso` with what the record returned,
      or `erro` with the exception and the record's key if it has one. */
  datatype Outcome = Sucesso(processed: Processed) | Erro(erro: Error, arquivo: Option<string>)

  /** `processar(conteudo)`. */
  function Dados(cfg: Config, conteudo: string, now: Instant): TableData {
    MapRows(Processar, Rows(conteudo, cfg.delimiter), cfg.mapping, now)
  }

  /** The counts of the file with content `conteudo`. */
  function Contagem(cfg: Config, now: Instant, conteudo: string): map<string, nat> {
    PipelineV2.Counts(Dados(cfg, conteudo, now))
  }

  /** Where a processed file goes: `mover_arquivo(bucket, arquivo, sucesso=True)`. */
  function Destino(cfg: Config, now: Instant, arquivo: string): Result<string> {
    Destination(arquivo, cfg.storage.input, cfg.storage.processed, now)
  }

  /** The counts, for every content. */
  function Contar(cfg: Config, now: Instant): string -> map<string, nat> {
    (conteudo: string) => Contagem(cfg, now, conteudo)
  }

  /** The destination, for every file. */
  function Destinos(cfg: Config, now: Instant): string -> Result<string> {
    (arquivo: string) => Destino(cfg, now, arquivo)
  }

  /** `count` and `destino` give the counts of every content and the
      destination of every file. */
  ghost predicate Stages(count: string -> map<string, nat>, destino: string -> Result<string>, cfg: Config, now: Instant) {
    (forall c: string {:trigger Contagem(cfg, now, c)} :: count(c) == Contagem(cfg, now, c))
    && (forall a: string {:trigger Destino(cfg, now, a)} :: destino(a) == Destino(cfg, now, a))
  }

  lemma HandlerStages(cfg: Config, now: Instant)
    ensures Stages(Contar(cfg, now), Destinos(cfg, now), cfg, now)
  {
  }

  /** After the read: process, then move the file; the commented out
      `persistir` makes no call.  `count(c)` is what the processing of the
      content `c` reports and `destino(a)` where the file `a` goes
      (`Contar` and `Destinos` in the handler). */
  function ReadTail(w: World, q: nat, arquivo: string, v: Result<string>, count: string -> map<string, nat>, destino: string -> Result<string>): Run<Processed> {
    if v.Err? then Run([], Err(v.error))
    else
      var mv := MoveTo(w, q, arquivo, destino(arquivo));
      Run(mv.events, if mv.value.Ok? then Ok(Processed(mv.value.value, count(v.value))) else Err(mv.value.error))
  }

  /** `_processar_registro`: a record without its bucket or key raises
      KeyError before any call. */
  function RegistroRun(w: World, p: nat, cfg: Config, n: Notification, count: string -> map<string, nat>, destino: string -> Result<string>): Run<Processed> {
    if !WellFormed(n) then Run([], Err(KeyError))
    else
      var got := LerRun(w, p, S3Files, cfg.storage, n.key.value);
      Then(got.events, ReadTail(w, p + |got.events|, n.key.value, got.value, count, destino))
  }

  /** The body of the loop of `executar`: the `try` and its `except
      Exception`. */
  function OutcomeRun(w: World, p: nat, cfg: Config, n: Notification, count: string -> map<string, nat>, destino: string -> Result<string>): Run<Outcome> {
    var r := RegistroRun(w, p, cfg, n, count, destino);
    Run(r.events, Ok(if r.value.Ok? then Sucesso(r.value.value) else Erro(r.value.error, n.key)))
  }

  /** `processar` and `mover_arquivo` once the content is read. */
  method ProcessAndMove(env: Env, cfg: Config, arquivo: string, now: Instant, conteudo: string, ghost count: string -> map<string, nat>, destino: string -> Result<string>)
    returns (r: Result<Processed>)
    requires Stages(count, destino, cfg, now)
    modifies env
    ensures env.trace == old(env.trace) + ReadTail(env.world, |old(env.trace)|, arquivo, Ok(conteudo), count, destino).events
    ensures r == ReadTail(env.world, |old(env.trace)|, arquivo, Ok(conteudo), count, destino).value
  {
    var dados := MapFile(Processar, Rows(conteudo, cfg.delimiter), cfg.mapping, now);
    assert PipelineV2.Counts(dados) == Contagem(cfg, now, conteudo);
    assert destino(arquivo) == Destino(cfg, now, arquivo);
    var novo := Mover(env, S3Files, cfg.storage, arquivo, true, now);
    r := if novo.Ok? then Ok(Processed(novo.value, PipelineV2.Counts(dados))) else Err(novo.error);
  }

  /** What follows `ler_conteudo`: its exception propagates, a content is
      processed and the file moved. */
  method AfterRead(env: Env, cfg: Config, arquivo: string, now: Instant, conteudo: Result<string>, ghost count: string -> map<string, nat>, destino: string -> Result<string>)
    returns (r: Result<Processed>)
    requires Stages(count, destino, cfg, now)
    modifies env
    ensures env.trace == old(env.trace) + ReadTail(env.world, |old(env.trace)|, arquivo, conteudo, count, destino).events
    ensures r == ReadTail(env.world, |old(env.trace)|, arquivo, conteudo, count, destino).value
  {
    if conteudo.Err? {
      r := Err(conteudo.error);
      assert old(env.trace) + [] == env.trace;
    } else {
      r := ProcessAndMove(env, cfg, arquivo, now, conteudo.value, count, destino);
    }
  }

  method ProcessarRegistro(env: Env, cfg: Config, n: Notification, now: Instant, ghost count: string -> map<string, nat>, destino: string -> Result<string>)
    returns (r: Result<Processed>)
    requires Stages(count, destino, cfg, now)
    modifies env
    ensures env.trace == old(env.trace) + RegistroRun(env.world, |old(env.trace)|, cfg, n, count, destino).events
    ensures r == RegistroRun(env.world, |old(env.trace)|, cfg, n, count, destino).value
  {
    if !WellFormed(n) {
      return Err(KeyError);
    }
    ghost var t0 := env.trace;
    ghost var got := LerRun(env.world, |t0|, S3Files, cfg.storage, n.key.value);
    var conteudo := Ler(env, S3Files, cfg.storage, n.key.value);
    ghost var tail := ReadTail(env.world, |t0| + |got.events|, n.key.value, conteudo, count, destino);
    r := AfterRead(env, cfg, n.key.value, now, conteudo, count, destino);
    assert env.trace == t0 + got.events + tail.events;
    Assoc(t0, got.events, tail.events);
  }

  /** The run of every record, from every position. */
  function Item(w: World, cfg: Config, now: Instant): (nat, Notification) -> Run<Outcome> {
    (p: nat, n: Notification) => OutcomeRun(w, p, cfg, n, Contar(cfg, now), Destinos(cfg, now))
  }

  ghost predicate Realizes(item: (nat, Notification) -> Run<Outcome>, w: World, cfg: Config, count: string -> map<string, nat>, destino: string -> Result<string>) {
    forall p: nat, n: Notification {:trigger OutcomeRun(w, p, cfg, n, count, destino)} ::
      item(p, n) == OutcomeRun(w, p, cfg, n, count, destino)
  }

  lemma ItemRealizes(w: World, cfg: Config, now: Instant)
    ensures Realizes(Item(w, cfg, now), w, cfg, Contar(cfg, now), Destinos(cfg, now))
  {
  }

  /** One pass of the loop of `executar`. */
  method RecordIteration(env: Env, cfg: Config, now: Instant, n: Notification,
                         ghost item: (nat, Notification) -> Run<Outcome>, ghost count: string -> map<string, nat>, destino: string -> Result<string>)
    returns (r: Result<Outcome>, ghost step: seq<Event>)
    requires Realizes(item, env.world, cfg, count, destino) && Stages(count, destino, cfg, now)
    modifies env
    ensures step == item(|old(env.trace)|, n).events && r == item(|old(env.trace)|, n).value
    ensures env.trace == old(env.trace) + step
  {
    ghost var run := OutcomeRun(env.world, |env.trace|, cfg, n, count, destino);
    var processed := ProcessarRegistro(env, cfg, n, now, count, destino);
    r := Ok(if processed.Ok? then Sucesso(processed.value) else Erro(processed.error, n.key));
    step := run.events;
  }

  /** The loop over `evento.get('Records', [])`, collecting `resultados`. */
  method HandleRecords(env: Env, cfg: Config, now: Instant, records: seq<Notification>,
                       ghost item: (nat, Notification) -> Run<Outcome>, ghost count: string -> map<string, nat>, destino: string -> Result<string>)
    returns (results: Result<seq<Outcome>>)
    requires Realizes(item, env.world, cfg, count, destino) && Stages(count, destino, cfg, now)
    modifies env
    ensures env.trace == old(env.trace) + CollectRun(|old(env.trace)|, records, item).events
    ensures results == CollectRun(|old(env.trace)|, records, item).value
  {
    ghost var t0 := env.trace;
    ghost var done: seq<Event> := [];
    var acc: seq<Outcome> := [];
    assert records[0..] == records;
    PrependNothing(CollectRun(|t0|, records, item));
    var i := 0;
    while i < |records|
      invariant 0 <= i <= |records|
      invariant env.trace == t0 + done
      invariant CollectRun(|t0|, records, item) == Prepend(done, acc, CollectRun(|t0| + |done|, records[i..], item))
      decreases |records| - i
    {
      var r;
      ghost var step;
      r, step := RecordIteration(env, cfg, now, records[i], item, count, destino);
      Assoc(t0, done, step);
      if r.Err? {
        CollectRaise(|t0|, records, i, done, acc, item);
        return Err(r.error);
      }
      CollectNext(|t0|, records, i, done, acc, step, item);
      done := done + step;
      acc := acc + [r.value];
      i := i + 1;
    }
    CollectDone(|t0| + |done|, records, done, acc, item);
    results := Ok(acc);
  }

  /** The response of `executar`. */
  datatype Response = Response(statusCode: int, processados: nat, erros: nat, detalhes: seq<Outcome>)

  function Sucessos(detalhes: seq<Outcome>): nat
    decreases |detalhes|
  {
    if detalhes == [] then 0 else (if detalhes[0].Sucesso? then 1 else 0) + Sucessos(detalhes[1..])
  }

  function Erros(detalhes: seq<Outcome>): nat
    decreases |detalhes|
  {
    if detalhes == [] then 0 else (if detalhes[0].Erro? then 1 else 0) + Erros(detalhes[1..])
  }

  /** The records of an event: `evento.get('Records', [])`. */
  function Records(event: Option<seq<Notification>>): seq<Notification> {
    if event.Some? then event.value else []
  }

  /** The run of `executar`. */
  function ExecutarRun(pos: nat, event: Option<seq<Notification>>, item: (nat, Notification) -> Run<Outcome>): Run<Response> {
    var c := CollectRun(pos, Records(event), item);
    Run(c.events, if c.value.Err? then Err(c.value.error)
                  else Ok(Response(200, Sucessos(c.value.value), Erros(c.value.value), c.value.value)))
  }

  /** `lambda_handler(event, context)`, with `now` the clock reading used by
      the transforms and the moves. */
  method Executar(env: Env, cfg: Config, now: Instant, event: Option<seq<Notification>>) returns (r: Result<Response>)
    modifies env
    ensures env.trace == old(env.trace) + ExecutarRun(|old(env.trace)|, event, Item(env.world, cfg, now)).events
    ensures r == ExecutarRun(|old(env.trace)|, event, Item(env.world, cfg, now)).value
  {
    ItemRealizes(env.world, cfg, now);
    HandlerStages(cfg, now);
    var records := if event.Some? then event.value else [];
    var results := HandleRecords(env, cfg, now, records, Item(env.world, cfg, now), Contar(cfg, now), Destinos(cfg, now));
    r := if results.Err? then Err(results.error)
         else Ok(Response(200, Sucessos(results.value), Erros(results.value), results.value));
  }

  // ---------------------------------------------------------------------
  // Properties of the handler

  /** Every result is a success or an error. */
  lemma {:induction false} OutcomeCounts(detalhes: seq<Outcome>)
    ensures Sucessos(detalhes) + Erros(detalhes) == |detalhes|
    decreases |detalhes|
  {
    if detalhes != [] {
      OutcomeCounts(detalhes[1..]);
    }
  }

  /** `executar` never raises: it answers 200 with one result per record,
      the first being the first record's, and counts that add up to the
      number of records; without `Records` it makes no call and reports
      nothing. */
  lemma ExecutarTotal(w: World, pos: nat, cfg: Config, now: Instant, event: Option<seq<Notification>>)
    ensures var r := ExecutarRun(pos, event, Item(w, cfg, now));
      var records := Records(event);
      r.value.Ok? && r.value.value.statusCode == 200
      && |r.value.value.detalhes| == |records|
      && r.value.value.processados + r.value.value.erros == |records|
      && (records != [] ==>
            r.value.value.detalhes[0] == OutcomeRun(w, pos, cfg, records[0], Contar(cfg, now), Destinos(cfg, now)).value.value)
    ensures event.None? ==> ExecutarRun(pos, event, Item(w, cfg, now)) == Run([], Ok(Response(200, 0, 0, [])))
  {
    var item := Item(w, cfg, now);
    CollectTotal(pos, Records(event), item);
    OutcomeCounts(CollectRun(pos, Records(event), item).value.value);
  }

  /** A failed record reports the exception and the record's own key. */
  lemma ErroCarriesKey(w: World, p: nat, cfg: Config, n: Notification, count: string -> map<string, nat>, destino: string -> Result<string>)
    ensures var o := OutcomeRun(w, p, cfg, n, count, destino).value.value;
      o.Erro? ==> o.arquivo == n.key && o.erro == RegistroRun(w, p, cfg, n, count, destino).value.error
    ensures !WellFormed(n) ==> OutcomeRun(w, p, cfg, n, count, destino) == Run([], Ok(Erro(KeyError, n.key)))
  {
  }

  lemma LerOutside(w: World, p: nat, s3: Prefixes, caminho: string)
    ensures Outside(LerRun(w, p, S3Files, s3, caminho).events)
  {
  }

  /** A record touches storage only: no connection, execute or commit is
      made. */
  lemma RegistroStorageOnly(w: World, p: nat, cfg: Config, n: Notification, count: string -> map<string, nat>, destino: string -> Result<string>)
    ensures Outside(RegistroRun(w, p, cfg, n, count, destino).events)
  {
    if WellFormed(n) {
      var key := n.key.value;
      var got := LerRun(w, p, S3Files, cfg.storage, key);
      var q := p + |got.events|;
      LerOutside(w, p, cfg.storage, key);
      MoveToShape(w, q, key, destino(key));
      OutsideConcat(got.events, ReadTail(w, q, key, got.value, count, destino).events);
    }
  }

  /** A successful record read the file, copied it to its destination and
      deleted it, and reports that destination with the counts of the
      file's content. */
  lemma RegistroSucceeds(w: World, p: nat, cfg: Config, n: Notification, count: string -> map<string, nat>, destino: string -> Result<string>)
    requires RegistroRun(w, p, cfg, n, count, destino).value.Ok?
    ensures WellFormed(n) && StartsWith(n.key.value, cfg.storage.input) && destino(n.key.value).Ok?
    ensures var key := n.key.value;
      var d := destino(key).value;
      RegistroRun(w, p, cfg, n, count, destino)
        == Run([Get(key), Copy(key, d), Delete(key)], Ok(Processed(d, count(Body(w, p)))))
  {
    var key := n.key.value;
    LerValidatesFirst(w, p, cfg.storage, key);
    MoveToShape(w, p + 1, key, destino(key));
  }

  /** In the handler a file goes to its stamped name under `processados/`:
      a name without a dot has no destination, and the destination of one
      with a dot ends with the stamped file name. */
  lemma DestinoStamped(cfg: Config, now: Instant, arquivo: string)
    ensures Destinos(cfg, now)(arquivo).Ok? <==> '.' in Basename(arquivo)
    ensures Destinos(cfg, now)(arquivo).Ok? ==>
      Basename(Destinos(cfg, now)(arquivo).value) == StampedName(Basename(arquivo), Compact(now)).value
  {
    StampedNameNeedsDot(Basename(arquivo), Compact(now));
    if '.' in Basename(arquivo) {
      DestinationSegments(arquivo, cfg.storage.input, cfg.storage.processed, now);
    }
  }

  /** `processar` catches every column error, so no table abandons a row:
      with distinct table names, each table of the mapping is counted with
      one tuple per non-empty line of the file. */
  lemma CountsPerTable(cfg: Config, conteudo: string, now: Instant)
    requires DistinctNames(cfg.mapping)
    ensures var c := Contar(cfg, now)(conteudo);
      c.Keys == set t | t in Names(cfg.mapping)
      && forall j :: 0 <= j < |cfg.mapping| ==> c[cfg.mapping[j].name] == |NonEmpty(Rows(conteudo, cfg.delimiter))|
  {
    forall j | 0 <= j < |cfg.mapping|
      ensures Contar(cfg, now)(conteudo)[cfg.mapping[j].name] == |NonEmpty(Rows(conteudo, cfg.delimiter))|
    {
      assert cfg.mapping[j].name in Names(cfg.mapping);
      MapRowsCounts(Processar, Rows(conteudo, cfg.delimiter), cfg.mapping, now, j);
    }
  }
}
