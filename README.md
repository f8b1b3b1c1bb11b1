# CSV-to-table pipelines, modelled in Dafny

The `Aws/Lambda/lab01` repository has several AWS Lambda functions. Each one reacts to a CSV
object arriving in an S3 bucket. It reads the object, turns its rows into tuples for one or
more MySQL tables and writes them with `INSERT … ON DUPLICATE KEY UPDATE`. It then moves
the object out of the input folder: to a processed location on success, to an error
location on failure.

This project models each of these pipelines in Dafny and proves what each one does with the
object and with the database:

- which calls it makes, in which order;
- what ends up committed;
- which key the object ends up under;
- which errors reach the caller.

## How the model is built

**Effects.** The side effects are modelled in `effects.dfy`.
- `Effects.Env` is a class that stands for the S3 client and the database driver. It records
  every call it is asked to make in a `trace` of `Event`s: `Get`, `Copy`, `Delete`, `Put`,
  `Connect`, `Exec`, `Commit`, `Rollback`, `CloseCursor`, `Close`.
- A constant `World` says which calls raise (by their position in the trace) and what each
  read returns. A failed call is a `ClientError`.
- Every imperative handler is a `method` on `Env`. It is proved against a pure function
  returning a `Run` (the calls made and the value or exception). The properties the code
  promises are lemmas about those functions.

**Transactions.** `txn.dfy` gives the commit semantics. `Settle` and `Durable` compute which
executes a commit made permanent. A rollback, a close, or a commit that raised discards what
is pending.

**Moves.** `moves.dfy` defines a move of an object as a copy followed by a delete. Its
safety property `SafeDeletes` says an object is deleted only right after a copy of it that
went through.

**Shared pieces**

| File | What it holds |
|---|---|
| `values.dfy` | The cell values `str` / `int` / `None`, the errors and the result type. |
| `text.dfy` | `split`, `replace`, `strip`, `upper` and `lower` on strings; the case mappings follow Python over the Latin-1 range. |
| `csv.dfy` | Reading rows, and the reader as a left inverse of writing plain rows. |
| `clock.dfy` | The `strftime` layouts. The clock is one `Instant` parameter per invocation. |
| `keys.dfy` | The renamings of object keys. |
| `transforms.dfy` | The value transforms of every variant. |
| `mapper.dfy` | The mapping configuration (tables, columns, sources) and the table/column mapping loop, shared by three files that differ only in how a column error is caught. |
| `slicing.dfy`, `batching.dfy`, `store.dfy` | Batching with Python's `range(0, len, n)` semantics, including a zero or negative `batch_size`. |
| `sql.dfy` | The text of the upsert statements. |
| `commit_once.dfy` | A transaction committed once, after all tables. |
| `commit_each.dfy` | A commit after every batch, as `bulk_upsert`/`inserir_lote` do. |
| `records.dfy` | The loops over an event's `Records`. |

**One file per pipeline**

| File | Source |
|---|---|
| `v2.dfy` | `s3-to-rds-v2/app.py` |
| `v1sql.dfy` | `s3-to-rds-v2/v1_leitura_py_padrao_sql/v1_leitura_py_padrao_sql.py` |
| `v11.dfy` | `s3-to-rds-v2/v1_leitura_py_padrao/v1.1.py` |
| `fixed_layout.dfy`, `s3_to_rds.dfy`, `rds_generico.dfy` | `s3-to-rds/app.py` and `rds-generico/app.py`, which share a fixed eight-column layout |
| `s3tords.dfy` | The `s3tords` Chalice project |
| `lambdas3rds.dfy` | The `lambdaS3-RDS` Chalice project |
| `leitor_s3.dfy` | `leitorS3/chalicelib/csv_processor.py` |
| `file_processor.dfy` | `lambda-file-processor/app.py` |

**Behaviours worth knowing.** Some behaviours follow from the code as written and are
proved here:
- A move whose copy succeeds but whose delete raises leaves the object under both keys.
  `process_file` of leitorS3 and `handle_new_file` then copy it to the error key too
  (`LeitorS3.StrandedCopy`, `FileProcessor.StrandedCopy`).
- The SQL variant of the v1 handler has `process_file` and `save_to_db` commented out, so
  `table_data` is unbound on the success path. Every file it accepts is copied to the
  processed key, then copied to the error key and deleted, and reported as a `NameError`
  (`PipelineV1Sql.CopiedToBoth`).
- `process_file` of the v2 handler reads `col['source']` outside the inner `try`. A column
  without a `source` therefore abandons the rest of the row: the tables after it get no
  tuple. The s3tords and lambdaS3-RDS mappers catch that error and store `None`
  (`Mapper.MissingSourceRule`).
- A `batch_size` of zero makes `range` raise as soon as a table has rows. A negative one
  sends nothing and still commits (`PipelineV2.ZeroBatch`, `PipelineV2.SaveSendsEverything`).

## Model

Every source path below is under `Aws/Lambda/lab01/`.

| member | source | states |
|---|---|---|
| Effects.Env.constructor | Aws/Lambda/lab01/s3tords/chalicelib/services/storage.py:8-9 | A fresh client has made no call yet and answers as the given world says. |
| Effects.Env.Call | Aws/Lambda/lab01/s3tords/chalicelib/services/storage.py:31-36 | One client call is appended to the trace; it raises exactly when the world says that call fails. |
| Effects.Env.Read | Aws/Lambda/lab01/s3tords/chalicelib/services/storage.py:17-18 | `get_object(...)['Body'].read()` appends one `Get` and returns the object's content or the client error. |
| Effects.FirstFailure | Aws/Lambda/lab01/s3tords/chalicelib/services/database.py:42-44 | The index of the first call of a sequence that raises: every call before it goes through, and the call at it raises. |
| Effects.AttemptShape | Aws/Lambda/lab01/s3tords/chalicelib/services/database.py:42-50 | Calls made in sequence stop at the first one that raises: the trace is the whole plan when all go through, and otherwise its prefix up to and including the raising call. |
| Effects.AttemptConcat | Aws/Lambda/lab01/s3-to-rds-v2/app.py:140-144 | Two groups of calls in a row: the second is reached exactly when the first went through. |
| Moves.MoveAttempt | Aws/Lambda/lab01/lambda-file-processor/app.py:145-152 | A copy-then-delete move issues no delete after a failed copy; it completes exactly when both calls go through. |
| Moves.SafeDeletesConcat | Aws/Lambda/lab01/s3-to-rds-v2/app.py:175-180 | Deleting only after a successful copy is kept when two stretches of calls are put together. |
| Moves.RecoverySafe | Aws/Lambda/lab01/s3-to-rds-v2/v1_leitura_py_padrao/v1.1.py:66-87 | An `except` branch that moves the object to the error key and ignores a failure of the move always answers, starts with the copy, and deletes only after that copy went through; the v2, v1.1 and SQL v1 handlers share it. |
| Moves.ReadThenSafe | Aws/Lambda/lab01/s3-to-rds-v2/v1_leitura_py_padrao/v1.1.py:30-31 | A read before calls that delete safely keeps them safe. |
| Moves.MoveObject | Aws/Lambda/lab01/leitorS3/chalicelib/csv_processor.py:81-87 | The copy and the delete of `_move_s3_file`, stopping at the first call that raises. |
| Transactions.SettleDiscard | Aws/Lambda/lab01/s3-to-rds-v2/app.py:147-151 | Whatever executes went through before a rollback, none of them becomes durable. |
| Transactions.SettleConcat | Aws/Lambda/lab01/s3tords/chalicelib/services/database.py:42-44 | What a run makes durable is what its first part makes durable, followed by what the rest makes durable from the pending state the first part left. |
| Transactions.ClosedSession | Aws/Lambda/lab01/s3-to-rds-v2/app.py:152-154 | Closing the connection leaves nothing pending and adds nothing durable. |
| Transactions.DurableBetween | Aws/Lambda/lab01/s3-to-rds-v2/app.py:164-180 | S3 calls before and after a database session that left nothing pending do not change what is durable. |
| Text.Split | Aws/Lambda/lab01/s3-to-rds-v2/v1_leitura_py_padrao/v1.1.py:41-44 | `s.split(sep)` for one character: never empty. |
| Text.JoinSplit | Aws/Lambda/lab01/s3-to-rds/app.py:154-157 | Joining the pieces of a split with the same separator gives the input back. |
| Text.SplitJoin | Aws/Lambda/lab01/s3-to-rds/app.py:154-157 | Splitting a join of separator-free pieces gives the pieces back. |
| Text.SplitCount | Aws/Lambda/lab01/s3-to-rds/app.py:156 | A split has one piece more than the text has separators. |
| Text.SplitPiecesFree | Aws/Lambda/lab01/s3-to-rds-v2/v1_leitura_py_padrao/v1.1.py:41 | No piece of a split contains the separator. |
| Text.ReplaceAbsent | Aws/Lambda/lab01/s3-to-rds/app.py:67 | `replace` of a pattern that does not occur leaves the text unchanged, in both its all-occurrences and its count-1 forms. |
| Text.LeadingReplace | Aws/Lambda/lab01/s3-to-rds/app.py:67 | A key that starts with the pattern gets that occurrence replaced first, by both forms of `replace`. |
| Text.ReplaceSuffix | Aws/Lambda/lab01/s3-to-rds-v2/v1_leitura_py_padrao/v1.1.py:47-50 | A pattern that occurs only at the very end of a text: only that occurrence is replaced. |
| Text.UpperIsC | Aws/Lambda/lab01/s3-to-rds-v2/app.py:67-68 | `s.upper() == 'C'` holds exactly for "C" and "c". |
| Text.StripBlank | Aws/Lambda/lab01/lambda-file-processor/app.py:93-95 | `not s.strip()` holds exactly when every character is whitespace. |
| Text.StripEnds | Aws/Lambda/lab01/leitorS3/chalicelib/csv_processor.py:56 | `s.strip()` neither starts nor ends with whitespace. |
| Text.Upper | Aws/Lambda/lab01/s3-to-rds-v2/app.py:67-68 | `s.upper()` over the Latin-1 range is never shorter than `s`, and is longer exactly when `s` holds a `ß` (which becomes "SS"). |
| Text.Lower | Aws/Lambda/lab01/lambda-file-processor/app.py:73-77 | `s.lower()` over the Latin-1 range lowers every character to one character, so the length is kept. |
| Text.LowerLower | Aws/Lambda/lab01/lambda-file-processor/app.py:77 | Lowering twice is lowering once, and no whitespace character is created or removed. |
| Csv.Rows | Aws/Lambda/lab01/s3-to-rds-v2/app.py:76-77 | The reader gives one row per line of the content. |
| Csv.ReadRendered | Aws/Lambda/lab01/s3-to-rds-v2/app.py:76-77 | Reading back rows written without quoting or line breaks gives the rows: the reader is a left inverse of the writer. |
| Csv.FieldsOfRendered | Aws/Lambda/lab01/s3-to-rds/app.py:182 | One rendered row reads back as itself. |
| Csv.BlankLine | Aws/Lambda/lab01/s3-to-rds-v2/app.py:83-85 | A blank line is read as an empty row, the row every mapper skips. |
| Clock.DigitsRoundTrip | Aws/Lambda/lab01/s3-to-rds-v2/app.py:69-70 | A zero-padded field has its width in digits and reads back as the number it renders. |
| Clock.TimestampLayout | Aws/Lambda/lab01/s3-to-rds-v2/app.py:69-70 | `%Y-%m-%d %H:%M:%S` has 19 characters, its separators in place, and every field reads back as the instant's own value. |
| Clock.CompactLayout | Aws/Lambda/lab01/s3-to-rds-v2/v1_leitura_py_padrao/v1.1.py:38 | `%Y%m%d_%H%M%S` has 15 characters with `_` at index 8, no `.` and no `/`, and its fields read back. |
| Clock.DayLayout | Aws/Lambda/lab01/lambda-file-processor/app.py:139-143 | `%Y-%m-%d` has no `/`, so it is one path segment, and its fields read back. |
| Keys.StampedNameNeedsDot | Aws/Lambda/lab01/s3-to-rds-v2/v1_leitura_py_padrao/v1.1.py:44 | `file_name.split('.')[1]` exists exactly when the name has a dot; otherwise IndexError. |
| Keys.StampedNameParts | Aws/Lambda/lab01/s3-to-rds-v2/v1_leitura_py_padrao/v1.1.py:44 | `stem.ext[.more…]` becomes `stem_<stamp>.ext`: whatever follows a second dot is dropped. |
| Keys.StampedNameSegment | Aws/Lambda/lab01/lambdaS3-RDS/chalicelib/services/armazenamento.py:59-61 | The stamped name of a name without `/` has no `/`. |
| Keys.BasenameSegment | Aws/Lambda/lab01/lambda-file-processor/app.py:141 | The last segment of a key has no `/`. |
| Keys.BasenameUnder | Aws/Lambda/lab01/s3-to-rds-v2/v1_leitura_py_padrao/v1.1.py:41 | `key.split('/')[-1]` of `folder/name` is the name. |
| Keys.NameOnlyAtEnd | Aws/Lambda/lab01/s3-to-rds-v2/v1_leitura_py_padrao/v1.1.py:47-50 | After the folder rename, the file name occurs only as the last segment, so only it is replaced. |
| Keys.RenamedKeyLayout | Aws/Lambda/lab01/s3-to-rds-v2/v1_leitura_py_padrao/v1.1.py:38-50 | `entrada/stem.ext` goes to `processados/stem_<YYYYMMDD_HHMMSS>.ext`. |
| Keys.DestinationSegments | Aws/Lambda/lab01/lambdaS3-RDS/chalicelib/services/armazenamento.py:53-62 | The destination keeps the folders of the rewritten key and ends with the stamped name of the original file, as its own segment. |
| Keys.DatedKeySegments | Aws/Lambda/lab01/lambda-file-processor/app.py:139-143 | Under a one-segment prefix, the dated key has exactly three segments: the folder, the day and the file's own name. |
| Keys.RFind | Aws/Lambda/lab01/lambda-file-processor/app.py:129 | `str.rfind`: the index of the last occurrence, or -1 when there is none. |
| Keys.RootOfName | Aws/Lambda/lab01/lambda-file-processor/app.py:129 | `os.path.splitext(name)[0]` drops the last extension; a name without a dot stays whole. |
| Transforms.ConvertDateParts | Aws/Lambda/lab01/s3-to-rds/app.py:154-157 | Three dot-free pieces `d.m.y` are reordered to `y-m-d 00:00:00`, whatever the pieces hold, by both date converters. |
| Transforms.ConvertDateFallback | Aws/Lambda/lab01/s3-to-rds/app.py:154-160 | The three-way unpacking fails exactly when the text does not hold two dots, and then the current timestamp is returned. |
| Transforms.ConvertDateKeepFallback | Aws/Lambda/lab01/rds-generico/app.py:48-54 | The rds-generico converter returns a text without exactly two dots unchanged, and reorders one with two. |
| Transforms.DateTag | Aws/Lambda/lab01/s3-to-rds-v2/app.py:61-66 | The `date` tag: a `d.m.y` string is reordered; `None`, an integer or any other string gives the current timestamp. |
| Transforms.IppiCodes | Aws/Lambda/lab01/s3-to-rds-v2/app.py:67-68 | The `ippi` code is 1 exactly for "C" and "c", otherwise 2; only a non-zero integer raises, since it has no `upper`. |
| Transforms.TransformValueTags | Aws/Lambda/lab01/s3-to-rds-v2/app.py:60-71 | `transform_value`: `ippi` codes the value, `now` ignores it, and any other tag hands the value back unchanged. |
| Transforms.ConvertIppiCodes | Aws/Lambda/lab01/s3-to-rds/app.py:163-170 | `convert_ippi` gives 1 exactly for "C" and "c", and 2 for every other value, `None` and integers included. |
| Transforms.ConvertIppiTextCodes | Aws/Lambda/lab01/rds-generico/app.py:57-59 | `convert_ippi` gives 1 exactly for "C" and "c", and 2 otherwise. |
| Transforms.TransformarDataExtra | Aws/Lambda/lab01/lambdaS3-RDS/chalicelib/services/transformar.py:22-25 | `_transformar_data` reads only the first three pieces: anything after a third dot is ignored. |
| Transforms.TransformarDataFallback | Aws/Lambda/lab01/lambdaS3-RDS/chalicelib/services/transformar.py:22-27 | Fewer than two dots, or no string at all, give the current timestamp; two or more are reordered. |
| Transforms.AplicarTransformacaoTags | Aws/Lambda/lab01/lambdaS3-RDS/chalicelib/services/transformar.py:9-35 | `aplicar_transformacao` dispatches only `data`, `caracteres` and `dataatul`; `caracteres` follows the indicator code, `dataatul` ignores its input, and any other tag returns the value. |
| Mapper.Names | Aws/Lambda/lab01/s3-to-rds-v2/app.py:78 | The keys of `{t['name']: [] for t in tables}` are distinct and are exactly the table names. |
| Mapper.AddTables | Aws/Lambda/lab01/s3-to-rds-v2/app.py:88-109 | The loop over the tables for one row keeps the set of table keys. |
| Mapper.AddRow | Aws/Lambda/lab01/s3-to-rds-v2/app.py:83-109 | One row, the empty row skipped, keeps the set of table keys. |
| Mapper.MapRows | Aws/Lambda/lab01/s3-to-rds-v2/app.py:74-114 | The mapper's result has a key for every configured table and no other. |
| Mapper.MapFile | Aws/Lambda/lab01/s3-to-rds-v2/app.py:80-109 | The row/table/column loops build exactly the table data `MapRows` specifies. |
| Mapper.MapRow | Aws/Lambda/lab01/s3-to-rds-v2/app.py:88-109 | The table loop for one non-empty row builds what `AddTables` specifies. |
| Mapper.MapColumns | Aws/Lambda/lab01/s3-to-rds-v2/app.py:90-109 | The column loop for one table yields the tuple, or abandons the row exactly when a column has no `source`. |
| Mapper.AddTablesEffect | Aws/Lambda/lab01/s3-to-rds-v2/app.py:88-109 | With distinct table names, one row appends exactly one tuple to each table it reaches and nothing to the others. |
| Mapper.MapRowsTable | Aws/Lambda/lab01/s3-to-rds-v2/app.py:74-114 | With distinct names, a reached table holds one tuple per non-empty row, in row order; a table cut off by an earlier one holds nothing. |
| Mapper.MapRowsCounts | Aws/Lambda/lab01/s3-to-rds-v2/app.py:74-114 | A reached table has exactly as many tuples as non-empty rows, and every tuple has one value per column. |
| Mapper.MapRowsKeys | Aws/Lambda/lab01/s3-to-rds-v2/app.py:78 | Every configured table name is a key of the result, and nothing else is. |
| Mapper.EmptyRowsIgnored | Aws/Lambda/lab01/s3-to-rds-v2/app.py:83-85 | An empty row adds nothing. |
| Mapper.TupleIsolation | Aws/Lambda/lab01/s3tords/chalicelib/services/processor.py:38-47 | Position `k` of a tuple depends on column `k` alone, and a column whose resolution raises holds `None`. |
| Mapper.ColumnSourceRule | Aws/Lambda/lab01/s3-to-rds-v2/app.py:92-98 | A `column` source past the end of the row gives `None`, even with a transform; inside the row it gives the field, transformed when asked. |
| Mapper.ConstantSourceRule | Aws/Lambda/lab01/s3tords/chalicelib/services/processor.py:57-65 | A `constant` is transformed when it is not `None` and has a `transform` key, and is returned as is otherwise. |
| Mapper.OtherSourceRules | Aws/Lambda/lab01/s3tords/chalicelib/services/processor.py:51-67 | A `function` source ignores the row; an unknown type gives `None`; a missing type raises, and the caller stores `None`. |
| Mapper.MissingSourceRule | Aws/Lambda/lab01/s3-to-rds-v2/app.py:92-112 | A missing `source` gives `None` in `process_csv` and `processar`, but abandons the row in `process_file`. |
| Mapper.OrigemRules | Aws/Lambda/lab01/lambdaS3-RDS/chalicelib/services/processador.py:45-63 | `coluna` past the end is `None`; `constante` is transformed when not `None`; `funcao` applies its tag to `None` whatever `transformacao` says, and ignores the row; other kinds give `None`. |
| Slicing.SlicesCover | Aws/Lambda/lab01/s3-to-rds-v2/app.py:140-141 | The slices `data[i:i+n]` for `i in range(0, len, n)` cover the data exactly, in order. |
| Slicing.SlicesSizes | Aws/Lambda/lab01/s3-to-rds-v2/app.py:140-141 | Every slice holds 1 to `n` tuples, and every slice but the last holds exactly `n`. |
| Slicing.SlicesCount | Aws/Lambda/lab01/s3-to-rds-v2/app.py:140-141 | There are `ceil(len(data)/n)` slices. |
| Slicing.SliceAt | Aws/Lambda/lab01/s3-to-rds-v2/app.py:140-141 | The `k`-th slice is `data[k*n : k*n+n]`, clipped at the end. |
| Batching.ZipRecordKeys | Aws/Lambda/lab01/s3-to-rds-v2/v1_leitura_py_padrao_sql/v1_leitura_py_padrao_sql.py:114-116 | `{col: v for col, v in zip(columns, row)}` has as keys the paired column names: extra values are dropped and columns without a value are absent. |
| Batching.ZipRecordAt | Aws/Lambda/lab01/s3-to-rds-v2/v1_leitura_py_padrao_sql/v1_leitura_py_padrao_sql.py:114-116 | With distinct column names, every paired column maps to the value at its own position. |
| Batching.SendSlice | Aws/Lambda/lab01/s3tords/chalicelib/services/database.py:42-44 | One pass of a batch loop: the execute of the slice, then the commit when the writer commits each batch. |
| Batching.SliceIteration | Aws/Lambda/lab01/s3-to-rds-v2/app.py:140-141 | One pass of the slice loop either moves past the slice with its calls done, or leaves the trace as the attempt of the whole remaining plan. |
| Batching.ExecuteSlices | Aws/Lambda/lab01/s3-to-rds-v2/app.py:140-141 | For a step that is not zero, the calls of the slice plan are made in order until one raises. |
| Sql.UpsertPlaceholderCount | Aws/Lambda/lab01/s3-to-rds-v2/app.py:134-138 | With names free of `%`, a positional statement holds exactly one `%s` per inserted column. |
| Sql.PercentPlaceholders | Aws/Lambda/lab01/s3-to-rds-v2/app.py:134-136 | The placeholder list holds one `%` per column. |
| Sql.UpsertUpdates | Aws/Lambda/lab01/s3-to-rds-v2/v1_leitura_py_padrao_sql/v1_leitura_py_padrao_sql.py:107-111 | Every updated column has its `col=VALUES(col)` assignment in the statement. |
| Sql.InsertNamesColumns | Aws/Lambda/lab01/s3-to-rds-v2/v1_leitura_py_padrao_sql/v1_leitura_py_padrao_sql.py:107-111 | Every column of a named-parameter insert has its `:name` placeholder. |
| Sql.MappedUpsertShape | Aws/Lambda/lab01/s3tords/chalicelib/services/database.py:32-40 | The mapped statement has one placeholder per column and updates every column. |
| Sql.UsuarioPlaceholders | Aws/Lambda/lab01/s3-to-rds/app.py:96-107 | The user statement has 7 placeholders, one per column. |
| Sql.UsuarioUpdates | Aws/Lambda/lab01/s3-to-rds/app.py:96-107 | The user statement updates every column except the key `id_usuario`. |
| Sql.DocumentoPlaceholders | Aws/Lambda/lab01/s3-to-rds/app.py:118-128 | The document statement has 6 placeholders, one per column. |
| Sql.DocumentoUpdates | Aws/Lambda/lab01/s3-to-rds/app.py:118-128 | The document statement updates every column except the key `id_documento`. |
| Store.ColumnsForUnique | Aws/Lambda/lab01/s3-to-rds-v2/app.py:131-132 | For a name carried by one table only, the column list is that table's own column names. |
| Store.ColumnsForAbsent | Aws/Lambda/lab01/s3-to-rds-v2/app.py:131-132 | For a name no table carries, the column list is empty. |
| Store.StoreTable | Aws/Lambda/lab01/s3-to-rds-v2/app.py:127-141 | One table: `if not data: continue`, then its slices, stopping at the first call that raises. |
| Store.TableIteration | Aws/Lambda/lab01/s3-to-rds-v2/app.py:127-141 | One pass of the table loop, in the invariant form the loop keeps. |
| Store.StoreTables | Aws/Lambda/lab01/s3-to-rds-v2/app.py:127-141 | The loop over `table_data.items()` makes the calls of the whole plan until one raises. |
| Store.SlicePlanSends | Aws/Lambda/lab01/s3-to-rds-v2/app.py:140-141 | The slice plan sends every tuple once, in order: positionally, or zipped with the column names. |
| Store.StorePlanSendsAll | Aws/Lambda/lab01/s3-to-rds-v2/app.py:127-141 | With a positive batch size, the positional plan sends every tuple of every table exactly once, table after table and in order. |
| Store.TablePlanSendsRecords | Aws/Lambda/lab01/s3-to-rds-v2/v1_leitura_py_padrao_sql/v1_leitura_py_padrao_sql.py:112-117 | With a positive batch size, one table's named plan sends each tuple once, zipped with that table's column names. |
| Store.StorePlanSendsRecords | Aws/Lambda/lab01/s3-to-rds-v2/v1_leitura_py_padrao_sql/v1_leitura_py_padrao_sql.py:102-117 | With a positive batch size, the named plan sends every tuple of every table once, as a record, table after table. |
| Store.SliceSizes | Aws/Lambda/lab01/s3-to-rds-v2/app.py:140-141 | Every slice of a table holds 1 to `n` tuples, and there are `ceil(len/n)` of them. |
| Store.StorePlanNegative | Aws/Lambda/lab01/s3-to-rds-v2/app.py:140 | A negative batch size makes `range` empty, so nothing is sent. |
| Store.StorePlanNoCommit | Aws/Lambda/lab01/s3-to-rds-v2/app.py:127-144 | The plan holds executes only; the writer commits once, after it. |
| Store.SlicePlanExecs | Aws/Lambda/lab01/s3-to-rds/app.py:112-115 | Without per-slice commits, the plan has exactly one execute per slice, in order. |
| CommitOnce.Abandon | Aws/Lambda/lab01/s3-to-rds-v2/app.py:147-154 | After a raising call: roll back, then close. |
| CommitOnce.CommitAndClose | Aws/Lambda/lab01/s3-to-rds-v2/app.py:144-154 | The commit and the close, with a rollback between them when the commit raised. |
| CommitOnce.SaveSession | Aws/Lambda/lab01/s3-to-rds-v2/app.py:122-154 | The body of `save_to_db` in an open session, as `Session` specifies. |
| CommitOnce.FinishSettles | Aws/Lambda/lab01/s3-to-rds-v2/app.py:144 | A commit that goes through makes what is pending durable; a failed one, nothing. Nothing is left pending. |
| CommitOnce.SessionSettles | Aws/Lambda/lab01/s3-to-rds-v2/app.py:122-154 | Exactly the executes of the plan become durable when the transaction returns, none when it raises, and nothing is left pending. |
| CommitOnce.SessionShape | Aws/Lambda/lab01/s3-to-rds-v2/app.py:122-154 | The transaction calls the database only. |
| CommitOnce.ZeroBatch | Aws/Lambda/lab01/s3-to-rds-v2/app.py:140 | A zero batch size raises as soon as a table has rows, and is rolled back; with no rows, the empty transaction commits. |
| CommitEach.RollbackAndClose | Aws/Lambda/lab01/s3tords/chalicelib/services/database.py:47-53 | After a raising call: roll back, close the cursor, close the connection. |
| CommitEach.BulkUpsert | Aws/Lambda/lab01/s3tords/chalicelib/services/database.py:26-53 | `bulk_upsert` makes the calls `UpsertRun` specifies and returns its value. |
| CommitEach.SendTable | Aws/Lambda/lab01/s3tords/chalicelib/services/database.py:29-53 | The `try` and `finally` of `bulk_upsert`, once connected. |
| CommitEach.Committed | Aws/Lambda/lab01/s3tords/chalicelib/services/database.py:42-44 | The number of leading slices whose execute and commit both went through, at most the number of slices. |
| CommitEach.CommitEachSettles | Aws/Lambda/lab01/s3tords/chalicelib/services/database.py:42-53 | Committing each batch: the batches committed before the first raising call are durable and nothing else is; the loop completes exactly when every batch was committed. |
| CommitEach.UpsertDurable | Aws/Lambda/lab01/s3tords/chalicelib/services/database.py:26-53 | One call leaves durable nothing when the connection failed or the batch size is zero, and otherwise the committed batches; it returns exactly when every batch was committed. |
| CommitEach.UpsertKeepsCommitted | Aws/Lambda/lab01/s3tords/chalicelib/services/database.py:42-50 | With a positive batch size, the tuples left in the database are the first `k` slices, `k` being those committed before the failure; after a successful call, all of the data in order. |
| CommitEach.UpsertShape | Aws/Lambda/lab01/s3tords/chalicelib/services/database.py:26-53 | A connection failure is the only call and raises the connecting DatabaseError. Once connected, the cursor and the connection are closed last, after a rollback when the call raises, and the error carries the persisting context. |
| CommitEach.EmptyData | Aws/Lambda/lab01/s3tords/chalicelib/services/database.py:26-53 | With no data and a non-zero step, no execute and no commit is issued. |
| CommitEach.UpsertSettled | Aws/Lambda/lab01/s3tords/chalicelib/services/database.py:51-53 | One upsert leaves nothing pending. |
| CommitEach.FirstTable | Aws/Lambda/lab01/s3tords/chalicelib/lambda_function.py:37 | `next(t for t in mapping if t['name'] == name)`: a table of that name, taken from the mapping. |
| CommitEach.FirstTableFound | Aws/Lambda/lab01/s3tords/chalicelib/lambda_function.py:37 | The search finds a table exactly when the name is mapped, and then returns the first table of that name. |
| CommitEach.UpsertTable | Aws/Lambda/lab01/s3tords/chalicelib/lambda_function.py:33-38 | One pass of the table loop makes the calls of that table's run. |
| CommitEach.EachTableLoop | Aws/Lambda/lab01/s3tords/chalicelib/lambda_function.py:33-38 | The loop over the tables stops at the first table that raises. |
| CommitEach.UpsertTables | Aws/Lambda/lab01/s3tords/chalicelib/lambda_function.py:33-38 | The upserts of every table of the mapped data, as `TablesRun` specifies. |
| CommitEach.UnmappedTableStops | Aws/Lambda/lab01/s3tords/chalicelib/lambda_function.py:37 | A table with tuples but no mapping raises StopIteration before any call. |
| CommitEach.MappedTableRaises | Aws/Lambda/lab01/s3tords/chalicelib/services/database.py:47-50 | The upsert of a mapped table raises only a DatabaseError. |
| CommitEach.MappedTablesRaise | Aws/Lambda/lab01/s3tords/chalicelib/lambda_function.py:33-56 | When every table is mapped, the loop raises only a ProcessingError. |
| CommitEach.EachTableRaisesOnly | Aws/Lambda/lab01/lambdaS3-RDS/chalicelib/services/db.py:71-81 | The table loop raises only errors that some table can raise. |
| CommitEach.EachTableDurable | Aws/Lambda/lab01/s3tords/chalicelib/lambda_function.py:33-38 | A table that raises takes back nothing the tables before it committed: the loop leaves durable what each table's run does. |
| CommitEach.TablesDurable | Aws/Lambda/lab01/s3tords/chalicelib/lambda_function.py:33-38 | The loop leaves durable, for each table it reaches, that table's committed slices, whatever a later table does. |
| CommitEach.TableDurable | Aws/Lambda/lab01/s3tords/chalicelib/services/database.py:26-53 | One table's share: its committed slices under its own statement, or nothing when the connection failed or the step is zero. |
| PipelineV2.ConnectFailureAsWritten | Aws/Lambda/lab01/s3-to-rds-v2/app.py:124-151 | As written, a refused connection raises NameError (`conn` unbound) instead of the connection error. |
| PipelineV2.AsWrittenOnlyRenamesError | Aws/Lambda/lab01/s3-to-rds-v2/app.py:122-154 | The code as written and the corrected one make the same calls and differ only in the error a failed connection raises. |
| PipelineV2.SaveToDb | Aws/Lambda/lab01/s3-to-rds-v2/app.py:122-154 | `save_to_db`, corrected as the finding below says: it makes the calls `SaveRun` specifies and returns its value. |
| PipelineV2.SaveAllOrNothing | Aws/Lambda/lab01/s3-to-rds-v2/app.py:122-154 | One transaction for all tables: on return exactly the executes of every table are durable, on an exception none is, and nothing is left pending. |
| PipelineV2.SaveSendsEverything | Aws/Lambda/lab01/s3-to-rds-v2/app.py:127-144 | With a positive batch size, a successful save makes every tuple of every table durable, table after table; a negative one sends nothing and still commits. |
| PipelineV2.ZeroBatch | Aws/Lambda/lab01/s3-to-rds-v2/app.py:140-151 | A zero batch size raises as soon as a table has rows, after the connect, and rolls back; with no rows the empty session commits. |
| PipelineV2.SaveEventsShape | Aws/Lambda/lab01/s3-to-rds-v2/app.py:122-154 | `save_to_db` calls the database only. |
| PipelineV2.MoveToError | Aws/Lambda/lab01/s3-to-rds-v2/app.py:187-204 | The `except` branch of `handle_s3_file`, as `ErrorPath` specifies. |
| PipelineV2.MoveToProcessed | Aws/Lambda/lab01/s3-to-rds-v2/app.py:174-186 | The move to the processed key and the success answer, as `MoveStage` specifies. |
| PipelineV2.SaveAndMove | Aws/Lambda/lab01/s3-to-rds-v2/app.py:168-186 | The corrected save and the move after the read, as `AfterRead` specifies. |
| PipelineV2.AfterReadAsWritten | Aws/Lambda/lab01/s3-to-rds-v2/app.py:122-204 | Over `save_to_db` as written, the handler after the read makes the same calls and gives the same answer; only a refused connection is answered with the unbound-variable error where the corrected one answers with the client error. |
| PipelineV2.ProcessContent | Aws/Lambda/lab01/s3-to-rds-v2/app.py:168-186 | Mapping the content, then the corrected save and the move. |
| PipelineV2.HandleS3File | Aws/Lambda/lab01/s3-to-rds-v2/app.py:159-204 | `handle_s3_file` over the corrected save makes the calls `HandleRun` specifies and returns its answer. |
| PipelineV2.HandleRunCases | Aws/Lambda/lab01/s3-to-rds-v2/app.py:163-204 | A failed read goes straight to the error path; a successful one goes on to the mapping, the save and the move. |
| PipelineV2.ErrorPathShape | Aws/Lambda/lab01/s3-to-rds-v2/app.py:187-204 | The error path starts with the copy, touches S3 only, deletes only after a successful copy, and answers with the failure under the original key. |
| PipelineV2.ErrorPathReported | Aws/Lambda/lab01/s3-to-rds-v2/app.py:187-204 | The error path keeps the handler's promise: it answers a failure under the original key, never raises and deletes only after a successful copy. |
| PipelineV2.MoveStageShape | Aws/Lambda/lab01/s3-to-rds-v2/app.py:174-186 | The success answer reports the counts given and `key.replace(input, processed)`, after moving the file there; a failure names the original key. |
| PipelineV2.AfterSaveShape | Aws/Lambda/lab01/s3-to-rds-v2/app.py:171-204 | After the save, the run keeps the handler's promise, and it answers success only when the save returned, with the counts of the mapped data. |
| PipelineV2.HandleOutcome | Aws/Lambda/lab01/s3-to-rds-v2/app.py:159-204 | `handle_s3_file` never raises and never deletes the file without first copying it. A failure names the original key; a success names the processed key and ends with the move there. |
| PipelineV2.HandleDurable | Aws/Lambda/lab01/s3-to-rds-v2/app.py:159-204 | After a failed read nothing is durable. Otherwise exactly the save's executes are durable when it returned and nothing when it raised; a success answer implies the save returned. |
| PipelineV2.TableCount | Aws/Lambda/lab01/s3-to-rds-v2/app.py:182-186 | A table that takes every row reports one tuple per non-empty row. |
| PipelineV2.TwoTableCounts | Aws/Lambda/lab01/s3-to-rds-v2/app.py:182-186 | Two differently named tables that both take every row each report the number of non-empty rows. |
| PipelineV2.ShippedCounts | Aws/Lambda/lab01/s3-to-rds-v2/app.py:32-55 | With the shipped mapping, both tables report the number of non-empty rows. |
| PipelineV2.ShippedRuleTuple | Aws/Lambda/lab01/s3-to-rds-v2/app.py:32-43 | The product-rule tuple of a row of eight fields: fields 4, 7, 7, the flag `S`, the converted field 2, the clock and the fixed user. |
| PipelineV2.ShippedCharacteristicTuple | Aws/Lambda/lab01/s3-to-rds-v2/app.py:44-55 | The characteristic tuple: field 4, the indicator code of field 0, field 1, the clock and the fixed user. |
| PipelineV1Sql.SaveToDb | Aws/Lambda/lab01/s3-to-rds-v2/v1_leitura_py_padrao_sql/v1_leitura_py_padrao_sql.py:97-127 | `save_to_db` over a SQLAlchemy session makes the calls `SaveRun` specifies. |
| PipelineV1Sql.SaveAllOrNothing | Aws/Lambda/lab01/s3-to-rds-v2/v1_leitura_py_padrao_sql/v1_leitura_py_padrao_sql.py:97-127 | On return exactly the executes of every table are durable, on an exception none is, and nothing is left pending. |
| PipelineV1Sql.SaveSendsRecords | Aws/Lambda/lab01/s3-to-rds-v2/v1_leitura_py_padrao_sql/v1_leitura_py_padrao_sql.py:102-119 | With a positive batch size, every tuple of every table is made durable once, as the record that zips it with its table's column names; a negative one sends nothing and still commits. |
| PipelineV1Sql.ZeroBatch | Aws/Lambda/lab01/s3-to-rds-v2/v1_leitura_py_padrao_sql/v1_leitura_py_padrao_sql.py:112-125 | A zero batch size raises as soon as a table has rows, and is rolled back; with no rows the empty session commits. |
| PipelineV1Sql.MoveToError | Aws/Lambda/lab01/s3-to-rds-v2/v1_leitura_py_padrao_sql/v1_leitura_py_padrao_sql.py:170-191 | The `except` branch: the move to the error key, its failure swallowed, and the error answer. |
| PipelineV1Sql.CopyToProcessed | Aws/Lambda/lab01/s3-to-rds-v2/v1_leitura_py_padrao_sql/v1_leitura_py_padrao_sql.py:154-168 | A copy to the processed key, without a delete. |
| PipelineV1Sql.ProcessS3File | Aws/Lambda/lab01/s3-to-rds-v2/v1_leitura_py_padrao_sql/v1_leitura_py_padrao_sql.py:131-191 | `process_s3_file` makes the calls `ProcessRun` specifies. |
| PipelineV1Sql.ProcessRunFails | Aws/Lambda/lab01/s3-to-rds-v2/v1_leitura_py_padrao_sql/v1_leitura_py_padrao_sql.py:131-191 | The run never raises, reports every file as a failure under its original key, and deletes only right after a copy that went through. |
| PipelineV1Sql.CopiedToBoth | Aws/Lambda/lab01/s3-to-rds-v2/v1_leitura_py_padrao_sql/v1_leitura_py_padrao_sql.py:145-191 | When no call fails on a dotted file under the input folder, it is copied to the stamped processed key, then to the error key and deleted: it ends up in both folders and is reported with NameError. |
| PipelineV1Sql.OutsideUntouched | Aws/Lambda/lab01/s3-to-rds-v2/v1_leitura_py_padrao_sql/v1_leitura_py_padrao_sql.py:135-140 | A key outside the input folder is answered without any call. |
| PipelineV1Sql.HandleRecords | Aws/Lambda/lab01/s3-to-rds-v2/v1_leitura_py_padrao_sql/v1_leitura_py_padrao_sql.py:202-209 | The loop over the records processes each record's file in turn. |
| PipelineV1Sql.LambdaHandler | Aws/Lambda/lab01/s3-to-rds-v2/v1_leitura_py_padrao_sql/v1_leitura_py_padrao_sql.py:196-214 | `lambda_handler` makes the calls `HandlerRun` specifies and answers its status. |
| ReadAndMove.MoveToError | Aws/Lambda/lab01/s3-to-rds-v2/v1_leitura_py_padrao/v1.1.py:66-87 | The `except` branch: the move to the error key, its failure swallowed, and the error answer. |
| ReadAndMove.MoveToProcessed | Aws/Lambda/lab01/s3-to-rds-v2/v1_leitura_py_padrao/v1.1.py:47-64 | The copy and delete to the new key, and the success answer with the content length. |
| ReadAndMove.ReadAndMoveFile | Aws/Lambda/lab01/s3-to-rds-v2/v1_leitura_py_padrao/v1.1.py:17-87 | `read_and_move_s3_file` makes the calls `ReadRun` specifies. |
| ReadAndMove.MoveStageShape | Aws/Lambda/lab01/s3-to-rds-v2/v1_leitura_py_padrao/v1.1.py:52-64 | A move answer reports the content length and the new key after moving the file there; a failure names the original key. |
| ReadAndMove.ReadRunPromised | Aws/Lambda/lab01/s3-to-rds-v2/v1_leitura_py_padrao/v1.1.py:17-87 | Every run never raises, deletes only after a copy that went through, and answers with the new key on success and with the original key on failure. |
| ReadAndMove.OutsideUntouched | Aws/Lambda/lab01/s3-to-rds-v2/v1_leitura_py_padrao/v1.1.py:22-27 | A key outside the input folder is answered without any call. |
| ReadAndMove.DotlessToError | Aws/Lambda/lab01/s3-to-rds-v2/v1_leitura_py_padrao/v1.1.py:41-44 | A dotless file name fails the rename after the read with IndexError, and the file is moved to the error key. |
| ReadAndMove.ShippedMove | Aws/Lambda/lab01/s3-to-rds-v2/v1_leitura_py_padrao/v1.1.py:29-64 | When nothing fails, `entrada/stem.ext` is read and moved to `processados/stem_<YYYYMMDD_HHMMSS>.ext`, and the answer reports the content's length. |
| ReadAndMove.HandleRecords | Aws/Lambda/lab01/s3-to-rds-v2/v1_leitura_py_padrao/v1.1.py:96-103 | The loop over the records processes each record's file in turn. |
| ReadAndMove.LambdaHandler | Aws/Lambda/lab01/s3-to-rds-v2/v1_leitura_py_padrao/v1.1.py:90-108 | `lambda_handler` makes the calls `HandlerRun` specifies and answers its status. |
| Notifications.RecordsStatus | Aws/Lambda/lab01/s3-to-rds-v2/v1_leitura_py_padrao/v1.1.py:96-108 | The handler answers 200 exactly when every record names its bucket and key; otherwise it raises KeyError. |
| Notifications.CollectLength | Aws/Lambda/lab01/s3tords/chalicelib/lambda_function.py:19-47 | A loop that returns has one result per record. |
| Notifications.CollectRaises | Aws/Lambda/lab01/s3tords/chalicelib/lambda_function.py:21-56 | The loop raises only what the run of some record raises. |
| Notifications.CollectTotal | Aws/Lambda/lab01/lambdaS3-RDS/chalicelib/lambda_function.py:25-38 | When no record's run can raise, the loop returns one result per record, the first being the first record's. |
| FixedLayout.ParseRows | Aws/Lambda/lab01/s3-to-rds/app.py:173-210 | `parse_csv_content` appends one user and one document tuple per row of at least eight fields, and skips the others. |
| FixedLayout.KeptMembers | Aws/Lambda/lab01/s3-to-rds/app.py:184 | Exactly the rows with at least eight fields are kept. |
| FixedLayout.KeptConcat | Aws/Lambda/lab01/s3-to-rds/app.py:182-204 | Keeping rows preserves their order. |
| FixedLayout.ParsedLengths | Aws/Lambda/lab01/s3-to-rds/app.py:182-204 | The two lists are as long as the kept rows. |
| FixedLayout.ParsedPairs | Aws/Lambda/lab01/s3-to-rds/app.py:182-204 | The `k`-th user and document tuples come from the `k`-th kept row: 7 and 6 values, and the document's user is the user's id. |
| FixedLayout.ParsedAt | Aws/Lambda/lab01/s3-to-rds/app.py:184-202 | The `k`-th user and document tuples are those built from the `k`-th row of at least eight fields. |
| FixedLayout.NarrowRowSkipped | Aws/Lambda/lab01/rds-generico/app.py:62-101 | A row with fewer than eight fields adds nothing. |
| FixedLayout.DataIniFallback | Aws/Lambda/lab01/rds-generico/app.py:48-54 | The date column falls back to the clock in s3-to-rds and to the field itself in rds-generico; both reorder a `d.m.y` field. |
| FixedLayout.ProcessInBatches | Aws/Lambda/lab01/rds-generico/app.py:104-107 | `executemany` on consecutive slices of `n` tuples until one raises; a zero step raises before any call. |
| FixedLayout.Abandon | Aws/Lambda/lab01/s3-to-rds/app.py:141-150 | After a raising call: close the cursor, roll back, close the connection. |
| FixedLayout.Finish | Aws/Lambda/lab01/s3-to-rds/app.py:138-150 | The commit and the close, returning the count exactly when the commit went through. |
| FixedLayout.SendBoth | Aws/Lambda/lab01/s3-to-rds/app.py:112-136 | The users loop, then the documents loop, stopping at the first raising call. |
| FixedLayout.Transaction | Aws/Lambda/lab01/s3-to-rds/app.py:94-150 | The cursor block and its exits, as `CursorBlock` specifies. |
| FixedLayout.Import | Aws/Lambda/lab01/s3-to-rds/app.py:87-150 | `process_data`: the connection and the cursor block, as `ImportRun` specifies. |
| FixedLayout.ImportPlanSends | Aws/Lambda/lab01/s3-to-rds/app.py:112-136 | For a positive step, the plan sends every user tuple, then every document tuple, each once and in order, in calls of 1 to `n` tuples under its table's statement. |
| FixedLayout.CursorBlockSettles | Aws/Lambda/lab01/s3-to-rds/app.py:94-150 | The executes are durable when the block returns, none when it raises, and no transaction is left open. |
| FixedLayout.CursorBlockCloses | Aws/Lambda/lab01/s3-to-rds/app.py:141-150 | The last call closes the connection, a rollback is issued exactly when the block raises, and only the database is called. |
| FixedLayout.ImportSettles | Aws/Lambda/lab01/rds-generico/app.py:111-159 | Exactly the executes of the plan are durable when the import returns, none when it raises, and nothing is left pending. |
| FixedLayout.ImportCloses | Aws/Lambda/lab01/rds-generico/app.py:111-159 | A failed connection is the only call; once connected the connection is closed last and a rollback is issued exactly when the import raises. |
| RdsCsvProcessor.Relocate | Aws/Lambda/lab01/s3-to-rds/app.py:67-81 | The move to the processed key, answering success with the count and the new key exactly when both calls went through. |
| RdsCsvProcessor.ImportFile | Aws/Lambda/lab01/s3-to-rds/app.py:60-63 | The parse and the import of a content that was read. |
| RdsCsvProcessor.ImportAndMove | Aws/Lambda/lab01/s3-to-rds/app.py:60-81 | The import, then the move. |
| RdsCsvProcessor.Handle | Aws/Lambda/lab01/s3-to-rds/app.py:45-84 | `lambda_handler` makes the calls `HandlerRun` specifies, re-raising any failure. |
| RdsCsvProcessor.HandleS3Event | Aws/Lambda/lab01/s3-to-rds/app.py:212-223 | `handle_s3_event` runs the handler on the event's key and passes its result or exception on. |
| RdsCsvProcessor.AfterImportShape | Aws/Lambda/lab01/s3-to-rds/app.py:63-84 | After the import: success exactly when the import returned and both calls of the move went through. A failed import raises its own error. The original is deleted only after its copy went through. |
| RdsCsvProcessor.ProcessedKeyOf | Aws/Lambda/lab01/s3-to-rds/app.py:67 | `replace(input, processed, 1)` on a key under `entrada/` puts the rest of the key under `processados/`. |
| RdsCsvProcessor.ProcessedKeyOutside | Aws/Lambda/lab01/s3-to-rds/app.py:67 | A key that does not mention the input folder is kept. |
| RdsCsvProcessor.FileImportFacts | Aws/Lambda/lab01/s3-to-rds/app.py:60-63 | The import counts the rows with at least eight fields, calls the database only and leaves nothing pending. |
| RdsCsvProcessor.HandlerOutcome | Aws/Lambda/lab01/s3-to-rds/app.py:45-84 | The handler returns exactly when the read, the import and the move went through, reporting the import's count and the processed key; a failing handler never has the original deleted. |
| RdsCsvProcessor.HandlerDurable | Aws/Lambda/lab01/s3-to-rds/app.py:45-84 | What the handler leaves in the database is what its import left, whether or not the move succeeds. |
| RdsGenerico.HandleError | Aws/Lambda/lab01/rds-generico/app.py:187-193 | `_handle_error` answers 500 with `success: False`, the error and the message. |
| RdsGenerico.ImportCsvData | Aws/Lambda/lab01/rds-generico/app.py:111-159 | `import_csv_data` makes the calls `ImportCsvDataRun` specifies. |
| RdsGenerico.ImportCsv | Aws/Lambda/lab01/rds-generico/app.py:165-185 | The `/import` route: the read, then the import, with every exception turned into an answer. |
| RdsGenerico.ImportCsvDataOutcome | Aws/Lambda/lab01/rds-generico/app.py:111-159 | It returns the number of rows with at least eight fields exactly when the import was committed. User tuples then document tuples are durable; when it raises, nothing is. |
| RdsGenerico.ImportCsvAnswers | Aws/Lambda/lab01/rds-generico/app.py:165-193 | The route always answers. It reports the count, bucket and key exactly when the read and the import went through; otherwise a 500 with the exception raised. |
| S3tordsPipeline.GetFile | Aws/Lambda/lab01/s3tords/chalicelib/services/storage.py:11-21 | `get_file` makes the calls `GetRun` specifies. |
| S3tordsPipeline.MoveFile | Aws/Lambda/lab01/s3tords/chalicelib/services/storage.py:23-40 | `move_file` makes the calls `MoveRun` specifies. |
| S3tordsPipeline.GetOutside | Aws/Lambda/lab01/s3tords/chalicelib/services/storage.py:14-15 | A key outside the input prefix is refused without a read, with the InvalidFileError inside a StorageError. |
| S3tordsPipeline.GetInside | Aws/Lambda/lab01/s3tords/chalicelib/services/storage.py:17-21 | A key under the input prefix is read once; a failed read is a StorageError. |
| S3tordsPipeline.MoveRunShape | Aws/Lambda/lab01/s3tords/chalicelib/services/storage.py:23-40 | The move copies before it deletes, issues no delete after a failed copy, and returns the new key exactly when both calls went through. |
| S3tordsPipeline.RecoverFile | Aws/Lambda/lab01/s3tords/chalicelib/lambda_function.py:49-56 | The `except ProcessingError` branch: the move to the error prefix and the failed result. |
| S3tordsPipeline.FinishFile | Aws/Lambda/lab01/s3tords/chalicelib/lambda_function.py:41-47 | The move to the processed prefix and the success result. |
| S3tordsPipeline.MoveAfterSave | Aws/Lambda/lab01/s3tords/chalicelib/lambda_function.py:33-56 | The move after the upserts, or the `except` for the error they raised. |
| S3tordsPipeline.SaveAndMove | Aws/Lambda/lab01/s3tords/chalicelib/lambda_function.py:30-56 | The mapping, the upserts and the move after the read. |
| S3tordsPipeline.ProcessFile | Aws/Lambda/lab01/s3tords/chalicelib/lambda_function.py:26-56 | The `try` block for one record. |
| S3tordsPipeline.HandleRecords | Aws/Lambda/lab01/s3tords/chalicelib/lambda_function.py:19-56 | The loop over `event['Records']`, collecting the results. |
| S3tordsPipeline.LambdaHandler | Aws/Lambda/lab01/s3tords/chalicelib/lambda_function.py:9-65 | `lambda_handler` makes the calls `HandlerRun` specifies and returns the summary. |
| S3tordsPipeline.SummaryCounts | Aws/Lambda/lab01/s3tords/chalicelib/lambda_function.py:58-65 | The processed and failed counts add up to the number of results. |
| S3tordsPipeline.HandlerCounts | Aws/Lambda/lab01/s3tords/chalicelib/lambda_function.py:19-65 | A handler that returns reports one result per record, with counts that add up. |
| S3tordsPipeline.RecoverReports | Aws/Lambda/lab01/s3tords/chalicelib/lambda_function.py:49-56 | The failed result names the error key and the ProcessingError it was moved for; only a failed error move raises. |
| S3tordsPipeline.RecoverRaises | Aws/Lambda/lab01/s3tords/chalicelib/lambda_function.py:49-56 | The error move raises only a StorageError from the move itself. |
| S3tordsPipeline.FinishSucceeds | Aws/Lambda/lab01/s3tords/chalicelib/lambda_function.py:41-47 | The move after the upserts reports success exactly when both of its calls went through, under the processed key and with the counts given. |
| S3tordsPipeline.UpsertsCaught | Aws/Lambda/lab01/s3tords/chalicelib/lambda_function.py:33-56 | Every error the upserts raise for mapped data is a ProcessingError, which the `except` catches. |
| S3tordsPipeline.OutsideMovedToError | Aws/Lambda/lab01/s3tords/chalicelib/lambda_function.py:27-56 | A file outside the input prefix is not read: it is moved to the error prefix and reported with the InvalidFileError inside a StorageError. |
| S3tordsPipeline.FileRunCatches | Aws/Lambda/lab01/s3tords/chalicelib/lambda_function.py:21-56 | Every failure of a file is reported in its result, except a failure of the error move that follows. |
| S3tordsPipeline.SucceededFile | Aws/Lambda/lab01/s3tords/chalicelib/lambda_function.py:21-47 | A file reported as processed was read from under the input prefix, had its upserts return, and reports the counts of the mapped data under the processed key. |
| S3tordsPipeline.HandlerRaises | Aws/Lambda/lab01/s3tords/chalicelib/lambda_function.py:9-65 | The handler raises only a KeyError or the StorageError of a failed move to the error prefix. |
| LambdaS3Rds.Conectar | Aws/Lambda/lab01/lambdaS3-RDS/chalicelib/services/db.py:11-32 | `conectar` of the base class or of the MySQL manager, as `ConectarRun` specifies. |
| LambdaS3Rds.InserirLote | Aws/Lambda/lab01/lambdaS3-RDS/chalicelib/services/db.py:34-61 | `inserir_lote` makes the calls `InserirLoteRun` specifies. |
| LambdaS3Rds.BaseManagerRaises | Aws/Lambda/lab01/lambdaS3-RDS/chalicelib/services/db.py:6-17 | The abstract manager makes no call and raises NotImplementedError. |
| LambdaS3Rds.InserirLoteConnectsFirst | Aws/Lambda/lab01/lambdaS3-RDS/chalicelib/services/db.py:34-38 | `inserir_lote` starts with `conectar`; a refused connection is the whole run, with the error `conectar` raised. |
| LambdaS3Rds.Persistir | Aws/Lambda/lab01/lambdaS3-RDS/chalicelib/services/db.py:65-81 | `persistir` makes the calls `PersistirRun` specifies. |
| LambdaS3Rds.PersistirWraps | Aws/Lambda/lab01/lambdaS3-RDS/chalicelib/services/db.py:65-81 | A failure of `persistir` is always an ErroBancoDados around StopIteration or around an ErroBancoDados of `inserir_lote`. |
| LambdaS3Rds.PersistirUnmapped | Aws/Lambda/lab01/lambdaS3-RDS/chalicelib/services/db.py:71-74 | A first table with tuples but no mapping stops `persistir` before any call. |
| LambdaS3Rds.PersistirKeepsCommitted | Aws/Lambda/lab01/lambdaS3-RDS/chalicelib/services/db.py:65-81 | The tables written before a failure stay committed. |
| LambdaS3Rds.ValidarLocal | Aws/Lambda/lab01/lambdaS3-RDS/chalicelib/services/armazenamento.py:13-19 | `validar_local_arquivo` is True exactly for a path under the input folder, and raises ErroArquivoInvalido naming the folder otherwise. |
| LambdaS3Rds.Ler | Aws/Lambda/lab01/lambdaS3-RDS/chalicelib/services/armazenamento.py:21-47 | `ler_conteudo` makes the calls `LerRun` specifies. |
| LambdaS3Rds.Mover | Aws/Lambda/lab01/lambdaS3-RDS/chalicelib/services/armazenamento.py:25-73 | `mover_arquivo` makes the calls `MoverRun` specifies. |
| LambdaS3Rds.BaseFilesRaise | Aws/Lambda/lab01/lambdaS3-RDS/chalicelib/services/armazenamento.py:21-27 | The abstract file manager makes no call and raises NotImplementedError. |
| LambdaS3Rds.LerValidatesFirst | Aws/Lambda/lab01/lambdaS3-RDS/chalicelib/services/armazenamento.py:36-47 | A path outside the input folder is refused without a read, with the validation error inside the ErroArmazenamento; a path inside is read once. |
| LambdaS3Rds.MoveToShape | Aws/Lambda/lab01/lambdaS3-RDS/chalicelib/services/armazenamento.py:62-73 | The copy comes before the delete, and no delete follows a failed copy. The destination is returned exactly when both calls went through; a destination error is raised before any call. |
| LambdaS3Rds.MoverNeedsDot | Aws/Lambda/lab01/lambdaS3-RDS/chalicelib/services/armazenamento.py:50-62 | A dotless name raises IndexError inside the ErroArmazenamento before any call; a dotted name has its destination under the success or the error folder. |
| LambdaS3Rds.ProcessAndMove | Aws/Lambda/lab01/lambdaS3-RDS/chalicelib/lambda_function.py:60-75 | `processar` and `mover_arquivo` once the content is read. |
| LambdaS3Rds.AfterRead | Aws/Lambda/lab01/lambdaS3-RDS/chalicelib/lambda_function.py:57-75 | The part after `ler_conteudo`. |
| LambdaS3Rds.ProcessarRegistro | Aws/Lambda/lab01/lambdaS3-RDS/chalicelib/lambda_function.py:49-75 | `_processar_registro` makes the calls `RegistroRun` specifies. |
| LambdaS3Rds.HandleRecords | Aws/Lambda/lab01/lambdaS3-RDS/chalicelib/lambda_function.py:25-38 | The loop over `evento.get('Records', [])`, collecting the results. |
| LambdaS3Rds.Executar | Aws/Lambda/lab01/lambdaS3-RDS/chalicelib/lambda_function.py:21-47 | `executar` makes the calls `ExecutarRun` specifies. |
| LambdaS3Rds.OutcomeCounts | Aws/Lambda/lab01/lambdaS3-RDS/chalicelib/lambda_function.py:40-47 | The success and error counts add up to the number of results. |
| LambdaS3Rds.ExecutarTotal | Aws/Lambda/lab01/lambdaS3-RDS/chalicelib/lambda_function.py:21-47 | `executar` never raises. It answers 200 with one result per record and counts that add up; without `Records` it makes no call. |
| LambdaS3Rds.ErroCarriesKey | Aws/Lambda/lab01/lambdaS3-RDS/chalicelib/lambda_function.py:32-38 | A failed record reports the exception and the record's own key. |
| LambdaS3Rds.RegistroStorageOnly | Aws/Lambda/lab01/lambdaS3-RDS/chalicelib/lambda_function.py:62-64 | With persistence commented out, a record makes no database call. |
| LambdaS3Rds.RegistroSucceeds | Aws/Lambda/lab01/lambdaS3-RDS/chalicelib/lambda_function.py:49-75 | A successful record read the file, copied it to its destination and deleted it, and reports the destination with the counts of the content. |
| LambdaS3Rds.DestinoStamped | Aws/Lambda/lab01/lambdaS3-RDS/chalicelib/services/armazenamento.py:53-62 | A file goes to its stamped name under `processados/`; a dotless name has no destination. |
| LambdaS3Rds.CountsPerTable | Aws/Lambda/lab01/lambdaS3-RDS/chalicelib/services/processador.py:18-43 | `processar` catches every column error. With distinct table names, each table is counted with one tuple per non-empty line. |
| LeitorS3.InsertBatch | Aws/Lambda/lab01/leitorS3/chalicelib/csv_processor.py:71-79 | `_insert_batch` sends nothing for an empty batch and one execute for any other. |
| LeitorS3.InsertBatchCall | Aws/Lambda/lab01/leitorS3/chalicelib/csv_processor.py:71-79 | The method makes the calls `InsertBatch` gives. |
| LeitorS3.FlushBatch | Aws/Lambda/lab01/leitorS3/chalicelib/csv_processor.py:64-69 | The final batch, the commit and the close, as `Flush` specifies. |
| LeitorS3.ReadRow | Aws/Lambda/lab01/leitorS3/chalicelib/csv_processor.py:48-62 | The body of the row loop, as `RowStep` specifies, keeping the batch below 100. |
| LeitorS3.ProcessContent | Aws/Lambda/lab01/leitorS3/chalicelib/csv_processor.py:37-69 | `_process_content` makes the calls `ContentRun` specifies. |
| LeitorS3.ProcessRows | Aws/Lambda/lab01/leitorS3/chalicelib/csv_processor.py:39-69 | The session over the rows of the content. |
| LeitorS3.ReadRows | Aws/Lambda/lab01/leitorS3/chalicelib/csv_processor.py:48-69 | The row loop and what follows it. |
| LeitorS3.CountsAddUp | Aws/Lambda/lab01/leitorS3/chalicelib/csv_processor.py:48-58 | Every non-empty row either becomes a record or is skipped. |
| LeitorS3.RecordOfRow | Aws/Lambda/lab01/leitorS3/chalicelib/csv_processor.py:56 | A record maps every field name to the stripped value at its position, and holds no other key. |
| LeitorS3.DefaultColumnsKeep | Aws/Lambda/lab01/leitorS3/chalicelib/csv_processor.py:75-76 | Without `columns_to_insert`, filtering keeps the whole record. |
| LeitorS3.BatchPlanSends | Aws/Lambda/lab01/leitorS3/chalicelib/csv_processor.py:71-79 | One execute per non-empty batch, sending the filtered records of all batches in order. |
| LeitorS3.SessionCounts | Aws/Lambda/lab01/leitorS3/chalicelib/csv_processor.py:37-69 | On return no row was too short and every non-empty row was counted once, as processed or skipped. The calls were the session, the inserts in slices of 100, the commit and the close. |
| LeitorS3.RowsPlanSends | Aws/Lambda/lab01/leitorS3/chalicelib/csv_processor.py:47-65 | Every insert sends 1 to 100 records and only the last fewer than 100; together they send the filtered records of the rows, in order. |
| LeitorS3.SessionCloses | Aws/Lambda/lab01/leitorS3/chalicelib/csv_processor.py:39-68 | An opened session is closed on every path, the commit at most once and right before the close; a session that could not be opened is not closed. |
| LeitorS3.SessionDurable | Aws/Lambda/lab01/leitorS3/chalicelib/csv_processor.py:37-69 | When `_process_content` returns every insert is durable, when it raises none is, and nothing is left open. |
| LeitorS3.RecoverFile | Aws/Lambda/lab01/leitorS3/chalicelib/csv_processor.py:28-31 | The `except` branch of `process_file`, as `Recover` specifies. |
| LeitorS3.Conclude | Aws/Lambda/lab01/leitorS3/chalicelib/csv_processor.py:18-31 | The part of `process_file` after `_process_content`. |
| LeitorS3.ProcessFile | Aws/Lambda/lab01/leitorS3/chalicelib/csv_processor.py:15-31 | `process_file` makes the calls `FileRun` specifies. |
| LeitorS3.KeysOf | Aws/Lambda/lab01/leitorS3/chalicelib/csv_processor.py:20-30 | A key under `entrada/` goes to the same name under `processados/`, or under `erros/`. |
| LeitorS3.RecoverShape | Aws/Lambda/lab01/leitorS3/chalicelib/csv_processor.py:28-31 | The error move raises the original exception when it goes through and its own otherwise; it deletes only after a successful copy. |
| LeitorS3.FileOutcome | Aws/Lambda/lab01/leitorS3/chalicelib/csv_processor.py:15-31 | Returns exactly when the read, the processing and the move went through, with the counters. Otherwise the object was last moved towards its error key, and the processing's exception is raised. |
| LeitorS3.ReadOutcome | Aws/Lambda/lab01/leitorS3/chalicelib/csv_processor.py:18-31 | After a successful read the summary is returned exactly when the processing returned and the move went through; a processing error with a successful error move re-raises it after moving the object to the error key. |
| LeitorS3.FileSafe | Aws/Lambda/lab01/leitorS3/chalicelib/csv_processor.py:15-31 | The object is deleted only after a successful copy, and the database keeps what the processing left, whatever happens to the object. |
| LeitorS3.StrandedCopy | Aws/Lambda/lab01/leitorS3/chalicelib/csv_processor.py:20-31 | When the processed copy goes through but its delete raises, the object is copied to the error key too: it exists under both keys, and the handler raises. |
| FileProcessor.ProcessCsvFile | Aws/Lambda/lab01/lambda-file-processor/app.py:69-107 | `process_csv_file` appends the record of every kept row, as `ProcessCsv` specifies. |
| FileProcessor.ProcessedConcat | Aws/Lambda/lab01/lambda-file-processor/app.py:81-97 | The records of two stretches of rows follow one another: row order is kept. |
| FileProcessor.ProcessedRows | Aws/Lambda/lab01/lambda-file-processor/app.py:81-97 | The records are exactly those of the kept rows. |
| FileProcessor.RecordOfRow | Aws/Lambda/lab01/lambda-file-processor/app.py:87-95 | A kept row's record has a key per header and `processed_at`, which carries the stamp. Each header maps to the value at its own position, and a `valor` is not blank. |
| FileProcessor.HeaderNormal | Aws/Lambda/lab01/lambda-file-processor/app.py:73-77 | Every header name is stripped and in lower case over the Latin-1 range (a header `DESCRIÇÃO` becomes `descrição`): lowering it again changes nothing. |
| FileProcessor.ProcessCsvRaises | Aws/Lambda/lab01/lambda-file-processor/app.py:73-107 | The processing raises ValueError exactly when the content has no line, and nothing else. |
| FileProcessor.RecoverFile | Aws/Lambda/lab01/lambda-file-processor/app.py:56-67 | The `except` branch of `handle_new_file`. |
| FileProcessor.ShipFile | Aws/Lambda/lab01/lambda-file-processor/app.py:46-55 | `move_file` to the dated destination and the success answer. |
| FileProcessor.PublishTable | Aws/Lambda/lab01/lambda-file-processor/app.py:42-55 | `upload_report`, then `move_file`. |
| FileProcessor.HandleNewFile | Aws/Lambda/lab01/lambda-file-processor/app.py:18-67 | `handle_new_file` makes the calls `HandleRun` specifies. |
| FileProcessor.NonCsvUntouched | Aws/Lambda/lab01/lambda-file-processor/app.py:23-29 | A key that does not end in `.csv`, in any case, is skipped without any call. |
| FileProcessor.CsvAnyCase | Aws/Lambda/lab01/lambda-file-processor/app.py:23 | A key is processed exactly when it ends in a dot followed by `c`, `s` and `v`, each small or capital. |
| FileProcessor.RecoverPromised | Aws/Lambda/lab01/lambda-file-processor/app.py:56-67 | The error move answers the failure with the dated error key exactly when both calls went through, and raises otherwise. |
| FileProcessor.AfterReadPromised | Aws/Lambda/lab01/lambda-file-processor/app.py:39-67 | After a successful read: success exactly when the processing, the upload and the move went through. |
| FileProcessor.HandleOutcome | Aws/Lambda/lab01/lambda-file-processor/app.py:18-67 | Success exactly when read, processing, report upload and move all went through, with the destination and the record count. Otherwise the object goes to its dated error key or that move raised. Deletes follow a successful copy. |
| FileProcessor.EmptyToError | Aws/Lambda/lab01/lambda-file-processor/app.py:73-77 | A CSV object without any line is moved to its error key and answered with the ValueError, when nothing else fails. |
| FileProcessor.StrandedCopy | Aws/Lambda/lab01/lambda-file-processor/app.py:46-67 | When the destination copy goes through but its delete raises, the object is copied to the error key too: it exists under both keys, and the answer is a failure. |

## Left out

- **Clock.** The clock is one `Instant` per invocation. Python reads `datetime.now()` afresh
  at each call, so two stamps within one run may differ; the model gives them one value.
- **Client and driver calls that never fail in the model:** rollback, cursor close and
  connection close. Cursor creation, and `is_connected()` (always taken as true), are not
  separate calls.
- **Decoding and the CSV dialect.**
  - A UTF-8 decode failure is not modelled: every object body is a string.
  - The CSV reader is modelled without quoting, escaping or embedded line breaks: a line is
    split at the delimiter.
  - `csv.Error` is folded into `ValueError`.
- **Report content.** `generate_processing_report` and the CSV serialisation of the report
  are not modelled; `upload_report` is a `Put` that may fail.
- Text.Upper: Python's `str.upper()` is modelled for the Latin-1 range only. Other characters are left unchanged, although Python also maps them: `ſ` becomes `S`, and some characters become several.
- Text.Lower: Python's `str.lower()` is modelled for the Latin-1 range only. Other capitals are left unchanged, although Python lowers them: `Ÿ` becomes `ÿ`, and `İ` becomes two characters.
- FileProcessor.ProcessCsvFile: the record keys are the headers lowered over the Latin-1 range. A header with a capital outside Latin-1 (Greek or Cyrillic, say) keeps that capital in the model, where Python lowers it.
- FileProcessor.HeaderNormal: "in lower case" is meant over the Latin-1 range, as for `Text.Lower`.
- FileProcessor.CsvAnyCase: stated for the model's lowering. It also holds under Python's full mapping, since no character outside ASCII lowers to `.`, `c`, `s` or `v`; the model itself does not establish this.
- PipelineV2.SaveToDb, PipelineV2.SaveAndMove, PipelineV2.ProcessContent, PipelineV2.HandleS3File: these model `save_to_db` with the correction of the finding below. As written, a refused connection makes the handler answer with an UnboundLocalError rather than the client error. `PipelineV2.AfterReadAsWritten` proves that everything else is the same.
- **Logging** (`logger`, `app.log`, `print`) has no effect in the model.
- **Environment and configuration.** `os.environ` lookups, `get_config` and the connection
  parameters are inputs. The v2 mapping is modelled as given in `get_config`.
- **Chalice and Lambda wiring.** The decorators the handlers are registered with and the
  `index` route of rds-generico are outside the model.
- **The storage and database classes as objects.** They become functions over `Env`. The
  leitorS3 `get_session` is a fallible `Connect`.
- **Exception text.** `str(e)` is kept as the error value itself, and messages built with
  f-strings are not modelled character by character.
- **SQL semantics.** The database engine itself is not modelled. A statement is its text
  and its parameters; `ON DUPLICATE KEY UPDATE` semantics, and whether the statement parses,
  are not.
- **rds-generico `parse_csv_content`.** Its `row[3]` and `row[6]` conversions feed nothing,
  so the model computes only the values that reach a tuple.
- **The per-row `try` of s3-to-rds `parse_csv_content`.** Nothing inside it can raise on
  rows of eight or more fields, so it is not modelled.
- **leitorS3 `field_count`.** It is taken as an integer.
- **LambdaS3Rds.ProcessarRegistro:** the bucket it reads from the record is not used, since
  the file manager is bound to one bucket.
- **Awaiting persistence.** lambdaS3-RDS `_processar_registro` has its `persistir` call
  commented out. The model follows the code (`LambdaS3Rds.RegistroStorageOnly`) and models
  `persistir` separately.
- **v1.py.** `s3-to-rds-v2/v1_leitura_py_padrao/v1.py` is not part of this model; the v1.1
  file that replaces it is.
- **The test file** `s3-to-rds-v2/tests/test_app.py` is not part of this model.

## Findings

| source | as written | input that shows it | evidently intended | confidence | as-written member | corrected member |
|---|---|---|---|---|---|---|
| Aws/Lambda/lab01/s3-to-rds-v2/app.py:124-151 | `conn` is assigned by `mysql.connector.connect(**config['db'])` inside the `try`, and the `except` branch tests `if conn:`. | `mysql.connector.connect` raises, for example because the database refuses the connection. The `except` then reads the unbound `conn` and raises an UnboundLocalError (a NameError) in place of the connection error; the `finally` at line 153 reads it again and raises the same. | `conn = None` before the `try`, as `s3-to-rds/app.py:88` does, so the connection error is logged and re-raised. | not executed | PipelineV2.ConnectFailureAsWritten | PipelineV2.SaveAllOrNothing |
