/** s3-to-rds-v2/v1_leitura_py_padrao/v1.1.py: every file named by the event
    is read and moved to the processed folder under a name stamped with the
    time of the move; a failure moves it to the error folder instead.  The
    content is only measured. */
module ReadAndMove {
  import opened Values
  import opened Text
  import opened Clock
  import opened Effects
  import opened Moves
  import opened Keys
  import opened Notifications

  /** The dict `read_and_move_s3_file` returns. */
  datatype Outcome =
    | Moved(length: nat, file: string)
    | Failure(error: Error, file: string)

  /** The `except` branch: move to the error key, swallowing a failure of
      the move, and report the error with the original key. */
  function ErrorPath(w: World, p: nat, pre: Prefixes, key: string, e: Error): Run<Outcome> {
    Recovery(w, p, key, ErrorKey(pre, key), Failure(e, key))
  }

  /** Moving the file to its stamped key; a failed copy or delete falls
      into the `except` branch. */
  function MoveStage(w: World, p: nat, pre: Prefixes, key: string, newKey: string, length: nat): Run<Outcome> {
    if Completes(w, p, Move(key, newKey)) then Run(Move(key, newKey), Ok(Moved(length, newKey)))
    else
      var made := Attempt(w, p, Move(key, newKey));
      Then(made, ErrorPath(w, p + |made|, pre, key, ClientError))
  }

  /** `read_and_move_s3_file(bucket, key, config)` with `now` the clock
      reading of the rename, its first call being the `pos`-th. */
  function ReadRun(w: World, pos: nat, pre: Prefixes, key: string, now: Instant): Run<Outcome> {
    if !StartsWith(key, pre.input) then Run([], Ok(Failure(OutsideInput(pre.input), key)))
    else
      var read := ReadAt(w, pos);
      var renamed := RenamedKey(pre, key, now);
      Then([Get(key)],
        if read.Err? then ErrorPath(w, pos + 1, pre, key, read.error)
        else if renamed.Err? then ErrorPath(w, pos + 1, pre, key, renamed.error)
        else MoveStage(w, pos + 1, pre, key, renamed.value, |read.value|))
  }

  method MoveToError(env: Env, pre: Prefixes, key: string, e: Error) returns (out: Outcome)
    modifies env
    ensures env.trace == old(env.trace) + ErrorPath(env.world, |old(env.trace)|, pre, key, e).events
    ensures Ok(out) == ErrorPath(env.world, |old(env.trace)|, pre, key, e).value
  {
    var _ := MoveObject(env, key, ErrorKey(pre, key));
    out := Failure(e, key);
  }

  method MoveToProcessed(env: Env, pre: Prefixes, key: string, newKey: string, length: nat) returns (out: Outcome)
    modifies env
    ensures env.trace == old(env.trace) + MoveStage(env.world, |old(env.trace)|, pre, key, newKey, length).events
    ensures Ok(out) == MoveStage(env.world, |old(env.trace)|, pre, key, newKey, length).value
  {
    ghost var p := |env.trace|;
    MoveAttempt(env.world, p, key, newKey);
    var moved := MoveObject(env, key, newKey);
    if !moved {
      assert |env.trace| == p + |Attempt(env.world, p, Move(key, newKey))|;
      out := MoveToError(env, pre, key, ClientError);
      return;
    }
    out := Moved(length, newKey);
  }

  method ReadAndMoveFile(env: Env, pre: Prefixes, key: string, now: Instant) returns (out: Outcome)
    modifies env
    ensures env.trace == old(env.trace) + ReadRun(env.world, |old(env.trace)|, pre, key, now).events
    ensures Ok(out) == ReadRun(env.world, |old(env.trace)|, pre, key, now).value
  {
    if !StartsWith(key, pre.input) {
      return Failure(OutsideInput(pre.input), key);
    }
    ghost var t0 := env.trace;
    var read := env.Read(key);
    var renamed := RenamedKey(pre, key, now);
    ghost var mid := env.trace;
    if read.Err? {
      out := MoveToError(env, pre, key, read.error);
    } else if renamed.Err? {
      out := MoveToError(env, pre, key, renamed.error);
    } else {
      out := MoveToProcessed(env, pre, key, renamed.value, |read.value|);
    }
    Assoc(t0, [Get(key)], env.trace[|mid|..]);
  }

  // ---------------------------------------------------------------------
  // What read_and_move_s3_file promises.

  /** The run never raises and never deletes the file before a copy of it
      went through; a failure names the original key; a success names the
      stamped key, measures the content read, and is exactly the read
      followed by the move. */
  predicate Promised(w: World, pos: nat, pre: Prefixes, key: string, now: Instant, r: Run<Outcome>) {
    SafeDeletes(w, pos, r.events) && r.value.Ok?
    && (r.value.value.Failure? ==> r.value.value.file == key)
    && (r.value.value.Moved? ==>
          RenamedKey(pre, key, now) == Ok(r.value.value.file)
          && ReadAt(w, pos) == Ok(Body(w, pos)) && r.value.value.length == |Body(w, pos)|
          && r.events == [Get(key)] + Move(key, r.value.value.file))
  }


  lemma MoveStageShape(w: World, p: nat, pre: Prefixes, key: string, newKey: string, length: nat)
    ensures var r := MoveStage(w, p, pre, key, newKey, length);
      SafeDeletes(w, p, r.events) && r.value.Ok?
      && (r.value.value.Moved? ==> r.value.value == Moved(length, newKey) && r.events == Move(key, newKey))
      && (r.value.value.Failure? ==> r.value.value.file == key)
  {
    MoveAttempt(w, p, key, newKey);
    if !Completes(w, p, Move(key, newKey)) {
      var made := Attempt(w, p, Move(key, newKey));
      RecoverySafe(w, p + |made|, key, ErrorKey(pre, key), Failure(ClientError, key));
      SafeDeletesConcat(w, p, made, ErrorPath(w, p + |made|, pre, key, ClientError).events);
    }
  }


  lemma ReadRunPromised(w: World, pos: nat, pre: Prefixes, key: string, now: Instant)
    ensures Promised(w, pos, pre, key, now, ReadRun(w, pos, pre, key, now))
  {
    if StartsWith(key, pre.input) {
      var read := ReadAt(w, pos);
      var renamed := RenamedKey(pre, key, now);
      if read.Err? {
        RecoverySafe(w, pos + 1, key, ErrorKey(pre, key), Failure(read.error, key));
        ReadThenSafe(w, pos, key, ErrorPath(w, pos + 1, pre, key, read.error).events);
      } else if renamed.Err? {
        RecoverySafe(w, pos + 1, key, ErrorKey(pre, key), Failure(renamed.error, key));
        ReadThenSafe(w, pos, key, ErrorPath(w, pos + 1, pre, key, renamed.error).events);
      } else {
        MoveStageShape(w, pos + 1, pre, key, renamed.value, |read.value|);
        ReadThenSafe(w, pos, key, MoveStage(w, pos + 1, pre, key, renamed.value, |read.value|).events);
      }
    }
  }

  /** A key outside the input folder is answered without any call. */
  lemma OutsideUntouched(w: World, pos: nat, pre: Prefixes, key: string, now: Instant)
    requires !StartsWith(key, pre.input)
    ensures ReadRun(w, pos, pre, key, now) == Run([], Ok(Failure(OutsideInput(pre.input), key)))
  {
  }

  /** A dotless file name fails the rename after the read, and the file is
      moved to the error key. */
  lemma DotlessToError(w: World, pos: nat, pre: Prefixes, key: string, now: Instant)
    requires StartsWith(key, pre.input) && '.' !in Basename(key) && pos !in w.fail
    ensures ReadRun(w, pos, pre, key, now)
      == Run([Get(key)] + Attempt(w, pos + 1, Move(key, ErrorKey(pre, key))), Ok(Failure(IndexError, key)))
  {
    StampedNameNeedsDot(Basename(key), Compact(now));
  }

  /** When nothing fails, a file `stem.ext` under `entrada/` is read and moved
      to `processados/stem_<YYYYMMDD_HHMMSS>.ext`. */
  lemma ShippedMove(w: World, pos: nat, stem: string, ext: string, now: Instant)
    requires '.' !in stem && '/' !in stem && '.' !in ext && '/' !in ext
    requires pos !in w.fail && pos + 1 !in w.fail && pos + 2 !in w.fail
    ensures var key := "entrada/" + (stem + "." + ext);
      var file := "processados/" + (stem + "_" + Compact(now) + "." + ext);
      ReadRun(w, pos, Folders, key, now) == Run([Get(key), Copy(key, file), Delete(key)], Ok(Moved(|Body(w, pos)|, file)))
  {
    var key := "entrada/" + (stem + "." + ext);
    RenamedKeyLayout(stem, ext, now);
    MoveAttempt(w, pos + 1, key, "processados/" + (stem + "_" + Compact(now) + "." + ext));
  }

  // ---------------------------------------------------------------------
  // lambda_handler

  /** The run of one file, from the call it starts at. */
  function FileRun(w: World, pre: Prefixes, now: Instant): (nat, string) -> Run<Outcome> {
    (p: nat, key: string) => ReadRun(w, p, pre, key, now)
  }

  /** `file` gives the run of `read_and_move_s3_file` for every key from every
      position. */
  ghost predicate Realizes(file: (nat, string) -> Run<Outcome>, w: World, pre: Prefixes, now: Instant) {
    forall p: nat, key: string {:trigger ReadRun(w, p, pre, key, now)} :: file(p, key) == ReadRun(w, p, pre, key, now)
  }

  lemma FileRunRealizes(w: World, pre: Prefixes, now: Instant)
    ensures Realizes(FileRun(w, pre, now), w, pre, now)
  {
  }

  /** One record of the loop: the run of its file. */
  method RecordIteration(env: Env, pre: Prefixes, now: Instant, key: string, ghost file: (nat, string) -> Run<Outcome>)
    returns (ghost step: seq<Event>)
    requires Realizes(file, env.world, pre, now)
    modifies env
    ensures step == file(|old(env.trace)|, key).events
    ensures env.trace == old(env.trace) + step
  {
    ghost var r := ReadRun(env.world, |env.trace|, pre, key, now);
    var _ := ReadAndMoveFile(env, pre, key, now);
    step := r.events;
  }

  /** The loop over the records, `file` being the run of one file. */
  method HandleRecords(env: Env, pre: Prefixes, now: Instant, records: seq<Notification>, ghost file: (nat, string) -> Run<Outcome>)
    returns (status: Result<int>)
    requires Realizes(file, env.world, pre, now)
    modifies env
    ensures env.trace == old(env.trace) + RecordsRun(|old(env.trace)|, records, file).events
    ensures status == RecordsRun(|old(env.trace)|, records, file).value
  {
    ghost var t0 := env.trace;
    ghost var done: seq<Event> := [];
    assert records[0..] == records;
    var i := 0;
    while i < |records|
      invariant 0 <= i <= |records|
      invariant env.trace == t0 + done
      invariant RecordsRun(|t0|, records, file) == Then(done, RecordsRun(|t0| + |done|, records[i..], file))
      decreases |records| - i
    {
      if !WellFormed(records[i]) {
        RecordsStop(|t0| + |done|, records, i, done, file);
        return Err(KeyError);
      }
      ghost var step := RecordIteration(env, pre, now, records[i].key.value, file);
      Assoc(t0, done, step);
      RecordsNext(|t0|, records, i, done, step, file);
      done := done + step;
      i := i + 1;
    }
    RecordsDone(|t0| + |done|, records, done, file);
    status := Ok(200);
  }

  /** `lambda_handler(event, context)` with `now` the clock reading of every
      rename. */
  method LambdaHandler(env: Env, pre: Prefixes, now: Instant, event: Option<seq<Notification>>) returns (status: Result<int>)
    modifies env
    ensures env.trace == old(env.trace) + HandlerRun(|old(env.trace)|, event, FileRun(env.world, pre, now)).events
    ensures status == HandlerRun(|old(env.trace)|, event, FileRun(env.world, pre, now)).value
  {
    if event.None? {
      return Err(KeyError);
    }
    FileRunRealizes(env.world, pre, now);
    status := HandleRecords(env, pre, now, event.value, FileRun(env.world, pre, now));
  }
}
