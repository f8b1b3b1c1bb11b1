/** Sending a table's tuples to the database slice by slice: the loop
    `for i in range(0, len(data), n): cursor.executemany(query, data[i:i+n])`
    that every writer shares, optionally committing after each slice. */
module Batching {
  import opened Values
  import opened Effects
  import opened Slicing
  import opened Sql

  /** How the tuples of a slice are bound to the statement's placeholders:
      as they are (`%s`), or as records built by `dict(zip(columns, row))`
      (`:name`). */
  datatype Binding = ByPosition | ByName(columns: seq<string>)

  function Min(a: int, b: int): int {
    if a < b then a else b
  }

  /** `{col: v for col, v in zip(columns, row)}`: pairs up to the shorter of
      the two, a later duplicate column overriding an earlier one. */
  function ZipRecord<T>(columns: seq<string>, row: seq<T>): map<string, T>
    decreases |columns|
  {
    var n := Min(|columns|, |row|);
    if n == 0 then map[]
    else ZipRecord(columns[..n - 1], row[..n - 1])[columns[n - 1] := row[n - 1]]
  }

  /** The keys of the record are the paired column names: extra values are
      dropped and columns without a value are absent. */
  lemma {:induction false} ZipRecordKeys<T>(columns: seq<string>, row: seq<T>)
    ensures ZipRecord(columns, row).Keys == set i | 0 <= i < Min(|columns|, |row|) :: columns[i]
    decreases |columns|
  {
    var n := Min(|columns|, |row|);
    if n > 0 {
      ZipRecordKeys(columns[..n - 1], row[..n - 1]);
      assert Min(|columns[..n - 1]|, |row[..n - 1]|) == n - 1;
      assert forall i :: 0 <= i < n - 1 ==> columns[..n - 1][i] == columns[i];
      assert (set i | 0 <= i < n :: columns[i])
          == (set i | 0 <= i < n - 1 :: columns[i]) + {columns[n - 1]};
    }
  }

  /** With distinct column names, each column paired with a value maps to
      the value at its own position. */
  lemma {:induction false} ZipRecordAt<T>(columns: seq<string>, row: seq<T>, i: nat)
    requires forall a, b :: 0 <= a < b < |columns| ==> columns[a] != columns[b]
    requires i < Min(|columns|, |row|)
    ensures columns[i] in ZipRecord(columns, row) && ZipRecord(columns, row)[columns[i]] == row[i]
    decreases |columns|
  {
    var n := Min(|columns|, |row|);
    if i < n - 1 {
      assert Min(|columns[..n - 1]|, |row[..n - 1]|) == n - 1;
      ZipRecordAt(columns[..n - 1], row[..n - 1], i);
      assert columns[i] != columns[n - 1];
    }
  }

  /** The parameters of one `executemany` for one slice. */
  function Bind(binding: Binding, batch: seq<seq<Cell>>): Params {
    match binding
    case ByPosition => Positional(batch)
    case ByName(columns) => Named(columns, batch)
  }

  /** The calls the loop makes over the given slices when none raises. */
  function SlicePlan(statement: Query, binding: Binding, slices: seq<seq<seq<Cell>>>, commitEach: bool): seq<Event>
    decreases |slices|
  {
    if slices == [] then []
    else [Exec(statement, Bind(binding, slices[0]))] + (if commitEach then [Commit] else [])
         + SlicePlan(statement, binding, slices[1..], commitEach)
  }

  /** Taking the next slice off the data that is left. */
  lemma SlicesStep(data: seq<seq<Cell>>, i: nat, n: nat)
    requires n > 0 && i < |data|
    ensures var end := Min(i + n, |data|);
      Slices(data[i..], n) == [data[i..end]] + Slices(data[end..], n)
  {
    var end := Min(i + n, |data|);
    if |data[i..]| > n {
      assert data[i..][..n] == data[i..end];
      assert data[i..][n..] == data[end..];
    } else {
      assert data[i..] == data[i..end];
      assert data[end..] == [];
    }
  }

  lemma PlanStep(statement: Query, binding: Binding, batch: seq<seq<Cell>>, slices: seq<seq<seq<Cell>>>, commitEach: bool)
    ensures SlicePlan(statement, binding, [batch] + slices, commitEach)
      == [Exec(statement, Bind(binding, batch))] + (if commitEach then [Commit] else [])
         + SlicePlan(statement, binding, slices, commitEach)
  {
    assert ([batch] + slices)[1..] == slices;
  }

  /** The calls made for one slice. */
  function SliceStep(exec: Event, commitEach: bool): seq<Event> {
    [exec] + (if commitEach then [Commit] else [])
  }

  /** One iteration of the loop: execute the slice, then commit if asked. */
  method SendSlice(env: Env, exec: Event, commitEach: bool) returns (ok: bool)
    modifies env
    ensures env.trace == old(env.trace) + Attempt(env.world, |old(env.trace)|, SliceStep(exec, commitEach))
    ensures ok == Completes(env.world, |old(env.trace)|, SliceStep(exec, commitEach))
  {
    var tail: seq<Event> := if commitEach then [Commit] else [];
    AttemptCons(env.world, |env.trace|, exec, tail);
    AttemptCons(env.world, |env.trace| + 1, Commit, []);
    ok := env.Call(exec);
    if ok && commitEach {
      ok := env.Call(Commit);
    }
  }

  /** The calls for the slices of `data[i..]`. */
  function PlanFrom(statement: Query, binding: Binding, data: seq<seq<Cell>>, i: nat, n: nat, commitEach: bool): seq<Event>
    requires n > 0 && i <= |data|
  {
    SlicePlan(statement, binding, Slices(data[i..], n), commitEach)
  }

  /** One pass of the slice loop, made after the calls `done` went through:
      either the slice's calls go through and the loop moves on to `end`, or
      one raises and the trace is the attempt of the whole remaining plan. */
  method SliceIteration(env: Env, statement: Query, binding: Binding, data: seq<seq<Cell>>, i: nat, n: nat,
                        commitEach: bool, ghost t0: seq<Event>, ghost done: seq<Event>)
    returns (ok: bool, end: nat, ghost step: seq<Event>)
    requires n > 0 && i < |data|
    requires env.trace == t0 + done && Completes(env.world, |t0|, done)
    modifies env
    ensures i < end <= |data|
    ensures ok ==>
      env.trace == t0 + (done + step) && Completes(env.world, |t0|, done + step)
      && PlanFrom(statement, binding, data, i, n, commitEach) == step + PlanFrom(statement, binding, data, end, n, commitEach)
    ensures !ok ==>
      env.trace == t0 + Attempt(env.world, |t0|, done + PlanFrom(statement, binding, data, i, n, commitEach))
      && !Completes(env.world, |t0|, done + PlanFrom(statement, binding, data, i, n, commitEach))
  {
    end := Min(i + n, |data|);
    var exec := Exec(statement, Bind(binding, data[i..end]));
    ghost var w := env.world;
    ghost var rest := PlanFrom(statement, binding, data, end, n, commitEach);
    step := SliceStep(exec, commitEach);
    SlicesStep(data, i, n);
    PlanStep(statement, binding, data[i..end], Slices(data[end..], n), commitEach);
    assert PlanFrom(statement, binding, data, i, n, commitEach) == step + rest;
    ok := SendSlice(env, exec, commitEach);
    if !ok {
      StepStops(w, t0, done, step, rest);
    } else {
      StepGoes(w, t0, done, step);
    }
  }

  /** The slice loop for a step the caller has checked not to be zero: the
      calls of the plan are made in order until one raises. */
  method ExecuteSlices(env: Env, statement: Query, binding: Binding, data: seq<seq<Cell>>, n: int, commitEach: bool)
    returns (ok: bool)
    requires n != 0
    modifies env
    ensures env.trace == old(env.trace)
      + Attempt(env.world, |old(env.trace)|, SlicePlan(statement, binding, SlicesOf(data, n), commitEach))
    ensures ok == Completes(env.world, |old(env.trace)|, SlicePlan(statement, binding, SlicesOf(data, n), commitEach))
  {
    if n < 0 {
      return true;
    }
    ghost var t0 := env.trace;
    ghost var plan := PlanFrom(statement, binding, data, 0, n, commitEach);
    assert data[0..] == data;
    ghost var done: seq<Event> := [];
    var i := 0;
    while i < |data|
      invariant 0 <= i <= |data|
      invariant env.trace == t0 + done && Completes(env.world, |t0|, done)
      invariant plan == done + PlanFrom(statement, binding, data, i, n, commitEach)
      decreases |data| - i
    {
      var end;
      ghost var step;
      ok, end, step := SliceIteration(env, statement, binding, data, i, n, commitEach, t0, done);
      if !ok {
        return;
      }
      Assoc(done, step, PlanFrom(statement, binding, data, end, n, commitEach));
      done := done + step;
      i := end;
    }
    assert data[i..] == [];
    assert plan == done;
    AttemptComplete(env.world, |t0|, plan);
    ok := true;
  }
}
