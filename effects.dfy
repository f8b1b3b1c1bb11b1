/** The collaborators of the pipelines (the S3 client, a database connection
    with its cursor or session) seen as one recorder of calls.  Every call is
    appended to a trace; which calls raise is fixed in advance by a `World`,
    so a pipeline's behaviour is a function of its inputs and the world. */
module Effects {
  import opened Values
  import opened Sql

  /** The parameters of one `executemany`/`execute` call: positional tuples
      (`%s` placeholders), tuples turned into name-to-value records by
      pairing them with column names (`:name` placeholders), or a list of
      such records built by the caller. */
  datatype Params =
    | Positional(rows: seq<seq<Cell>>)
    | Named(columns: seq<string>, rows: seq<seq<Cell>>)
    | Dicts(records: seq<map<string, Cell>>)

  datatype Event =
    | Get(key: string)                        // s3.get_object(...)['Body'].read()
    | Copy(src: string, dst: string)          // s3.copy_object(CopySource=src, Key=dst)
    | Delete(key: string)                     // s3.delete_object(Key=key)
    | Put(key: string)                        // s3.put_object of a generated report
    | Connect                                 // opening a connection (and its cursor)
    | Exec(query: Query, params: Params)      // cursor.executemany / session.execute
    | Commit
    | Rollback
    | CloseCursor
    | Close

  /** Which positions of the trace raise, and what each successful read
      returns (an absent position reads as the empty object). */
  datatype World = World(fail: set<nat>, bodies: map<nat, string>)

  /** Rolling back and closing are taken never to raise. */
  predicate Fallible(e: Event) {
    !(e.Rollback? || e.CloseCursor? || e.Close?)
  }

  /** The call `e`, issued as the `pos`-th call of the run, raises. */
  predicate Fails(w: World, pos: nat, e: Event) {
    Fallible(e) && pos in w.fail
  }

  /** What a successful read at position `pos` returns. */
  function Body(w: World, pos: nat): string {
    if pos in w.bodies then w.bodies[pos] else ""
  }

  /** The outcome of reading at position `pos`. */
  function ReadAt(w: World, pos: nat): Result<string> {
    if pos in w.fail then Err(ClientError) else Ok(Body(w, pos))
  }

  /** Issuing the calls of `plan` one after the other and stopping at the
      first one that raises: the calls that were actually made. */
  function Attempt(w: World, pos: nat, plan: seq<Event>): seq<Event>
    decreases |plan|
  {
    if plan == [] then []
    else if Fails(w, pos, plan[0]) then [plan[0]]
    else [plan[0]] + Attempt(w, pos + 1, plan[1..])
  }

  /** No call of `plan` raises. */
  predicate Completes(w: World, pos: nat, plan: seq<Event>)
    decreases |plan|
  {
    plan == [] || (!Fails(w, pos, plan[0]) && Completes(w, pos + 1, plan[1..]))
  }

  /** The work a pipeline performed and what it returned or raised. */
  datatype Run<T> = Run(events: seq<Event>, value: Result<T>)

  /** Calls made before a run. */
  function Then<T>(events: seq<Event>, r: Run<T>): Run<T> {
    Run(events + r.events, r.value)
  }

  /** Calls made in two stretches. */
  lemma ThenAssoc<T>(a: seq<Event>, b: seq<Event>, r: Run<T>)
    ensures Then(a, Then(b, r)) == Then(a + b, r)
  {
    Assoc(a, b, r.events);
  }

  /** The index of the first call of `plan` that raises (`|plan|` when none
      does): every call before it goes through. */
  function FirstFailure(w: World, pos: nat, plan: seq<Event>): (k: nat)
    ensures k <= |plan|
    ensures forall j :: 0 <= j < k ==> !Fails(w, pos + j, plan[j])
    ensures k < |plan| ==> Fails(w, pos + k, plan[k])
    decreases |plan|
  {
    if plan == [] || Fails(w, pos, plan[0]) then 0
    else 1 + FirstFailure(w, pos + 1, plan[1..])
  }

  /** When the calls go through, all of them are made; otherwise the calls
      made are the plan up to and including the first one that raised. */
  lemma {:induction false} AttemptShape(w: World, pos: nat, plan: seq<Event>)
    ensures Completes(w, pos, plan) <==> FirstFailure(w, pos, plan) == |plan|
    ensures Attempt(w, pos, plan) ==
      if Completes(w, pos, plan) then plan else plan[..FirstFailure(w, pos, plan) + 1]
    decreases |plan|
  {
    if plan != [] && !Fails(w, pos, plan[0]) {
      AttemptShape(w, pos + 1, plan[1..]);
      if Completes(w, pos, plan) {
        assert [plan[0]] + plan[1..] == plan;
      } else {
        var k := FirstFailure(w, pos + 1, plan[1..]);
        assert plan[..k + 2] == [plan[0]] + plan[1..][..k + 1];
      }
    }
  }

  lemma Assoc(a: seq<Event>, b: seq<Event>, c: seq<Event>)
    ensures (a + b) + c == a + (b + c)
  {
  }

  /** A plan that goes through is made in full. */
  lemma {:induction false} AttemptComplete(w: World, pos: nat, plan: seq<Event>)
    requires Completes(w, pos, plan)
    ensures Attempt(w, pos, plan) == plan
    decreases |plan|
  {
    if plan != [] {
      AttemptComplete(w, pos + 1, plan[1..]);
      assert [plan[0]] + plan[1..] == plan;
    }
  }

  /** Making the first call of a plan. */
  lemma AttemptCons(w: World, pos: nat, e: Event, rest: seq<Event>)
    ensures Attempt(w, pos, [e] + rest) == if Fails(w, pos, e) then [e] else [e] + Attempt(w, pos + 1, rest)
    ensures Completes(w, pos, [e] + rest) == (!Fails(w, pos, e) && Completes(w, pos + 1, rest))
  {
    assert ([e] + rest)[1..] == rest;
  }

  /** Running two plans back to back: the second runs exactly when the first
      completes. */
  lemma {:induction false} AttemptConcat(w: World, pos: nat, a: seq<Event>, b: seq<Event>)
    ensures Completes(w, pos, a) ==>
      Attempt(w, pos, a + b) == a + Attempt(w, pos + |a|, b)
      && (Completes(w, pos, a + b) <==> Completes(w, pos + |a|, b))
    ensures !Completes(w, pos, a) ==>
      Attempt(w, pos, a + b) == Attempt(w, pos, a) && !Completes(w, pos, a + b)
    decreases |a|
  {
    if a != [] {
      var e, tail := a[0], a[1..];
      ConsSplit(a, b);
      AttemptConcat(w, pos + 1, tail, b);
      AttemptCons(w, pos, e, tail + b);
      AttemptCons(w, pos, e, tail);
      if !Fails(w, pos, e) && Completes(w, pos + 1, tail) {
        Assoc([e], tail, Attempt(w, pos + 1 + |tail|, b));
      }
    } else {
      assert a + b == b;
    }
  }

  /** Taking the first call off a concatenation. */
  lemma ConsSplit(a: seq<Event>, b: seq<Event>)
    requires a != []
    ensures a == [a[0]] + a[1..] && a + b == [a[0]] + (a[1..] + b)
  {
  }

  /** A loop that has made the calls `done` of `plan == done + rest`
      without a failure stops with `done + Attempt(rest)`.  */
  lemma AttemptAfter(w: World, pos: nat, done: seq<Event>, rest: seq<Event>)
    requires Completes(w, pos, done)
    ensures Attempt(w, pos, done + rest) == done + Attempt(w, pos + |done|, rest)
    ensures Completes(w, pos, done + rest) == Completes(w, pos + |done|, rest)
  {
    AttemptConcat(w, pos, done, rest);
  }

  /** Calls that went through, followed by a piece that went through. */
  lemma CompletesAppend(w: World, pos: nat, done: seq<Event>, step: seq<Event>)
    requires Completes(w, pos, done) && Completes(w, pos + |done|, step)
    ensures Completes(w, pos, done + step)
  {
    AttemptConcat(w, pos, done, step);
  }

  /** A loop iteration whose piece `step` raised: the trace so far is the
      attempt of the whole plan, which does not complete. */
  lemma StepStops(w: World, t0: seq<Event>, done: seq<Event>, step: seq<Event>, rest: seq<Event>)
    requires Completes(w, |t0|, done) && !Completes(w, |t0| + |done|, step)
    ensures (t0 + done) + Attempt(w, |t0| + |done|, step) == t0 + Attempt(w, |t0|, done + (step + rest))
    ensures !Completes(w, |t0|, done + (step + rest))
  {
    AttemptAfter(w, |t0|, done, step + rest);
    AttemptConcat(w, |t0| + |done|, step, rest);
  }

  /** A loop iteration whose piece `step` went through. */
  lemma StepGoes(w: World, t0: seq<Event>, done: seq<Event>, step: seq<Event>)
    requires Completes(w, |t0|, done) && Completes(w, |t0| + |done|, step)
    ensures (t0 + done) + Attempt(w, |t0| + |done|, step) == t0 + (done + step)
    ensures Completes(w, |t0|, done + step)
  {
    AttemptComplete(w, |t0| + |done|, step);
    CompletesAppend(w, |t0|, done, step);
  }

  /** The recorder standing for the S3 client and the database driver. */
  class Env {
    const world: World
    var trace: seq<Event>

    constructor (w: World)
      ensures world == w && trace == []
    {
      world := w;
      trace := [];
    }

    /** Issue one call; `ok` is false when it raised. */
    method Call(e: Event) returns (ok: bool)
      modifies this
      ensures trace == old(trace) + [e]
      ensures ok == !Fails(world, |old(trace)|, e)
    {
      ok := !Fails(world, |trace|, e);
      trace := trace + [e];
    }

    /** `get_object(Key=key)['Body'].read()`. */
    method Read(key: string) returns (r: Result<string>)
      modifies this
      ensures trace == old(trace) + [Get(key)]
      ensures r == ReadAt(world, |old(trace)|)
    {
      r := ReadAt(world, |trace|);
      trace := trace + [Get(key)];
    }
  }
}
