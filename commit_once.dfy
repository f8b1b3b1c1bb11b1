/** The `save_to_db` of both s3-to-rds-v2 scripts once the connection or
    session is at hand: every table with rows is sent slice by slice inside
    one transaction, committed once at the end; any raising call is rolled
    back and re-raised, and the connection is closed on every exit. */
module CommitOnce {
  import opened Values
  import opened Effects
  import opened Sql
  import opened Mapper
  import opened Store
  import opened Transactions

  /** What the table loop writes to: the schema that qualifies the table
      names, the placeholder style, the mapping that gives each table its
      columns, and the batch size. */
  datatype Writer = Writer(schema: string, style: Style, tables: seq<Table>, batch: int)

  /** The executes of the table loop; a zero step makes none. */
  function SaveBody(wr: Writer, td: TableData): seq<Event> {
    if wr.batch == 0 then [] else StorePlan(wr.schema, wr.style, wr.tables, td, td.names, wr.batch)
  }

  /** `commit()` as the `pos`-th call, then `finally: close()`; a failed
      commit is rolled back and re-raised. */
  function Finish(w: World, pos: nat): Run<bool> {
    if pos in w.fail then Run([Commit, Rollback, Close], Err(ClientError)) else Run([Commit, Close], Ok(true))
  }

  /** The transaction, its next call being the `p`-th: a raising call,
      including `range()` with a zero step once a table has rows, rolls back,
      re-raises and closes; otherwise the whole is committed. */
  function Session(w: World, p: nat, wr: Writer, td: TableData): Run<bool> {
    var body := SaveBody(wr, td);
    if !Completes(w, p, body) then Run(Attempt(w, p, body) + [Rollback, Close], Err(ClientError))
    else if wr.batch == 0 && AnyRows(td, td.names) then Run([Rollback, Close], Err(RangeError))
    else Then(body, Finish(w, p + |body|))
  }

  /** Rolling back and closing after a raising call. */
  method Abandon(env: Env)
    modifies env
    ensures env.trace == old(env.trace) + [Rollback, Close]
  {
    var _ := env.Call(Rollback);
    var _ := env.Call(Close);
  }

  method CommitAndClose(env: Env) returns (r: Result<bool>)
    modifies env
    ensures env.trace == old(env.trace) + Finish(env.world, |old(env.trace)|).events
    ensures r == Finish(env.world, |old(env.trace)|).value
  {
    var ok := env.Call(Commit);
    if !ok {
      Abandon(env);
      return Err(ClientError);
    }
    var _ := env.Call(Close);
    r := Ok(true);
  }

  method SaveSession(env: Env, wr: Writer, td: TableData) returns (r: Result<bool>)
    modifies env
    ensures env.trace == old(env.trace) + Session(env.world, |old(env.trace)|, wr, td).events
    ensures r == Session(env.world, |old(env.trace)|, wr, td).value
  {
    ghost var w := env.world;
    ghost var t0 := env.trace;
    ghost var body := SaveBody(wr, td);
    if wr.batch == 0 {
      AttemptComplete(w, |t0|, []);
      if AnyRows(td, td.names) {
        Abandon(env);
        return Err(RangeError);
      }
    } else {
      var ok := StoreTables(env, wr.schema, wr.style, wr.tables, td, wr.batch);
      if !ok {
        Abandon(env);
        return Err(ClientError);
      }
      AttemptComplete(w, |t0|, body);
    }
    assert env.trace == t0 + body;
    r := CommitAndClose(env);
  }

  // ---------------------------------------------------------------------
  // What the transaction leaves in the database.

  lemma SaveBodyExecs(wr: Writer, td: TableData)
    ensures AllExec(SaveBody(wr, td))
  {
    if wr.batch != 0 {
      StorePlanNoCommit(wr.schema, wr.style, wr.tables, td, td.names, wr.batch);
    }
  }

  /** The commit makes what is pending durable; a failed one, nothing. */
  lemma FinishSettles(w: World, pos: nat, pending: seq<Event>)
    ensures Settle(w, pos, Finish(w, pos).events, pending) == if pos in w.fail then [] else pending
    ensures PendingAfter(w, pos, Finish(w, pos).events, pending) == []
  {
    var e := Finish(w, pos).events;
    assert e[1..][1..] == e[2..];
    if pos in w.fail {
      assert e[2..][1..] == [];
    } else {
      assert e[2..] == [];
    }
  }

  /** Executes followed by a rollback and the close leave nothing durable. */
  lemma AbandonSettles(w: World, p: nat, made: seq<Event>)
    requires AllExec(made)
    ensures Settle(w, p, made + [Rollback, Close], []) == []
    ensures PendingAfter(w, p, made + [Rollback, Close], []) == []
  {
    assert made + [Rollback, Close] == made + [Rollback] + [Close];
    SettleDiscard(w, p, made, [Close], []);
    ClosedSession(w, p, made + [Rollback], []);
    CloseSettles(w, p + |made| + 1, []);
  }

  /** Executes that went through followed by the commit: all of them are
      durable unless the commit raised. */
  lemma CommitSettles(w: World, p: nat, body: seq<Event>)
    requires AllExec(body) && Completes(w, p, body)
    ensures Settle(w, p, body + Finish(w, p + |body|).events, [])
      == if p + |body| in w.fail then [] else body
    ensures PendingAfter(w, p, body + Finish(w, p + |body|).events, []) == []
  {
    var fin := Finish(w, p + |body|);
    SettleExecs(w, p, body, fin.events, []);
    SettleConcat(w, p, body, fin.events, []);
    FinishSettles(w, p + |body|, body);
    assert [] + body == body;
  }

  /** Exactly the executes of the plan become durable when the transaction
      returns, none when it raises, and nothing is left pending. */
  lemma SessionSettles(w: World, p: nat, wr: Writer, td: TableData)
    ensures var r := Session(w, p, wr, td);
      Settle(w, p, r.events, []) == (if r.value.Ok? then SaveBody(wr, td) else [])
      && PendingAfter(w, p, r.events, []) == []
  {
    var body := SaveBody(wr, td);
    SaveBodyExecs(wr, td);
    if !Completes(w, p, body) {
      AttemptAllExec(w, p, body);
      AbandonSettles(w, p, Attempt(w, p, body));
    } else if wr.batch == 0 && AnyRows(td, td.names) {
      AbandonSettles(w, p, []);
      assert [] + [Rollback, Close] == [Rollback, Close];
    } else {
      CommitSettles(w, p, body);
    }
  }

  /** The calls of the transaction are database calls only, at least one. */
  lemma SessionShape(w: World, p: nat, wr: Writer, td: TableData)
    ensures DatabaseOnly(Session(w, p, wr, td).events)
  {
    var body := SaveBody(wr, td);
    SaveBodyExecs(wr, td);
    AttemptAllExec(w, p, body);
    var s := Session(w, p, wr, td);
    if !Completes(w, p, body) {
    } else if wr.batch == 0 && AnyRows(td, td.names) {
    } else {
      assert s.events == body + Finish(w, p + |body|).events;
    }
  }

  /** A zero batch size fails as soon as a table has rows; with no rows the
      empty transaction commits. */
  lemma ZeroBatch(w: World, p: nat, wr: Writer, td: TableData)
    requires wr.batch == 0
    ensures AnyRows(td, td.names) ==> Session(w, p, wr, td) == Run([Rollback, Close], Err(RangeError))
    ensures !AnyRows(td, td.names) && p !in w.fail ==> Session(w, p, wr, td) == Run([Commit, Close], Ok(true))
  {
  }
}
