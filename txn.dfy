/** What a database session makes durable.  The statements executed since
    the last commit are pending; a commit makes them durable, while a
    rollback, closing the connection or opening a new one discards them
    (the driver's connections do not autocommit).  A call that raises has no
    effect on the session. */
module Transactions {
  import opened Effects

  /** The executes that the commits among `events` make durable, given the
      executes already pending. */
  function Settle(w: World, pos: nat, events: seq<Event>, pending: seq<Event>): seq<Event>
    decreases |events|
  {
    if events == [] then []
    else
      var e := events[0];
      if Fails(w, pos, e) then Settle(w, pos + 1, events[1..], pending)
      else if e.Exec? then Settle(w, pos + 1, events[1..], pending + [e])
      else if e.Commit? then pending + Settle(w, pos + 1, events[1..], [])
      else if e.Rollback? || e.Close? || e.Connect? then Settle(w, pos + 1, events[1..], [])
      else Settle(w, pos + 1, events[1..], pending)
  }

  /** The executes of a run that reached the database for good. */
  function Durable(w: World, pos: nat, events: seq<Event>): seq<Event> {
    Settle(w, pos, events, [])
  }

  predicate AllExec(events: seq<Event>) {
    forall i :: 0 <= i < |events| ==> events[i].Exec?
  }

  /** Executes that go through join the pending ones. */
  lemma {:induction false} SettleExecs(w: World, pos: nat, execs: seq<Event>, rest: seq<Event>, pending: seq<Event>)
    requires AllExec(execs) && Completes(w, pos, execs)
    ensures Settle(w, pos, execs + rest, pending) == Settle(w, pos + |execs|, rest, pending + execs)
    decreases |execs|
  {
    if execs == [] {
      assert execs + rest == rest;
      assert pending + execs == pending;
    } else {
      assert (execs + rest)[0] == execs[0];
      assert (execs + rest)[1..] == execs[1..] + rest;
      SettleExecs(w, pos + 1, execs[1..], rest, pending + [execs[0]]);
      assert pending + [execs[0]] + execs[1..] == pending + execs;
    }
  }

  /** Whatever executes went through before a rollback, none is durable. */
  lemma {:induction false} SettleDiscard(w: World, pos: nat, execs: seq<Event>, rest: seq<Event>, pending: seq<Event>)
    requires AllExec(execs)
    ensures Settle(w, pos, execs + [Rollback] + rest, pending) == Settle(w, pos + |execs| + 1, rest, [])
    decreases |execs|
  {
    if execs == [] {
      assert execs + [Rollback] + rest == [Rollback] + rest;
      assert ([Rollback] + rest)[1..] == rest;
    } else {
      assert (execs + [Rollback] + rest)[0] == execs[0];
      assert (execs + [Rollback] + rest)[1..] == execs[1..] + [Rollback] + rest;
      var e := execs[0];
      var next := if Fails(w, pos, e) then pending else pending + [e];
      SettleDiscard(w, pos + 1, execs[1..], rest, next);
    }
  }

  /** The calls made of a plan of executes are executes. */
  lemma AttemptAllExec(w: World, pos: nat, plan: seq<Event>)
    requires AllExec(plan)
    ensures AllExec(Attempt(w, pos, plan))
  {
    AttemptShape(w, pos, plan);
  }

  /** Closing after a commit leaves nothing more durable. */
  lemma CloseSettles(w: World, pos: nat, pending: seq<Event>)
    ensures Settle(w, pos, [Close], pending) == []
  {
    assert [Close][1..] == [];
  }

  /** The executes still pending after `events`. */
  function PendingAfter(w: World, pos: nat, events: seq<Event>, pending: seq<Event>): seq<Event>
    decreases |events|
  {
    if events == [] then pending
    else
      var e := events[0];
      if Fails(w, pos, e) then PendingAfter(w, pos + 1, events[1..], pending)
      else if e.Exec? then PendingAfter(w, pos + 1, events[1..], pending + [e])
      else if e.Commit? || e.Rollback? || e.Close? || e.Connect? then PendingAfter(w, pos + 1, events[1..], [])
      else PendingAfter(w, pos + 1, events[1..], pending)
  }

  /** Settling two pieces of a run one after the other. */
  lemma {:induction false} SettleConcat(w: World, pos: nat, a: seq<Event>, b: seq<Event>, pending: seq<Event>)
    ensures Settle(w, pos, a + b, pending)
      == Settle(w, pos, a, pending) + Settle(w, pos + |a|, b, PendingAfter(w, pos, a, pending))
    ensures PendingAfter(w, pos, a + b, pending) == PendingAfter(w, pos + |a|, b, PendingAfter(w, pos, a, pending))
    decreases |a|
  {
    if a == [] {
      assert a + b == b;
    } else {
      assert (a + b)[0] == a[0];
      assert (a + b)[1..] == a[1..] + b;
      var e := a[0];
      var next := if Fails(w, pos, e) then pending
                  else if e.Exec? then pending + [e]
                  else if e.Commit? || e.Rollback? || e.Close? || e.Connect? then []
                  else pending;
      SettleConcat(w, pos + 1, a[1..], b, next);
    }
  }

  /** Calls that are not about the database leave the session alone. */
  predicate Outside(events: seq<Event>) {
    forall i :: 0 <= i < |events| ==> events[i].Get? || events[i].Copy? || events[i].Delete? || events[i].Put?
  }

  lemma OutsideConcat(a: seq<Event>, b: seq<Event>)
    requires Outside(a) && Outside(b)
    ensures Outside(a + b)
  {
    assert forall i :: 0 <= i < |a| ==> (a + b)[i] == a[i];
    assert forall i :: |a| <= i < |a + b| ==> (a + b)[i] == b[i - |a|];
  }

  /** Database calls only, at least one. */
  predicate DatabaseOnly(events: seq<Event>) {
    |events| > 0 && forall i :: 0 <= i < |events| ==> !events[i].Get? && !events[i].Copy? && !events[i].Delete? && !events[i].Put?
  }

  lemma {:induction false} OutsideSettles(w: World, pos: nat, events: seq<Event>, pending: seq<Event>)
    requires Outside(events)
    ensures Settle(w, pos, events, pending) == []
    ensures PendingAfter(w, pos, events, pending) == pending
    decreases |events|
  {
    if events != [] {
      OutsideSettles(w, pos + 1, events[1..], pending);
    }
  }

  /** A session that ends by closing leaves nothing pending. */
  lemma ClosedSession(w: World, pos: nat, events: seq<Event>, pending: seq<Event>)
    ensures PendingAfter(w, pos, events + [Close], pending) == []
    ensures Settle(w, pos, events + [Close], pending) == Settle(w, pos, events, pending)
  {
    SettleConcat(w, pos, events, [Close], pending);
    assert [Close][1..] == [];
  }

  /** Calls outside the database before and after a piece of a run leave
      durable exactly what that piece does, when it leaves nothing pending. */
  lemma DurableBetween(w: World, pos: nat, pre: seq<Event>, mid: seq<Event>, post: seq<Event>)
    requires Outside(pre) && Outside(post) && PendingAfter(w, pos + |pre|, mid, []) == []
    ensures Durable(w, pos, pre + (mid + post)) == Durable(w, pos + |pre|, mid)
  {
    SettleConcat(w, pos, pre, mid + post, []);
    OutsideSettles(w, pos, pre, []);
    SettleConcat(w, pos + |pre|, mid, post, []);
    OutsideSettles(w, pos + |pre| + |mid|, post, []);
  }

  /** Calls outside the database after a piece of a run that leaves
      nothing pending change nothing durable. */
  lemma DurableThenOutside(w: World, pos: nat, a: seq<Event>, b: seq<Event>)
    requires Outside(b) && PendingAfter(w, pos, a, []) == []
    ensures Durable(w, pos, a + b) == Durable(w, pos, a)
  {
    SettleConcat(w, pos, a, b, []);
    OutsideSettles(w, pos + |a|, b, []);
    assert Durable(w, pos, a) + [] == Durable(w, pos, a);
  }
}
