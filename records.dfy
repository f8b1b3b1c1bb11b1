/** The loop of the Lambda handlers over `event['Records']`: each S3
    notification names a bucket and a key, and the handler processes the
    files one after the other. */
module Notifications {
  import opened Values
  import opened Effects

  /** One entry of an S3 event's `Records` as the handlers read it:
      `record['s3']['bucket']['name']` and `record['s3']['object']['key']`,
      either of which may be missing. */
  datatype Notification = Notification(bucket: Option<string>, key: Option<string>)

  predicate WellFormed(n: Notification) {
    n.bucket.Some? && n.key.Some?
  }

  /** The records from the `pos`-th call, `file(p, key)` being the run of one
      file whose first call is the `p`-th: the files in order, answering 200
      at the end; a record without its bucket or key raises KeyError there. */
  function RecordsRun<T>(pos: nat, records: seq<Notification>, file: (nat, string) -> Run<T>): Run<int>
    decreases |records|
  {
    if records == [] then Run([], Ok(200))
    else if !WellFormed(records[0]) then Run([], Err(KeyError))
    else
      var r := file(pos, records[0].key.value);
      Then(r.events, RecordsRun(pos + |r.events|, records[1..], file))
  }

  /** The handler: the status code, or the KeyError of an event without
      `Records`. */
  function HandlerRun<T>(pos: nat, event: Option<seq<Notification>>, file: (nat, string) -> Run<T>): Run<int> {
    if event.None? then Run([], Err(KeyError)) else RecordsRun(pos, event.value, file)
  }

  /** Processing the records from the `i`-th. */
  lemma RecordsStep<T>(pos: nat, records: seq<Notification>, i: nat, file: (nat, string) -> Run<T>)
    requires i < |records| && WellFormed(records[i])
    ensures var r := file(pos, records[i].key.value);
      RecordsRun(pos, records[i..], file) == Then(r.events, RecordsRun(pos + |r.events|, records[i + 1..], file))
  {
    assert records[i..][1..] == records[i + 1..];
  }

  /** The loop invariant carried past one more record, whose file made the
      calls `step`. */
  lemma RecordsNext<T>(pos: nat, records: seq<Notification>, i: nat, done: seq<Event>, step: seq<Event>,
                       file: (nat, string) -> Run<T>)
    requires i < |records| && WellFormed(records[i])
    requires step == file(pos + |done|, records[i].key.value).events
    requires RecordsRun(pos, records, file) == Then(done, RecordsRun(pos + |done|, records[i..], file))
    ensures RecordsRun(pos, records, file) == Then(done + step, RecordsRun(pos + |done + step|, records[i + 1..], file))
  {
    RecordsStep(pos + |done|, records, i, file);
    ThenAssoc(done, step, RecordsRun(pos + |done + step|, records[i + 1..], file));
  }

  /** Nothing is left once every record was processed. */
  lemma RecordsDone<T>(pos: nat, records: seq<Notification>, done: seq<Event>, file: (nat, string) -> Run<T>)
    ensures Then(done, RecordsRun(pos, records[|records|..], file)) == Run(done, Ok(200))
  {
    assert records[|records|..] == [];
    assert done + [] == done;
  }

  /** A malformed record stops the loop where it stands. */
  lemma RecordsStop<T>(pos: nat, records: seq<Notification>, i: nat, done: seq<Event>, file: (nat, string) -> Run<T>)
    requires i < |records| && !WellFormed(records[i])
    ensures Then(done, RecordsRun(pos, records[i..], file)) == Run(done, Err(KeyError))
  {
    assert done + [] == done;
  }

  /** The handler answers 200 exactly when the event has `Records` and every
      record names its bucket and key; otherwise it raises KeyError. */
  lemma {:induction false} RecordsStatus<T>(pos: nat, records: seq<Notification>, file: (nat, string) -> Run<T>)
    ensures RecordsRun(pos, records, file).value == Ok(200)
      <==> forall i :: 0 <= i < |records| ==> WellFormed(records[i])
    ensures RecordsRun(pos, records, file).value.Err? ==> RecordsRun(pos, records, file).value == Err(KeyError)
    decreases |records|
  {
    if records != [] && WellFormed(records[0]) {
      var r := file(pos, records[0].key.value);
      RecordsStatus(pos + |r.events|, records[1..], file);
      assert forall i :: 1 <= i < |records| ==> records[i] == records[1..][i - 1];
    }
  }

  // ---------------------------------------------------------------------
  // Handlers that collect one result per record.

  /** Prepending the calls of a record and its results to the run of the
      records after it. */
  function Prepend<T>(events: seq<Event>, results: seq<T>, r: Run<seq<T>>): Run<seq<T>> {
    Run(events + r.events, if r.value.Ok? then Ok(results + r.value.value) else Err(r.value.error))
  }

  /** Nothing prepended. */
  lemma PrependNothing<T>(r: Run<seq<T>>)
    ensures Prepend([], [], r) == r
  {
    assert [] + r.events == r.events;
    if r.value.Ok? {
      assert [] + r.value.value == r.value.value;
    }
  }

  /** The records from the `pos`-th call, `item(p, n)` being the run of one
      record whose first call is the `p`-th: the results in record order;
      a record whose run raises ends the loop and the handler with that
      exception. */
  function CollectRun<T>(pos: nat, records: seq<Notification>, item: (nat, Notification) -> Run<T>): Run<seq<T>>
    decreases |records|
  {
    if records == [] then Run([], Ok([]))
    else
      var r := item(pos, records[0]);
      if r.value.Err? then Run(r.events, Err(r.value.error))
      else Prepend(r.events, [r.value.value], CollectRun(pos + |r.events|, records[1..], item))
  }

  /** The loop invariant carried past a record whose run made the calls
      `step` and returned. */
  lemma CollectNext<T>(pos: nat, records: seq<Notification>, i: nat, done: seq<Event>, results: seq<T>,
                       step: seq<Event>, item: (nat, Notification) -> Run<T>)
    requires i < |records|
    requires step == item(pos + |done|, records[i]).events && item(pos + |done|, records[i]).value.Ok?
    requires CollectRun(pos, records, item) == Prepend(done, results, CollectRun(pos + |done|, records[i..], item))
    ensures CollectRun(pos, records, item)
      == Prepend(done + step, results + [item(pos + |done|, records[i]).value.value],
                 CollectRun(pos + |done + step|, records[i + 1..], item))
  {
    var v := item(pos + |done|, records[i]).value.value;
    var rest := CollectRun(pos + |done + step|, records[i + 1..], item);
    assert records[i..][1..] == records[i + 1..];
    assert CollectRun(pos + |done|, records[i..], item) == Prepend(step, [v], rest);
    Assoc(done, step, rest.events);
    if rest.value.Ok? {
      assert results + ([v] + rest.value.value) == (results + [v]) + rest.value.value;
    }
  }

  /** A record whose run raised ends the loop. */
  lemma CollectRaise<T>(pos: nat, records: seq<Notification>, i: nat, done: seq<Event>, results: seq<T>,
                        item: (nat, Notification) -> Run<T>)
    requires i < |records| && item(pos + |done|, records[i]).value.Err?
    ensures Prepend(done, results, CollectRun(pos + |done|, records[i..], item))
      == Run(done + item(pos + |done|, records[i]).events, Err(item(pos + |done|, records[i]).value.error))
  {
  }

  /** Nothing is left once every record was processed. */
  lemma CollectDone<T>(pos: nat, records: seq<Notification>, done: seq<Event>, results: seq<T>,
                       item: (nat, Notification) -> Run<T>)
    ensures Prepend(done, results, CollectRun(pos, records[|records|..], item)) == Run(done, Ok(results))
  {
    assert records[|records|..] == [];
    assert done + [] == done && results + [] == results;
  }

  /** A loop that returns has one result per record. */
  lemma {:induction false} CollectLength<T>(pos: nat, records: seq<Notification>, item: (nat, Notification) -> Run<T>)
    ensures CollectRun(pos, records, item).value.Ok? ==> |CollectRun(pos, records, item).value.value| == |records|
    decreases |records|
  {
    if records != [] {
      var r := item(pos, records[0]);
      if r.value.Ok? {
        CollectLength(pos + |r.events|, records[1..], item);
      }
    }
  }

  /** The loop raises only what the run of some record raises. */
  lemma {:induction false} CollectRaises<T>(pos: nat, records: seq<Notification>, item: (nat, Notification) -> Run<T>, allowed: Error -> bool)
    requires forall p: nat, n: Notification :: item(p, n).value.Err? ==> allowed(item(p, n).value.error)
    ensures CollectRun(pos, records, item).value.Err? ==> allowed(CollectRun(pos, records, item).value.error)
    decreases |records|
  {
    if records != [] {
      var r := item(pos, records[0]);
      if r.value.Ok? {
        CollectRaises(pos + |r.events|, records[1..], item, allowed);
      }
    }
  }

  /** When no record's run can raise, the loop returns one result per
      record, the first being the first record's. */
  lemma {:induction false} CollectTotal<T>(pos: nat, records: seq<Notification>, item: (nat, Notification) -> Run<T>)
    requires forall p: nat, n: Notification :: item(p, n).value.Ok?
    ensures CollectRun(pos, records, item).value.Ok?
    ensures |CollectRun(pos, records, item).value.value| == |records|
    ensures records != [] ==> CollectRun(pos, records, item).value.value[0] == item(pos, records[0]).value.value
    decreases |records|
  {
    if records != [] {
      var r := item(pos, records[0]);
      CollectTotal(pos + |r.events|, records[1..], item);
    }
  }
}
