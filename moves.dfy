/** Moving an object between prefixes of the bucket: S3 has no rename, so
    every pipeline copies the object to its new key and then deletes the
    original.  The property that matters is that an object is never deleted
    unless a copy of it was just made. */
module Moves {
  import opened Values
  import opened Effects

  /** `copy_object(CopySource=src, Key=dst)` then `delete_object(Key=src)`. */
  function Move(src: string, dst: string): seq<Event> {
    [Copy(src, dst), Delete(src)]
  }

  /** The call at `i` is a delete only right after a copy of the same key
      that went through. */
  predicate SafeAt(w: World, pos: nat, events: seq<Event>, i: nat)
    requires 0 < i < |events|
  {
    events[i].Delete? ==>
      events[i - 1].Copy? && events[i - 1].src == events[i].key && !Fails(w, pos + i - 1, events[i - 1])
  }

  /** Every delete among `events` directly follows a copy of the same key
      that went through (so none comes first). */
  predicate SafeDeletes(w: World, pos: nat, events: seq<Event>) {
    (|events| > 0 ==> !events[0].Delete?)
    && forall i :: 0 < i < |events| ==> SafeAt(w, pos, events, i)
  }

  predicate NoDeletes(events: seq<Event>) {
    forall i :: 0 <= i < |events| ==> !events[i].Delete?
  }

  /** A move deletes only after its copy went through: a failed copy leaves
      the original in place. */
  lemma MoveAttempt(w: World, pos: nat, src: string, dst: string)
    ensures Attempt(w, pos, Move(src, dst))
      == if pos in w.fail then [Copy(src, dst)] else Move(src, dst)
    ensures Completes(w, pos, Move(src, dst)) <==> pos !in w.fail && pos + 1 !in w.fail
    ensures SafeDeletes(w, pos, Attempt(w, pos, Move(src, dst)))
  {
    AttemptCons(w, pos, Copy(src, dst), [Delete(src)]);
    AttemptCons(w, pos + 1, Delete(src), []);
    assert Move(src, dst) == [Copy(src, dst)] + [Delete(src)];
    assert [Delete(src)] + [] == [Delete(src)];
  }

  /** An `except` branch that moves the object to `dst`, catches and
      ignores any failure of that move, and then returns `answer`. */
  function Recovery<T>(w: World, pos: nat, src: string, dst: string, answer: T): Run<T> {
    Run(Attempt(w, pos, Move(src, dst)), Ok(answer))
  }

  /** The recovery always answers, starts with the copy, and deletes the
      object only after that copy went through. */
  lemma RecoverySafe<T>(w: World, pos: nat, src: string, dst: string, answer: T)
    ensures var r := Recovery(w, pos, src, dst, answer);
      r.value == Ok(answer) && |r.events| > 0 && r.events[0] == Copy(src, dst)
      && SafeDeletes(w, pos, r.events)
  {
    MoveAttempt(w, pos, src, dst);
  }

  /** Reading the object first keeps calls that delete safely safe. */
  lemma ReadThenSafe(w: World, pos: nat, key: string, rest: seq<Event>)
    requires SafeDeletes(w, pos + 1, rest)
    ensures SafeDeletes(w, pos, [Get(key)] + rest)
  {
    NoDeletesSafe(w, pos, [Get(key)]);
    SafeDeletesConcat(w, pos, [Get(key)], rest);
  }

  lemma NoDeletesSafe(w: World, pos: nat, events: seq<Event>)
    requires NoDeletes(events)
    ensures SafeDeletes(w, pos, events)
  {
  }

  /** Safe pieces stay safe when put together. */
  lemma SafeDeletesConcat(w: World, pos: nat, a: seq<Event>, b: seq<Event>)
    requires SafeDeletes(w, pos, a) && SafeDeletes(w, pos + |a|, b)
    ensures SafeDeletes(w, pos, a + b)
  {
    var ab := a + b;
    forall i | 0 < i < |ab|
      ensures SafeAt(w, pos, ab, i)
    {
      if i < |a| {
        assert SafeAt(w, pos, a, i);
        assert ab[i] == a[i] && ab[i - 1] == a[i - 1];
      } else if i == |a| {
        assert ab[i] == b[0];
      } else {
        assert SafeAt(w, pos + |a|, b, i - |a|);
        assert ab[i] == b[i - |a|] && ab[i - 1] == b[i - 1 - |a|];
      }
    }
  }

  /** The move that ends a run. */
  method MoveObject(env: Env, src: string, dst: string) returns (ok: bool)
    modifies env
    ensures env.trace == old(env.trace) + Attempt(env.world, |old(env.trace)|, Move(src, dst))
    ensures ok == Completes(env.world, |old(env.trace)|, Move(src, dst))
  {
    MoveAttempt(env.world, |env.trace|, src, dst);
    ok := env.Call(Copy(src, dst));
    if ok {
      ok := env.Call(Delete(src));
    }
  }
}
