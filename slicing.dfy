/** Cutting a list into the consecutive slices `data[i:i+n]` for `i` in
    `range(0, len(data), n)`. */
module Slicing {
  import opened Values

  /** The slices of `data` of (at most) `n` elements, left to right. */
  function Slices<T>(data: seq<T>, n: nat): seq<seq<T>>
    requires n > 0
    decreases |data|
  {
    if |data| == 0 then []
    else if |data| <= n then [data]
    else [data[..n]] + Slices(data[n..], n)
  }

  /** Concatenating a list of lists. */
  function Flatten<T>(parts: seq<seq<T>>): seq<T>
    decreases |parts|
  {
    if parts == [] then [] else parts[0] + Flatten(parts[1..])
  }

  /** The slices `range(0, len(data), n)` visits for a step that is not
      zero: a negative step visits none. */
  function SlicesOf<T>(data: seq<T>, n: int): seq<seq<T>> {
    if n > 0 then Slices(data, n) else []
  }

  /** `range(0, len(data), n)` followed by the slicing: a step of 0 raises
      ValueError, and a negative step yields no slice at all. */
  function Batches<T>(data: seq<T>, n: int): Result<seq<seq<T>>> {
    if n == 0 then Err(ValueError("range() arg 3 must not be zero"))
    else Ok(SlicesOf(data, n))
  }

  /** The slices cover the data exactly, in order. */
  lemma {:induction false} SlicesCover<T>(data: seq<T>, n: nat)
    requires n > 0
    ensures Flatten(Slices(data, n)) == data
    decreases |data|
  {
    if |data| > n {
      SlicesCover(data[n..], n);
      assert ([data[..n]] + Slices(data[n..], n))[1..] == Slices(data[n..], n);
      assert data[..n] + data[n..] == data;
    } else if |data| > 0 {
      assert [data][1..] == [];
    }
  }

  /** Every slice holds between 1 and `n` elements, and every slice but the
      last holds exactly `n`. */
  lemma {:induction false} SlicesSizes<T>(data: seq<T>, n: nat)
    requires n > 0
    ensures forall k :: 0 <= k < |Slices(data, n)| ==> 1 <= |Slices(data, n)[k]| <= n
    ensures forall k :: 0 <= k < |Slices(data, n)| - 1 ==> |Slices(data, n)[k]| == n
    decreases |data|
  {
    if |data| > n {
      SlicesSizes(data[n..], n);
      var rest := Slices(data[n..], n);
      assert Slices(data, n) == [data[..n]] + rest;
      assert forall k :: 1 <= k < |rest| + 1 ==> Slices(data, n)[k] == rest[k - 1];
    }
  }

  lemma DivStep(a: int, n: int)
    requires n > 0
    ensures (a + n) / n == a / n + 1
  {
    var q, r := a / n, a % n;
    assert a == q * n + r && 0 <= r < n;
    assert a + n == (q + 1) * n + r;
    DivUnique(a + n, n, q + 1, r);
  }

  lemma DivUnique(a: int, n: int, q: int, r: int)
    requires n > 0 && 0 <= r < n && a == q * n + r
    ensures a / n == q
  {
    var q', r' := a / n, a % n;
    assert q * n + r == q' * n + r';
    if q > q' {
      MulAtLeast(q - q', n);
    } else if q < q' {
      MulAtLeast(q' - q, n);
    }
  }

  lemma {:induction false} MulAtLeast(d: int, n: int)
    requires d >= 1 && n > 0
    ensures d * n >= n
    decreases d
  {
    if d > 1 {
      MulAtLeast(d - 1, n);
      assert d * n == (d - 1) * n + n;
    }
  }

  lemma DivOne(a: int, n: int)
    requires n > 0 && n <= a < 2 * n
    ensures a / n == 1
  {
  }

  /** There are `ceil(len(data) / n)` slices. */
  lemma {:induction false} SlicesCount<T>(data: seq<T>, n: nat)
    requires n > 0
    ensures |Slices(data, n)| == (|data| + n - 1) / n
    decreases |data|
  {
    if |data| > n {
      SlicesCount(data[n..], n);
      DivStep(|data[n..]| + n - 1, n);
    } else if |data| > 0 {
      DivOne(|data| + n - 1, n);
    }
  }

  /** The `k`-th slice is `data[k*n : k*n+n]` (clipped at the end). */
  lemma {:induction false} SliceAt<T>(data: seq<T>, n: nat, k: nat)
    requires n > 0 && k < |Slices(data, n)|
    ensures k * n < |data|
    ensures Slices(data, n)[k] == data[k * n .. if k * n + n <= |data| then k * n + n else |data|]
    decreases |data|
  {
    if k > 0 {
      var rest := data[n..];
      assert |data| > n;
      assert Slices(data, n)[k] == Slices(rest, n)[k - 1];
      SliceAt(rest, n, k - 1);
      var a := (k - 1) * n;
      MulSucc(k, n);
      var b := if a + n <= |rest| then a + n else |rest|;
      assert Slices(rest, n)[k - 1] == rest[a..b];
      SliceOfDrop(data, n, a, b);
    }
  }

  lemma MulSucc(k: int, n: int)
    requires k > 0
    ensures (k - 1) * n + n == k * n
  {
  }

  lemma SliceOfDrop<T>(data: seq<T>, n: nat, a: nat, b: nat)
    requires n <= |data| && a <= b <= |data| - n
    ensures data[n..][a..b] == data[n + a .. n + b]
  {
  }
}
