/** MoreLinq's `Batch(size)`: consecutive buckets of `size` elements, the last one possibly
    shorter, and no bucket at all for an empty source. */
module Batching {

  /** The API's bulk-add limit, the batch size of both the cleanup and the duplicate handler. */
  const BatchSize: nat := 99

  function Batch<T>(s: seq<T>, size: nat): (bs: seq<seq<T>>)
    requires size > 0
    decreases |s|
  {
    if |s| == 0 then []
    else if |s| <= size then [s]
    else [s[..size]] + Batch(s[size..], size)
  }

  /** The concatenation of a sequence of buckets. */
  function Concat<T>(bs: seq<seq<T>>): seq<T>
  {
    if bs == [] then [] else bs[0] + Concat(bs[1..])
  }

  lemma {:induction false} ConcatAppend<T>(a: seq<seq<T>>, b: seq<seq<T>>)
    ensures Concat(a + b) == Concat(a) + Concat(b)
  {
    if a != [] {
      assert (a + b)[1..] == a[1..] + b;
      ConcatAppend(a[1..], b);
    } else {
      assert a + b == b;
    }
  }

  /** Concatenating a prefix of the buckets one bucket longer adds that bucket at the end. */
  lemma ConcatPrefixStep<T>(bs: seq<seq<T>>, i: nat)
    requires i < |bs|
    ensures Concat(bs[..i + 1]) == Concat(bs[..i]) + bs[i]
  {
    assert bs[..i + 1] == bs[..i] + [bs[i]];
    ConcatAppend(bs[..i], [bs[i]]);
    assert Concat([bs[i]]) == bs[i] + Concat<T>([]);
  }

  /** The buckets, put back together, are the source in its order. */
  lemma {:induction false} BatchConcat<T>(s: seq<T>, size: nat)
    requires size > 0
    ensures Concat(Batch(s, size)) == s
    decreases |s|
  {
    if |s| == 0 {
    } else if |s| <= size {
      assert Concat([s]) == s + Concat<T>([]);
    } else {
      var bs := Batch(s, size);
      assert bs[1..] == Batch(s[size..], size);
      BatchConcat(s[size..], size);
    }
  }

  /** Every bucket is non-empty and holds at most `size` elements; all but the last hold exactly `size`. */
  lemma {:induction false} BatchSizes<T>(s: seq<T>, size: nat)
    requires size > 0
    ensures forall i :: 0 <= i < |Batch(s, size)| ==> 0 < |Batch(s, size)[i]| <= size
    ensures forall i :: 0 <= i < |Batch(s, size)| - 1 ==> |Batch(s, size)[i]| == size
    decreases |s|
  {
    if |s| > size {
      BatchSizes(s[size..], size);
      var bs := Batch(s, size);
      assert bs[1..] == Batch(s[size..], size);
      forall i | 0 < i < |bs| ensures bs[i] == Batch(s[size..], size)[i - 1] { }
    }
  }

  /** There are ceil(|s| / size) buckets. */
  lemma {:induction false} BatchCount<T>(s: seq<T>, size: nat)
    requires size > 0
    ensures |Batch(s, size)| == (|s| + size - 1) / size
    decreases |s|
  {
    if |s| == 0 {
    } else if |s| <= size {
      assert (|s| + size - 1) / size == 1;
    } else {
      BatchCount(s[size..], size);
      DivShift(|s| - size + size - 1, size);
    }
  }

  lemma DivShift(x: nat, d: nat)
    requires d > 0
    ensures (x + d) / d == x / d + 1
  {
    var q, p := (x + d) / d, x / d;
    var r1, r0 := (x + d) % d, x % d;
    assert x + d == q * d + r1;
    assert x == p * d + r0;
    assert (q - p - 1) * d == q * d - p * d - d;
    if q > p + 1 {
      MulAtLeast(q - p - 1, d);
    } else if q < p + 1 {
      MulAtLeast(p + 1 - q, d);
    }
  }

  lemma MulAtLeast(a: int, d: int)
    requires a >= 1 && d > 0
    ensures a * d >= d
  {
  }
}
