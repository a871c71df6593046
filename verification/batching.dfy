/** Fixed-size batching of a page list, shared by the Qdrant indexer's
    `range(0, n, b)` loop and the in-memory indexer's unshuffled
    `DataLoader`: the batch count is the ceiling of `n / b` and the batches
    are consecutive slices that clamp at the end. */
module Batching {
  import Strings

  function Min(a: int, b: int): int {
    if a <= b then a else b
  }

  /** `(n + b - 1) // b`: the number of batches of at most `b` pages that
      cover `n` pages. */
  function BatchCount(n: nat, b: nat): (t: nat)
    requires b >= 1
    ensures n <= t * b
    ensures t > 0 ==> (t - 1) * b < n
    ensures t == 0 <==> n == 0
  {
    var t := (n + b - 1) / b;
    DivBounds(n + b - 1, b, t);
    t
  }

  lemma DivBounds(a: nat, b: nat, q: nat)
    requires b >= 1 && q == a / b
    ensures q * b <= a < q * b + b
  {
  }

  lemma MulSucc(m: nat, b: nat)
    ensures (m + 1) * b == m * b + b
  {
  }

  lemma {:induction false} MulLe(a: nat, c: nat, b: nat)
    requires a <= c
    ensures a * b <= c * b
    decreases c - a
  {
    if a < c {
      MulLe(a, c - 1, b);
      MulSucc(c - 1, b);
    }
  }

  /** The `k`-th batch `images[k*b : k*b + b]` (Python slices clamp). */
  function Batch<T>(items: seq<T>, b: nat, k: nat): (batch: seq<T>)
    requires b >= 1 && k < BatchCount(|items|, b)
    ensures |batch| == Min(b, |items| - k * b) && |batch| >= 1
    ensures forall j :: 0 <= j < |batch| ==> batch[j] == items[k * b + j]
  {
    LaterBatchesStartLater(|items|, b, k);
    items[k * b .. Min(k * b + b, |items|)]
  }

  lemma LaterBatchesStartLater(n: nat, b: nat, k: nat)
    requires b >= 1 && k < BatchCount(n, b)
    ensures k * b < n
  {
    var t := BatchCount(n, b);
    MulLe(k, t - 1, b);
  }

  function Concat<T>(parts: seq<seq<T>>): seq<T> {
    if |parts| == 0 then [] else Concat(parts[..|parts| - 1]) + parts[|parts| - 1]
  }

  /** All batches, in the order the loop visits them. */
  function Batches<T>(items: seq<T>, b: nat): (bs: seq<seq<T>>)
    requires b >= 1
    ensures |bs| == BatchCount(|items|, b)
  {
    seq(BatchCount(|items|, b), k requires 0 <= k < BatchCount(|items|, b) => Batch(items, b, k))
  }

  /** The batches partition the pages in order: concatenated they give back
      the whole list, every batch but the last is full, and none is empty. */
  lemma BatchesPartition<T>(items: seq<T>, b: nat)
    requires b >= 1
    ensures Concat(Batches(items, b)) == items
    ensures forall k :: 0 <= k < |Batches(items, b)| ==> 1 <= |Batches(items, b)[k]| <= b
    ensures forall k :: 0 <= k < |Batches(items, b)| - 1 ==> |Batches(items, b)[k]| == b
  {
    var bs := Batches(items, b);
    var t := |bs|;
    forall k | 0 <= k < t - 1
      ensures |bs[k]| == b
    {
      MulSucc(k, b);
      LaterBatchesStartLater(|items|, b, k + 1);
    }
    ConcatPrefix(items, b, t);
    assert bs[..t] == bs;
    assert Min(t * b, |items|) == |items|;
  }

  lemma {:induction false} ConcatPrefix<T>(items: seq<T>, b: nat, m: nat)
    requires b >= 1 && m <= BatchCount(|items|, b)
    ensures Concat(Batches(items, b)[..m]) == items[..Min(m * b, |items|)]
    decreases m
  {
    if m > 0 {
      var bs := Batches(items, b);
      ConcatPrefix(items, b, m - 1);
      var lo := (m - 1) * b;
      var hi := Min(m * b, |items|);
      BatchSlice(items, b, m - 1);
      assert bs[..m][..m - 1] == bs[..m - 1];
      assert Concat(bs[..m]) == Concat(bs[..m - 1]) + bs[m - 1];
      assert items[..lo] + items[lo..hi] == items[..hi];
    }
  }

  /** Batch `k` is the slice from `k * b` to the next multiple, clamped. */
  lemma BatchSlice<T>(items: seq<T>, b: nat, k: nat)
    requires b >= 1 && k < BatchCount(|items|, b)
    ensures k * b < |items| && (k + 1) * b == k * b + b
    ensures Batches(items, b)[k] == items[k * b .. Min((k + 1) * b, |items|)]
  {
    LaterBatchesStartLater(|items|, b, k);
    MulSucc(k, b);
  }

  /** The message both indexers return once every page is processed. */
  function IndexedMessage(n: nat): string {
    "Uploaded and converted " + Strings.NatToString(n) + " pages"
  }
}
