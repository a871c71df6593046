/** The in-memory store: `index_gpu` appends one embedding per page, batch by
    batch and in page order, and `search` returns the top `min(k, |ds|)`
    pages by score. The embedding model and the scorer are abstract
    functions; a failing model call is a parameter naming the batch that
    raises. */
module MemoryStore {
  import opened Wrappers
  import opened Strings
  import opened Imaging
  import opened Batching

  /** A page embedding; its contents matter only to the scorer. */
  type Embedding = seq<real>

  /** One embedding per page, in page order. */
  function EmbedAll(images: seq<Image>, embed: Image -> Embedding): (es: seq<Embedding>)
    ensures |es| == |images|
  {
    seq(|images|, i requires 0 <= i < |images| => embed(images[i]))
  }

  lemma EmbedAllConcat(a: seq<Image>, b: seq<Image>, embed: Image -> Embedding)
    ensures EmbedAll(a, embed) + EmbedAll(b, embed) == EmbedAll(a + b, embed)
  {
  }

  /** PyTorch's `DataLoader` rejects a batch size below one. */
  function BadBatchSize(b: int): string {
    "batch_size should be a positive integer value, but got batch_size=" + IntToString(b)
  }

  /** The batch at which the run stops: the failing batch if it is reached
      from batch `k` on, otherwise the batch count. */
  function StopBatch(n: nat, b: nat, k: nat, fault: Option<(nat, string)>): nat
    requires b >= 1
  {
    if fault.Some? && k <= fault.value.0 < BatchCount(n, b) then fault.value.0 else BatchCount(n, b)
  }

  /** The `for batch_doc in dataloader` loop from batch `k` on: each batch's
      embeddings are appended to `ds` until a batch raises. */
  function RunBatches(images: seq<Image>, b: nat, k: nat, ds: seq<Embedding>,
                      embed: Image -> Embedding, fault: Option<(nat, string)>)
    : (r: (seq<Embedding>, Option<string>))
    requires b >= 1 && k <= BatchCount(|images|, b)
    ensures var stop := StopBatch(|images|, b, k, fault);
      && Min(k * b, |images|) <= Min(stop * b, |images|)
      && r.0 == ds + EmbedAll(images[Min(k * b, |images|)..Min(stop * b, |images|)], embed)
      && (r.1.Some? <==> stop < BatchCount(|images|, b))
      && (r.1.Some? ==> r.1.value == fault.value.1)
    decreases BatchCount(|images|, b) - k
  {
    var t := BatchCount(|images|, b);
    if k == t then
      assert Min(k * b, |images|) == |images|;
      (ds, None)
    else if fault.Some? && fault.value.0 == k then (ds, Some(fault.value.1))
    else
      var next := ds + EmbedAll(Batch(images, b, k), embed);
      RunBatchesStep(images, b, k, ds, embed, fault);
      RunBatches(images, b, k + 1, next, embed, fault)
  }

  lemma RunBatchesStep(images: seq<Image>, b: nat, k: nat, ds: seq<Embedding>,
                       embed: Image -> Embedding, fault: Option<(nat, string)>)
    requires b >= 1 && k < BatchCount(|images|, b)
    requires !(fault.Some? && fault.value.0 == k)
    ensures var n := |images|;
      var stop := StopBatch(n, b, k, fault);
      && stop == StopBatch(n, b, k + 1, fault)
      && Min(k * b, n) <= Min((k + 1) * b, n) <= Min(stop * b, n)
      && ds + EmbedAll(Batch(images, b, k), embed)
           + EmbedAll(images[Min((k + 1) * b, n)..Min(stop * b, n)], embed)
         == ds + EmbedAll(images[Min(k * b, n)..Min(stop * b, n)], embed)
  {
    var n := |images|;
    var stop := StopBatch(n, b, k, fault);
    LaterBatchesStartLater(n, b, k);
    MulSucc(k, b);
    MulLe(k + 1, stop, b);
    var lo := k * b;
    var mid := Min(lo + b, n);
    var hi := Min(stop * b, n);
    assert Batch(images, b, k) == images[lo..mid];
    EmbedSlices(images, lo, mid, hi, embed);
  }

  /** Embedding two adjacent slices is embedding their union. */
  lemma EmbedSlices(images: seq<Image>, lo: nat, mid: nat, hi: nat, embed: Image -> Embedding)
    requires lo <= mid <= hi <= |images|
    ensures EmbedAll(images[lo..mid], embed) + EmbedAll(images[mid..hi], embed) == EmbedAll(images[lo..hi], embed)
  {
    EmbedAllConcat(images[lo..mid], images[mid..hi], embed);
    assert images[lo..mid] + images[mid..hi] == images[lo..hi];
  }

  /** `index_gpu`: without a failing batch every page's embedding is
      appended to `ds` in page order and the page count is reported; a
      failing batch raises after the earlier batches were appended. */
  function IndexGpu(images: seq<Image>, ds: seq<Embedding>, batchSize: int,
                    embed: Image -> Embedding, fault: Option<(nat, string)>)
    : (r: (seq<Embedding>, Result<string, string>))
    ensures batchSize < 1 ==> r == (ds, Failure(BadBatchSize(batchSize)))
    ensures batchSize >= 1 && (fault.None? || fault.value.0 >= BatchCount(|images|, batchSize)) ==>
      r == (ds + EmbedAll(images, embed), Success(IndexedMessage(|images|)))
    ensures batchSize >= 1 && fault.Some? && fault.value.0 < BatchCount(|images|, batchSize) ==>
      var f := fault.value.0;
      && f * batchSize < |images|
      && r == (ds + EmbedAll(images[..f * batchSize], embed), Failure(fault.value.1))
    ensures |ds| <= |r.0| <= |ds| + |images|
  {
    if batchSize < 1 then (ds, Failure(BadBatchSize(batchSize)))
    else
      var run := RunBatches(images, batchSize, 0, ds, embed, fault);
      var stop := StopBatch(|images|, batchSize, 0, fault);
      StopStartsInside(|images|, batchSize, stop);
      assert images[0..|images|] == images;
      (run.0, if run.1.Some? then Failure(run.1.value) else Success(IndexedMessage(|images|)))
  }

  lemma StopStartsInside(n: nat, b: nat, stop: nat)
    requires b >= 1
    ensures stop < BatchCount(n, b) ==> stop * b < n
  {
    if stop < BatchCount(n, b) {
      LaterBatchesStartLater(n, b, stop);
    }
  }

  // -----------------------------------------------------------------------
  // Top-k selection
  // -----------------------------------------------------------------------

  predicate Distinct(idx: seq<nat>) {
    forall i, j :: 0 <= i < j < |idx| ==> idx[i] != idx[j]
  }

  /** `idx` is a top-k selection over `scores`: valid distinct positions,
      in non-increasing score order, none of them beaten by a position left
      out. */
  predicate IsTopK(scores: seq<real>, idx: seq<nat>) {
    && (forall i :: 0 <= i < |idx| ==> idx[i] < |scores|)
    && Distinct(idx)
    && (forall i, j :: 0 <= i < j < |idx| ==> scores[idx[i]] >= scores[idx[j]])
    && (forall i, m :: 0 <= i < |idx| && 0 <= m < |scores| && m !in idx ==> scores[m] <= scores[idx[i]])
  }

  /** Fewer distinct positions than slots leave a position free. */
  lemma {:induction false} UnchosenExists(idx: seq<nat>, n: nat)
    requires forall i :: 0 <= i < |idx| ==> idx[i] < n
    requires Distinct(idx) && |idx| < n
    ensures exists m: nat :: m < n && m !in idx
    decreases n
  {
    if n - 1 !in idx {
      assert n - 1 < n;
    } else {
      var p :| 0 <= p < |idx| && idx[p] == n - 1;
      var rest := idx[..p] + idx[p + 1..];
      assert forall i :: 0 <= i < |rest| ==> rest[i] == (if i < p then idx[i] else idx[i + 1]);
      forall i | 0 <= i < |rest|
        ensures rest[i] < n - 1
      {
        if i < p { assert idx[i] != idx[p]; } else { assert idx[i + 1] != idx[p]; }
      }
      UnchosenExists(rest, n - 1);
      var m: nat :| m < n - 1 && m !in rest;
      assert m !in idx by {
        forall i | 0 <= i < |idx|
          ensures idx[i] != m
        {
          if i < p { assert idx[i] == rest[i]; }
          else if i > p { assert idx[i] == rest[i - 1]; }
        }
      }
    }
  }

  /** `scores.topk(k)` by repeated selection of the best remaining position
      (the lowest position among equal scores). */
  method TopK(scores: seq<real>, k: nat) returns (idx: seq<nat>)
    requires k <= |scores|
    ensures |idx| == k && IsTopK(scores, idx)
  {
    var n := |scores|;
    idx := [];
    while |idx| < k
      invariant |idx| <= k
      invariant IsTopK(scores, idx)
    {
      UnchosenExists(idx, n);
      var best: int := -1;
      var m: nat := 0;
      while m < n
        invariant m <= n
        invariant best == -1 ==> forall x: nat :: x < m ==> x in idx
        invariant best != -1 ==> 0 <= best < m && best as nat !in idx
        invariant best != -1 ==> forall x: nat :: x < m && x !in idx ==> scores[x] <= scores[best]
      {
        if m !in idx && (best == -1 || scores[m] > scores[best]) {
          best := m;
        }
        m := m + 1;
      }
      assert best != -1;
      idx := idx + [best as nat];
    }
  }

  // -----------------------------------------------------------------------
  // search
  // -----------------------------------------------------------------------

  datatype MemoryHit = MemoryHit(image: Image, pageInfo: string)

  const TopKRangeError: string := "selected index k out of range"
  const IndexOutOfRange: string := "list index out of range"

  /** `search`: `k` is clamped to the number of stored embeddings, the top
      `k` positions by score are chosen, and each is paired with the image
      at that position and the label "Page {idx}"; a negative `k` makes the
      selection fail, and a position with no image raises. */
  method Search(ds: seq<Embedding>, images: seq<Image>, k: int, score: Embedding -> real)
    returns (indices: seq<nat>, outcome: Result<seq<MemoryHit>, string>)
    ensures Min(k, |ds|) < 0 ==> indices == [] && outcome == Failure(TopKRangeError)
    ensures Min(k, |ds|) >= 0 ==>
      && |indices| == Min(k, |ds|)
      && IsTopK(seq(|ds|, i requires 0 <= i < |ds| => score(ds[i])), indices)
      && (outcome.Success? <==> forall i :: 0 <= i < |indices| ==> indices[i] < |images|)
    ensures outcome.Failure? && Min(k, |ds|) >= 0 ==> outcome.error == IndexOutOfRange
    ensures outcome.Success? ==>
      && |outcome.value| == |indices|
      && forall i :: 0 <= i < |indices| ==>
           indices[i] < |images|
           && outcome.value[i] == MemoryHit(images[indices[i]], "Page " + NatToString(indices[i]))
  {
    var kk := Min(k, |ds|);
    if kk < 0 {
      indices := [];
      outcome := Failure(TopKRangeError);
      return;
    }
    var row := seq(|ds|, i requires 0 <= i < |ds| => score(ds[i]));
    indices := TopK(row, kk);
    var hits: seq<MemoryHit> := [];
    var i := 0;
    while i < |indices|
      invariant 0 <= i <= |indices| && |hits| == i
      invariant forall j :: 0 <= j < i ==> indices[j] < |images|
      invariant forall j :: 0 <= j < i ==>
        hits[j] == MemoryHit(images[indices[j]], "Page " + NatToString(indices[j]))
    {
      if indices[i] >= |images| {
        outcome := Failure(IndexOutOfRange);
        return;
      }
      hits := hits + [MemoryHit(images[indices[i]], "Page " + NatToString(indices[i]))];
      i := i + 1;
    }
    outcome := Success(hits);
  }

  /** When the store holds an image for every embedding the search cannot
      fail for a non-negative `k`, and it returns exactly `min(k, |ds|)`
      hits. */
  method SearchAlignedStore(ds: seq<Embedding>, images: seq<Image>, k: nat, score: Embedding -> real)
    returns (hits: seq<MemoryHit>)
    requires |ds| <= |images|
    ensures |hits| == Min(k, |ds|)
  {
    var indices, outcome := Search(ds, images, k, score);
    hits := outcome.value;
  }
}
